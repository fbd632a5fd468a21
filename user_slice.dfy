/**
 * The Redux `user` slice shared by the applications: the signed-in user's
 * name, e-mail and account id, three reducers and the `selectIsLoggedIn`
 * selector.  The store's draft is a class whose fields the reducers
 * assign; `Reduce` is the same step as a function on values.
 */
module UserSlice {

  datatype UserState = UserState(name: string, email: string, accountId: string)

  /**
   * The slice's actions.  A `setUser` payload sent without an `accountId`
   * (as the home header does) carries `""` for it.
   */
  datatype Action =
    | SetUser(payload: UserState)
    | ClearUser
    | SetUserName(name: string)

  const InitialState := UserState("", "", "")

  /** `selectIsLoggedIn`: `Boolean(name && email && accountId)`. */
  predicate IsLoggedIn(s: UserState) {
    s.name != "" && s.email != "" && s.accountId != ""
  }

  /** The reducer: the state after one action. */
  function Reduce(s: UserState, a: Action): (r: UserState)
    ensures a.SetUser? ==> r == a.payload
    ensures a.ClearUser? ==> r == InitialState
    ensures a.SetUserName? ==> r.name == a.name && r.email == s.email && r.accountId == s.accountId
  {
    match a
    case SetUser(p) => UserState(p.name, p.email, p.accountId)
    case ClearUser => UserState("", "", "")
    case SetUserName(n) => s.(name := n)
  }

  /** The store's current `user` state, updated in place by the reducers. */
  class UserStore {
    var name: string
    var email: string
    var accountId: string

    constructor()
      ensures State() == InitialState
    {
      name, email, accountId := "", "", "";
    }

    function State(): UserState
      reads this
    {
      UserState(name, email, accountId)
    }

    /** `selectIsLoggedIn` on the store. */
    predicate SelectIsLoggedIn()
      reads this
    {
      IsLoggedIn(State())
    }

    /** `setUser`: the three fields are copied from the payload. */
    method SetUser(payload: UserState)
      modifies this
      ensures State() == Reduce(old(State()), Action.SetUser(payload))
    {
      name := payload.name;
      email := payload.email;
      accountId := payload.accountId;
    }

    /** `clearUser`: the three fields become `""`. */
    method ClearUser()
      modifies this
      ensures State() == Reduce(old(State()), Action.ClearUser)
      ensures !SelectIsLoggedIn()
    {
      name := "";
      email := "";
      accountId := "";
    }

    /** `setUserName`: only the name changes. */
    method SetUserName(newName: string)
      modifies this
      ensures State() == Reduce(old(State()), Action.SetUserName(newName))
    {
      name := newName;
    }

    /** Dispatching an action runs its reducer. */
    method Dispatch(a: Action)
      modifies this
      ensures State() == Reduce(old(State()), a)
    {
      match a
      case SetUser(p) => SetUser(p);
      case ClearUser => ClearUser();
      case SetUserName(n) => SetUserName(n);
    }
  }

  /* ----------------------------------- properties ----------------------------------- */

  /** Nobody is logged in at start. */
  lemma InitialNotLoggedIn()
    ensures !IsLoggedIn(InitialState)
  {
  }

  /** `setUser` and `clearUser` are idempotent. */
  lemma ReduceIdempotent(s: UserState, a: Action)
    requires a.SetUser? || a.ClearUser?
    ensures Reduce(Reduce(s, a), a) == Reduce(s, a)
  {
  }

  /** After `clearUser` nobody is logged in. */
  lemma ClearedIsLoggedOut(s: UserState)
    ensures !IsLoggedIn(Reduce(s, ClearUser))
  {
  }

  /** `setUser` logs in exactly when every field of the payload is non-empty. */
  lemma SetUserLoggedIn(s: UserState, p: UserState)
    ensures IsLoggedIn(Reduce(s, SetUser(p))) <==> p.name != "" && p.email != "" && p.accountId != ""
  {
  }

  /** After `setUserName` the login status depends on the new name and the untouched fields. */
  lemma SetUserNameLogin(s: UserState, n: string)
    ensures IsLoggedIn(Reduce(s, SetUserName(n))) <==> n != "" && s.email != "" && s.accountId != ""
  {
  }
}
