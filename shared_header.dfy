/**
 * `useSharedHeaderData` of the home application: it reconciles the local
 * login (the auth context) with the Redux `user` slice and with a logout
 * another application left behind, and it chooses the user the header
 * shows.  The context's `logout` and the store's `dispatch` are calls into
 * code outside this hook; they are returned, in order, as commands.
 */
module SharedHeader {
  import opened Wrappers
  import opened Browser
  import opened UserSlice
  import UiStorage

  const LocalLogoutFlagKey := "local-logout-flag"

  /** The auth context's `currentUser`: a name and maybe an e-mail. */
  datatype HeaderUser = HeaderUser(name: string, email: Option<string>)

  /** A call the hook makes into the auth context or the store. */
  datatype Command = Logout | Dispatch(action: Action)

  /** The `setUser` payload built from the context user: no account id, e-mail `|| ""`. */
  function PayloadOf(u: HeaderUser): (p: UserState)
    ensures p.name == u.name && p.accountId == ""
    ensures u.email.Some? ==> p.email == u.email.value
    ensures u.email.None? ==> p.email == ""
  {
    UserState(u.name, u.email.GetOr(""), "")
  }

  /**
   * The effect body.  A pending external logout wins while logged in: the
   * flag is removed and the context logs out, with nothing dispatched.
   */
  method ReconcileEffect(store: LocalStorage, isLoggedIn: bool, currentUser: Option<HeaderUser>, reduxIsLoggedIn: bool)
    returns (commands: seq<Command>)
    modifies store
    ensures old(store.GetItem(UiStorage.ExternalLogoutFlagKey)) == Some("true") && isLoggedIn ==>
      store.items == old(store.items) - {UiStorage.ExternalLogoutFlagKey} && commands == [Logout]
    ensures !(old(store.GetItem(UiStorage.ExternalLogoutFlagKey)) == Some("true") && isLoggedIn) ==>
      store.items == old(store.items)
      && commands == SyncCommands(isLoggedIn, currentUser, reduxIsLoggedIn)
  {
    var externalLogout := store.GetItem(UiStorage.ExternalLogoutFlagKey);
    if externalLogout == Some("true") && isLoggedIn {
      store.RemoveItem(UiStorage.ExternalLogoutFlagKey);
      commands := [Logout];
      return;
    }
    commands := SyncCommands(isLoggedIn, currentUser, reduxIsLoggedIn);
  }

  /** The Redux half of the effect. */
  function SyncCommands(isLoggedIn: bool, currentUser: Option<HeaderUser>, reduxIsLoggedIn: bool): (r: seq<Command>)
    ensures |r| <= 1
    ensures isLoggedIn && currentUser.Some? && !reduxIsLoggedIn ==> r == [Dispatch(SetUser(PayloadOf(currentUser.value)))]
    ensures !isLoggedIn && reduxIsLoggedIn ==> r == [Dispatch(ClearUser)]
    ensures isLoggedIn == reduxIsLoggedIn ==> r == []
  {
    if isLoggedIn && currentUser.Some? && !reduxIsLoggedIn then [Dispatch(SetUser(PayloadOf(currentUser.value)))]
    else if !isLoggedIn && reduxIsLoggedIn then [Dispatch(ClearUser)]
    else []
  }

  /** `finalUser`: the context user, else the Redux name when there is one. */
  function FinalUser(currentUser: Option<HeaderUser>, redux: UserState): (r: Option<HeaderUser>)
    ensures currentUser.Some? ==> r == currentUser
    ensures currentUser.None? && redux.name != "" ==> r == Some(HeaderUser(redux.name, None))
    ensures currentUser.None? && redux.name == "" ==> r == None
  {
    if currentUser.Some? then currentUser
    else if redux.name != "" then Some(HeaderUser(redux.name, None))
    else None
  }

  /** `isLoggedIn` as the header reports it: either view suffices. */
  predicate FinalIsLoggedIn(isLoggedIn: bool, redux: UserState) {
    isLoggedIn || IsLoggedIn(redux)
  }

  /**
   * `onLogout`: the local-logout flag is written first, then the context
   * logs out, then the slice is cleared.
   */
  method OnLogout(store: LocalStorage) returns (commands: seq<Command>)
    modifies store
    ensures store.items == old(store.items)[LocalLogoutFlagKey := "true"]
    ensures commands == [Logout, Dispatch(ClearUser)]
  {
    store.SetItem(LocalLogoutFlagKey, "true");
    commands := [Logout, Dispatch(ClearUser)];
  }

  /* ----------------------------------- properties ----------------------------------- */

  /**
   * The `setUser` the header dispatches never makes the slice report a
   * login, since its payload has no account id: the header keeps
   * re-dispatching it while the context is logged in.
   */
  lemma HeaderSyncNeverLogsIn(s: UserState, u: HeaderUser)
    ensures !IsLoggedIn(Reduce(s, SetUser(PayloadOf(u))))
  {
  }

  /** Applying the commands of the effect to a logged-in slice while logged out clears it. */
  lemma LoggedOutClearsSlice(s: UserState, currentUser: Option<HeaderUser>)
    requires IsLoggedIn(s)
    ensures SyncCommands(false, currentUser, true) == [Dispatch(ClearUser)]
    ensures !IsLoggedIn(Reduce(s, SyncCommands(false, currentUser, true)[0].action))
  {
  }

  /** The header shows someone as logged in whenever it has a user from the context. */
  lemma ReportedUserWhenLoggedIn(currentUser: Option<HeaderUser>, redux: UserState)
    requires IsLoggedIn(redux)
    ensures FinalIsLoggedIn(false, redux) && FinalUser(currentUser, redux).Some?
  {
  }
}
