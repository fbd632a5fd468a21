/**
 * The Redux listener middleware: after `setUser` and `setUserName` the
 * user state is written to `localStorage["redux-user-state"]` and announced
 * with a `redux-user-changed` window event, unless the change itself came
 * from another application (the window's `__isUpdatingFromExternal` hook
 * says so); after `clearUser` the key is removed and `null` announced.
 */
module Middleware {
  import opened Wrappers
  import opened Json
  import opened Browser
  import opened UserSlice

  const ReduxUserKey := "redux-user-state"

  /** The JSON the effects write and announce for a user state: the same object as the session's user data. */
  function StateJson(s: UserState): Json {
    UserJson(UserData(s.name, s.email, s.accountId))
  }

  /**
   * `window.__isUpdatingFromExternal?.()`: `None` when the hook is not
   * installed, which the effects read as a local change.
   */
  predicate FromExternal(hook: Option<bool>) {
    hook == Some(true)
  }

  /** What an effect does to the storage key. */
  datatype Write = NoWrite | Put(value: Json) | Remove

  /** What one effect does: its write and its announced `detail`, if any. */
  datatype EffectResult = EffectResult(write: Write, event: Option<Json>)

  /** The effect run after `action` has produced `stateAfter`. */
  function Effect(hasWindow: bool, action: Action, stateAfter: UserState, hook: Option<bool>): (r: EffectResult)
    ensures !hasWindow ==> r == EffectResult(NoWrite, None)
    ensures r.write.Put? <==> r.event.Some? && r.event.value != JNull
    ensures r.write.Put? ==> r.event == Some(r.write.value)
    ensures r.write.Remove? <==> r.event == Some(JNull)
  {
    if !hasWindow then EffectResult(NoWrite, None)
    else match action
      case SetUser(p) =>
        if FromExternal(hook) then EffectResult(NoWrite, None)
        else EffectResult(Put(StateJson(p)), Some(StateJson(p)))
      case SetUserName(_) =>
        if FromExternal(hook) then EffectResult(NoWrite, None)
        else EffectResult(Put(StateJson(stateAfter)), Some(StateJson(stateAfter)))
      case ClearUser =>
        EffectResult(Remove, Some(JNull))
  }

  /** The window events and the storage the effects write. */
  class Listener {
    /** The origin's storage; `null` when there is no window. */
    const store: LocalStorage?
    const codec: JsonCodec
    /** The `detail` of every `redux-user-changed` event dispatched so far. */
    var events: seq<Json>

    constructor(store: LocalStorage?, codec: JsonCodec)
      ensures this.store == store && this.codec == codec && events == []
    {
      this.store := store;
      this.codec := codec;
      events := [];
    }

    /** Runs the effect registered for `action`, which has produced `stateAfter`. */
    method Run(action: Action, stateAfter: UserState, hook: Option<bool>)
      modifies this, store
      ensures var e := Effect(store != null, action, stateAfter, hook);
        (e.event.Some? ==> events == old(events) + [e.event.value])
        && (e.event.None? ==> events == old(events))
      ensures store != null ==>
        var e := Effect(true, action, stateAfter, hook);
        (e.write.NoWrite? ==> store.items == old(store.items))
        && (e.write.Put? ==> store.items == old(store.items)[ReduxUserKey := codec.stringify(e.write.value)])
        && (e.write.Remove? ==> store.items == old(store.items) - {ReduxUserKey})
    {
      if store == null {
        return;
      }
      match action
      case SetUser(p) =>
        if !FromExternal(hook) {
          store.SetItem(ReduxUserKey, codec.stringify(StateJson(p)));
          events := events + [StateJson(p)];
        }
      case SetUserName(_) =>
        if !FromExternal(hook) {
          store.SetItem(ReduxUserKey, codec.stringify(StateJson(stateAfter)));
          events := events + [StateJson(stateAfter)];
        }
      case ClearUser =>
        store.RemoveItem(ReduxUserKey);
        events := events + [JNull];
    }
  }

  /** `dispatch(action)` on the store with the middleware installed: the reducer, then the effect. */
  method Dispatch(user: UserStore, listener: Listener, action: Action, hook: Option<bool>)
    modifies user, listener, listener.store
    ensures user.State() == Reduce(old(user.State()), action)
    ensures var e := Effect(listener.store != null, action, user.State(), hook);
      (e.event.Some? ==> listener.events == old(listener.events) + [e.event.value])
      && (e.event.None? ==> listener.events == old(listener.events))
    ensures listener.store != null ==>
      var e := Effect(true, action, user.State(), hook);
      (e.write.NoWrite? ==> listener.store.items == old(listener.store.items))
      && (e.write.Put? ==> listener.store.items == old(listener.store.items)[ReduxUserKey := listener.codec.stringify(e.write.value)])
      && (e.write.Remove? ==> listener.store.items == old(listener.store.items) - {ReduxUserKey})
  {
    user.Dispatch(action);
    listener.Run(action, user.State(), hook);
  }

  /* ----------------------------------- properties ----------------------------------- */

  /** A local `setUser` stores the payload and announces it once. */
  lemma LocalSetUserPersists(p: UserState, s: UserState, hook: Option<bool>)
    requires !FromExternal(hook)
    ensures Effect(true, SetUser(p), s, hook) == EffectResult(Put(StateJson(p)), Some(StateJson(p)))
  {
  }

  /** A `setUser` coming from another application is neither stored nor announced. */
  lemma ExternalSetUserSilent(p: UserState, s: UserState)
    ensures Effect(true, SetUser(p), s, Some(true)) == EffectResult(NoWrite, None)
  {
  }

  /** A local `setUserName` stores the whole state after the rename, not only the name. */
  lemma LocalRenamePersistsWholeState(before: UserState, n: string, hook: Option<bool>)
    requires !FromExternal(hook)
    ensures var after := Reduce(before, SetUserName(n));
      Effect(true, SetUserName(n), after, hook).write == Put(StateJson(after))
      && Member(Effect(true, SetUserName(n), after, hook).write.value, "email") == JStr(before.email)
      && Member(Effect(true, SetUserName(n), after, hook).write.value, "accountId") == JStr(before.accountId)
  {
  }

  /** `clearUser` removes the key and announces `null`, external or not. */
  lemma ClearAlwaysAnnounced(s: UserState, hook: Option<bool>)
    ensures Effect(true, ClearUser, s, hook) == EffectResult(Remove, Some(JNull))
  {
  }

  /** A missing hook counts as a local change. */
  lemma MissingHookIsLocal(a: Action, s: UserState)
    ensures Effect(true, a, s, None) == Effect(true, a, s, Some(false))
  {
  }
}
