/**
 * `CrossDomainSyncService`: the home and investments applications tell each
 * other about logins and logouts.  The sender loads the peer's `/sync` page
 * in a hidden iframe and posts the message to it; a static `isSyncing` flag
 * lets only one such exchange start at a time.  The receiver accepts a
 * message only from the two configured origins and only with a known
 * action.
 *
 * The sender is an event-driven state machine: `SendSyncData` starts an
 * exchange, and the iframe's `load`/`error` events and the expiry of the
 * three timers (10 s overall, 1 s after load, 3 s after posting) are the
 * methods the browser calls later, in whatever order it chooses.
 */
module CrossDomainSync {
  import opened Wrappers
  import opened Json
  import opened Urls
  import opened Browser
  import UiStorage

  /** `getAllowedOrigins`: the home URL and the investments URL. */
  function AllowedOrigins(env: Env): (r: seq<string>)
    ensures |r| == 2 && r[0] == HomeUrl(env) && r[1] == InvestmentsUrl(env)
  {
    [HomeUrl(env), InvestmentsUrl(env)]
  }

  /**
   * `getOtherAppUrl`: the peer of the page's origin.  Only the two
   * configured applications have one, and each one's peer is an allowed
   * origin.
   */
  function OtherAppUrl(hasWindow: bool, origin: string, env: Env): (r: Option<string>)
    ensures r.Some? <==> hasWindow && origin in AllowedOrigins(env)
    ensures r.Some? ==> r.value in AllowedOrigins(env)
    ensures r.Some? && origin == HomeUrl(env) ==> r.value == InvestmentsUrl(env)
    ensures r.Some? && origin != HomeUrl(env) ==> r.value == HomeUrl(env)
  {
    if !hasWindow then None
    else if origin == HomeUrl(env) then Some(InvestmentsUrl(env))
    else if origin == InvestmentsUrl(env) then Some(HomeUrl(env))
    else None
  }

  /** The two applications are each other's peer (when they live at different URLs). */
  lemma PeerOfPeer(origin: string, env: Env)
    requires HomeUrl(env) != InvestmentsUrl(env)
    requires OtherAppUrl(true, origin, env).Some?
    ensures OtherAppUrl(true, OtherAppUrl(true, origin, env).value, env) == Some(origin)
  {
  }

  /** The page of the peer that the iframe loads. */
  function SyncPageUrl(peer: string): string {
    peer + "/sync"
  }

  /** `syncLogin`'s message `{action: "login", token, userData}`. */
  function LoginMessage(token: string, user: Option<UserData>): (j: Json)
    ensures Member(j, "action") == JStr("login") && Member(j, "token") == JStr(token)
    ensures user.Some? ==> Member(j, "userData") == UserJson(user.value)
    ensures user.None? ==> Member(j, "userData") == JNull
  {
    var m := map["action" := JStr("login"), "token" := JStr(token)];
    match user
    case Some(u) => JObj(m["userData" := UserJson(u)])
    case None => JObj(m)
  }

  /** `syncLogout`'s message `{action: "logout"}`, with no token and no user. */
  function LogoutMessage(): (j: Json)
    ensures Member(j, "action") == JStr("logout")
    ensures Member(j, "token") == JNull && Member(j, "userData") == JNull
  {
    JObj(map["action" := JStr("logout")])
  }

  /**
   * The message handler of `setupMessageListener`: the data handed to
   * `onSync`, or `None` when the message is dropped (a foreign origin, no
   * data, or an action other than `"login"` and `"logout"`).
   */
  function Accept(env: Env, eventOrigin: string, data: Json): (r: Option<Json>)
    ensures r.Some? <==> eventOrigin in AllowedOrigins(env)
                         && (Member(data, "action") == JStr("login") || Member(data, "action") == JStr("logout"))
    ensures r.Some? ==> r.value == data
  {
    if eventOrigin !in AllowedOrigins(env) then None
    else if !Truthy(data) || !Truthy(Member(data, "action"))
            || (Member(data, "action") != JStr("login") && Member(data, "action") != JStr("logout")) then None
    else Some(data)
  }

  /** What either application sends is accepted by the other one. */
  lemma SentMessagesAccepted(env: Env, origin: string, token: string, user: Option<UserData>)
    requires OtherAppUrl(true, origin, env).Some?
    ensures Accept(env, origin, LoginMessage(token, user)) == Some(LoginMessage(token, user))
    ensures Accept(env, origin, LogoutMessage()) == Some(LogoutMessage())
  {
  }

  /**
   * `handleLocalSync`: a logout leaves the external-logout flag in this
   * origin's storage, a login removes it; other actions change nothing.
   */
  method HandleLocalSync(store: LocalStorage, data: Json)
    modifies store
    ensures Member(data, "action") == JStr("logout") ==>
      store.items == old(store.items)[UiStorage.ExternalLogoutFlagKey := "true"]
    ensures Member(data, "action") == JStr("login") ==>
      store.items == old(store.items) - {UiStorage.ExternalLogoutFlagKey}
    ensures Member(data, "action") != JStr("logout") && Member(data, "action") != JStr("login") ==>
      store.items == old(store.items)
  {
    if Member(data, "action") == JStr("logout") {
      store.SetItem(UiStorage.ExternalLogoutFlagKey, "true");
    } else if Member(data, "action") == JStr("login") {
      store.RemoveItem(UiStorage.ExternalLogoutFlagKey);
    }
  }

  /* ------------------------------ the sending side ------------------------------ */

  /** The state of the promise `sendSyncData` returns. */
  datatype Settlement = Pending | Resolved | Rejected(reason: string)

  /** The hidden iframe of one call: never created, in the document, or removed. */
  datatype Frame = NoFrame | Attached | Removed

  /** One call of `sendSyncData`. */
  datatype SendCall = SendCall(data: Json, peer: Option<string>, frame: Frame, settlement: Settlement)

  /** A pending `setTimeout` callback, with the call it belongs to. */
  datatype Timer = OverallTimeout(call: nat) | InitDelay(call: nat) | SettleDelay(call: nat)

  /** A `postMessage(data, targetOrigin)` to the iframe's window. */
  datatype Post = Post(data: Json, targetOrigin: string)

  const NoWindowError := "Window não disponível"
  const TimeoutError := "Timeout na sincronização"
  const FrameError := "Erro ao carregar iframe de sincronização"
  const DomError := "iframe creation failed"
  const PostError := "postMessage failed"

  /** Resolving or rejecting a promise that is already settled has no effect. */
  function Settle(s: Settlement, outcome: Settlement): (r: Settlement)
    ensures s != Pending ==> r == s
    ensures s == Pending ==> r == outcome
  {
    if s == Pending then outcome else s
  }

  /** `iframe.remove()`: an iframe that was never created stays so. */
  function RemoveFrame(f: Frame): (r: Frame)
    ensures f == NoFrame ==> r == NoFrame
    ensures f != NoFrame ==> r == Removed
  {
    if f == NoFrame then NoFrame else Removed
  }

  /** `clearTimeout` of call `id`'s overall timer: every other timer stays, in order. */
  function CancelOverall(timers: seq<Timer>, id: nat): (r: seq<Timer>)
    ensures |r| <= |timers|
    ensures OverallTimeout(id) !in r
    ensures forall t :: t in r <==> t in timers && t != OverallTimeout(id)
  {
    if timers == [] then []
    else if timers[0] == OverallTimeout(id) then CancelOverall(timers[1..], id)
    else [timers[0]] + CancelOverall(timers[1..], id)
  }

  /** The timers left once the `k`-th has fired. */
  function Without(timers: seq<Timer>, k: nat): (r: seq<Timer>)
    requires k < |timers|
    ensures |r| == |timers| - 1
    ensures forall t :: t in r ==> t in timers
  {
    timers[..k] + timers[k + 1..]
  }

  class SyncSender {
    /** Whether the code runs in a browser window. */
    const hasWindow: bool
    /** `window.location.origin` of the page. */
    const origin: string
    const env: Env
    /** The static guard `CrossDomainSyncService.isSyncing`. */
    var isSyncing: bool
    /** Every call of `sendSyncData` so far, in order. */
    var calls: seq<SendCall>
    /** The timers that have been set and have neither fired nor been cleared. */
    var timers: seq<Timer>
    /** Every message posted so far, in order. */
    var posted: seq<Post>

    /**
     * Timers belong to calls that created an iframe; such calls know their
     * peer; and every message went to the peer of this page.
     */
    ghost predicate Valid()
      reads this
    {
      (forall t :: t in timers ==> t.call < |calls| && calls[t.call].frame != NoFrame)
      && (forall i :: 0 <= i < |calls| && calls[i].frame != NoFrame ==>
            calls[i].peer.Some? && calls[i].peer == OtherAppUrl(hasWindow, origin, env))
      && (forall p :: p in posted ==> Some(p.targetOrigin) == OtherAppUrl(hasWindow, origin, env))
    }

    constructor(hasWindow: bool, origin: string, env: Env)
      ensures this.hasWindow == hasWindow && this.origin == origin && this.env == env
      ensures !isSyncing && calls == [] && timers == [] && posted == []
      ensures Valid()
    {
      this.hasWindow := hasWindow;
      this.origin := origin;
      this.env := env;
      isSyncing := false;
      calls := [];
      timers := [];
      posted := [];
    }

    /**
     * `sendSyncData(data)`, up to the point where it waits for the iframe;
     * `domFails` is an exception while the iframe is created.  `id` names
     * the call in `calls`.
     */
    method SendSyncData(data: Json, domFails: bool) returns (id: nat)
      requires Valid()
      modifies this
      ensures Valid()
      ensures id == |old(calls)| && |calls| == id + 1 && calls[..id] == old(calls)
      ensures calls[id].data == data && posted == old(posted)
      ensures !hasWindow ==>
        calls[id] == SendCall(data, None, NoFrame, Rejected(NoWindowError))
        && isSyncing == old(isSyncing) && timers == old(timers)
      ensures hasWindow && old(isSyncing) ==>
        calls[id] == SendCall(data, None, NoFrame, Resolved) && isSyncing && timers == old(timers)
      ensures hasWindow && !old(isSyncing) ==> isSyncing && calls[id].peer == OtherAppUrl(hasWindow, origin, env)
      ensures hasWindow && !old(isSyncing) && OtherAppUrl(hasWindow, origin, env).None? ==>
        calls[id].frame == NoFrame && calls[id].settlement == Resolved && timers == old(timers)
      ensures hasWindow && !old(isSyncing) && OtherAppUrl(hasWindow, origin, env).Some? && domFails ==>
        calls[id].frame == NoFrame && calls[id].settlement == Rejected(DomError) && timers == old(timers)
      ensures hasWindow && !old(isSyncing) && OtherAppUrl(hasWindow, origin, env).Some? && !domFails ==>
        calls[id].frame == Attached && calls[id].settlement == Pending
        && timers == old(timers) + [OverallTimeout(id)]
    {
      id := |calls|;
      if !hasWindow {
        calls := calls + [SendCall(data, None, NoFrame, Rejected(NoWindowError))];
        return;
      }
      if isSyncing {
        calls := calls + [SendCall(data, None, NoFrame, Resolved)];
        return;
      }
      isSyncing := true;
      var peer := OtherAppUrl(hasWindow, origin, env);
      if peer.None? {
        calls := calls + [SendCall(data, peer, NoFrame, Resolved)];
        return;
      }
      if domFails {
        calls := calls + [SendCall(data, peer, NoFrame, Rejected(DomError))];
        return;
      }
      calls := calls + [SendCall(data, peer, Attached, Pending)];
      timers := timers + [OverallTimeout(id)];
    }

    /** `syncLogin(token, userData)`. */
    method SyncLogin(token: string, user: Option<UserData>, domFails: bool) returns (id: nat)
      requires Valid()
      modifies this
      ensures Valid()
      ensures id == |old(calls)| && |calls| == id + 1 && calls[..id] == old(calls)
      ensures calls[id].data == LoginMessage(token, user) && posted == old(posted)
    {
      id := SendSyncData(LoginMessage(token, user), domFails);
    }

    /** `syncLogout()`. */
    method SyncLogout(domFails: bool) returns (id: nat)
      requires Valid()
      modifies this
      ensures Valid()
      ensures id == |old(calls)| && |calls| == id + 1 && calls[..id] == old(calls)
      ensures calls[id].data == LogoutMessage() && posted == old(posted)
    {
      id := SendSyncData(LogoutMessage(), domFails);
    }

    /** The iframe of call `id` fired `load`: the 1 s initialisation delay starts. */
    method IframeLoaded(id: nat)
      requires Valid() && id < |calls|
      modifies this
      ensures Valid()
      ensures calls == old(calls) && posted == old(posted) && isSyncing == old(isSyncing)
      ensures old(calls[id].frame) == Attached ==> timers == old(timers) + [InitDelay(id)]
      ensures old(calls[id].frame) != Attached ==> timers == old(timers)
    {
      if calls[id].frame == Attached {
        timers := timers + [InitDelay(id)];
      }
    }

    /**
     * The iframe of call `id` fired `error`: the overall timer is cleared,
     * the iframe removed and the promise rejected; `isSyncing` is left as
     * it is.
     */
    method IframeFailed(id: nat)
      requires Valid() && id < |calls|
      modifies this
      ensures Valid()
      ensures isSyncing == old(isSyncing) && posted == old(posted)
      ensures old(calls[id].frame) == Attached ==>
        calls == old(calls)[id := old(calls[id]).(frame := Removed,
                                                   settlement := Settle(old(calls[id].settlement), Rejected(FrameError)))]
        && timers == CancelOverall(old(timers), id)
      ensures old(calls[id].frame) != Attached ==> calls == old(calls) && timers == old(timers)
    {
      var c := calls[id];
      if c.frame == Attached {
        timers := CancelOverall(timers, id);
        calls := calls[id := c.(frame := Removed, settlement := Settle(c.settlement, Rejected(FrameError)))];
      }
    }

    /**
     * The `k`-th pending timer fires.  `postThrows` is an exception from
     * `postMessage` (for instance a target origin that is not a URL).
     */
    method FireTimer(k: nat, postThrows: bool)
      requires Valid() && k < |timers|
      modifies this
      ensures Valid()
      ensures |calls| == |old(calls)|
      ensures forall i :: 0 <= i < |calls| && i != old(timers[k].call) ==> calls[i] == old(calls[i])
      ensures forall i :: 0 <= i < |calls| && old(calls[i].settlement) != Pending ==>
        calls[i].settlement == old(calls[i].settlement)
      ensures old(timers[k]).OverallTimeout? ==>
        var id := old(timers[k].call);
        !isSyncing && posted == old(posted) && timers == Without(old(timers), k)
        && calls[id] == old(calls[id]).(frame := RemoveFrame(old(calls[id].frame)),
                                        settlement := Settle(old(calls[id].settlement), Rejected(TimeoutError)))
      ensures old(timers[k]).InitDelay? && old(calls[timers[k].call].frame) == Attached && !postThrows ==>
        var id := old(timers[k].call);
        isSyncing == old(isSyncing) && calls == old(calls)
        && posted == old(posted) + [Post(old(calls[id].data), old(calls[id].peer.value))]
        && timers == Without(old(timers), k) + [SettleDelay(id)]
      ensures old(timers[k]).InitDelay? && old(calls[timers[k].call].frame) == Attached && postThrows ==>
        var id := old(timers[k].call);
        !isSyncing && posted == old(posted) && timers == CancelOverall(Without(old(timers), k), id)
        && calls[id] == old(calls[id]).(frame := Removed,
                                        settlement := Settle(old(calls[id].settlement), Rejected(PostError)))
      ensures old(timers[k]).InitDelay? && old(calls[timers[k].call].frame) != Attached ==>
        var id := old(timers[k].call);
        isSyncing == old(isSyncing) && calls == old(calls) && posted == old(posted)
        && timers == Without(old(timers), k) + [SettleDelay(id)]
      ensures old(timers[k]).SettleDelay? ==>
        var id := old(timers[k].call);
        !isSyncing && posted == old(posted) && timers == CancelOverall(Without(old(timers), k), id)
        && calls[id] == old(calls[id]).(frame := RemoveFrame(old(calls[id].frame)),
                                        settlement := Settle(old(calls[id].settlement), Resolved))
    {
      var t := timers[k];
      var id := t.call;
      var c := calls[id];
      timers := Without(timers, k);
      match t
      case OverallTimeout(_) =>
        calls := calls[id := c.(frame := RemoveFrame(c.frame), settlement := Settle(c.settlement, Rejected(TimeoutError)))];
        isSyncing := false;
      case InitDelay(_) =>
        if c.frame == Attached && postThrows {
          timers := CancelOverall(timers, id);
          calls := calls[id := c.(frame := Removed, settlement := Settle(c.settlement, Rejected(PostError)))];
          isSyncing := false;
        } else {
          if c.frame == Attached {
            posted := posted + [Post(c.data, c.peer.value)];
          }
          timers := timers + [SettleDelay(id)];
        }
      case SettleDelay(_) =>
        timers := CancelOverall(timers, id);
        calls := calls[id := c.(frame := RemoveFrame(c.frame), settlement := Settle(c.settlement, Resolved))];
        isSyncing := false;
    }
  }

  /** Every message a page posts goes to its peer, and that peer is one of the allowed origins. */
  lemma PostedToAllowedPeer(s: SyncSender, p: Post)
    requires s.Valid() && p in s.posted
    ensures Some(p.targetOrigin) == OtherAppUrl(s.hasWindow, s.origin, s.env)
    ensures p.targetOrigin in AllowedOrigins(s.env) && s.origin in AllowedOrigins(s.env)
  {
  }
}
