/**
 * The investments application's `/sync` page: the callback it registers
 * with `setupMessageListener` applies a login or a logout received from the
 * home application to this origin's storage and then moves the page on.
 */
module SyncPage {
  import opened Wrappers
  import opened Json
  import opened Urls
  import opened Browser
  import opened UiStorage
  import CrossDomainSync

  /** The storage after the callback has handled `data`. */
  function ApplySync(codec: JsonCodec, items: map<string, string>, data: Json): map<string, string> {
    var action := Member(data, "action");
    if action == JStr("login") then
      var token, user := Member(data, "token"), Member(data, "userData");
      var withToken := if Truthy(token) then items[AuthTokenKey := codec.stringify(token)] else items;
      var withUser := if Truthy(user) then withToken[UserDataKey := codec.stringify(user)] else withToken;
      (withUser - {ExternalLogoutFlagKey})[SyncCompletedKey := "true"]
    else if action == JStr("logout") then
      (items - SessionKeys)[ExternalLogoutFlagKey := "true"]
    else items
  }

  /** Where the page goes 1 s after handling `data`. */
  function Navigation(env: Env, data: Json): (r: Option<string>)
    ensures Member(data, "action") == JStr("login") ==> r == Some("/investments")
    ensures Member(data, "action") == JStr("logout") ==> r == Some(HomeUrl(env))
    ensures r.None? <==> Member(data, "action") != JStr("login") && Member(data, "action") != JStr("logout")
  {
    var action := Member(data, "action");
    if action == JStr("login") then Some("/investments")
    else if action == JStr("logout") then Some(HomeUrl(env))
    else None
  }

  /**
   * The `onSync` callback.  It writes this origin's storage and nothing
   * else: the sending side of the sync service is out of its reach, so a
   * received message is never sent back.
   */
  method OnSync(storage: StorageService, env: Env, data: Json) returns (navigateTo: Option<string>)
    modifies storage.store
    ensures storage.store != null ==>
      storage.store.items == ApplySync(storage.codec, old(storage.store.items), data)
    ensures navigateTo == Navigation(env, data)
  {
    var action := Member(data, "action");
    if action == JStr("login") {
      var token, user := Member(data, "token"), Member(data, "userData");
      if Truthy(token) {
        storage.SetAuthToken(token);
      }
      if Truthy(user) {
        storage.SetUserData(user);
      }
      storage.ClearExternalLogoutFlag();
      storage.SetSyncCompletedFlag();
      navigateTo := Some("/investments");
    } else if action == JStr("logout") {
      storage.ClearAllUserData();
      storage.SetExternalLogoutFlag();
      navigateTo := Some(HomeUrl(env));
    } else {
      navigateTo := None;
    }
  }

  /** A message event reaching the page: the listener's filter, then the callback. */
  method OnMessage(storage: StorageService, env: Env, eventOrigin: string, data: Json)
    returns (navigateTo: Option<string>)
    modifies storage.store
    ensures CrossDomainSync.Accept(env, eventOrigin, data).None? ==>
      navigateTo == None && (storage.store != null ==> storage.store.items == old(storage.store.items))
    ensures CrossDomainSync.Accept(env, eventOrigin, data).Some? ==>
      navigateTo == Navigation(env, data)
      && (storage.store != null ==> storage.store.items == ApplySync(storage.codec, old(storage.store.items), data))
  {
    match CrossDomainSync.Accept(env, eventOrigin, data)
    case None =>
      navigateTo := None;
    case Some(accepted) =>
      navigateTo := OnSync(storage, env, accepted);
  }

  /* ----------------------------------- properties ----------------------------------- */

  /** A login with a token stores it; a login without one keeps whatever token was stored. */
  lemma LoginToken(codec: JsonCodec, items: map<string, string>, data: Json)
    requires Lawful(codec) && Member(data, "action") == JStr("login")
    ensures Truthy(Member(data, "token")) ==>
      ParsedItem(codec, ApplySync(codec, items, data), AuthTokenKey) == Member(data, "token")
    ensures !Truthy(Member(data, "token")) ==>
      (AuthTokenKey in ApplySync(codec, items, data) <==> AuthTokenKey in items)
      && (AuthTokenKey in items ==> ApplySync(codec, items, data)[AuthTokenKey] == items[AuthTokenKey])
  {
    var token := Member(data, "token");
    if Truthy(token) {
      ParsedItemWritten(codec, items, AuthTokenKey, token);
    }
  }

  /** A login stores the user data only when the message carries it. */
  lemma LoginUserData(codec: JsonCodec, items: map<string, string>, data: Json)
    requires Lawful(codec) && Member(data, "action") == JStr("login")
    ensures Truthy(Member(data, "userData")) ==>
      ParsedItem(codec, ApplySync(codec, items, data), UserDataKey) == Member(data, "userData")
    ensures !Truthy(Member(data, "userData")) ==>
      (UserDataKey in ApplySync(codec, items, data) <==> UserDataKey in items)
      && (UserDataKey in items ==> ApplySync(codec, items, data)[UserDataKey] == items[UserDataKey])
  {
  }

  /** A login removes the external-logout flag and sets the sync-completed flag. */
  lemma LoginFlags(codec: JsonCodec, items: map<string, string>, data: Json)
    requires Member(data, "action") == JStr("login")
    ensures ExternalLogoutFlagKey !in ApplySync(codec, items, data)
    ensures SyncCompletedKey in ApplySync(codec, items, data)
            && ApplySync(codec, items, data)[SyncCompletedKey] == "true"
  {
  }

  /**
   * A logout removes the token, the user data and the show-balance
   * preference, sets the external-logout flag, and keeps every other key.
   */
  lemma LogoutClearsSession(codec: JsonCodec, items: map<string, string>, data: Json, other: string)
    requires Member(data, "action") == JStr("logout")
    requires other !in SessionKeys && other != ExternalLogoutFlagKey
    ensures AuthTokenKey !in ApplySync(codec, items, data) && UserDataKey !in ApplySync(codec, items, data)
    ensures ShowBalanceKey !in ApplySync(codec, items, data)
    ensures ApplySync(codec, items, data)[ExternalLogoutFlagKey] == "true"
    ensures other in ApplySync(codec, items, data) <==> other in items
    ensures other in items ==> ApplySync(codec, items, data)[other] == items[other]
  {
  }

  /** Any other action leaves the storage as it was. */
  lemma UnknownActionChangesNothing(codec: JsonCodec, items: map<string, string>, data: Json)
    requires Member(data, "action") != JStr("login") && Member(data, "action") != JStr("logout")
    ensures ApplySync(codec, items, data) == items
  {
  }

  /** Receiving the same message twice leaves the storage as receiving it once. */
  lemma ApplySyncIdempotent(codec: JsonCodec, items: map<string, string>, data: Json)
    ensures ApplySync(codec, ApplySync(codec, items, data), data) == ApplySync(codec, items, data)
  {
  }
}
