/**
 * The shared `StorageService` of `packages/ui`: JSON values kept in the
 * origin's `localStorage` under fixed `@bytebank/...` keys, with typed
 * accessors for the session (token, user data) and the preferences
 * (show-balance, theme), and the flags the session-sync pages exchange.
 */
module UiStorage {
  import opened Wrappers
  import opened Json
  import opened Browser

  const UserDataKey := "@bytebank/user-data"
  const AuthTokenKey := "@bytebank/auth-token"
  const ShowBalanceKey := "@bytebank/show-balance"
  const ThemeKey := "@bytebank/theme"
  const SyncCompletedKey := "@bytebank/sync-completed"
  /** The raw flag one application leaves for the other after a remote logout. */
  const ExternalLogoutFlagKey := "external-logout-flag"

  /** The keys `clearAllUserData` removes: the session and the show-balance preference. */
  const SessionKeys: set<string> := {AuthTokenKey, UserDataKey, ShowBalanceKey}

  datatype Theme = Light | Dark

  function ThemeJson(t: Theme): (j: Json)
    ensures j.JStr? && (j.s == "light" || j.s == "dark")
  {
    match t
    case Light => JStr("light")
    case Dark => JStr("dark")
  }

  /** `getShowBalance`'s `?? true`: a missing preference means "show". */
  function ShowBalanceOr(stored: Json): (j: Json)
    ensures stored == JNull ==> j == JBool(true)
    ensures stored != JNull ==> j == stored
  {
    if stored == JNull then JBool(true) else stored
  }

  class StorageService {
    /** The origin's storage; `null` when there is no window. */
    const store: LocalStorage?
    const codec: JsonCodec

    constructor(store: LocalStorage?, codec: JsonCodec)
      ensures this.store == store && this.codec == codec
    {
      this.store := store;
      this.codec := codec;
    }

    /** `setItem`: stores `JSON.stringify(value)`; nothing without a window. */
    method SetItem(key: string, value: Json)
      modifies store
      ensures store != null ==> store.items == old(store.items)[key := codec.stringify(value)]
      ensures store != null && Lawful(codec) ==> GetItem(key) == value
    {
      if store == null {
        return;
      }
      store.SetItem(key, codec.stringify(value));
      if Lawful(codec) {
        ParsedItemWritten(codec, old(store.items), key, value);
      }
    }

    /** `getItem`: the parsed value, `null` when absent, unparsable or without a window. */
    function GetItem(key: string): (j: Json)
      reads store
      ensures store == null ==> j == JNull
      ensures store != null && key !in store.items ==> j == JNull
      ensures store != null && key in store.items && codec.parse(store.items[key]).None? ==> j == JNull
      ensures store != null && key in store.items && codec.parse(store.items[key]).Some? ==>
        j == codec.parse(store.items[key]).value
    {
      if store == null then JNull else ParsedItem(codec, store.items, key)
    }

    /** `removeItem`. */
    method RemoveItem(key: string)
      modifies store
      ensures store != null ==> store.items == old(store.items) - {key}
      ensures GetItem(key) == JNull
    {
      if store == null {
        return;
      }
      store.RemoveItem(key);
    }

    method SetUserData(user: Json)
      modifies store
      ensures store != null ==> store.items == old(store.items)[UserDataKey := codec.stringify(user)]
      ensures store != null && Lawful(codec) ==> GetUserData() == user
    {
      SetItem(UserDataKey, user);
    }

    function GetUserData(): (j: Json)
      reads store
      ensures j == GetItem(UserDataKey)
    {
      GetItem(UserDataKey)
    }

    method ClearUserData()
      modifies store
      ensures store != null ==> store.items == old(store.items) - {UserDataKey}
    {
      RemoveItem(UserDataKey);
    }

    method SetAuthToken(token: Json)
      modifies store
      ensures store != null ==> store.items == old(store.items)[AuthTokenKey := codec.stringify(token)]
      ensures store != null && Lawful(codec) ==> (IsAuthenticated() <==> Truthy(token))
    {
      SetItem(AuthTokenKey, token);
    }

    function GetAuthToken(): (j: Json)
      reads store
      ensures j == GetItem(AuthTokenKey)
    {
      GetItem(AuthTokenKey)
    }

    method ClearAuthToken()
      modifies store
      ensures store != null ==> store.items == old(store.items) - {AuthTokenKey}
      ensures !IsAuthenticated()
    {
      RemoveItem(AuthTokenKey);
    }

    /** `isAuthenticated`: `!!getAuthToken()`. */
    predicate IsAuthenticated()
      reads store
    {
      Truthy(GetAuthToken())
    }

    method SetShowBalance(show: bool)
      modifies store
      ensures store != null ==> store.items == old(store.items)[ShowBalanceKey := codec.stringify(JBool(show))]
      ensures store != null && Lawful(codec) ==> GetShowBalance() == JBool(show)
    {
      SetItem(ShowBalanceKey, JBool(show));
    }

    /** `getShowBalance`: the stored preference, `true` when none is stored. */
    function GetShowBalance(): (j: Json)
      reads store
      ensures GetItem(ShowBalanceKey) == JNull ==> j == JBool(true)
      ensures store == null ==> j == JBool(true)
    {
      ShowBalanceOr(GetItem(ShowBalanceKey))
    }

    method SetTheme(theme: Theme)
      modifies store
      ensures store != null ==> store.items == old(store.items)[ThemeKey := codec.stringify(ThemeJson(theme))]
    {
      SetItem(ThemeKey, ThemeJson(theme));
    }

    function GetTheme(): (j: Json)
      reads store
      ensures j == GetItem(ThemeKey)
    {
      GetItem(ThemeKey)
    }

    /** `clearAllUserData`: token, user data and show-balance go; every other key stays. */
    method ClearAllUserData()
      modifies store
      ensures store != null ==> store.items == old(store.items) - SessionKeys
      ensures !IsAuthenticated() && GetUserData() == JNull && GetShowBalance() == JBool(true)
    {
      ClearAuthToken();
      ClearUserData();
      RemoveItem(ShowBalanceKey);
    }

    /** Leaves the flag that tells the next page of this origin a logout happened elsewhere. */
    method SetExternalLogoutFlag()
      modifies store
      ensures store != null ==> store.items == old(store.items)[ExternalLogoutFlagKey := "true"]
    {
      if store != null {
        store.SetItem(ExternalLogoutFlagKey, "true");
      }
    }

    method ClearExternalLogoutFlag()
      modifies store
      ensures store != null ==> store.items == old(store.items) - {ExternalLogoutFlagKey}
    {
      RemoveItem(ExternalLogoutFlagKey);
    }

    /** Records that a login arrived through the sync page. */
    method SetSyncCompletedFlag()
      modifies store
      ensures store != null ==> store.items == old(store.items)[SyncCompletedKey := "true"]
    {
      if store != null {
        store.SetItem(SyncCompletedKey, "true");
      }
    }
  }

  /* ------------------------- properties over the stored map ------------------------- */

  /** A stored token authenticates exactly when it is a non-empty string. */
  lemma AuthenticatedIffNonEmptyToken(codec: JsonCodec, items: map<string, string>, token: string)
    requires Lawful(codec)
    ensures Truthy(ParsedItem(codec, items[AuthTokenKey := codec.stringify(JStr(token))], AuthTokenKey))
            <==> token != ""
  {
    ParsedItemWritten(codec, items, AuthTokenKey, JStr(token));
  }

  /** Without a stored preference, the balance is shown. */
  lemma ShowBalanceDefault(codec: JsonCodec, items: map<string, string>)
    requires ShowBalanceKey !in items
    ensures ShowBalanceOr(ParsedItem(codec, items, ShowBalanceKey)) == JBool(true)
  {
  }

  /** `clearAllUserData` touches nothing but the three session keys. */
  lemma ClearAllKeepsOthers(items: map<string, string>, key: string)
    requires key !in SessionKeys && key in items
    ensures key in items - SessionKeys && (items - SessionKeys)[key] == items[key]
  {
  }

  /** Writing one key leaves every other key's value as it was. */
  lemma WriteKeepsOthers(codec: JsonCodec, items: map<string, string>, key: string, other: string, text: string)
    requires other != key
    ensures ParsedItem(codec, items[key := text], other) == ParsedItem(codec, items, other)
    ensures ParsedItem(codec, items - {key}, other) == ParsedItem(codec, items, other)
  {
  }

  /** The theme keeps its value across `clearAllUserData`. */
  lemma ThemeSurvivesClearAll(codec: JsonCodec, items: map<string, string>)
    ensures ParsedItem(codec, items - SessionKeys, ThemeKey) == ParsedItem(codec, items, ThemeKey)
  {
    assert ThemeKey !in SessionKeys;
  }
}
