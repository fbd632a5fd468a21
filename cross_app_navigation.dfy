/**
 * `useCrossAppNavigation`: moving the page to another application, with
 * the session in the URL fragment when this origin has one, and the
 * logout that clears this origin and tells the home application.
 */
module CrossAppNavigation {
  import opened Wrappers
  import opened Json
  import opened Urls
  import opened Browser
  import opened UiStorage
  import HashAuth

  /** `token && userData`: both stored values are truthy. */
  predicate HasCredentials(token: Json, user: Json) {
    Truthy(token) && Truthy(user)
  }

  /** The URL `navigateToApp(target)` goes to, given the stored token and user. */
  function AppTarget(codec: JsonCodec, target: string, token: Json, user: Json): (url: string)
    ensures !HasCredentials(token, user) ==> url == target
  {
    if HasCredentials(token, user) then HashAuth.CreateAuthUrl(codec, target, token, user) else target
  }

  /** The URL `navigateToInvestments` goes to: the investments URL with the session, else home. */
  function InvestmentsTarget(codec: JsonCodec, env: Env, token: Json, user: Json): (url: string)
    ensures !HasCredentials(token, user) ==> url == HomeUrl(env)
  {
    if HasCredentials(token, user) then HashAuth.CreateAuthUrl(codec, InvestmentsUrl(env), token, user)
    else HomeUrl(env)
  }

  /** The URL `logoutAndNavigateToHome` goes to. */
  function LogoutTarget(env: Env): (url: string)
    ensures url == HomeUrl(env) + "/home#logout=true"
  {
    HashAuth.CreateLogoutUrl(HomeUrl(env) + "/home")
  }

  /** `navigateToApp(target)`. */
  method NavigateToApp(storage: StorageService, loc: Location, target: string)
    modifies loc
    ensures loc.navigation == Some(AppTarget(storage.codec, target, storage.GetAuthToken(), storage.GetUserData()))
    ensures loc.pathname == old(loc.pathname) && loc.search == old(loc.search) && loc.hash == old(loc.hash)
  {
    var token := storage.GetAuthToken();
    var user := storage.GetUserData();
    if Truthy(token) && Truthy(user) {
      HashAuth.RedirectWithAuth(loc, storage.codec, target, token, user);
    } else {
      loc.Assign(target);
    }
  }

  /** `navigateToHome`. */
  method NavigateToHome(storage: StorageService, loc: Location, env: Env)
    modifies loc
    ensures loc.navigation == Some(AppTarget(storage.codec, HomeUrl(env), storage.GetAuthToken(), storage.GetUserData()))
    ensures loc.pathname == old(loc.pathname) && loc.search == old(loc.search) && loc.hash == old(loc.hash)
  {
    NavigateToApp(storage, loc, HomeUrl(env));
  }

  /** `navigateToInvestments`. */
  method NavigateToInvestments(storage: StorageService, loc: Location, env: Env)
    modifies loc
    ensures loc.navigation == Some(InvestmentsTarget(storage.codec, env, storage.GetAuthToken(), storage.GetUserData()))
    ensures loc.pathname == old(loc.pathname) && loc.search == old(loc.search) && loc.hash == old(loc.hash)
  {
    var token := storage.GetAuthToken();
    var user := storage.GetUserData();
    if Truthy(token) && Truthy(user) {
      HashAuth.RedirectWithAuth(loc, storage.codec, InvestmentsUrl(env), token, user);
    } else {
      loc.Assign(HomeUrl(env));
    }
  }

  /** `logoutAndNavigateToHome`: the session keys go first, then the page leaves. */
  method LogoutAndNavigateToHome(storage: StorageService, loc: Location, env: Env)
    modifies storage.store, loc
    ensures storage.store != null ==> storage.store.items == old(storage.store.items) - SessionKeys
    ensures !storage.IsAuthenticated() && storage.GetUserData() == JNull
    ensures loc.navigation == Some(LogoutTarget(env))
  {
    var homeUrl := HomeUrl(env) + "/home";
    storage.ClearAllUserData();
    HashAuth.RedirectWithLogout(loc, homeUrl);
  }

  /* ---------------------------------- properties ---------------------------------- */

  predicate NoHashMark(url: string) {
    forall i :: 0 <= i < |url| ==> url[i] != '#'
  }

  /** A page with a session hands exactly that token and user to the target application. */
  lemma NavigationCarriesSession(codec: JsonCodec, target: string, token: Json, user: Json)
    requires Lawful(codec) && NoHashMark(target)
    requires HasCredentials(token, user)
    ensures HashAuth.ExtractAuthFromHash(codec, true, HashOf(AppTarget(codec, target, token, user)))
            == Some(HashAuth.AuthData(token, user))
  {
    HashAuth.AuthUrlRoundTrip(codec, target, token, user);
  }

  /** Without a session the target page finds no fragment at all, so no session is picked up. */
  lemma NavigationWithoutSession(codec: JsonCodec, target: string, token: Json, user: Json)
    requires NoHashMark(target)
    requires !HasCredentials(token, user)
    ensures HashOf(AppTarget(codec, target, token, user)) == ""
    ensures HashAuth.ExtractAuthFromHash(codec, true, HashOf(AppTarget(codec, target, token, user))).None?
  {
    assert Text.FirstIndexOf(target, '#') == |target|;
  }

  /** With a session, the investments page receives it; without one the page goes home. */
  lemma InvestmentsNavigation(codec: JsonCodec, env: Env, token: Json, user: Json)
    requires Lawful(codec) && NoHashMark(InvestmentsUrl(env))
    ensures HasCredentials(token, user) ==>
      HashAuth.ExtractAuthFromHash(codec, true, HashOf(InvestmentsTarget(codec, env, token, user)))
      == Some(HashAuth.AuthData(token, user))
    ensures !HasCredentials(token, user) ==> InvestmentsTarget(codec, env, token, user) == HomeUrl(env)
  {
    if HasCredentials(token, user) {
      HashAuth.AuthUrlRoundTrip(codec, InvestmentsUrl(env), token, user);
    }
  }

  /** The home page reached after a logout sees the logout marker; by default it is port 3000. */
  lemma LogoutTargetDetected(env: Env)
    requires NoHashMark(HomeUrl(env))
    ensures HashAuth.HasLogoutInHash(true, HashOf(LogoutTarget(env)))
    ensures env.homeUrl == "" ==> LogoutTarget(env) == "http://localhost:3000/home#logout=true"
  {
    var base := HomeUrl(env) + "/home";
    assert NoHashMark(base) by {
      forall i | 0 <= i < |base|
        ensures base[i] != '#'
      {
        if i >= |HomeUrl(env)| {
          assert base[i] == "/home"[i - |HomeUrl(env)|];
        }
      }
    }
    HashAuth.LogoutUrlDetected(base);
  }
}
