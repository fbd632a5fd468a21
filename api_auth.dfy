/**
 * `useApiAuth` of the home application: login, logout and registration
 * against the API, the session kept in the shared `StorageService`, and
 * the `isLoading` flag.  What the API does is an input: each call either
 * throws or answers with a response object.
 */
module ApiAuth {
  import opened Wrappers
  import opened Json
  import opened Urls
  import opened Browser
  import opened UiStorage
  import TokenValidation
  import CrossAppNavigation

  /** One API call: it throws, or resolves with the response object. */
  datatype Reply = Threw | Answer(response: Json)

  const NameMissing := "Nome não encontrado"
  const EmailMissing := "Email não encontrado"
  const AccountMissing := "Account não encontrada"

  /** What `login` resolves with when anything in it threw. */
  const LoginFailure := JObj(map["error" := JStr("Login failed. Please check your credentials."), "status" := JNum(401)])

  /** `response.data?.result?.token`. */
  function TokenOf(response: Json): Json {
    Member(Member(Member(response, "data"), "result"), "token")
  }

  /** `v || "fallback"`. */
  function OrText(v: Json, fallback: string): (r: Json)
    ensures Truthy(r) || fallback == ""
    ensures Truthy(v) ==> r == v
  {
    if Truthy(v) then v else JStr(fallback)
  }

  /**
   * `x[0]` on a value that is not `null`/`undefined` (`None` is the
   * `TypeError` thrown on those): an array's first element, an object's
   * member `"0"`, a string's first character; anything else has none.
   */
  function ElementZero(x: Json): (r: Option<Json>)
    ensures r.None? <==> x == JNull
  {
    match x
    case JNull => None
    case JArr(items) => Some(if items == [] then JNull else items[0])
    case JObj(_) => Some(Member(x, "0"))
    case JStr(s) => Some(if s == "" then JNull else JStr([s[0]]))
    case _ => Some(JNull)
  }

  /**
   * `userData?.account[0]?.id`: the chain stops at a missing `userData`,
   * but a present one without `account` throws (`None`).
   */
  function AccountIdOf(userData: Json): (r: Option<Json>)
    ensures userData == JNull ==> r == Some(JNull)
  {
    if userData == JNull then Some(JNull)
    else match ElementZero(Member(userData, "account"))
      case None => None
      case Some(first) => Some(Member(first, "id"))
  }

  /** The `{name, email, accountId}` object `login` stores, with the fallbacks for missing fields. */
  function StoredUser(userData: Json, accountId: Json): (j: Json)
    ensures Truthy(j)
    ensures Member(j, "name") == OrText(Member(Member(userData, "userInfo"), "username"), NameMissing)
    ensures Member(j, "email") == OrText(Member(Member(userData, "userInfo"), "email"), EmailMissing)
    ensures Member(j, "accountId") == OrText(accountId, AccountMissing)
  {
    JObj(map[
      "name" := OrText(Member(Member(userData, "userInfo"), "username"), NameMissing),
      "email" := OrText(Member(Member(userData, "userInfo"), "email"), EmailMissing),
      "accountId" := OrText(accountId, AccountMissing)])
  }

  /** What one `login` does: the token it stores, the user it stores, what it resolves with. */
  datatype LoginEffect = LoginEffect(token: Option<Json>, user: Option<Json>, result: Json)

  /** `login`, given the answers of `loginUser` and of `getUserAccount`. */
  function LoginEffectOf(login: Reply, account: Reply): (e: LoginEffect)
    ensures e.user.Some? ==> e.token.Some?
  {
    match login
    case Threw => LoginEffect(None, None, LoginFailure)
    case Answer(response) =>
      var token := TokenOf(response);
      if !Truthy(token) then LoginEffect(None, None, response)
      else match account
        case Threw => LoginEffect(Some(token), None, LoginFailure)
        case Answer(accountResponse) =>
          var userData := Member(Member(accountResponse, "data"), "result");
          match AccountIdOf(userData)
          case None => LoginEffect(Some(token), None, LoginFailure)
          case Some(id) =>
            LoginEffect(Some(token), if Truthy(userData) then Some(StoredUser(userData, id)) else None, response)
  }

  /** The state the hook holds: its storage service, the validation service and `isLoading`. */
  class ApiAuthHook {
    const storage: StorageService
    const validator: TokenValidation.TokenValidationService
    var isLoading: bool

    /** Both services work on the one `localStorage` of the page. */
    predicate Valid() {
      validator.store == storage.store
    }

    constructor(storage: StorageService)
      ensures this.storage == storage && Valid() && !isLoading
    {
      this.storage := storage;
      validator := new TokenValidation.TokenValidationService(storage.store);
      isLoading := false;
    }

    /** `register`: the answer is passed on (`None`: the call rejects); `isLoading` ends false. */
    method Register(reply: Reply) returns (result: Option<Json>)
      modifies this
      ensures !isLoading
      ensures reply.Threw? ==> result == None
      ensures reply.Answer? ==> result == Some(reply.response)
    {
      isLoading := true;
      match reply {
        case Threw => result := None;
        case Answer(r) => result := Some(r);
      }
      isLoading := false;
    }

    /** `login`. */
    method Login(login: Reply, account: Reply) returns (result: Json)
      modifies this, storage.store
      ensures !isLoading
      ensures result == LoginEffectOf(login, account).result
      ensures storage.store != null ==>
        var e := LoginEffectOf(login, account);
        var afterToken := if e.token.Some? then old(storage.store.items)[AuthTokenKey := storage.codec.stringify(e.token.value)]
                          else old(storage.store.items);
        storage.store.items == if e.user.Some? then afterToken[UserDataKey := storage.codec.stringify(e.user.value)] else afterToken
    {
      isLoading := true;
      match login {
        case Threw =>
          result := LoginFailure;
        case Answer(response) =>
          var token := TokenOf(response);
          result := response;
          if Truthy(token) {
            storage.SetAuthToken(token);
            match account
            case Threw =>
              result := LoginFailure;
            case Answer(accountResponse) =>
              var userData := Member(Member(accountResponse, "data"), "result");
              match AccountIdOf(userData)
              case None =>
                result := LoginFailure;
              case Some(id) =>
                if Truthy(userData) {
                  storage.SetUserData(StoredUser(userData, id));
                }
          }
      }
      isLoading := false;
    }

    /**
     * `logout`: the server logout is attempted, and whatever it answers
     * the session keys are removed; it resolves `true`.
     */
    method Logout(reply: TokenValidation.LogoutReply) returns (ok: bool)
      requires Valid()
      modifies this, storage.store
      ensures !isLoading && ok
      ensures storage.store != null ==>
        storage.store.items == TokenValidationAfterLogout(old(storage.store.items), reply) - SessionKeys
      ensures !storage.IsAuthenticated() && storage.GetUserData() == JNull
    {
      isLoading := true;
      var serverOk := validator.LogoutOnServer(reply);
      storage.ClearAllUserData();
      ok := true;
      isLoading := false;
    }

    /** `handleTokenExpired`: the session keys go, then the callback (if any) is called. */
    method HandleTokenExpired(hasCallback: bool) returns (callbackCalled: bool)
      modifies storage.store
      ensures storage.store != null ==> storage.store.items == old(storage.store.items) - SessionKeys
      ensures !storage.IsAuthenticated()
      ensures callbackCalled == hasCallback
    {
      storage.ClearAllUserData();
      callbackCalled := hasCallback;
    }

    /** `getUserAccount`: the answer is passed on (`None`: the call rejects); `isLoading` ends false. */
    method GetUserAccount(reply: Reply) returns (result: Option<Json>)
      modifies this
      ensures !isLoading
      ensures reply.Threw? ==> result == None
      ensures reply.Answer? ==> result == Some(reply.response)
    {
      isLoading := true;
      match reply {
        case Threw => result := None;
        case Answer(r) => result := Some(r);
      }
      isLoading := false;
    }

    /** `navigateToInvestments`: the same choice as the cross-app navigation hook's. */
    method NavigateToInvestments(loc: Location, env: Env)
      modifies loc
      ensures loc.navigation == Some(CrossAppNavigation.InvestmentsTarget(storage.codec, env, storage.GetAuthToken(), storage.GetUserData()))
    {
      CrossAppNavigation.NavigateToInvestments(storage, loc, env);
    }
  }

  /** The stored items after `logoutOnServer`: the validation cache goes unless the server plainly refused. */
  function TokenValidationAfterLogout(items: map<string, string>, reply: TokenValidation.LogoutReply): (r: map<string, string>)
    ensures reply.LogoutThrew? ==> r == items - {TokenValidation.CacheKey}
  {
    match reply
    case LogoutThrew => items - {TokenValidation.CacheKey}
    case LogoutAnswer(data, status) =>
      if Truthy(data) || status == 200 then items - {TokenValidation.CacheKey} else items
  }

  /* ---------------------------------- properties ---------------------------------- */

  /** A token is stored exactly when the login answer carries a truthy one, and it is that token. */
  lemma LoginStoresTokenWhenPresent(login: Reply, account: Reply)
    ensures LoginEffectOf(login, account).token.Some? <==> login.Answer? && Truthy(TokenOf(login.response))
    ensures LoginEffectOf(login, account).token.Some? ==> LoginEffectOf(login, account).token.value == TokenOf(login.response)
  {
  }

  /**
   * After a token, the account lookup's user is stored exactly when it is
   * truthy and has an `account` member to index; missing fields take the
   * fallbacks.
   */
  lemma LoginStoresUserWithFallbacks(response: Json, accountResponse: Json)
    requires Truthy(TokenOf(response))
    ensures var userData := Member(Member(accountResponse, "data"), "result");
      var e := LoginEffectOf(Answer(response), Answer(accountResponse));
      (e.user.Some? <==> Truthy(userData) && Member(userData, "account") != JNull)
      && (e.user.Some? ==>
            Member(e.user.value, "name") == OrText(Member(Member(userData, "userInfo"), "username"), NameMissing)
            && Member(e.user.value, "email") == OrText(Member(Member(userData, "userInfo"), "email"), EmailMissing))
  {
  }

  /** A user record with no user info and an empty account list is stored with all three fallbacks. */
  lemma LoginFallbacksAllMissing(response: Json)
    requires Truthy(TokenOf(response))
    ensures LoginEffectOf(Answer(response), Answer(JObj(map["data" := JObj(map["result" := JObj(map["account" := JArr([])])])]))).user
            == Some(JObj(map["name" := JStr(NameMissing), "email" := JStr(EmailMissing), "accountId" := JStr(AccountMissing)]))
  {
  }

  /** A thrown login call resolves with status 401 and stores nothing. */
  lemma LoginExceptionIs401(account: Reply)
    ensures LoginEffectOf(Threw, account) == LoginEffect(None, None, LoginFailure)
    ensures Member(LoginEffectOf(Threw, account).result, "status") == JNum(401)
  {
  }

  /**
   * A failing account lookup after a stored token resolves with the 401
   * failure, yet the token it stored stays.
   */
  lemma AccountFailureKeepsToken(response: Json)
    requires Truthy(TokenOf(response))
    ensures LoginEffectOf(Answer(response), Threw) == LoginEffect(Some(TokenOf(response)), None, LoginFailure)
  {
  }

  /** Whatever the server does, logout leaves no session key behind and every other key but the cache. */
  lemma LogoutClearsSessionWhateverTheServer(items: map<string, string>, reply: TokenValidation.LogoutReply, other: string)
    requires other !in SessionKeys && other != TokenValidation.CacheKey
    ensures forall k :: k in SessionKeys ==> k !in TokenValidationAfterLogout(items, reply) - SessionKeys
    ensures other in TokenValidationAfterLogout(items, reply) - SessionKeys <==> other in items
  {
  }
}
