/**
 * `TokenValidationService`: the session token is checked with the server at
 * most once every five minutes.  The time of the last successful check is
 * kept as decimal text in `localStorage`; the clock (`Date.now()`) and the
 * server's answers are inputs.
 */
module TokenValidation {
  import opened Wrappers
  import opened Text
  import opened Json
  import opened Browser

  const CacheKey := "@bytebank/last-token-validation"

  /** Five minutes, in milliseconds. */
  const CacheDuration := 5 * 60 * 1000

  /* ------------------------- decimal text of timestamps ------------------------- */

  predicate IsDigit(c: char) {
    '0' <= c <= '9'
  }

  predicate AllDigits(s: string) {
    forall i :: 0 <= i < |s| ==> IsDigit(s[i])
  }

  /** The number a run of decimal digits denotes. */
  function DigitsValue(d: string): nat
    requires AllDigits(d)
  {
    if d == [] then 0 else DigitsValue(d[..|d| - 1]) * 10 + (d[|d| - 1] as int - '0' as int)
  }

  /** The length of the run of decimal digits `s` starts with. */
  function DigitRun(s: string): (n: nat)
    ensures n <= |s| && AllDigits(s[..n])
    ensures n < |s| ==> !IsDigit(s[n])
  {
    if s == [] || !IsDigit(s[0]) then 0
    else
      var m := DigitRun(s[1..]);
      assert s[..1 + m] == [s[0]] + s[1..][..m];
      1 + m
  }

  /**
   * `parseInt(s, 10)`: leading whitespace is skipped, one sign is allowed,
   * and the longest run of digits after it is read; `None` is `NaN`, the
   * answer when there is no digit there.
   */
  function ParseInt(s: string): (r: Option<int>)
  {
    var t := TrimStart(s);
    var negative := t != [] && t[0] == '-';
    var body := if t != [] && (t[0] == '-' || t[0] == '+') then t[1..] else t;
    var n := DigitRun(body);
    if n == 0 then None
    else
      var v: int := DigitsValue(body[..n]);
      Some(if negative then -v else v)
  }

  function DigitChar(d: nat): (c: char)
    requires d < 10
    ensures IsDigit(c) && c as int - '0' as int == d
  {
    ('0' as int + d) as char
  }

  /** `n.toString()` for a non-negative integer. */
  function NatToString(n: nat): (s: string)
    ensures s != [] && AllDigits(s)
  {
    if n < 10 then [DigitChar(n)] else NatToString(n / 10) + [DigitChar(n % 10)]
  }

  lemma {:induction false} DigitsValueOfNatToString(n: nat)
    ensures DigitsValue(NatToString(n)) == n
  {
    if n >= 10 {
      var s := NatToString(n);
      assert s[..|s| - 1] == NatToString(n / 10);
      DigitsValueOfNatToString(n / 10);
    }
  }

  /** `parseInt` reads back what `toString` wrote. */
  lemma ParseIntOfNatToString(n: nat)
    ensures ParseInt(NatToString(n)) == Some(n)
  {
    var s := NatToString(n);
    assert !IsJsSpace(s[0]);
    assert TrimStart(s) == s;
    assert DigitRun(s) == |s|;
    assert s[..|s|] == s;
    DigitsValueOfNatToString(n);
  }

  /* --------------------------------- the cache --------------------------------- */

  /**
   * The cached time as `getLastValidationTime` reads it from the stored
   * items: `stored ? parseInt(stored, 10) : null`.  `None` stands for both
   * `null` and `NaN`, which every caller treats alike (both are falsy).
   */
  function StoredTime(items: map<string, string>): (r: Option<int>)
    ensures CacheKey !in items ==> r == None
  {
    if CacheKey !in items || items[CacheKey] == "" then None else ParseInt(items[CacheKey])
  }

  /** `!lastValidation || now - lastValidation >= CACHE_DURATION` (`0` is falsy too). */
  predicate NeedsValidationAt(last: Option<int>, now: int) {
    last.None? || last.value == 0 || now - last.value >= CacheDuration
  }

  /** What `authService.validateToken()` does: it throws, or answers with `response.data`. */
  datatype ValidateReply = ValidateThrew | ValidateAnswer(data: Json)

  /** `response.data?.result?.valid` is truthy. */
  predicate ReportsValid(data: Json) {
    Truthy(Member(Member(data, "result"), "valid"))
  }

  /** The answer object; a missing `userData` is `JNull` and a missing `shouldLogout` is `false`. */
  datatype ValidationResult = ValidationResult(isValid: bool, userData: Json, shouldLogout: bool)

  /**
   * The result of asking the server: valid with the server's user, or
   * invalid with a logout demanded; an exception is valid when `failOpen`
   * (the cached variant) and a demanded logout otherwise (the forced one).
   */
  function ServerVerdict(reply: ValidateReply, failOpen: bool): (r: ValidationResult)
    ensures r.isValid <==> r.shouldLogout == false
    ensures reply.ValidateAnswer? ==> (r.isValid <==> ReportsValid(reply.data))
    ensures reply.ValidateThrew? ==> (r.isValid <==> failOpen)
    ensures r.userData != JNull ==> reply.ValidateAnswer? && r.userData == Member(Member(reply.data, "result"), "user")
  {
    match reply
    case ValidateThrew =>
      if failOpen then ValidationResult(true, JNull, false) else ValidationResult(false, JNull, true)
    case ValidateAnswer(d) =>
      if ReportsValid(d) then ValidationResult(true, Member(Member(d, "result"), "user"), false)
      else ValidationResult(false, JNull, true)
  }

  /** The stored items after the server was asked at `now`. */
  function CacheAfter(items: map<string, string>, now: nat, reply: ValidateReply): (r: map<string, string>)
    ensures forall k :: k != CacheKey ==> (k in r <==> k in items) && (k in r ==> r[k] == items[k])
  {
    match reply
    case ValidateThrew => items
    case ValidateAnswer(d) =>
      if ReportsValid(d) then items[CacheKey := NatToString(now)] else items - {CacheKey}
  }

  /** What `authService.logout()` does: it throws, or answers with `data` and `status`. */
  datatype LogoutReply = LogoutThrew | LogoutAnswer(data: Json, status: int)

  /** The service, over the storage of the page's origin (`null` without a window). */
  class TokenValidationService {
    const store: LocalStorage?

    constructor(store: LocalStorage?)
      ensures this.store == store
    {
      this.store := store;
    }

    /** `getLastValidationTime`. */
    function LastValidationTime(): (r: Option<int>)
      reads store
      ensures store == null ==> r == None
    {
      if store == null then None else StoredTime(store.items)
    }

    /** `needsValidation`. */
    predicate NeedsValidation(now: int)
      reads store
    {
      NeedsValidationAt(LastValidationTime(), now)
    }

    /** `setLastValidationTime`: the decimal text of `timestamp`; nothing without a window. */
    method SetLastValidationTime(timestamp: nat)
      modifies store
      ensures store != null ==> store.items == old(store.items)[CacheKey := NatToString(timestamp)]
      ensures store != null ==> LastValidationTime() == Some(timestamp)
    {
      if store == null {
        return;
      }
      store.SetItem(CacheKey, NatToString(timestamp));
      ParseIntOfNatToString(timestamp);
    }

    /** `clearValidationCache`. */
    method ClearValidationCache()
      modifies store
      ensures store != null ==> store.items == old(store.items) - {CacheKey}
      ensures LastValidationTime() == None
    {
      if store == null {
        return;
      }
      store.RemoveItem(CacheKey);
    }

    /**
     * `validateTokenWithCache` at time `now`; `reply` is what the server
     * would answer.  It is consulted exactly when `needsValidation` held.
     */
    method ValidateTokenWithCache(now: nat, reply: ValidateReply) returns (result: ValidationResult, askedServer: bool)
      modifies store
      ensures askedServer == old(NeedsValidation(now))
      ensures !askedServer ==> result == ValidationResult(true, JNull, false)
      ensures askedServer ==> result == ServerVerdict(reply, true)
      ensures store != null ==>
        store.items == (if askedServer then CacheAfter(old(store.items), now, reply) else old(store.items))
    {
      var last := LastValidationTime();
      if last.Some? && last.value != 0 && now - last.value < CacheDuration {
        return ValidationResult(true, JNull, false), false;
      }
      askedServer := true;
      match reply
      case ValidateThrew =>
        result := ValidationResult(true, JNull, false);
      case ValidateAnswer(d) =>
        if ReportsValid(d) {
          SetLastValidationTime(now);
          result := ValidationResult(true, Member(Member(d, "result"), "user"), false);
        } else {
          ClearValidationCache();
          result := ValidationResult(false, JNull, true);
        }
    }

    /** `forceValidateToken`: the server is always asked; an exception demands a logout. */
    method ForceValidateToken(now: nat, reply: ValidateReply) returns (result: ValidationResult)
      modifies store
      ensures result == ServerVerdict(reply, false)
      ensures store != null ==> store.items == CacheAfter(old(store.items), now, reply)
    {
      match reply
      case ValidateThrew =>
        result := ValidationResult(false, JNull, true);
      case ValidateAnswer(d) =>
        if ReportsValid(d) {
          SetLastValidationTime(now);
          result := ValidationResult(true, Member(Member(d, "result"), "user"), false);
        } else {
          ClearValidationCache();
          result := ValidationResult(false, JNull, true);
        }
    }

    /**
     * `logoutOnServer`: success when the answer has data or status 200;
     * the cache is cleared on success and on an exception, and kept on a
     * plain failure.
     */
    method LogoutOnServer(reply: LogoutReply) returns (ok: bool)
      modifies store
      ensures ok <==> reply.LogoutAnswer? && (Truthy(reply.data) || reply.status == 200)
      ensures store != null && (ok || reply.LogoutThrew?) ==> store.items == old(store.items) - {CacheKey}
      ensures store != null && !ok && reply.LogoutAnswer? ==> store.items == old(store.items)
    {
      match reply
      case LogoutThrew =>
        ClearValidationCache();
        ok := false;
      case LogoutAnswer(data, status) =>
        if Truthy(data) || status == 200 {
          ClearValidationCache();
          ok := true;
        } else {
          ok := false;
        }
    }
  }

  /* ---------------------------------- properties ---------------------------------- */

  /**
   * After the server reports the token valid at a non-zero time `now`, no
   * validation is needed at `later` exactly while fewer than five minutes
   * have passed.
   */
  lemma ValidAnswerCachedForFiveMinutes(items: map<string, string>, now: nat, data: Json, later: int)
    requires ReportsValid(data) && now != 0
    ensures StoredTime(CacheAfter(items, now, ValidateAnswer(data))) == Some(now)
    ensures NeedsValidationAt(StoredTime(CacheAfter(items, now, ValidateAnswer(data))), later)
            <==> later - now >= CacheDuration
  {
    ParseIntOfNatToString(now);
  }

  /** After a "not valid" answer the next check asks the server again, whenever it comes. */
  lemma InvalidAnswerForgetsCache(items: map<string, string>, now: nat, data: Json, later: int)
    requires !ReportsValid(data)
    ensures NeedsValidationAt(StoredTime(CacheAfter(items, now, ValidateAnswer(data))), later)
  {
  }

  /** An exception keeps the stored time, and it fails open or closed by variant. */
  lemma ExceptionVerdicts(items: map<string, string>, now: nat)
    ensures CacheAfter(items, now, ValidateThrew) == items
    ensures ServerVerdict(ValidateThrew, true) == ValidationResult(true, JNull, false)
    ensures ServerVerdict(ValidateThrew, false) == ValidationResult(false, JNull, true)
  {
  }

  /** A stored text that is not a number reads as no validation at all. */
  lemma GarbageNeedsValidation(items: map<string, string>, now: int)
    requires CacheKey in items && ParseInt(items[CacheKey]).None?
    ensures NeedsValidationAt(StoredTime(items), now)
  {
  }
}
