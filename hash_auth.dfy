/**
 * `HashAuthService`: the session handed from one application to another in
 * the URL fragment (section 3.5 of RFC 3986), either as
 * `#auth=<percent-encoded JSON of {token, userData}>`, as the older pair
 * `token=<encoded token>&user=<encoded JSON>`, or as the marker
 * `#logout=true`.  Fragments are the `location.hash` text, `#` included.
 */
module HashAuth {
  import opened Wrappers
  import opened Text
  import opened Json
  import opened PercentEncoding
  import opened Browser

  /** What `extractAuthFromHash` hands back. */
  datatype AuthData = AuthData(token: Json, userData: Json)

  /** The outcome of one decoding branch: a session, nothing there, or an exception. */
  datatype Outcome = Found(data: AuthData) | NotFound | Thrown

  predicate IsSep(c: char) {
    c == '#' || c == '&'
  }

  predicate NoAmp(s: string) {
    forall i :: 0 <= i < |s| ==> s[i] != '&'
  }

  /** The longest prefix of `s` without `&` (what `[^&]*` takes). */
  function Run(s: string): (r: string)
    ensures |r| <= |s| && r == s[..|r|] && NoAmp(r)
    ensures |r| < |s| ==> s[|r|] == '&'
  {
    s[..FirstIndexOf(s, '&')]
  }

  lemma RunWhole(v: string, rest: string)
    requires NoAmp(v)
    requires rest == [] || rest[0] == '&'
    ensures Run(v + rest) == v
  {
    var s := v + rest;
    forall j | 0 <= j < |v|
      ensures s[j] != '&'
    {
      assert s[j] == v[j];
    }
    assert |v| < |s| ==> s[|v|] == '&';
    assert s[..|v|] == v;
  }

  /**
   * The group captured by the regular expression `key([^&]+)`, with `key`
   * ending in `=`: the leftmost `key` followed by a character other than
   * `&`, and the run of such characters after it.
   */
  function Capture(s: string, key: string): (r: Option<string>)
    ensures r.Some? ==> r.value != [] && NoAmp(r.value) && Includes(s, key)
    decreases |s|
  {
    if |key| < |s| && StartsWith(s, key) && s[|key|] != '&' then Some(Run(s[|key|..]))
    else if s == [] then None
    else Capture(s[1..], key)
  }

  /** `key` at the very start, followed by a run that ends at `&` or at the end, is captured. */
  lemma CaptureAtStart(key: string, v: string, rest: string)
    requires v != [] && NoAmp(v)
    requires rest == [] || rest[0] == '&'
    ensures Capture(key + v + rest, key) == Some(v)
  {
    var s := key + v + rest;
    assert s[..|key|] == key;
    assert s[|key|] == v[0];
    assert s[|key|..] == v + rest;
    RunWhole(v, rest);
  }

  /** The JSON object `{token, userData}` that `createAuthUrl` serialises. */
  function AuthJson(token: Json, user: Json): (j: Json)
    ensures Member(j, "token") == token && Member(j, "userData") == user
  {
    JObj(map["token" := token, "userData" := user])
  }

  /**
   * The `auth=` branch: a captured payload that does not decode or parse
   * throws; a parsed `null` throws on the property access; a payload with a
   * truthy `token` and a truthy `userData` is the session.
   */
  function AuthStep(codec: JsonCodec, content: string): (r: Outcome)
    ensures r.Found? ==> Truthy(r.data.token) && Truthy(r.data.userData)
    ensures r.Found? || r.Thrown? ==> Includes(content, "auth=")
  {
    match Capture(content, "auth=")
    case None => NotFound
    case Some(v) =>
      match Decode(v)
      case None => Thrown
      case Some(text) =>
        match codec.parse(text)
        case None => Thrown
        case Some(parsed) =>
          if parsed == JNull then Thrown
          else if Truthy(Member(parsed, "token")) && Truthy(Member(parsed, "userData")) then
            Found(AuthData(Member(parsed, "token"), Member(parsed, "userData")))
          else NotFound
  }

  /**
   * The older `token=` + `user=` branch: the token is the decoded text, the
   * user the parsed decoded JSON; a failure in either throws.
   */
  function LegacyStep(codec: JsonCodec, content: string): (r: Outcome)
    ensures r.Found? ==> r.data.token.JStr? && r.data.token.s != ""
    ensures !r.NotFound? ==> Includes(content, "token=") && Includes(content, "user=")
  {
    var tokenMatch, userMatch := Capture(content, "token="), Capture(content, "user=");
    if tokenMatch.None? || userMatch.None? then NotFound
    else
      var t, u := tokenMatch.value, userMatch.value;
      match Decode(t)
      case None => Thrown
      case Some(token) =>
        DecodeNonEmpty(t);
        match Decode(u)
        case None => Thrown
        case Some(userText) =>
          match codec.parse(userText)
          case None => Thrown
          case Some(user) => Found(AuthData(JStr(token), user))
  }

  /** `extractAuthFromHash`, with the page's `location.hash` as `hash`. */
  function ExtractAuthFromHash(codec: JsonCodec, hasWindow: bool, hash: string): (r: Option<AuthData>)
    ensures !hasWindow || |hash| < 2 ==> r == None
    ensures r.Some? ==> AuthStep(codec, hash[1..]).Found? || LegacyStep(codec, hash[1..]).Found?
  {
    if !hasWindow || |hash| < 2 then None
    else
      var content := hash[1..];
      match AuthStep(codec, content)
      case Found(a) => Some(a)
      case Thrown => None
      case NotFound =>
        match LegacyStep(codec, content)
        case Found(a) => Some(a)
        case _ => None
  }

  /** `hasAuthInHash`. */
  predicate HasAuthInHash(hasWindow: bool, hash: string) {
    hasWindow && (Includes(hash, "auth=") || (Includes(hash, "token=") && Includes(hash, "user=")))
  }

  /** `createAuthUrl`: the base URL with the session as an `auth=` fragment. */
  function CreateAuthUrl(codec: JsonCodec, base: string, token: Json, user: Json): (r: string)
    ensures StartsWith(r, base + "#auth=")
    ensures EncodedAlphabet(r[|base| + 6..])
  {
    var r := base + "#auth=" + Encode(codec.stringify(AuthJson(token, user)));
    assert r[..|base| + 6] == base + "#auth=";
    assert r[|base| + 6..] == Encode(codec.stringify(AuthJson(token, user)));
    r
  }

  /** `createLogoutUrl`. */
  function CreateLogoutUrl(base: string): (r: string)
    ensures StartsWith(r, base) && r[|base|..] == "#logout=true"
  {
    base + "#logout=true"
  }

  /** `hasLogoutInHash`. */
  predicate HasLogoutInHash(hasWindow: bool, hash: string) {
    hasWindow && Includes(hash, "logout=true")
  }

  /* ---------- regular-expression replacement of one fragment part ---------- */

  /**
   * The length of a match of `[#&]?lit[^&]*` (with `run`) or `[#&]?lit`
   * (without) that starts at the first character of `s`; the optional
   * separator is tried first, as the regular-expression engine does.
   */
  function MatchAt(s: string, lit: string, run: bool): (r: Option<nat>)
    ensures r.Some? ==> r.value <= |s|
    ensures r.Some? ==> StartsWith(s, lit) || (|s| > 0 && IsSep(s[0]) && StartsWith(s[1..], lit))
  {
    if |s| > 0 && IsSep(s[0]) && StartsWith(s[1..], lit) then
      Some(1 + |lit| + (if run then |Run(s[1 + |lit|..])| else 0))
    else if StartsWith(s, lit) then
      Some(|lit| + (if run then |Run(s[|lit|..])| else 0))
    else None
  }

  /** The leftmost match: its position and length. */
  function FirstMatch(s: string, lit: string, run: bool): (r: Option<(nat, nat)>)
    ensures r.Some? ==> r.value.0 + r.value.1 <= |s|
    ensures r.Some? ==> MatchAt(s[r.value.0..], lit, run) == Some(r.value.1)
    ensures r.Some? ==> forall j :: 0 <= j < r.value.0 ==> MatchAt(s[j..], lit, run).None?
    ensures r.None? ==> forall j :: 0 <= j <= |s| ==> MatchAt(s[j..], lit, run).None?
    decreases |s|
  {
    match MatchAt(s, lit, run)
    case Some(k) => Some((0, k))
    case None =>
      if s == [] then None
      else
        var r := FirstMatch(s[1..], lit, run);
        assert forall j :: 1 <= j <= |s| ==> s[j..] == s[1..][j - 1..];
        match r
        case None => None
        case Some((i, k)) => Some((i + 1, k))
  }

  /** `s.replace(regex, "")` for a regular expression without the `g` flag: the first match is cut out. */
  function ReplaceFirst(s: string, lit: string, run: bool): (r: string)
    ensures FirstMatch(s, lit, run).None? ==> r == s
    ensures FirstMatch(s, lit, run).Some? ==>
      var (i, k) := FirstMatch(s, lit, run).value; r == s[..i] + s[i + k..]
  {
    match FirstMatch(s, lit, run)
    case None => s
    case Some((i, k)) => s[..i] + s[i + k..]
  }

  /** `s.replace(/^[#&]+/, "")`. */
  function StripSeps(s: string): (r: string)
    ensures |r| <= |s| && r == s[|s| - |r|..]
    ensures r == [] || !IsSep(r[0])
    ensures forall i :: 0 <= i < |s| - |r| ==> IsSep(s[i])
  {
    if s != [] && IsSep(s[0]) then StripSeps(s[1..]) else s
  }

  /** The fragment `clearAuthHash` keeps (without its `#`). */
  function AuthCleared(hash: string): string {
    var h1 := ReplaceFirst(hash, "auth=", true);
    var h2 := ReplaceFirst(h1, "token=", true);
    var h3 := ReplaceFirst(h2, "user=", true);
    var h4 := ReplaceFirst(h3, "logout=true", false);
    StripSeps(h4)
  }

  /** The fragment `clearLogoutHash` keeps (without its `#`). */
  function LogoutCleared(hash: string): string {
    StripSeps(ReplaceFirst(hash, "logout=true", false))
  }

  /** `(newHash ? "#" + newHash : "")`. */
  function FragmentOf(newHash: string): (f: string)
    ensures newHash == "" ==> f == ""
    ensures newHash != "" ==> f == "#" + newHash
  {
    if newHash != "" then "#" + newHash else ""
  }

  /** `clearAuthHash`: the recognised session parts are removed from the current history entry. */
  method ClearAuthHash(loc: Location?)
    modifies loc
    ensures loc != null && old(loc.hash) != "" ==>
      loc.pathname == old(loc.pathname) && loc.search == old(loc.search)
      && loc.hash == FragmentOf(AuthCleared(old(loc.hash))) && loc.navigation == old(loc.navigation)
    ensures loc != null && old(loc.hash) == "" ==> unchanged(loc)
  {
    if loc == null {
      return;
    }
    var hash := loc.hash;
    if hash == "" {
      return;
    }
    var newHash := ReplaceFirst(hash, "auth=", true);
    newHash := ReplaceFirst(newHash, "token=", true);
    newHash := ReplaceFirst(newHash, "user=", true);
    newHash := ReplaceFirst(newHash, "logout=true", false);
    newHash := StripSeps(newHash);
    loc.ReplaceState(loc.pathname, loc.search, if newHash != "" then "#" + newHash else "");
  }

  /** `clearLogoutHash`: only the logout marker is removed from the current history entry. */
  method ClearLogoutHash(loc: Location?)
    modifies loc
    ensures loc != null && old(loc.hash) != "" ==>
      loc.pathname == old(loc.pathname) && loc.search == old(loc.search)
      && loc.hash == FragmentOf(LogoutCleared(old(loc.hash))) && loc.navigation == old(loc.navigation)
    ensures loc != null && old(loc.hash) == "" ==> unchanged(loc)
  {
    if loc == null {
      return;
    }
    var hash := loc.hash;
    if hash == "" {
      return;
    }
    var newHash := ReplaceFirst(hash, "logout=true", false);
    newHash := StripSeps(newHash);
    loc.ReplaceState(loc.pathname, loc.search, if newHash != "" then "#" + newHash else "");
  }

  /** `redirectWithAuth`: the page navigates to the URL carrying the session. */
  method RedirectWithAuth(loc: Location, codec: JsonCodec, target: string, token: Json, user: Json)
    modifies loc
    ensures loc.navigation == Some(CreateAuthUrl(codec, target, token, user))
    ensures loc.pathname == old(loc.pathname) && loc.search == old(loc.search) && loc.hash == old(loc.hash)
  {
    loc.Assign(CreateAuthUrl(codec, target, token, user));
  }

  /** `redirectWithLogout`: the page navigates to the URL carrying the logout marker. */
  method RedirectWithLogout(loc: Location, target: string)
    modifies loc
    ensures loc.navigation == Some(target + "#logout=true")
    ensures loc.pathname == old(loc.pathname) && loc.search == old(loc.search) && loc.hash == old(loc.hash)
  {
    loc.Assign(CreateLogoutUrl(target));
  }

  /* ---------------------------------- properties ---------------------------------- */

  lemma DecodeNonEmpty(t: string)
    requires t != [] && Decode(t).Some?
    ensures Decode(t).value != []
  {
  }

  lemma NoAmpInEncoding(text: string)
    ensures NoAmp(Encode(text))
  {
    forall i | 0 <= i < |Encode(text)|
      ensures Encode(text)[i] != '&'
    {
      EncodedHasNoSeparator(text, i);
    }
  }

  /**
   * Round trip: the page reached through `createAuthUrl(base, token, user)`
   * reads back exactly that token and user, when both are truthy (a
   * non-empty token string, a user object).
   */
  lemma AuthUrlRoundTrip(codec: JsonCodec, base: string, token: Json, user: Json)
    requires Lawful(codec)
    requires forall i :: 0 <= i < |base| ==> base[i] != '#'
    requires Truthy(token) && Truthy(user)
    ensures ExtractAuthFromHash(codec, true, HashOf(CreateAuthUrl(codec, base, token, user)))
            == Some(AuthData(token, user))
  {
    var text := codec.stringify(AuthJson(token, user));
    AuthUrlHash(codec, base, token, user);
    NoAmpInEncoding(text);
    DecodeEncode(text);
    assert codec.parse(text) == Some(AuthJson(token, user));
    ExtractFromAuthHash(codec, Encode(text), text, token, user);
  }

  /** A fragment `#auth=<e>` whose payload decodes and parses to a complete session yields it. */
  lemma ExtractFromAuthHash(codec: JsonCodec, e: string, text: string, token: Json, user: Json)
    requires e != [] && NoAmp(e) && Decode(e) == Some(text)
    requires codec.parse(text) == Some(AuthJson(token, user))
    requires Truthy(token) && Truthy(user)
    ensures ExtractAuthFromHash(codec, true, "#auth=" + e) == Some(AuthData(token, user))
  {
    assert ("#auth=" + e)[1..] == "auth=" + e;
    CapturedPayload(e);
  }

  /** The fragment of a URL made by `createAuthUrl`. */
  lemma AuthUrlHash(codec: JsonCodec, base: string, token: Json, user: Json)
    requires forall i :: 0 <= i < |base| ==> base[i] != '#'
    ensures HashOf(CreateAuthUrl(codec, base, token, user)) == "#auth=" + Encode(codec.stringify(AuthJson(token, user)))
  {
    var e := Encode(codec.stringify(AuthJson(token, user)));
    assert CreateAuthUrl(codec, base, token, user) == base + "#auth=" + e;
    HashAfterBase(base, e);
  }

  lemma HashAfterBase(base: string, e: string)
    requires forall i :: 0 <= i < |base| ==> base[i] != '#'
    ensures HashOf(base + "#auth=" + e) == "#auth=" + e
  {
    HashOfAppended(base, "auth=" + e);
    assert base + "#auth=" + e == base + "#" + ("auth=" + e);
    assert "#" + ("auth=" + e) == "#auth=" + e;
  }

  lemma CapturedPayload(e: string)
    requires e != [] && NoAmp(e)
    ensures Capture("auth=" + e, "auth=") == Some(e)
  {
    CaptureAtStart("auth=", e, []);
    assert "auth=" + e + [] == "auth=" + e;
  }

  /** A page whose extraction succeeds is one where `hasAuthInHash` holds. */
  lemma ExtractedImpliesHasAuth(codec: JsonCodec, hasWindow: bool, hash: string)
    requires ExtractAuthFromHash(codec, hasWindow, hash).Some?
    ensures HasAuthInHash(hasWindow, hash)
  {
    assert hash == [hash[0]] + hash[1..];
    var content := hash[1..];
    if AuthStep(codec, content).Found? {
      IncludesConcat([hash[0]], content, "auth=");
    } else {
      IncludesConcat([hash[0]], content, "token=");
      IncludesConcat([hash[0]], content, "user=");
    }
  }

  /** An `auth=` payload that does not percent-decode or does not parse yields no session. */
  lemma UndecodablePayloadIsNull(codec: JsonCodec, hash: string, v: string)
    requires |hash| >= 2 && Capture(hash[1..], "auth=") == Some(v)
    requires Decode(v).None? || codec.parse(Decode(v).value).None?
    ensures ExtractAuthFromHash(codec, true, hash) == None
  {
  }

  /**
   * An `auth=` payload without a truthy `token` or `userData` falls through:
   * with no `token=` part anywhere in the fragment, there is no session.
   */
  lemma IncompletePayloadWithoutLegacyIsNull(codec: JsonCodec, hash: string, v: string, parsed: Json)
    requires |hash| >= 2 && Capture(hash[1..], "auth=") == Some(v)
    requires Decode(v).Some? && codec.parse(Decode(v).value) == Some(parsed) && parsed != JNull
    requires !Truthy(Member(parsed, "token")) || !Truthy(Member(parsed, "userData"))
    requires !Includes(hash[1..], "token=")
    ensures ExtractAuthFromHash(codec, true, hash) == None
  {
    assert AuthStep(codec, hash[1..]).NotFound?;
  }

  /** A fragment of the form `#logout=true` is recognised as a logout. */
  lemma LogoutUrlDetected(base: string)
    requires forall i :: 0 <= i < |base| ==> base[i] != '#'
    ensures HashOf(CreateLogoutUrl(base)) == "#logout=true"
    ensures HasLogoutInHash(true, HashOf(CreateLogoutUrl(base)))
  {
    HashOfAppended(base, "logout=true");
    assert "#logout=true" == ['#'] + "logout=true";
    IncludesPrefix("logout=true", "logout=true", []);
    IncludesConcat(['#'], "logout=true", "logout=true");
  }

  /** A match can only start where the literal (after an optional separator) is. */
  lemma MatchImpliesIncludes(s: string, lit: string, run: bool)
    requires FirstMatch(s, lit, run).Some?
    ensures Includes(s, lit)
  {
    var i := FirstMatch(s, lit, run).value.0;
    var t := s[i..];
    IncludesAt(s, lit);
    if StartsWith(t, lit) {
      assert StartsWith(s[i..], lit);
    } else {
      assert t[1..] == s[i + 1..];
      assert StartsWith(s[i + 1..], lit);
    }
  }

  /** Without a logout marker, `clearLogoutHash` only drops leading separators. */
  lemma LogoutClearWithoutMarker(hash: string)
    requires !Includes(hash, "logout=true")
    ensures LogoutCleared(hash) == StripSeps(hash)
  {
    if FirstMatch(hash, "logout=true", false).Some? {
      MatchImpliesIncludes(hash, "logout=true", false);
    }
  }

  /**
   * A leading marker is removed with its `#` and the separator after it;
   * the rest of the fragment is kept as it is.
   */
  lemma LogoutClearLeadingMarker(rest: string)
    requires rest == [] || !IsSep(rest[0])
    ensures LogoutCleared("#logout=true" + rest) == rest
    ensures LogoutCleared("#logout=true" + "&" + rest) == rest
  {
    MarkerCut(rest);
    assert StripSeps(rest) == rest;
    MarkerAmpCut(rest);
    StripOneAmp(rest);
  }

  lemma MarkerAmpCut(rest: string)
    ensures ReplaceFirst("#logout=true" + "&" + rest, "logout=true", false) == "&" + rest
  {
    MarkerCut("&" + rest);
    assert "#logout=true" + "&" + rest == "#logout=true" + ("&" + rest);
  }

  lemma StripOneAmp(rest: string)
    ensures StripSeps("&" + rest) == StripSeps(rest)
  {
    assert ("&" + rest)[1..] == rest;
  }

  /** A match at the very start is cut out of the front. */
  lemma LeadingMatchCut(s: string, lit: string, run: bool, k: nat)
    requires MatchAt(s, lit, run) == Some(k)
    ensures ReplaceFirst(s, lit, run) == s[k..]
  {
    assert FirstMatch(s, lit, run) == Some((0, k));
    assert s[..0] + s[k..] == s[k..];
  }

  lemma MarkerCut(rest: string)
    ensures ReplaceFirst("#logout=true" + rest, "logout=true", false) == rest
  {
    var h := "#logout=true" + rest;
    assert h[1..][..11] == "logout=true";
    assert MatchAt(h, "logout=true", false) == Some(12);
    LeadingMatchCut(h, "logout=true", false, 12);
    assert h[12..] == rest;
  }

  /** `clearLogoutHash` on the fragment of a logout URL leaves no fragment. */
  lemma LogoutUrlCleared(base: string)
    requires forall i :: 0 <= i < |base| ==> base[i] != '#'
    ensures FragmentOf(LogoutCleared(HashOf(CreateLogoutUrl(base)))) == ""
  {
    LogoutUrlDetected(base);
    LogoutClearLeadingMarker([]);
    assert "#logout=true" + [] == "#logout=true";
  }

  lemma WholeAuthPartCut(e: string)
    requires NoAmp(e)
    ensures ReplaceFirst("#auth=" + e, "auth=", true) == []
  {
    var h := "#auth=" + e;
    assert h[1..][..5] == "auth=";
    assert h[6..] == e;
    RunWhole(e, []);
    assert e + [] == e;
    assert MatchAt(h, "auth=", true) == Some(|h|);
    LeadingMatchCut(h, "auth=", true, |h|);
  }

  lemma ReplaceFirstEmpty(lit: string, run: bool)
    requires lit != []
    ensures ReplaceFirst([], lit, run) == []
  {
  }

  /** `clearAuthHash` on the fragment of a URL made by `createAuthUrl` leaves path and query only. */
  lemma AuthUrlCleared(codec: JsonCodec, base: string, token: Json, user: Json)
    requires Lawful(codec)
    requires forall i :: 0 <= i < |base| ==> base[i] != '#'
    ensures FragmentOf(AuthCleared(HashOf(CreateAuthUrl(codec, base, token, user)))) == ""
  {
    var text := codec.stringify(AuthJson(token, user));
    AuthUrlHash(codec, base, token, user);
    NoAmpInEncoding(text);
    WholeAuthPartCut(Encode(text));
    ReplaceFirstEmpty("token=", true);
    ReplaceFirstEmpty("user=", true);
    ReplaceFirstEmpty("logout=true", false);
  }
}
