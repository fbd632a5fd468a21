/**
 * `encodeURIComponent` / `decodeURIComponent`: percent-encoding as in
 * section 2.1 of RFC 3986, with every character outside the unreserved set
 * of `encodeURIComponent` written as the `%XX` escapes of its UTF-8 bytes.
 */
module PercentEncoding {
  import opened Wrappers

  /** The characters `encodeURIComponent` leaves as they are. */
  predicate Unreserved(c: char) {
    ('A' <= c <= 'Z') || ('a' <= c <= 'z') || ('0' <= c <= '9')
    || c == '-' || c == '_' || c == '.' || c == '!' || c == '~' || c == '*'
    || c == '\'' || c == '(' || c == ')'
  }

  /** The alphabet of encoded text: unreserved characters and `%`. */
  predicate EncodedAlphabet(s: string) {
    forall i :: 0 <= i < |s| ==> Unreserved(s[i]) || s[i] == '%'
  }

  function HexDigit(d: int): (c: char)
    requires 0 <= d < 16
    ensures Unreserved(c)
  {
    if d < 10 then ('0' as int + d) as char else ('A' as int + d - 10) as char
  }

  /** The value of a hexadecimal digit of either case. */
  function HexValue(c: char): Option<int> {
    if '0' <= c <= '9' then Some(c as int - '0' as int)
    else if 'A' <= c <= 'F' then Some(c as int - 'A' as int + 10)
    else if 'a' <= c <= 'f' then Some(c as int - 'a' as int + 10)
    else None
  }

  lemma HexRoundTrip(d: int)
    requires 0 <= d < 16
    ensures HexValue(HexDigit(d)) == Some(d)
  {
  }

  /** The `%XX` escape of one byte. */
  function EscapeByte(b: int): (r: string)
    requires 0 <= b < 256
    ensures |r| == 3 && EncodedAlphabet(r)
  {
    ['%', HexDigit(b / 16), HexDigit(b % 16)]
  }

  /** The UTF-8 bytes of a Unicode scalar value, escaped. */
  function EscapeChar(c: char): (r: string)
    ensures EncodedAlphabet(r) && |r| >= 3
  {
    var n := c as int;
    if n < 0x80 then EscapeByte(n)
    else if n < 0x800 then Escape2(n)
    else if n < 0x10000 then Escape3(n)
    else Escape4(n)
  }

  function Escape2(n: int): (r: string)
    requires 0x80 <= n < 0x800
    ensures EncodedAlphabet(r) && |r| == 6
  {
    EscapeByte(0xC0 + n / 64) + EscapeByte(0x80 + n % 64)
  }

  function Escape3(n: int): (r: string)
    requires 0x800 <= n < 0x10000
    ensures EncodedAlphabet(r) && |r| == 9
  {
    EscapeByte(0xE0 + n / 4096) + EscapeByte(0x80 + (n / 64) % 64) + EscapeByte(0x80 + n % 64)
  }

  function Escape4(n: int): (r: string)
    requires 0x10000 <= n < 0x110000
    ensures EncodedAlphabet(r) && |r| == 12
  {
    EscapeByte(0xF0 + n / 262144) + EscapeByte(0x80 + (n / 4096) % 64)
    + EscapeByte(0x80 + (n / 64) % 64) + EscapeByte(0x80 + n % 64)
  }

  function EncodeChar(c: char): string {
    if Unreserved(c) then [c] else EscapeChar(c)
  }

  /** `encodeURIComponent(s)`. */
  function Encode(s: string): (r: string)
    ensures EncodedAlphabet(r)
    ensures |r| >= |s|
  {
    if s == [] then [] else EncodeChar(s[0]) + Encode(s[1..])
  }

  /** The byte written as `%XX` at position `i` of `s`, if there is one. */
  function ByteAt(s: string, i: nat): Option<int> {
    if i + 3 <= |s| && s[i] == '%' && HexValue(s[i + 1]).Some? && HexValue(s[i + 2]).Some?
    then Some(16 * HexValue(s[i + 1]).value + HexValue(s[i + 2]).value)
    else None
  }

  predicate IsContinuation(b: Option<int>) {
    b.Some? && 0x80 <= b.value < 0xC0
  }

  function ScalarOf(n: int): Option<char> {
    if 0 <= n < 0xD800 || 0xE000 <= n < 0x110000 then Some(n as char) else None
  }

  /**
   * Decodes the escapes of one UTF-8 sequence at the start of `s`, with the
   * number of characters they take; `None` where `decodeURIComponent` throws
   * a URIError (a bad escape, a bad or overlong sequence, a surrogate).
   */
  function DecodeEscape(s: string): (r: Option<(char, nat)>)
    ensures r.Some? ==> 3 <= r.value.1 <= |s|
  {
    var b0 := ByteAt(s, 0);
    if b0.None? then None
    else if b0.value < 0x80 then Some((b0.value as char, 3))
    else if 0xC0 <= b0.value < 0xE0 then
      var b1 := ByteAt(s, 3);
      if !IsContinuation(b1) then None
      else
        var n := (b0.value - 0xC0) * 64 + (b1.value - 0x80);
        if n < 0x80 then None else Some((n as char, 6))
    else if 0xE0 <= b0.value < 0xF0 then
      var b1, b2 := ByteAt(s, 3), ByteAt(s, 6);
      if !IsContinuation(b1) || !IsContinuation(b2) then None
      else
        var n := (b0.value - 0xE0) * 4096 + (b1.value - 0x80) * 64 + (b2.value - 0x80);
        if n < 0x800 || ScalarOf(n).None? then None else Some((ScalarOf(n).value, 9))
    else if 0xF0 <= b0.value < 0xF8 then
      var b1, b2, b3 := ByteAt(s, 3), ByteAt(s, 6), ByteAt(s, 9);
      if !IsContinuation(b1) || !IsContinuation(b2) || !IsContinuation(b3) then None
      else
        var n := (b0.value - 0xF0) * 262144 + (b1.value - 0x80) * 4096
                 + (b2.value - 0x80) * 64 + (b3.value - 0x80);
        if n < 0x10000 || ScalarOf(n).None? then None else Some((ScalarOf(n).value, 12))
    else None
  }

  /** `decodeURIComponent(s)`; `None` where it throws. */
  function Decode(s: string): Option<string>
    decreases |s|
  {
    if s == [] then Some([])
    else if s[0] != '%' then
      match Decode(s[1..])
      case None => None
      case Some(t) => Some([s[0]] + t)
    else
      match DecodeEscape(s)
      case None => None
      case Some((c, k)) =>
        match Decode(s[k..])
        case None => None
        case Some(t) => Some([c] + t)
  }

  lemma ByteAtEscape(b: int, pre: string, rest: string)
    requires 0 <= b < 256
    ensures ByteAt(pre + EscapeByte(b) + rest, |pre|) == Some(b)
  {
    var s := pre + EscapeByte(b) + rest;
    assert s[|pre|] == '%' && s[|pre| + 1] == HexDigit(b / 16) && s[|pre| + 2] == HexDigit(b % 16);
    HexRoundTrip(b / 16);
    HexRoundTrip(b % 16);
  }

  lemma Digits2(n: int)
    requires 0x80 <= n < 0x800
    ensures 0xC0 <= 0xC0 + n / 64 < 0xE0 && (n / 64) * 64 + n % 64 == n
  {
  }

  lemma Digits3(n: int)
    requires 0x800 <= n < 0x10000
    ensures 0xE0 <= 0xE0 + n / 4096 < 0xF0
    ensures (n / 4096) * 4096 + ((n / 64) % 64) * 64 + n % 64 == n
  {
    assert n / 64 == (n / 4096) * 64 + (n / 64) % 64;
  }

  lemma Digits4(n: int)
    requires 0x10000 <= n < 0x110000
    ensures 0xF0 <= 0xF0 + n / 262144 < 0xF8
    ensures (n / 262144) * 262144 + ((n / 4096) % 64) * 4096 + ((n / 64) % 64) * 64 + n % 64 == n
  {
    assert n / 4096 == (n / 262144) * 64 + (n / 4096) % 64;
    assert n / 64 == (n / 4096) * 64 + (n / 64) % 64;
  }

  lemma DecodeEscape1(c: char, rest: string)
    requires c as int < 0x80
    ensures DecodeEscape(EscapeChar(c) + rest) == Some((c, 3))
  {
    ByteAtEscape(c as int, [], rest);
    assert [] + EscapeByte(c as int) + rest == EscapeChar(c) + rest;
  }

  /** Two escapes holding a well-formed two-byte sequence decode to one character. */
  lemma DecodeTwo(b0: int, b1: int, rest: string)
    requires 0xC0 <= b0 < 0xE0 && 0x80 <= b1 < 0xC0
    requires (b0 - 0xC0) * 64 + (b1 - 0x80) >= 0x80
    ensures DecodeEscape(EscapeByte(b0) + EscapeByte(b1) + rest)
            == Some((((b0 - 0xC0) * 64 + (b1 - 0x80)) as char, 6))
  {
    var e0, e1 := EscapeByte(b0), EscapeByte(b1);
    var s := e0 + e1 + rest;
    assert ByteAt(s, 0) == Some(b0) by {
      ByteAtEscape(b0, [], e1 + rest);
      assert [] + e0 + (e1 + rest) == s;
    }
    assert ByteAt(s, 3) == Some(b1) by { ByteAtEscape(b1, e0, rest); }
    DecodeBytes2(s, b0, b1);
  }

  lemma DecodeBytes2(s: string, b0: int, b1: int)
    requires 0xC0 <= b0 < 0xE0 && 0x80 <= b1 < 0xC0
    requires (b0 - 0xC0) * 64 + (b1 - 0x80) >= 0x80
    requires ByteAt(s, 0) == Some(b0) && ByteAt(s, 3) == Some(b1)
    ensures DecodeEscape(s) == Some((((b0 - 0xC0) * 64 + (b1 - 0x80)) as char, 6))
  {
  }

  /** The same for a well-formed three-byte sequence. */
  lemma DecodeThree(b0: int, b1: int, b2: int, rest: string)
    requires 0xE0 <= b0 < 0xF0 && 0x80 <= b1 < 0xC0 && 0x80 <= b2 < 0xC0
    requires (b0 - 0xE0) * 4096 + (b1 - 0x80) * 64 + (b2 - 0x80) >= 0x800
    requires ScalarOf((b0 - 0xE0) * 4096 + (b1 - 0x80) * 64 + (b2 - 0x80)).Some?
    ensures DecodeEscape(EscapeByte(b0) + EscapeByte(b1) + EscapeByte(b2) + rest)
            == Some((ScalarOf((b0 - 0xE0) * 4096 + (b1 - 0x80) * 64 + (b2 - 0x80)).value, 9))
  {
    var e0, e1, e2 := EscapeByte(b0), EscapeByte(b1), EscapeByte(b2);
    var s := e0 + e1 + e2 + rest;
    EscapesAt3(b0, b1, b2, rest);
    DecodeBytes3(s, b0, b1, b2);
  }

  lemma EscapesAt3(b0: int, b1: int, b2: int, rest: string)
    requires 0 <= b0 < 256 && 0 <= b1 < 256 && 0 <= b2 < 256
    ensures var s := EscapeByte(b0) + EscapeByte(b1) + EscapeByte(b2) + rest;
      ByteAt(s, 0) == Some(b0) && ByteAt(s, 3) == Some(b1) && ByteAt(s, 6) == Some(b2)
  {
    var e0, e1, e2 := EscapeByte(b0), EscapeByte(b1), EscapeByte(b2);
    var s := e0 + e1 + e2 + rest;
    assert ByteAt(s, 0) == Some(b0) by {
      ByteAtEscape(b0, [], e1 + e2 + rest);
      assert [] + e0 + (e1 + e2 + rest) == s;
    }
    assert ByteAt(s, 3) == Some(b1) by {
      ByteAtEscape(b1, e0, e2 + rest);
      assert e0 + e1 + (e2 + rest) == s;
    }
    assert ByteAt(s, 6) == Some(b2) by { ByteAtEscape(b2, e0 + e1, rest); }
  }

  lemma DecodeBytes3(s: string, b0: int, b1: int, b2: int)
    requires 0xE0 <= b0 < 0xF0 && 0x80 <= b1 < 0xC0 && 0x80 <= b2 < 0xC0
    requires (b0 - 0xE0) * 4096 + (b1 - 0x80) * 64 + (b2 - 0x80) >= 0x800
    requires ScalarOf((b0 - 0xE0) * 4096 + (b1 - 0x80) * 64 + (b2 - 0x80)).Some?
    requires ByteAt(s, 0) == Some(b0) && ByteAt(s, 3) == Some(b1) && ByteAt(s, 6) == Some(b2)
    ensures DecodeEscape(s) == Some((ScalarOf((b0 - 0xE0) * 4096 + (b1 - 0x80) * 64 + (b2 - 0x80)).value, 9))
  {
  }

  /** The same for a well-formed four-byte sequence. */
  lemma DecodeFour(b0: int, b1: int, b2: int, b3: int, rest: string)
    requires 0xF0 <= b0 < 0xF8 && 0x80 <= b1 < 0xC0 && 0x80 <= b2 < 0xC0 && 0x80 <= b3 < 0xC0
    requires (b0 - 0xF0) * 262144 + (b1 - 0x80) * 4096 + (b2 - 0x80) * 64 + (b3 - 0x80) >= 0x10000
    requires ScalarOf((b0 - 0xF0) * 262144 + (b1 - 0x80) * 4096 + (b2 - 0x80) * 64 + (b3 - 0x80)).Some?
    ensures DecodeEscape(EscapeByte(b0) + EscapeByte(b1) + EscapeByte(b2) + EscapeByte(b3) + rest)
            == Some((ScalarOf((b0 - 0xF0) * 262144 + (b1 - 0x80) * 4096 + (b2 - 0x80) * 64 + (b3 - 0x80)).value, 12))
  {
    var s := EscapeByte(b0) + EscapeByte(b1) + EscapeByte(b2) + EscapeByte(b3) + rest;
    EscapesAt4(b0, b1, b2, b3, rest);
    DecodeBytes4(s, b0, b1, b2, b3);
  }

  lemma EscapesAt4(b0: int, b1: int, b2: int, b3: int, rest: string)
    requires 0 <= b0 < 256 && 0 <= b1 < 256 && 0 <= b2 < 256 && 0 <= b3 < 256
    ensures var s := EscapeByte(b0) + EscapeByte(b1) + EscapeByte(b2) + EscapeByte(b3) + rest;
      ByteAt(s, 0) == Some(b0) && ByteAt(s, 3) == Some(b1) && ByteAt(s, 6) == Some(b2) && ByteAt(s, 9) == Some(b3)
  {
    var e0, e3 := EscapeByte(b0), EscapeByte(b3);
    var s := e0 + EscapeByte(b1) + EscapeByte(b2) + e3 + rest;
    assert s == e0 + (EscapeByte(b1) + EscapeByte(b2) + e3 + rest);
    EscapesAt3(b1, b2, b3, rest);
    ShiftedByteAt(e0, EscapeByte(b1) + EscapeByte(b2) + e3 + rest, 0);
    ShiftedByteAt(e0, EscapeByte(b1) + EscapeByte(b2) + e3 + rest, 3);
    ShiftedByteAt(e0, EscapeByte(b1) + EscapeByte(b2) + e3 + rest, 6);
    assert ByteAt(s, 0) == Some(b0) by {
      ByteAtEscape(b0, [], EscapeByte(b1) + EscapeByte(b2) + e3 + rest);
      assert [] + e0 + (EscapeByte(b1) + EscapeByte(b2) + e3 + rest) == s;
    }
  }

  /** A prefix moves every escape along by its length. */
  lemma ShiftedByteAt(pre: string, t: string, i: nat)
    ensures ByteAt(pre + t, |pre| + i) == ByteAt(t, i)
  {
    if i + 3 <= |t| {
      assert (pre + t)[|pre| + i] == t[i];
      assert (pre + t)[|pre| + i + 1] == t[i + 1];
      assert (pre + t)[|pre| + i + 2] == t[i + 2];
    }
  }

  lemma DecodeBytes4(s: string, b0: int, b1: int, b2: int, b3: int)
    requires 0xF0 <= b0 < 0xF8 && 0x80 <= b1 < 0xC0 && 0x80 <= b2 < 0xC0 && 0x80 <= b3 < 0xC0
    requires (b0 - 0xF0) * 262144 + (b1 - 0x80) * 4096 + (b2 - 0x80) * 64 + (b3 - 0x80) >= 0x10000
    requires ScalarOf((b0 - 0xF0) * 262144 + (b1 - 0x80) * 4096 + (b2 - 0x80) * 64 + (b3 - 0x80)).Some?
    requires ByteAt(s, 0) == Some(b0) && ByteAt(s, 3) == Some(b1) && ByteAt(s, 6) == Some(b2) && ByteAt(s, 9) == Some(b3)
    ensures DecodeEscape(s) == Some((ScalarOf((b0 - 0xF0) * 262144 + (b1 - 0x80) * 4096 + (b2 - 0x80) * 64 + (b3 - 0x80)).value, 12))
  {
  }

  lemma DecodeEscape2(c: char, rest: string)
    requires 0x80 <= c as int < 0x800
    ensures DecodeEscape(EscapeChar(c) + rest) == Some((c, 6))
  {
    var n := c as int;
    var b0, b1 := 0xC0 + n / 64, 0x80 + n % 64;
    assert EscapeChar(c) == EscapeByte(b0) + EscapeByte(b1) by {
      assert EscapeChar(c) == Escape2(n);
    }
    assert 0xC0 <= b0 < 0xE0 && 0x80 <= b1 < 0xC0 && (b0 - 0xC0) * 64 + (b1 - 0x80) == n by {
      Digits2(n);
    }
    DecodeTwo(b0, b1, rest);
  }

  lemma DecodeEscape3(c: char, rest: string)
    requires 0x800 <= c as int < 0x10000
    ensures DecodeEscape(EscapeChar(c) + rest) == Some((c, 9))
  {
    var n := c as int;
    var b0, b1, b2 := 0xE0 + n / 4096, 0x80 + (n / 64) % 64, 0x80 + n % 64;
    assert EscapeChar(c) == EscapeByte(b0) + EscapeByte(b1) + EscapeByte(b2) by {
      assert EscapeChar(c) == Escape3(n);
    }
    assert 0xE0 <= b0 < 0xF0 && 0x80 <= b1 < 0xC0 && 0x80 <= b2 < 0xC0
      && (b0 - 0xE0) * 4096 + (b1 - 0x80) * 64 + (b2 - 0x80) == n by {
      Digits3(n);
    }
    assert ScalarOf(n) == Some(c);
    DecodeThree(b0, b1, b2, rest);
  }

  lemma DecodeEscape4(c: char, rest: string)
    requires 0x10000 <= c as int
    ensures DecodeEscape(EscapeChar(c) + rest) == Some((c, 12))
  {
    var n := c as int;
    var b0, b1 := 0xF0 + n / 262144, 0x80 + (n / 4096) % 64;
    var b2, b3 := 0x80 + (n / 64) % 64, 0x80 + n % 64;
    assert EscapeChar(c) == EscapeByte(b0) + EscapeByte(b1) + EscapeByte(b2) + EscapeByte(b3) by {
      assert EscapeChar(c) == Escape4(n);
    }
    assert 0xF0 <= b0 < 0xF8 && 0x80 <= b1 < 0xC0 && 0x80 <= b2 < 0xC0 && 0x80 <= b3 < 0xC0
      && (b0 - 0xF0) * 262144 + (b1 - 0x80) * 4096 + (b2 - 0x80) * 64 + (b3 - 0x80) == n by {
      Digits4(n);
    }
    assert ScalarOf(n) == Some(c);
    DecodeFour(b0, b1, b2, b3, rest);
  }

  /** One escaped character decodes back to itself, whatever follows it. */
  lemma DecodeEscapeChar(c: char, rest: string)
    ensures DecodeEscape(EscapeChar(c) + rest) == Some((c, |EscapeChar(c)|))
  {
    var n := c as int;
    if n < 0x80 { DecodeEscape1(c, rest); }
    else if n < 0x800 { DecodeEscape2(c, rest); }
    else if n < 0x10000 { DecodeEscape3(c, rest); }
    else { DecodeEscape4(c, rest); }
  }

  /** Decoding undoes encoding: `decodeURIComponent(encodeURIComponent(s)) === s`. */
  lemma {:induction false} DecodeEncode(s: string)
    ensures Decode(Encode(s)) == Some(s)
    decreases |s|
  {
    if s != [] {
      var head, tail := EncodeChar(s[0]), Encode(s[1..]);
      DecodeEncode(s[1..]);
      if Unreserved(s[0]) {
        assert (head + tail)[1..] == tail;
      } else {
        DecodeEscapeChar(s[0], tail);
        assert (head + tail)[|head|..] == tail;
      }
      assert [s[0]] + s[1..] == s;
    }
  }

  /** The encoded text never holds the separators of a fragment. */
  lemma EncodedHasNoSeparator(s: string, i: int)
    requires 0 <= i < |Encode(s)|
    ensures Encode(s)[i] != '&' && Encode(s)[i] != '#' && Encode(s)[i] != '='
  {
  }
}
