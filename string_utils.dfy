/**
 * `StringUtils.toPascalCase` of the home application: the text is
 * lower-cased, trimmed, split on runs of whitespace, each word gets a
 * capital first letter, and the words are joined with single spaces
 * ("hello world" becomes "Hello World").
 */
module StringUtils {
  import opened Text

  /** Index of the first whitespace character of `s`, or `|s|` when there is none. */
  function FirstSpace(s: string): (i: nat)
    ensures i <= |s|
    ensures i < |s| ==> IsJsSpace(s[i])
  {
    if s == [] then 0 else if IsJsSpace(s[0]) then 0 else 1 + FirstSpace(s[1..])
  }

  /**
   * `s.split(/\s+/)`: the pieces between runs of whitespace, with an empty
   * piece before leading and after trailing whitespace, and `[""]` for "".
   */
  function SplitOnWhitespace(s: string): (parts: seq<string>)
    ensures |parts| >= 1
    decreases |s|
  {
    var i := FirstSpace(s);
    if i == |s| then [s] else [s[..i]] + SplitOnWhitespace(TrimStart(s[i..]))
  }

  /** `word.charAt(0).toUpperCase() + word.slice(1)`. */
  function Capitalize(w: string): (c: string)
    ensures |c| == |w|
    ensures w != "" ==> c[0] == UpperChar(w[0]) && c[1..] == w[1..]
  {
    if w == "" then "" else [UpperChar(w[0])] + w[1..]
  }

  function CapitalizeAll(ws: seq<string>): (cs: seq<string>)
    ensures |cs| == |ws| && forall i :: 0 <= i < |ws| ==> cs[i] == Capitalize(ws[i])
  {
    seq(|ws|, i requires 0 <= i < |ws| => Capitalize(ws[i]))
  }

  /** `toPascalCase`. */
  function ToPascalCase(input: string): string {
    if input == "" then ""
    else Join(CapitalizeAll(SplitOnWhitespace(Trim(Lower(input)))), " ")
  }

  /** Lower-case throughout, as `toLowerCase` leaves a string. */
  predicate IsLowered(s: string) {
    forall k :: 0 <= k < |s| ==> LowerChar(s[k]) == s[k]
  }

  /** A capital or other non-lower-case first character, then lower case. */
  predicate Capitalized(w: string) {
    w != "" && !('a' <= w[0] <= 'z') && IsLowered(w[1..])
  }

  /** Non-empty words without whitespace: what joining with single spaces keeps apart. */
  predicate Words(ws: seq<string>) {
    forall i :: 0 <= i < |ws| ==> ws[i] != "" && NoSpace(ws[i])
  }

  /* ---------------------------------- properties ---------------------------------- */

  /** The output has no whitespace at either end. */
  lemma PascalCaseIsTrimmed(input: string)
    ensures var r := ToPascalCase(input); r == "" || (!IsJsSpace(r[0]) && !IsJsSpace(r[|r| - 1]))
  {
    var t := Trim(Lower(input));
    if input != "" && t != "" {
      SplitWords(t);
      var cs := CapitalizeAll(SplitOnWhitespace(t));
      CapitalizedWords(SplitOnWhitespace(t));
      JoinEnds(cs);
    } else if input != "" {
      assert SplitOnWhitespace(t) == [""];
    }
  }

  /**
   * The output splits back into its words, each non-empty, with a first
   * character that is not a lower-case letter and the rest lower case: the
   * words are separated by single spaces and capitalised.
   */
  lemma PascalCaseWords(input: string)
    ensures var r := ToPascalCase(input);
      r != "" ==> forall w :: w in SplitOnWhitespace(r) ==> Capitalized(w)
  {
    var t := Trim(Lower(input));
    if input != "" && t != "" {
      var ws := SplitOnWhitespace(t);
      InputWords(input);
      var cs := CapitalizeAll(ws);
      assert ToPascalCase(input) == Join(cs, " ");
      CapitalizedWords(ws);
      SplitJoin(cs);
      CapitalizedShape(ws);
    } else if input != "" {
      assert SplitOnWhitespace(t) == [""];
    }
  }

  /** Converting twice is converting once. */
  lemma PascalCaseIdempotent(input: string)
    ensures ToPascalCase(ToPascalCase(input)) == ToPascalCase(input)
  {
    var t := Trim(Lower(input));
    if input != "" && t != "" {
      var ws := SplitOnWhitespace(t);
      InputWords(input);
      var r := Join(CapitalizeAll(ws), " ");
      assert ToPascalCase(input) == r;
      CapitalizedWords(ws);
      JoinEnds(CapitalizeAll(ws));
      LowerOfCapitalized(ws);
      TrimWords(ws);
      SplitJoin(ws);
      assert SplitOnWhitespace(Trim(Lower(r))) == ws;
    } else if input != "" {
      assert SplitOnWhitespace(t) == [""];
    }
  }

  /** The words the conversion capitalises are lower-case words. */
  lemma InputWords(input: string)
    requires Trim(Lower(input)) != ""
    ensures var ws := SplitOnWhitespace(Trim(Lower(input)));
      Words(ws) && forall w :: w in ws ==> IsLowered(w)
  {
    var t := Trim(Lower(input));
    LoweredTrim(input);
    SplitWords(t);
    SplitLowered(t);
  }

  /** An empty input gives the empty string. */
  lemma EmptyInput()
    ensures ToPascalCase("") == ""
  {
  }

  /** The example of the documentation comment. */
  lemma HelloWorld()
    ensures ToPascalCase("hello world") == "Hello World"
  {
    var ws := ["hello", "world"];
    assert Words(ws) by {
      assert NoSpace(ws[0]) && NoSpace(ws[1]);
    }
    assert Join(ws, " ") == "hello world" by {
      assert ws[1..] == ["world"];
    }
    assert Lower("hello world") == "hello world" by {
      LowerOfLowered("hello world");
    }
    TrimWords(ws);
    SplitJoin(ws);
    CapitalizeHelloWorld();
  }

  lemma CapitalizeHelloWorld()
    ensures Join(CapitalizeAll(["hello", "world"]), " ") == "Hello World"
  {
    var cs := CapitalizeAll(["hello", "world"]);
    assert "hello"[1..] == "ello" && "world"[1..] == "orld";
    assert UpperChar('h') == 'H' && UpperChar('w') == 'W';
    assert cs[0] == "Hello";
    assert cs[1] == "World";
    assert cs == ["Hello", "World"];
    assert cs[1..] == ["World"];
  }

  lemma LowerOfLowered(s: string)
    requires IsLowered(s)
    ensures Lower(s) == s
  {
  }

  /** A trimmed, non-empty text splits into words. */
  lemma {:induction false} SplitWords(t: string)
    requires t != "" && !IsJsSpace(t[0]) && !IsJsSpace(t[|t| - 1])
    ensures Words(SplitOnWhitespace(t))
    decreases |t|
  {
    var i := FirstSpace(t);
    BeforeFirstSpace(t);
    if i < |t| {
      var rest := TrimStart(t[i..]);
      TrimStartKeepsLast(t[i..]);
      SplitWords(rest);
      assert t[..i] != "";
      WordsCons(t[..i], SplitOnWhitespace(rest));
    } else {
      assert t[..i] == t;
    }
  }

  lemma TrimStartKeepsLast(x: string)
    requires x != [] && !IsJsSpace(x[|x| - 1])
    ensures TrimStart(x) != [] && TrimStart(x)[|TrimStart(x)| - 1] == x[|x| - 1]
  {
    var r := TrimStart(x);
    assert r == x[|x| - |r|..];
  }

  lemma WordsCons(w: string, ws: seq<string>)
    requires w != "" && NoSpace(w) && Words(ws)
    ensures Words([w] + ws)
  {
    forall k | 0 <= k < |[w] + ws|
      ensures ([w] + ws)[k] != "" && NoSpace(([w] + ws)[k])
    {
      if k > 0 {
        assert ([w] + ws)[k] == ws[k - 1];
      }
    }
  }

  /** The pieces of lower-case text are lower case. */
  lemma {:induction false} SplitLowered(s: string)
    requires IsLowered(s)
    ensures forall w :: w in SplitOnWhitespace(s) ==> IsLowered(w)
    decreases |s|
  {
    var i := FirstSpace(s);
    if i < |s| {
      var rest := TrimStart(s[i..]);
      assert rest == s[|s| - |rest|..];
      SplitLowered(rest);
    }
  }

  lemma LoweredTrim(s: string)
    ensures IsLowered(Lower(s)) && IsLowered(Trim(Lower(s)))
  {
    var l := Lower(s);
    forall k | 0 <= k < |l|
      ensures LowerChar(l[k]) == l[k]
    {
      assert l[k] == LowerChar(s[k]);
    }
    var a := TrimStart(l);
    LoweredSlice(l, |l| - |a|, |l|);
    assert a == l[|l| - |a|..|l|];
    var b := TrimEnd(a);
    LoweredSlice(a, 0, |b|);
    assert b == a[0..|b|];
  }

  lemma LoweredSlice(s: string, i: nat, j: nat)
    requires i <= j <= |s| && IsLowered(s)
    ensures IsLowered(s[i..j])
  {
    forall k | 0 <= k < j - i
      ensures LowerChar(s[i..j][k]) == s[i..j][k]
    {
      assert s[i..j][k] == s[i + k];
    }
  }

  /** Capitalising keeps words words. */
  lemma CapitalizedWords(ws: seq<string>)
    requires Words(ws)
    ensures Words(CapitalizeAll(ws))
  {
    var cs := CapitalizeAll(ws);
    forall i | 0 <= i < |cs|
      ensures cs[i] != "" && NoSpace(cs[i])
    {
      var w := ws[i];
      forall k | 0 <= k < |w|
        ensures !IsJsSpace(cs[i][k])
      {
        if k > 0 {
          assert cs[i][k] == cs[i][1..][k - 1] == w[k];
        }
      }
    }
  }

  /** Joined words start and end with a word character. */
  lemma {:induction false} JoinEnds(ws: seq<string>)
    requires |ws| >= 1 && Words(ws)
    ensures var j := Join(ws, " "); j != "" && j[0] == ws[0][0] && j[|j| - 1] == ws[|ws| - 1][|ws[|ws| - 1]| - 1]
  {
    if |ws| > 1 {
      JoinEnds(ws[1..]);
    }
  }

  /** Splitting words joined by single spaces gives the words back. */
  lemma {:induction false} SplitJoin(ws: seq<string>)
    requires |ws| >= 1 && Words(ws)
    ensures SplitOnWhitespace(Join(ws, " ")) == ws
  {
    var w := ws[0];
    if |ws| == 1 {
      FirstSpaceAfterWord(w, []);
      assert w + [] == w;
    } else {
      var j := Join(ws[1..], " ");
      JoinEnds(ws[1..]);
      assert !IsJsSpace(j[0]) by {
        assert ws[1..][0] == ws[1];
      }
      assert Join(ws, " ") == w + " " + j;
      SplitStep(w, j);
      SplitJoin(ws[1..]);
      assert ws == [w] + ws[1..];
    }
  }

  /** A word, one space and more text split into the word and the pieces of the rest. */
  lemma SplitStep(w: string, j: string)
    requires w != "" && NoSpace(w) && j != "" && !IsJsSpace(j[0])
    ensures SplitOnWhitespace(w + " " + j) == [w] + SplitOnWhitespace(j)
  {
    var s := w + " " + j;
    assert FirstSpace(s) == |w| by {
      assert s == w + ([' '] + j);
      FirstSpaceAfterWord(w, [' '] + j);
    }
    assert s[..|w|] == w;
    assert TrimStart(s[|w|..]) == j by {
      assert s[|w|..] == [' '] + j;
      TrimStartOneSpace(j);
    }
    SplitUnfold(s, |w|);
  }

  lemma SplitUnfold(s: string, i: nat)
    requires i == FirstSpace(s) && i < |s|
    ensures SplitOnWhitespace(s) == [s[..i]] + SplitOnWhitespace(TrimStart(s[i..]))
  {
  }

  /** Scanning for whitespace passes over a word. */
  lemma {:induction false} FirstSpaceAfterWord(w: string, rest: string)
    requires NoSpace(w)
    ensures FirstSpace(w + rest) == |w| + FirstSpace(rest)
    decreases |w|
  {
    if w != [] {
      assert !IsJsSpace(w[0]);
      assert (w + rest)[0] == w[0];
      assert (w + rest)[1..] == w[1..] + rest;
      assert NoSpace(w[1..]) by {
        forall k | 0 <= k < |w| - 1 ensures !IsJsSpace(w[1..][k]) {
          assert w[1..][k] == w[k + 1];
        }
      }
      FirstSpaceAfterWord(w[1..], rest);
    } else {
      assert w + rest == rest;
    }
  }

  /** The text before the first whitespace has none. */
  lemma {:induction false} BeforeFirstSpace(s: string)
    ensures NoSpace(s[..FirstSpace(s)])
    decreases |s|
  {
    var i := FirstSpace(s);
    if s != [] && !IsJsSpace(s[0]) {
      BeforeFirstSpace(s[1..]);
      forall k | 0 <= k < i ensures !IsJsSpace(s[..i][k]) {
        if k > 0 {
          assert s[..i][k] == s[1..][..i - 1][k - 1];
        }
      }
    }
  }

  lemma TrimStartOneSpace(j: string)
    requires j != "" && !IsJsSpace(j[0])
    ensures TrimStart([' '] + j) == j
  {
    assert ([' '] + j)[1..] == j;
  }

  /** Capitalising lower-case words gives capitalised words. */
  lemma CapitalizedShape(ws: seq<string>)
    requires Words(ws) && forall w :: w in ws ==> IsLowered(w)
    ensures forall c :: c in CapitalizeAll(ws) ==> Capitalized(c)
  {
    var cs := CapitalizeAll(ws);
    forall i | 0 <= i < |cs|
      ensures Capitalized(cs[i])
    {
      var w := ws[i];
      assert w in ws;
      LoweredSlice(w, 1, |w|);
      assert LowerChar(w[0]) == w[0];
    }
  }

  /** Joined words need no trimming. */
  lemma TrimWords(ws: seq<string>)
    requires |ws| >= 1 && Words(ws)
    ensures Trim(Join(ws, " ")) == Join(ws, " ")
  {
    JoinEnds(ws);
    var j := Join(ws, " ");
    assert !IsJsSpace(j[0]) && !IsJsSpace(j[|j| - 1]) by {
      var last := ws[|ws| - 1];
      assert NoSpace(ws[0]) && NoSpace(last);
      assert !IsJsSpace(last[|last| - 1]);
    }
    assert TrimStart(j) == j;
  }

  lemma LowerAppend(a: string, b: string)
    ensures Lower(a + b) == Lower(a) + Lower(b)
  {
    assert |Lower(a + b)| == |Lower(a) + Lower(b)|;
    forall k | 0 <= k < |a + b|
      ensures Lower(a + b)[k] == (Lower(a) + Lower(b))[k]
    {
      if k >= |a| {
        assert (a + b)[k] == b[k - |a|];
      }
    }
  }

  /** Lower-casing capitalised lower-case words gives the words back. */
  lemma {:induction false} LowerOfCapitalized(ws: seq<string>)
    requires |ws| >= 1 && forall w :: w in ws ==> IsLowered(w)
    ensures Lower(Join(CapitalizeAll(ws), " ")) == Join(ws, " ")
  {
    var c := Capitalize(ws[0]);
    assert Lower(c) == ws[0] by {
      forall k | 0 <= k < |c|
        ensures Lower(c)[k] == ws[0][k]
      {
        assert ws[0] in ws;
      }
    }
    if |ws| > 1 {
      var cs := CapitalizeAll(ws);
      assert cs[1..] == CapitalizeAll(ws[1..]);
      LowerOfCapitalized(ws[1..]);
      LowerAppend(c + " ", Join(cs[1..], " "));
      LowerAppend(c, " ");
    }
  }
}
