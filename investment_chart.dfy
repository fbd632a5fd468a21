/**
 * `getInvestmentAbbreviation` of the investments chart: the capitalised
 * initials of the words of a name, joined with dots ("Tesouro Direto"
 * becomes "T.D").  Words are what `split(" ")` separates and only
 * non-empty ones count.
 */
module InvestmentChart {
  import opened Text

  /** `.filter(word => word.length > 0)`. */
  function NonEmpty(parts: seq<string>): (ws: seq<string>)
    ensures forall w :: w in ws <==> w in parts && w != ""
    ensures forall i :: 0 <= i < |ws| ==> ws[i] != ""
  {
    if parts == [] then []
    else (if parts[0] != "" then [parts[0]] else []) + NonEmpty(parts[1..])
  }

  /** `.map(word => word.charAt(0).toUpperCase())` over non-empty words. */
  function Initials(ws: seq<string>): (cs: seq<string>)
    requires forall i :: 0 <= i < |ws| ==> ws[i] != ""
    ensures |cs| == |ws| && forall i :: 0 <= i < |ws| ==> cs[i] == [UpperChar(ws[i][0])]
  {
    seq(|ws|, i requires 0 <= i < |ws| => [UpperChar(ws[i][0])])
  }

  /** The non-empty words of a name. */
  function Words(name: string): (ws: seq<string>)
    ensures forall i :: 0 <= i < |ws| ==> ws[i] != ""
  {
    NonEmpty(Split(name, ' '))
  }

  /** `getInvestmentAbbreviation`. */
  function Abbreviation(name: string): string {
    Join(Initials(Words(name)), ".")
  }

  /* ---------------------------------- properties ---------------------------------- */

  /**
   * The abbreviation alternates initials and dots: one character per word,
   * a dot between consecutive initials, no dot at either end.
   */
  lemma AbbreviationShape(name: string)
    ensures var ws := Words(name); var r := Abbreviation(name);
      |r| == (if ws == [] then 0 else 2 * |ws| - 1)
      && (forall i :: 0 <= i < |ws| ==> r[2 * i] == UpperChar(ws[i][0]))
      && (forall i :: 0 <= i < |ws| - 1 ==> r[2 * i + 1] == '.')
  {
    JoinSingles(Initials(Words(name)));
  }

  /** A name with no non-space character has the empty abbreviation. */
  lemma {:induction false} BlankNameHasNoAbbreviation(name: string)
    requires forall i :: 0 <= i < |name| ==> name[i] == ' '
    ensures Abbreviation(name) == ""
    decreases |name|
  {
    var i := FirstIndexOf(name, ' ');
    if i < |name| {
      assert i == 0;
      assert Split(name, ' ') == [""] + Split(name[1..], ' ');
      BlankNameHasNoAbbreviation(name[1..]);
      assert Words(name[1..]) == [];
      assert Words(name) == NonEmpty(Split(name[1..], ' '));
    } else {
      assert name == "";
      assert Split(name, ' ') == [""];
      assert NonEmpty([""]) == NonEmpty([""][1..]);
    }
  }

  /** The example of the initial portfolio. */
  lemma TesouroDireto()
    ensures Abbreviation("Tesouro Direto") == "T.D"
  {
    SplitTesouroDireto();
    TesouroDiretoInitials();
  }

  lemma SplitTesouroDireto()
    ensures Split("Tesouro Direto", ' ') == ["Tesouro", "Direto"]
  {
    assert "Tesouro Direto" == "Tesouro" + [' '] + "Direto";
    SplitTwoWords("Tesouro", "Direto", ' ');
  }

  /** Two separator-free words joined by the separator split back into the two. */
  lemma SplitTwoWords(a: string, b: string, c: char)
    requires c !in a && c !in b
    ensures Split(a + [c] + b, c) == [a, b]
  {
    var s := a + [c] + b;
    FirstIndexOfIs(s, c, |a|);
    assert s[..|a|] == a && s[|a| + 1..] == b;
    FirstIndexOfIs(b, c, |b|);
  }

  lemma TesouroDiretoInitials()
    ensures Join(Initials(NonEmpty(["Tesouro", "Direto"])), ".") == "T.D"
  {
    var ws := ["Tesouro", "Direto"];
    assert ws[1..] == ["Direto"] && ws[1..][1..] == [];
    assert NonEmpty(ws) == ws;
    var cs := Initials(ws);
    assert cs[0] == [UpperChar('T')] && UpperChar('T') == 'T';
    assert cs[1] == [UpperChar('D')] && UpperChar('D') == 'D';
    assert cs == ["T", "D"];
    assert cs[1..] == ["D"];
  }

  lemma FirstIndexOfIs(s: string, c: char, i: nat)
    requires i <= |s| && (i < |s| ==> s[i] == c) && forall j :: 0 <= j < i ==> s[j] != c
    ensures FirstIndexOf(s, c) == i
  {
  }

  /** Joining one-character strings with dots puts them at the even positions. */
  lemma {:induction false} JoinSingles(cs: seq<string>)
    requires forall i :: 0 <= i < |cs| ==> |cs[i]| == 1
    ensures var r := Join(cs, ".");
      |r| == (if cs == [] then 0 else 2 * |cs| - 1)
      && (forall i :: 0 <= i < |cs| ==> r[2 * i] == cs[i][0])
      && (forall i :: 0 <= i < |cs| - 1 ==> r[2 * i + 1] == '.')
  {
    if |cs| > 1 {
      JoinSingles(cs[1..]);
      var rest := Join(cs[1..], ".");
      var r := cs[0] + "." + rest;
      assert Join(cs, ".") == r;
      forall i | 1 <= i < |cs|
        ensures r[2 * i] == cs[i][0]
      {
        assert r[2 * i] == rest[2 * (i - 1)];
        assert cs[1..][i - 1] == cs[i];
      }
      forall i | 1 <= i < |cs| - 1
        ensures r[2 * i + 1] == '.'
      {
        assert r[2 * i + 1] == rest[2 * (i - 1) + 1];
      }
    }
  }
}
