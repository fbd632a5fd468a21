/**
 * The cards page: how `CardComponent` shows a card number (in groups of
 * four characters separated by spaces) and which entry of its menu is
 * active and rendered as an in-application link.
 */
module CardsPage {
  import opened Text

  /** `number.replace(/(.{4})/g, "$1 ")`: every run of four characters matched from the left gets a space after it; `.` does not match a line terminator. */
  function GroupFours(s: string): (r: string)
    decreases |s|
  {
    if |s| >= 4 && !IsLineTerminator(s[0]) && !IsLineTerminator(s[1]) && !IsLineTerminator(s[2]) && !IsLineTerminator(s[3])
    then s[..4] + " " + GroupFours(s[4..])
    else if s == [] then []
    else [s[0]] + GroupFours(s[1..])
  }

  /** The displayed card number: the grouped text, trimmed. */
  function FormatCardNumber(number: string): string {
    Trim(GroupFours(number))
  }

  /** Groups of four joined with single spaces, the last group holding the rest. */
  function Spaced(s: string): (r: string)
    decreases |s|
  {
    if |s| > 4 then s[..4] + " " + Spaced(s[4..]) else s
  }

  /** The text with its spaces taken out. */
  function Unspaced(r: string): string {
    if r == [] then [] else (if r[0] == ' ' then [] else [r[0]]) + Unspaced(r[1..])
  }

  /** `NavigationSection`: the menu entries of the cards application. */
  datatype CardsNavLink = CardsNavLink(href: string, caption: string)

  const CardsNavLinks: seq<CardsNavLink> := [
    CardsNavLink("/home", "Início"),
    CardsNavLink("/investments", "Investimentos"),
    CardsNavLink("/cards", "Cartões")
  ]

  /** `isActive`: the cards entry. */
  predicate IsActive(link: CardsNavLink) {
    link.href == "/cards"
  }

  /** The entry is rendered as a Next.js `Link` rather than a plain anchor. */
  predicate IsInternalLink(link: CardsNavLink) {
    link.href == "/cards"
  }

  /* ---------------------------------- properties ---------------------------------- */

  /**
   * For a number without whitespace the display is the groups of four
   * joined by single spaces: no space at either end, and the last group
   * holds the one to four characters left over.
   */
  lemma FormatIsSpaced(number: string)
    requires NoSpace(number)
    ensures FormatCardNumber(number) == Spaced(number)
  {
    GroupFoursNoSpace(number);
    if number != [] {
      SpacedEnds(number);
    }
    var sp := Spaced(number);
    if |number| > 0 && |number| % 4 == 0 {
      TrimOneTrailingSpace(sp);
    } else {
      TrimUntouched(sp);
    }
  }

  /** Where each character goes: the `i`-th digit lands `i / 4` places further on, and a space follows every full group but the last. */
  lemma {:induction false} SpacedPositions(s: string)
    ensures var r := Spaced(s);
      |r| == (if s == [] then 0 else |s| + (|s| - 1) / 4)
      && (forall i :: 0 <= i < |s| ==> r[i + i / 4] == s[i])
      && (forall k :: 0 <= k && 4 * k + 4 < |s| ==> r[5 * k + 4] == ' ')
    decreases |s|
  {
    if |s| > 4 {
      var rest := s[4..];
      SpacedPositions(rest);
      var r := Spaced(s);
      var t := Spaced(rest);
      assert r == s[..4] + " " + t;
      forall i | 4 <= i < |s|
        ensures r[i + i / 4] == s[i]
      {
        assert i + i / 4 == 5 + ((i - 4) + (i - 4) / 4);
        assert rest[i - 4] == s[i];
      }
      forall k | 1 <= k && 4 * k + 4 < |s|
        ensures r[5 * k + 4] == ' '
      {
        assert 5 * k + 4 == 5 + (5 * (k - 1) + 4);
      }
    }
  }

  /** Taking the spaces out gives the number back. */
  lemma {:induction false} UnspacedSpaced(s: string)
    requires NoSpace(s)
    ensures Unspaced(Spaced(s)) == s
    decreases |s|
  {
    if |s| > 4 {
      UnspacedAppend(s[..4] + " ", Spaced(s[4..]));
      UnspacedAppend(s[..4], " ");
      UnspacedNoSpace(s[..4]);
      UnspacedSpaced(s[4..]);
      assert s[..4] + s[4..] == s;
    } else {
      UnspacedNoSpace(s);
    }
  }

  /** The sample card "1234567812345678" is shown as "1234 5678 1234 5678". */
  lemma SampleCard()
    ensures FormatCardNumber("1234567812345678") == "1234 5678 1234 5678"
  {
    SampleHasNoSpace();
    FormatIsSpaced("1234567812345678");
    SampleSpaced();
  }

  lemma SampleHasNoSpace()
    ensures NoSpace("1234567812345678")
  {
    var s := "1234567812345678";
    forall i | 0 <= i < |s|
      ensures !IsJsSpace(s[i])
    {
      assert '0' <= s[i] <= '9';
    }
  }

  lemma SampleSpaced()
    ensures Spaced("1234567812345678") == "1234 5678 1234 5678"
  {
    var s := "1234567812345678";
    SampleTail();
    assert s[..4] == "1234" && s[4..] == "567812345678";
    assert Spaced(s) == s[..4] + " " + Spaced(s[4..]);
  }

  lemma SampleTail()
    ensures Spaced("567812345678") == "5678 1234 5678"
  {
    var t := "567812345678";
    assert t[..4] == "5678" && t[4..] == "12345678";
    var u := "12345678";
    assert Spaced(u) == "1234 5678" by {
      assert u[..4] == "1234" && u[4..] == "5678";
    }
  }

  /** Exactly one menu entry is active, the cards one, and it is the only in-application link. */
  lemma OnlyCardsIsActive(i: nat)
    requires i < |CardsNavLinks|
    ensures IsActive(CardsNavLinks[i]) <==> i == 2
    ensures IsInternalLink(CardsNavLinks[i]) <==> IsActive(CardsNavLinks[i])
  {
  }

  /* ---------------------------------- helpers ---------------------------------- */

  /** Without line terminators every run of four matches, so the space comes after each full group. */
  lemma {:induction false} GroupFoursNoSpace(s: string)
    requires NoSpace(s)
    ensures GroupFours(s) == Spaced(s) + (if |s| > 0 && |s| % 4 == 0 then " " else "")
    decreases |s|
  {
    if |s| >= 4 {
      assert !IsJsSpace(s[0]) && !IsJsSpace(s[1]) && !IsJsSpace(s[2]) && !IsJsSpace(s[3]);
      GroupFoursNoSpace(s[4..]);
      if |s| == 4 {
        assert GroupFours(s[4..]) == [];
      }
    } else if s != [] {
      ShortGroupFours(s);
    }
  }

  /** Fewer than four characters are left as they are. */
  lemma {:induction false} ShortGroupFours(s: string)
    requires |s| < 4
    ensures GroupFours(s) == s
    decreases |s|
  {
    if s != [] {
      ShortGroupFours(s[1..]);
    }
  }

  lemma {:induction false} SpacedEnds(s: string)
    requires s != [] && NoSpace(s)
    ensures var r := Spaced(s); r != [] && r[0] == s[0] && r[|r| - 1] == s[|s| - 1]
    decreases |s|
  {
    if |s| > 4 {
      SpacedEnds(s[4..]);
    }
  }

  lemma TrimUntouched(x: string)
    requires x == [] || (!IsJsSpace(x[0]) && !IsJsSpace(x[|x| - 1]))
    ensures Trim(x) == x
  {
  }

  lemma TrimOneTrailingSpace(x: string)
    requires x != [] && !IsJsSpace(x[0]) && !IsJsSpace(x[|x| - 1])
    ensures Trim(x + " ") == x
  {
    assert (x + " ")[0] == x[0];
    assert TrimStart(x + " ") == x + " ";
    assert (x + " ")[..|x|] == x;
  }

  lemma {:induction false} UnspacedAppend(a: string, b: string)
    ensures Unspaced(a + b) == Unspaced(a) + Unspaced(b)
    decreases |a|
  {
    if a != [] {
      assert (a + b)[1..] == a[1..] + b;
      UnspacedAppend(a[1..], b);
    } else {
      assert a + b == b;
    }
  }

  lemma {:induction false} UnspacedNoSpace(s: string)
    requires NoSpace(s)
    ensures Unspaced(s) == s
    decreases |s|
  {
    if s != [] {
      assert !IsJsSpace(s[0]);
      UnspacedNoSpace(s[1..]);
    }
  }
}
