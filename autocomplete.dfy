/**
 * The shared `Autocomplete` input: a text box over a list of options whose
 * drop-down shows the options whose label contains the typed text, ignoring
 * case.  The component's state (`isOpen`, `inputValue`, `highlightedIndex`)
 * is a class; each handler is a method.  The `onChange` and `onBlur`
 * callbacks are modelled by the record of what was handed to them, and the
 * `value` prop by a parameter (`None` when it is not given).
 */
module Autocomplete {
  import opened Wrappers
  import opened Text

  datatype AutocompleteOption = AutocompleteOption(value: string, labelText: string)

  datatype Key = ArrowDown | ArrowUp | Enter | Escape | OtherKey

  /** The label contains the typed text, ignoring case. */
  predicate Shows(o: AutocompleteOption, input: string) {
    Includes(Lower(o.labelText), Lower(input))
  }

  /** The label is the typed text, ignoring case. */
  predicate LabelIs(o: AutocompleteOption, text: string) {
    Lower(o.labelText) == Lower(text)
  }

  /** `filteredOptions`: exactly the options the text shows, in their order. */
  function Filtered(options: seq<AutocompleteOption>, input: string): (r: seq<AutocompleteOption>)
    ensures |r| <= |options|
    ensures forall o :: o in r <==> o in options && Shows(o, input)
  {
    if options == [] then []
    else (if Shows(options[0], input) then [options[0]] else []) + Filtered(options[1..], input)
  }

  /** `options.find(option => option.labelText.toLowerCase() === text.toLowerCase())`, as an index. */
  function FirstLabelMatch(options: seq<AutocompleteOption>, text: string): (r: Option<nat>)
    ensures r.Some? ==> r.value < |options| && LabelIs(options[r.value], text)
    ensures r.Some? ==> forall j :: 0 <= j < r.value ==> !LabelIs(options[j], text)
    ensures r.None? ==> forall j :: 0 <= j < |options| ==> !LabelIs(options[j], text)
  {
    if options == [] then None
    else if LabelIs(options[0], text) then Some(0)
    else match FirstLabelMatch(options[1..], text)
      case None => None
      case Some(i) => Some(i + 1)
  }

  /** `selectedOption`: `options.find(option => option.value === value)`, as an index. */
  function SelectedIndex(options: seq<AutocompleteOption>, value: Option<string>): (r: Option<nat>)
    ensures r.Some? ==> r.value < |options| && value == Some(options[r.value].value)
    ensures r.Some? ==> forall j :: 0 <= j < r.value ==> value != Some(options[j].value)
    ensures r.None? ==> forall j :: 0 <= j < |options| ==> value != Some(options[j].value)
  {
    if options == [] then None
    else if value == Some(options[0].value) then Some(0)
    else match SelectedIndex(options[1..], value)
      case None => None
      case Some(i) => Some(i + 1)
  }

  /** `ArrowDown`: the next option, from the last (or beyond) back to the first. */
  function NextIndex(prev: int, n: nat): (r: int)
    ensures prev >= -1 ==> r >= 0 && (n > 0 ==> r < n)
  {
    if prev < n - 1 then prev + 1 else 0
  }

  /** `ArrowUp`: the previous option, from the first (or none) round to the last. */
  function PrevIndex(prev: int, n: nat): (r: int)
    ensures -1 <= prev <= n && n > 0 ==> 0 <= r < n
    ensures n == 0 && prev <= 0 ==> r == -1
  {
    if prev > 0 then prev - 1 else n - 1
  }

  /** A value `onChange` may receive: empty, or the value of one of the options. */
  ghost predicate Offered(options: seq<AutocompleteOption>, v: string) {
    v == "" || exists o :: o in options && o.value == v
  }

  class AutocompleteState {
    const options: seq<AutocompleteOption>
    var isOpen: bool
    var inputValue: string
    var highlightedIndex: int
    /** Every value handed to `onChange`, oldest first. */
    var changes: seq<string>
    /** How many times `onBlur` was called. */
    var blurs: nat

    /** No highlight below "none", and `onChange` only ever receives an option's value or "". */
    ghost predicate Valid()
      reads this
    {
      highlightedIndex >= -1 && forall c :: c in changes ==> Offered(options, c)
    }

    /** The options the drop-down lists for the current text. */
    function Shown(): seq<AutocompleteOption>
      reads this
    {
      Filtered(options, inputValue)
    }

    /** The first render: closed, empty, nothing highlighted. */
    constructor(options: seq<AutocompleteOption>)
      ensures this.options == options && !isOpen && inputValue == "" && highlightedIndex == -1
      ensures changes == [] && blurs == 0 && Valid()
    {
      this.options := options;
      isOpen := false;
      inputValue := "";
      highlightedIndex := -1;
      changes := [];
      blurs := 0;
    }

    /**
     * The effect on the `value` prop: the text becomes the selected
     * option's label, or empty when the value is "", and stays otherwise.
     */
    method SyncValue(value: Option<string>)
      requires Valid()
      modifies this
      ensures Valid()
      ensures match SelectedIndex(options, value)
        case Some(i) => inputValue == options[i].labelText
        case None => inputValue == (if value == Some("") then "" else old(inputValue))
      ensures isOpen == old(isOpen) && highlightedIndex == old(highlightedIndex)
      ensures changes == old(changes) && blurs == old(blurs)
    {
      var sel := SelectedIndex(options, value);
      if sel.Some? {
        inputValue := options[sel.value].labelText;
      } else if value == Some("") {
        inputValue := "";
      }
    }

    /** A mouse-down outside the component closes the list and drops the highlight. */
    method ClickOutside()
      requires Valid()
      modifies this
      ensures Valid() && !isOpen && highlightedIndex == -1
      ensures inputValue == old(inputValue) && changes == old(changes) && blurs == old(blurs)
    {
      isOpen := false;
      highlightedIndex := -1;
    }

    /**
     * `handleInputChange`: the text is the typed one, the list opens with
     * nothing highlighted, and `onChange` receives "" for empty text, else
     * the value of the first option whose label is the text ignoring case,
     * else "".
     */
    method InputChange(newValue: string)
      requires Valid()
      modifies this
      ensures Valid()
      ensures inputValue == newValue && isOpen && highlightedIndex == -1 && blurs == old(blurs)
      ensures newValue == "" ==> changes == old(changes) + [""]
      ensures newValue != "" ==> match FirstLabelMatch(options, newValue)
        case Some(i) => changes == old(changes) + [options[i].value]
        case None => changes == old(changes) + [""]
    {
      inputValue := newValue;
      isOpen := true;
      highlightedIndex := -1;
      if newValue == "" {
        changes := changes + [""];
        return;
      }
      var exact := FirstLabelMatch(options, newValue);
      if exact.Some? {
        assert options[exact.value] in options;
        changes := changes + [options[exact.value].value];
      } else {
        changes := changes + [""];
      }
    }

    /** `handleOptionClick` on the `i`-th listed option: its label shown, its value handed on, the list closed. */
    method OptionClick(i: nat)
      requires Valid() && i < |Shown()|
      modifies this
      ensures Valid()
      ensures var o := old(Shown())[i];
        inputValue == o.labelText && changes == old(changes) + [o.value]
      ensures !isOpen && highlightedIndex == -1 && blurs == old(blurs)
    {
      var o := Shown()[i];
      assert o in options;
      inputValue := o.labelText;
      changes := changes + [o.value];
      isOpen := false;
      highlightedIndex := -1;
    }

    /** `handleInputFocus`: the list opens. */
    method Focus()
      requires Valid()
      modifies this
      ensures Valid() && isOpen
      ensures inputValue == old(inputValue) && highlightedIndex == old(highlightedIndex)
      ensures changes == old(changes) && blurs == old(blurs)
    {
      isOpen := true;
    }

    /** The pointer over the `index`-th listed option highlights it. */
    method MouseEnter(index: nat)
      requires Valid() && isOpen && index < |Shown()|
      modifies this
      ensures Valid() && highlightedIndex == index
      ensures isOpen && inputValue == old(inputValue) && changes == old(changes) && blurs == old(blurs)
    {
      highlightedIndex := index;
    }

    /**
     * `handleInputBlur`: text matching a label (ignoring case) becomes that
     * label and its value is handed on; other non-empty text with no
     * selected option is cleared and "" handed on; with a selected option
     * its label comes back.  `onBlur` is called in every case, and the box
     * never keeps free text.
     */
    method Blur(value: Option<string>)
      requires Valid()
      modifies this
      ensures Valid()
      ensures var m := FirstLabelMatch(options, old(inputValue));
        var sel := SelectedIndex(options, value);
        if m.Some? then inputValue == options[m.value].labelText && changes == old(changes) + [options[m.value].value]
        else if old(inputValue) != "" && sel.None? then inputValue == "" && changes == old(changes) + [""]
        else if sel.Some? then inputValue == options[sel.value].labelText && changes == old(changes)
        else inputValue == old(inputValue) && changes == old(changes)
      ensures inputValue == "" || exists o :: o in options && o.labelText == inputValue
      ensures blurs == old(blurs) + 1 && isOpen == old(isOpen) && highlightedIndex == old(highlightedIndex)
    {
      var matched := FirstLabelMatch(options, inputValue);
      var sel := SelectedIndex(options, value);
      if matched.Some? {
        assert options[matched.value] in options;
        inputValue := options[matched.value].labelText;
        changes := changes + [options[matched.value].value];
      } else if inputValue != "" && sel.None? {
        inputValue := "";
        changes := changes + [""];
      } else if sel.Some? {
        assert options[sel.value] in options;
        inputValue := options[sel.value].labelText;
      }
      blurs := blurs + 1;
    }

    /**
     * `handleKeyDown`.  Closed: the arrows open the list and nothing else
     * happens.  Open: the arrows move the highlight round the listed
     * options, Enter picks the highlighted option when there is one, and
     * Escape closes the list.
     */
    method KeyDown(key: Key)
      requires Valid()
      modifies this
      ensures Valid() && blurs == old(blurs)
      ensures !old(isOpen) ==>
        isOpen == (key == ArrowDown || key == ArrowUp) && highlightedIndex == old(highlightedIndex)
        && inputValue == old(inputValue) && changes == old(changes)
      ensures old(isOpen) && (key == ArrowDown || key == ArrowUp) ==>
        isOpen && inputValue == old(inputValue) && changes == old(changes)
        && highlightedIndex == (if key == ArrowDown then NextIndex else PrevIndex)(old(highlightedIndex), |old(Shown())|)
      ensures old(isOpen) && key == Enter ==> var f := old(Shown()); var h := old(highlightedIndex);
        if 0 <= h < |f| then inputValue == f[h].labelText && changes == old(changes) + [f[h].value] && !isOpen && highlightedIndex == -1
        else isOpen && inputValue == old(inputValue) && changes == old(changes) && highlightedIndex == h
      ensures old(isOpen) && key == Escape ==>
        !isOpen && highlightedIndex == -1 && inputValue == old(inputValue) && changes == old(changes)
      ensures old(isOpen) && key == OtherKey ==>
        isOpen && highlightedIndex == old(highlightedIndex) && inputValue == old(inputValue) && changes == old(changes)
    {
      if !isOpen {
        if key == ArrowDown || key == ArrowUp {
          isOpen := true;
        }
        return;
      }
      var n := |Shown()|;
      match key
      case ArrowDown =>
        highlightedIndex := NextIndex(highlightedIndex, n);
      case ArrowUp =>
        highlightedIndex := PrevIndex(highlightedIndex, n);
      case Enter =>
        if 0 <= highlightedIndex < n {
          OptionClick(highlightedIndex);
        }
      case Escape =>
        isOpen := false;
        highlightedIndex := -1;
      case OtherKey =>
    }
  }

  /* ---------------------------------- properties ---------------------------------- */

  /** `ArrowDown` pressed `k` times from `i`. */
  function Presses(i: int, n: nat, k: nat): int {
    if k == 0 then i else NextIndex(Presses(i, n, k - 1), n)
  }

  /** Presses add up: `a` then `b` presses are `a + b` presses. */
  lemma {:induction false} PressesAdd(i: int, n: nat, a: nat, b: nat)
    ensures Presses(i, n, a + b) == Presses(Presses(i, n, a), n, b)
  {
    if b > 0 {
      PressesAdd(i, n, a, b - 1);
    }
  }

  /** Before the end of the list, each press moves one place down. */
  lemma {:induction false} PressesCount(i: int, n: nat, k: nat)
    requires 0 <= i && i + k < n
    ensures Presses(i, n, k) == i + k
  {
    if k > 0 {
      PressesCount(i, n, k - 1);
    }
  }

  /** From any listed option, as many presses of `ArrowDown` as there are options come back to it. */
  lemma FullCycle(i: int, n: nat)
    requires 0 <= i < n
    ensures Presses(i, n, n) == i
  {
    PressesCount(i, n, n - i - 1);
    assert Presses(i, n, n - i) == 0;
    PressesAdd(i, n, n - i, i);
    if i > 0 {
      PressesCount(0, n, i);
    }
  }

  /** `ArrowUp` undoes `ArrowDown` and the other way round on a listed option. */
  lemma ArrowsUndoEachOther(i: int, n: nat)
    requires 0 <= i < n
    ensures PrevIndex(NextIndex(i, n), n) == i
    ensures NextIndex(PrevIndex(i, n), n) == i
  {
  }

  /** Lower-casing twice is lower-casing once. */
  lemma LowerIdempotent(s: string)
    ensures Lower(Lower(s)) == Lower(s)
  {
  }

  /** The list does not depend on the case of the typed text, nor does the exact match. */
  lemma {:induction false} FilterIgnoresCase(options: seq<AutocompleteOption>, input: string)
    ensures Filtered(options, Lower(input)) == Filtered(options, input)
    ensures FirstLabelMatch(options, Lower(input)) == FirstLabelMatch(options, input)
  {
    LowerIdempotent(input);
    if options != [] {
      FilterIgnoresCase(options[1..], input);
    }
  }

  /** With no text every option is listed, in order. */
  lemma {:induction false} EmptyTextListsAll(options: seq<AutocompleteOption>)
    ensures Filtered(options, "") == options
  {
    if options != [] {
      assert Lower(options[0].labelText)[..0] == [];
      EmptyTextListsAll(options[1..]);
    }
  }
}
