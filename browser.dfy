/**
 * The parts of a browser window the applications touch: one origin's
 * `localStorage` and the window's `location`.  A missing window (code run on
 * the server) is a `null` reference wherever the applications test
 * `typeof window === "undefined"`.
 */
module Browser {
  import opened Wrappers
  import opened Text
  import opened Json

  /** `window.localStorage` of one origin: text values under text keys. */
  class LocalStorage {
    var items: map<string, string>

    constructor(initial: map<string, string>)
      ensures items == initial
    {
      items := initial;
    }

    /** `localStorage.getItem(key)`; `None` is its `null`. */
    function GetItem(key: string): (r: Option<string>)
      reads this
      ensures r.Some? <==> key in items
      ensures r.Some? ==> r.value == items[key]
    {
      if key in items then Some(items[key]) else None
    }

    method SetItem(key: string, value: string)
      modifies this
      ensures items == old(items)[key := value]
    {
      items := items[key := value];
    }

    method RemoveItem(key: string)
      modifies this
      ensures items == old(items) - {key}
    {
      items := items - {key};
    }
  }

  /**
   * `JSON.parse(localStorage.getItem(key))` with the `null` of an absent key
   * and of a text that does not parse both read as `JNull`.
   */
  function ParsedItem(codec: JsonCodec, items: map<string, string>, key: string): (j: Json)
    ensures key !in items ==> j == JNull
    ensures key in items && codec.parse(items[key]).None? ==> j == JNull
    ensures key in items && codec.parse(items[key]).Some? ==> j == codec.parse(items[key]).value
  {
    if key !in items then JNull
    else match codec.parse(items[key])
      case None => JNull
      case Some(v) => v
  }

  /** Storing `JSON.stringify(v)` and reading it back gives `v`, whatever else is stored. */
  lemma ParsedItemWritten(codec: JsonCodec, items: map<string, string>, key: string, v: Json)
    requires Lawful(codec)
    ensures ParsedItem(codec, items[key := codec.stringify(v)], key) == v
  {
  }

  /**
   * `window.location` of the page: the parts the applications read, and the
   * navigation started by assigning `location.href` (the page is left once
   * it is set).
   */
  class Location {
    const origin: string
    var pathname: string
    var search: string
    var hash: string
    var navigation: Option<string>

    constructor(origin: string, pathname: string, search: string, hash: string)
      ensures this.origin == origin && this.pathname == pathname
      ensures this.search == search && this.hash == hash && navigation == None
    {
      this.origin := origin;
      this.pathname := pathname;
      this.search := search;
      this.hash := hash;
      navigation := None;
    }

    /** The URL of the current history entry, as `replaceState` receives it. */
    function Url(): string
      reads this
    {
      pathname + search + hash
    }

    /**
     * `history.replaceState({}, "", path + search + fragment)`: the current
     * entry's URL changes in place; nothing is loaded.
     */
    method ReplaceState(newPath: string, newSearch: string, newHash: string)
      modifies this
      ensures pathname == newPath && search == newSearch && hash == newHash
      ensures navigation == old(navigation)
    {
      pathname, search, hash := newPath, newSearch, newHash;
    }

    /** `location.href = url`. */
    method Assign(url: string)
      modifies this
      ensures navigation == Some(url)
      ensures pathname == old(pathname) && search == old(search) && hash == old(hash)
    {
      navigation := Some(url);
    }
  }

  /**
   * `location.hash` of a page loaded from `url`: the text from the first `#`
   * on, or `""` when there is no fragment or it is empty.
   */
  function HashOf(url: string): (h: string)
    ensures h == [] || (h[0] == '#' && |h| >= 2)
  {
    var i := FirstIndexOf(url, '#');
    if i + 1 >= |url| then [] else url[i..]
  }

  /** The fragment of `base + "#" + f` is `"#" + f` when `base` holds no `#`. */
  lemma HashOfAppended(base: string, f: string)
    requires forall i :: 0 <= i < |base| ==> base[i] != '#'
    requires f != []
    ensures HashOf(base + "#" + f) == "#" + f
  {
    var url := base + "#" + f;
    assert url[|base|] == '#';
    assert FirstIndexOf(url, '#') == |base|;
    assert url[|base|..] == "#" + f;
  }
}
