/**
 * JSON values as `JSON.parse` returns them and `JSON.stringify` accepts them.
 * The text format itself is left abstract: a codec is a pair of functions,
 * and `Lawful` is everything the applications rely on about the pair.
 */
module Json {
  import opened Wrappers

  /** Numbers are integers (cents, milliseconds, byte counts). */
  datatype Json =
    | JNull
    | JBool(b: bool)
    | JNum(n: int)
    | JStr(s: string)
    | JArr(items: seq<Json>)
    | JObj(members: map<string, Json>)

  /** JavaScript's truthiness of a parsed value (`if (v)`, `!!v`, `a && b`). */
  predicate Truthy(j: Json) {
    match j
    case JNull => false
    case JBool(b) => b
    case JNum(n) => n != 0
    case JStr(s) => s != ""
    case JArr(_) => true
    case JObj(_) => true
  }

  /**
   * Property access `j.key`.  `undefined` (no such member, or `j` is not an
   * object) and `null` behave alike everywhere the applications look, so
   * both are `JNull`.
   */
  function Member(j: Json, key: string): Json {
    if j.JObj? && key in j.members then j.members[key] else JNull
  }

  /** `JSON.stringify` and `JSON.parse`; `parse` yields `None` where it throws. */
  datatype JsonCodec = JsonCodec(stringify: Json -> string, parse: string -> Option<Json>)

  /** `parse` undoes `stringify`, and `stringify` never yields the empty text. */
  ghost predicate Lawful(c: JsonCodec) {
    forall j :: c.parse(c.stringify(j)) == Some(j) && c.stringify(j) != ""
  }

  /**
   * How `JSON.stringify` writes a `Date` (`toJSON`, the ISO text) and how
   * `new Date(text)` reads text back (`None`: an Invalid Date).  Times are
   * milliseconds since the epoch.
   */
  datatype DateCodec = DateCodec(toJson: int -> string, parse: string -> Option<int>)

  /** `new Date(date.toJSON())` is the same time again. */
  ghost predicate DatesLawful(d: DateCodec) {
    forall t :: d.parse(d.toJson(t)) == Some(t)
  }

  /** The user profile carried by the session (`{name, email, accountId}`). */
  datatype UserData = UserData(name: string, email: string, accountId: string)

  function UserJson(u: UserData): (j: Json)
    ensures Truthy(j)
    ensures Member(j, "name") == JStr(u.name) && Member(j, "email") == JStr(u.email)
    ensures Member(j, "accountId") == JStr(u.accountId)
  {
    JObj(map["name" := JStr(u.name), "email" := JStr(u.email), "accountId" := JStr(u.accountId)])
  }
}
