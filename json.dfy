/**
 * JSON values as `json.loads` hands them to Python code, and the Python
 * built-ins the pipeline applies to them: truthiness, `len`, `str`, iteration
 * and `dict.get`.
 */
module Json {
  import opened Wrappers
  import opened Strings

  /**
   * A decoded JSON value. An `Object` is the dict `json.loads` builds: its keys
   * are distinct and listed in insertion order. Numbers are integers.
   */
  datatype Json =
    | Null
    | Bool(b: bool)
    | Number(n: int)
    | String(s: string)
    | Array(items: seq<Json>)
    | Object(fields: seq<(string, Json)>)

  /** Python truthiness: `None`, `False`, `0`, `""`, `[]` and `{}` are false. */
  predicate Truthy(j: Json) {
    match j
    case Null => false
    case Bool(b) => b
    case Number(n) => n != 0
    case String(s) => s != ""
    case Array(items) => items != []
    case Object(fields) => fields != []
  }

  /** `len(j)`: `None` where Python raises `TypeError`. */
  function Len(j: Json): (r: Option<nat>)
    ensures r.Some? <==> (j.String? || j.Array? || j.Object?)
  {
    match j
    case String(s) => Some(|s|)
    case Array(items) => Some(|items|)
    case Object(fields) => Some(|fields|)
    case _ => None
  }

  /** `str(j)`, the text an f-string substitutes for `j`. */
  function Render(j: Json): string
    decreases j, 0
  {
    match j
    case Null => "None"
    case Bool(b) => if b then "True" else "False"
    case Number(n) => IntToString(n)
    case String(s) => s
    case Array(items) =>
      "[" + Join(", ", seq(|items|, i requires 0 <= i < |items| => Repr(items[i]))) + "]"
    case Object(fields) =>
      "{" + Join(", ", seq(|fields|, i requires 0 <= i < |fields| =>
        assert fields[i] in fields;
        Quote(fields[i].0) + ": " + Repr(fields[i].1))) + "}"
  }

  /** `repr(j)`: like `str` except that strings are quoted. */
  function Repr(j: Json): string
    decreases j, 1
  {
    if j.String? then Quote(j.s) else Render(j)
  }

  function Quote(s: string): string {
    "'" + s + "'"
  }

  /** `d.get(key)` on an object's fields. */
  function Get(fields: seq<(string, Json)>, key: string): (r: Option<Json>)
    ensures r.Some? <==> exists i :: 0 <= i < |fields| && fields[i].0 == key
  {
    if fields == [] then None
    else if fields[0].0 == key then Some(fields[0].1)
    else Get(fields[1..], key)
  }

  /** `d.get(key, default)`. */
  function GetOr(fields: seq<(string, Json)>, key: string, default: Json): Json {
    Get(fields, key).GetOr(default)
  }

  /**
   * The elements `for x in j` visits: a list's items, a string's characters (as
   * one-character strings), a dict's keys. `None` where Python raises `TypeError`.
   */
  function Iterate(j: Json): (r: Option<seq<Json>>)
    ensures r.Some? <==> (j.String? || j.Array? || j.Object?)
    ensures j.String? ==> r == Some(seq(|j.s|, i requires 0 <= i < |j.s| => String([j.s[i]])))
    ensures j.Array? ==> r == Some(j.items)
    ensures j.Object? ==> r == Some(seq(|j.fields|, i requires 0 <= i < |j.fields| => String(j.fields[i].0)))
  {
    match j
    case String(s) => Some(seq(|s|, i requires 0 <= i < |s| => String([s[i]])))
    case Array(items) => Some(items)
    case Object(fields) => Some(seq(|fields|, i requires 0 <= i < |fields| => String(fields[i].0)))
    case _ => None
  }
}
