/** JSON values as the site's data files, content front-matter and JSON-LD
    nodes hold them, and the handful of JavaScript operations the schema code
    applies to them (truthiness, optional property access, `Object.keys`,
    `.length`, `String.prototype.includes`). */
module JsValues {

  datatype Option<+T> = None | Some(value: T) {
    function GetOr(default: T): T {
      match this
      case Some(v) => v
      case None => default
    }
  }

  /** A JSON value. An object is a map: a property that JavaScript would hold
      as `undefined` is not in the map at all, which is also how
      `JSON.stringify` writes it out. */
  datatype Json =
    | JNull
    | JBool(b: bool)
    | JNum(n: real)
    | JStr(s: string)
    | JArr(items: seq<Json>)
    | JObj(fields: map<string, Json>)

  /** One JSON-LD node, or any other plain object. */
  type Node = map<string, Json>

  /** JavaScript truthiness: `null`, `false`, `0` and `""` are falsy. */
  predicate Truthy(v: Json) {
    match v
    case JNull => false
    case JBool(b) => b
    case JNum(n) => n != 0.0
    case JStr(s) => s != ""
    case JArr(_) => true
    case JObj(_) => true
  }

  /** Truthiness of a value that may be `undefined` (None). */
  predicate Present(v: Option<Json>) {
    v.Some? && Truthy(v.value)
  }

  /** `v?.key` for the plain property names the schema code reads: the
      property of an object, `undefined` for every other value. */
  function Prop(v: Json, key: string): Option<Json> {
    if v.JObj? && key in v.fields then Some(v.fields[key]) else None
  }

  /** `Array.isArray(v) ? v : []` */
  function ArrayOrEmpty(v: Json): seq<Json> {
    if v.JArr? then v.items else []
  }

  /** `Object.keys(v || {}).length`: own keys of an object, indices of an
      array or a string, none for anything else. */
  function KeyCount(v: Option<Json>): nat {
    match v
    case Some(JObj(m)) => |m|
    case Some(JArr(xs)) => |xs|
    case Some(JStr(s)) => |s|
    case _ => 0
  }

  /** `v?.length`: defined for arrays and strings, and for an object that
      carries a `length` property. */
  function LengthOf(v: Option<Json>): Option<Json> {
    match v
    case Some(JArr(xs)) => Some(JNum(|xs| as real))
    case Some(JStr(s)) => Some(JNum(|s| as real))
    case Some(JObj(m)) => if "length" in m then Some(m["length"]) else None
    case _ => None
  }

  /** `s.includes(sub)` on strings. */
  predicate HasSubstring(s: string, sub: string)
    decreases |s|
  {
    sub <= s || (|s| > 0 && HasSubstring(s[1..], sub))
  }

  /** `s.includes(sub)` holds exactly when `sub` starts at some index of
      `s` from which it still fits. */
  lemma {:induction false} HasSubstringAt(s: string, sub: string)
    ensures HasSubstring(s, sub) <==> exists i :: 0 <= i <= |s| - |sub| && sub <= s[i..]
    decreases |s|
  {
    if |s| > 0 {
      HasSubstringAt(s[1..], sub);
      if exists i :: 0 <= i <= |s| - |sub| && sub <= s[i..] {
        var i :| 0 <= i <= |s| - |sub| && sub <= s[i..];
        if i > 0 {
          assert s[1..][i - 1..] == s[i..];
        }
      }
      if HasSubstring(s[1..], sub) && !(sub <= s) {
        var i :| 0 <= i <= |s[1..]| - |sub| && sub <= s[1..][i..];
        assert s[1..][i..] == s[i + 1..];
      }
    } else {
      if exists i :: 0 <= i <= |s| - |sub| && sub <= s[i..] {
        var i :| 0 <= i <= |s| - |sub| && sub <= s[i..];
        assert s[i..] == s;
      }
    }
  }

  /** No element occurs twice. */
  predicate NoDuplicates<T(==)>(s: seq<T>) {
    forall i, j :: 0 <= i < j < |s| ==> s[i] != s[j]
  }
}
