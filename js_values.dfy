/**
 * The JavaScript values that the modelled code inspects, and the few language
 * operations it relies on: truthiness, `typeof`, numeric coercion, property
 * reads, `Object.assign`, `new Map(entries)`, `indexOf` and `toUpperCase`.
 * Numbers are integers: timestamps, delays and thresholds are whole milliseconds
 * or pixels, and NaN is represented by `ToNumber` answering `None`.
 */
module JsValues {
  import opened Wrappers

  datatype Value =
    | Undefined
    | Null
    | Bool(b: bool)
    | Num(n: int)
    | Str(s: string)
    | Arr(elems: seq<Value>)
    | Obj(fields: map<string, Value>)
    | Fn(name: string)  // a function value: only its identity is modelled

  /** A plain object, as a map from property names to values. */
  type Record = map<string, Value>

  /** A Flux Standard Action `{type, payload, meta}`; `Undefined` stands for an absent field. */
  datatype Action = Action(actionType: string, payload: Value, meta: Value)

  predicate Truthy(v: Value) {
    match v
    case Undefined => false
    case Null => false
    case Bool(b) => b
    case Num(n) => n != 0
    case Str(s) => s != ""
    case _ => true
  }

  /** `value1 || value2` */
  function Or(v: Value, w: Value): (r: Value)
    ensures Truthy(v) ==> r == v
    ensures !Truthy(v) ==> r == w
  {
    if Truthy(v) then v else w
  }

  function TypeOf(v: Value): (t: string)
    ensures t == "object" <==> (v.Null? || v.Arr? || v.Obj?)
  {
    match v
    case Undefined => "undefined"
    case Null => "object"
    case Bool(_) => "boolean"
    case Num(_) => "number"
    case Str(_) => "string"
    case Arr(_) => "object"
    case Obj(_) => "object"
    case Fn(_) => "function"
  }

  /** Numeric coercion as done by `-` and `>`; `None` is NaN. Strings and arrays coerce to NaN here. */
  function ToNumber(v: Value): Option<int> {
    match v
    case Num(n) => Some(n)
    case Null => Some(0)
    case Bool(b) => Some(if b then 1 else 0)
    case _ => None
  }

  /** `o[k]` on a plain object. */
  function Get(o: Record, k: string): Value {
    if k in o then o[k] else Undefined
  }

  /**
   * `v[k]`, for a `v` its callers have already found to be neither `undefined`
   * nor `null` (reading a property of those throws a `TypeError`). Only objects
   * have properties here: the index properties and `length` of arrays and
   * strings read as undefined.
   */
  function Member(v: Value, k: string): Value {
    if v.Obj? then Get(v.fields, k) else Undefined
  }

  /**
   * The own enumerable properties that `Object.assign` and object spread copy
   * from an object; arrays and strings contribute none here.
   */
  function OwnProps(v: Value): Record {
    if v.Obj? then v.fields else map[]
  }

  /** `Object.assign({}, base, top)` yields `r`: every key of either, the values of `top` winning. */
  ghost predicate Overlays(r: Record, base: Record, top: Record) {
    && r.Keys == base.Keys + top.Keys
    && (forall k :: k in top ==> r[k] == top[k])
    && (forall k :: k in base && k !in top ==> r[k] == base[k])
  }

  /** `new Map(entries)`: every key of an entry is present, and a later entry overwrites an earlier one. */
  function MapFromEntries<K, V>(entries: seq<(K, V)>): (m: map<K, V>)
    ensures m.Keys == set i | 0 <= i < |entries| :: entries[i].0
  {
    if entries == [] then map[]
    else
      var last := entries[|entries| - 1];
      var m0 := MapFromEntries(entries[..|entries| - 1]);
      assert m0.Keys + {last.0} == set i | 0 <= i < |entries| :: entries[i].0 by {
        forall k | k in set i | 0 <= i < |entries| :: entries[i].0
          ensures k in m0.Keys + {last.0}
        {
          var i :| 0 <= i < |entries| && entries[i].0 == k;
          if i < |entries| - 1 {
            assert entries[..|entries| - 1][i].0 == k;
          }
        }
      }
      m0[last.0 := last.1]
  }

  /** The value a Map holds for a key is that of the last entry with that key. */
  lemma {:induction false} MapFromEntriesLastWins<K, V>(entries: seq<(K, V)>, i: nat)
    requires i < |entries|
    requires forall j :: i < j < |entries| ==> entries[j].0 != entries[i].0
    ensures MapFromEntries(entries)[entries[i].0] == entries[i].1
  {
    if i < |entries| - 1 {
      var prefix := entries[..|entries| - 1];
      assert prefix[i] == entries[i];
      MapFromEntriesLastWins(prefix, i);
    }
  }

  /** `s.indexOf(x)`: the first index holding `x`, or -1. */
  function IndexOf<T(==)>(s: seq<T>, x: T): (i: int)
    ensures -1 <= i < |s|
    ensures i >= 0 ==> s[i] == x && forall j :: 0 <= j < i ==> s[j] != x
    ensures i == -1 <==> x !in s
  {
    if s == [] then -1
    else if s[0] == x then 0
    else
      var j := IndexOf(s[1..], x);
      if j == -1 then -1 else j + 1
  }

  /** `toUpperCase` on one character; only the ASCII letters are mapped. */
  function UpperChar(c: char): char {
    if 'a' <= c <= 'z' then (c as int - 32) as char else c
  }

  predicate IsLowerAscii(c: char) {
    'a' <= c <= 'z'
  }

  function Upper(s: string): (r: string)
    ensures |r| == |s|
    ensures forall i :: 0 <= i < |s| ==> r[i] == UpperChar(s[i])
    ensures forall i :: 0 <= i < |r| ==> !IsLowerAscii(r[i])
  {
    if s == [] then [] else [UpperChar(s[0])] + Upper(s[1..])
  }

  /** The characters that the regular-expression class `\s` matches. */
  predicate IsWhitespace(c: char) {
    || c == ' ' || c == '\t' || c == '\n' || c == '\r' || c == '\U{000B}' || c == '\U{000C}'
    || c == '\U{00A0}' || c == '\U{1680}' || ('\U{2000}' <= c <= '\U{200A}')
    || c == '\U{2028}' || c == '\U{2029}' || c == '\U{202F}' || c == '\U{205F}'
    || c == '\U{3000}' || c == '\U{FEFF}'
  }
}
