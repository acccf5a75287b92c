/**
 * The JavaScript values the request payloads and the stored preferences are
 * made of, with the conversions the source applies to them: truthiness,
 * `String(v)` and property lookup. Numbers are integers here.
 */
module Js {
  import opened Text

  datatype Value =
    | Undefined
    | Null
    | Bool(b: bool)
    | Num(n: int)
    | Str(s: string)
    | Arr(items: seq<Value>)
    | Obj(fields: map<string, Value>)

  /** The value of `!!v`. */
  predicate Truthy(v: Value) {
    match v
    case Undefined => false
    case Null => false
    case Bool(b) => b
    case Num(n) => n != 0
    case Str(s) => s != ""
    case Arr(_) => true
    case Obj(_) => true
  }

  /** `String(v)`; array elements that are null or undefined print as nothing. */
  function ToStr(v: Value): string
    decreases v, 1
  {
    match v
    case Undefined => "undefined"
    case Null => "null"
    case Bool(b) => if b then "true" else "false"
    case Num(n) => IntToString(n)
    case Str(s) => s
    case Arr(items) => Join(ElementStrings(v, items), ',')
    case Obj(_) => "[object Object]"
  }

  function ElementStrings(v: Value, items: seq<Value>): (r: seq<string>)
    requires v.Arr? && items == v.items
    ensures |r| == |items|
    decreases v, 0
  {
    seq(|items|, i requires 0 <= i < |items| =>
      if items[i].Undefined? || items[i].Null? then "" else ToStr(items[i]))
  }

  /** `o[key]`, undefined when the key is absent. */
  function Get(o: map<string, Value>, key: string): (r: Value)
    ensures key in o ==> r == o[key]
    ensures key !in o ==> r == Undefined
  {
    if key in o then o[key] else Undefined
  }

  /** `v && typeof v === 'object'`: a plain object or an array. */
  predicate IsObject(v: Value) {
    v.Obj? || v.Arr?
  }

  /** The keys '0', '1', ... of a sequence's positions, each mapped to its element. */
  function IndexFields(items: seq<Value>): (r: map<string, Value>)
    ensures forall i :: 0 <= i < |items| ==> NatToString(i) in r && r[NatToString(i)] == items[i]
    ensures forall k :: k in r ==> exists i :: 0 <= i < |items| && k == NatToString(i)
  {
    NatToStringInjectiveAll();
    map i | 0 <= i < |items| :: NatToString(i) := items[i]
  }

  lemma NatToStringInjectiveAll()
    ensures forall m: nat, n: nat :: NatToString(m) == NatToString(n) ==> m == n
  {
    forall m: nat, n: nat | NatToString(m) == NatToString(n) {
      NatToStringInjective(m, n);
    }
  }

  /**
   * The own enumerable properties `...v` copies: an object's fields, an
   * array's elements and a string's characters under their index keys,
   * nothing for any other value.
   */
  function OwnFields(v: Value): map<string, Value> {
    match v
    case Obj(fields) => fields
    case Arr(items) => IndexFields(items)
    case Str(s) => IndexFields(seq(|s|, i requires 0 <= i < |s| => Str([s[i]])))
    case _ => map[]
  }

  /** `v.key` on a plain object: its field, undefined on anything else. */
  function Prop(v: Value, key: string): (r: Value)
    ensures !v.Obj? ==> r == Undefined
    ensures v.Obj? ==> r == Get(v.fields, key)
  {
    if v.Obj? then Get(v.fields, key) else Undefined
  }

  /** `{ ...a, ...b }` for two plain objects: the keys of both, `b` winning. */
  function Spread(a: map<string, Value>, b: map<string, Value>): (r: map<string, Value>)
    ensures r.Keys == a.Keys + b.Keys
    ensures forall k :: k in b ==> r[k] == b[k]
    ensures forall k :: k in a && k !in b ==> r[k] == a[k]
  {
    a + b
  }

  /** Spreading an object whose keys cover the first one's gives the second object back. */
  lemma SpreadCovered(a: map<string, Value>, b: map<string, Value>)
    requires a.Keys <= b.Keys
    ensures Spread(a, b) == b
  {
  }

  lemma SpreadAssociative(a: map<string, Value>, b: map<string, Value>, c: map<string, Value>)
    ensures Spread(Spread(a, b), c) == Spread(a, Spread(b, c))
  {
  }
}
