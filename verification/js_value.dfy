/**
 The part of JavaScript's value space that collect.js observes: the
 primitive values its guards test, arrays, and plain objects seen as their
 own enumerable properties in enumeration order. Numbers are integers;
 a string is a sequence of code points, not of UTF-16 code units.
 Callbacks are not values here; they are Dafny functions held by
 `Pairs.Pair`.
 */
module JsValue {
  import opened Wrappers

  datatype Value =
    | Undefined
    | Null
    | Bool(b: bool)
    | Num(n: int)
    | Str(s: string)
    | Arr(elems: seq<Value>)
    | Obj(fields: Fields)

  /** An object's properties in enumeration order. A JavaScript object never
      holds two properties of the same name; see `DistinctKeys`. */
  type Fields = seq<(string, Value)>

  /** The second argument a map callback receives: the numeric index when an
      array is walked by index, the property name when an object is walked
      with `for…in`. */
  datatype Key = Index(i: nat) | Name(name: string)

  /** `v == null`: true for both undefined and null, and for nothing else. */
  predicate IsNullish(v: Value)
  {
    v.Undefined? || v.Null?
  }

  /** `!!v`. Integers carry no NaN, so 0 is the only falsy number. */
  predicate Truthy(v: Value)
  {
    match v
    case Undefined => false
    case Null => false
    case Bool(b) => b
    case Num(n) => n != 0
    case Str(s) => |s| > 0
    case Arr(_) => true
    case Obj(_) => true
  }

  /** The property names, in enumeration order. */
  function Keys(fields: Fields): seq<string>
  {
    seq(|fields|, i requires 0 <= i < |fields| => fields[i].0)
  }

  /** No name occurs twice, as in any JavaScript object. */
  predicate DistinctKeys<V>(fields: seq<(string, V)>)
  {
    forall i, j :: 0 <= i < j < |fields| ==> fields[i].0 != fields[j].0
  }

  /** Own-property lookup: the value of the first property named `k`. */
  function Lookup(fields: Fields, k: string): (r: Option<Value>)
    ensures r.Some? <==> k in Keys(fields)
    ensures r.Some? ==> (k, r.value) in fields
  {
    if |fields| == 0 then None
    else if fields[0].0 == k then
      assert Keys(fields)[0] == k;
      Some(fields[0].1)
    else
      assert Keys(fields) == [fields[0].0] + Keys(fields[1..]);
      Lookup(fields[1..], k)
  }

  /** The property read `obj[k]`; a missing property reads as undefined. */
  function Get(fields: Fields, k: string): Value
  {
    Lookup(fields, k).GetOr(Undefined)
  }

  /** The property write `obj[k] = v`: a new property is enumerated last, and an
      existing one keeps its place (`PutKeepsPlace`). */
  function Put(fields: Fields, k: string, v: Value): (r: Fields)
    ensures Lookup(r, k) == Some(v)
    ensures forall k' :: k' != k ==> Lookup(r, k') == Lookup(fields, k')
    ensures k !in Keys(fields) ==> r == fields + [(k, v)]
  {
    if |fields| == 0 then [(k, v)]
    else if fields[0].0 == k then
      assert Keys(fields)[0] == k;
      [(k, v)] + fields[1..]
    else
      var rest := Put(fields[1..], k, v);
      var r := [fields[0]] + rest;
      assert r[1..] == rest;
      assert k !in Keys(fields) ==> r == fields + [(k, v)] by {
        assert Keys(fields) == [fields[0].0] + Keys(fields[1..]);
        assert [fields[0]] + (fields[1..] + [(k, v)]) == fields + [(k, v)];
      }
      r
  }

  /** Writing a property that already exists keeps every name in its place
      in the enumeration order. */
  lemma {:induction false} PutKeepsPlace(fields: Fields, k: string, v: Value)
    requires k in Keys(fields)
    ensures Keys(Put(fields, k, v)) == Keys(fields)
  {
    var r := Put(fields, k, v);
    if fields[0].0 == k {
      assert r == [(k, v)] + fields[1..];
      assert forall i :: 0 <= i < |r| ==> Keys(r)[i] == Keys(fields)[i];
    } else {
      assert Keys(fields) == [fields[0].0] + Keys(fields[1..]);
      PutKeepsPlace(fields[1..], k, v);
      assert r == [fields[0]] + Put(fields[1..], k, v);
      assert Keys(r) == [fields[0].0] + Keys(Put(fields[1..], k, v));
    }
  }

  /** In an object without repeated names, every property is found by its
      own name. */
  lemma {:induction false} LookupDistinct(fields: Fields, j: nat)
    requires DistinctKeys(fields)
    requires j < |fields|
    ensures Lookup(fields, fields[j].0) == Some(fields[j].1)
  {
    if j > 0 {
      assert fields[0].0 != fields[j].0;
      LookupDistinct(fields[1..], j - 1);
    }
  }

  /** `String(n)` for a non-negative integer: its decimal digits. */
  function Decimal(n: nat): string
    decreases n
  {
    if n < 10 then ["0123456789"[n]]
    else Decimal(n / 10) + ["0123456789"[n % 10]]
  }

  /** `v.length`. Only arrays, strings and objects that carry a `length`
      property have one; null and undefined are never asked (collect.js
      tests them first). */
  function LengthProp(v: Value): Value
  {
    match v
    case Arr(xs) => Num(|xs|)
    case Str(s) => Num(|s|)
    case Obj(fields) => Get(fields, "length")
    case _ => Undefined
  }

  /** `v[i]` for a non-negative integer index `i`; on an object it reads the
      property spelled `String(i)`. */
  function Elem(v: Value, i: nat): Value
  {
    match v
    case Arr(xs) => if i < |xs| then xs[i] else Undefined
    case Str(s) => if i < |s| then Str([s[i]]) else Undefined
    case Obj(fields) => Get(fields, Decimal(i))
    case _ => Undefined
  }
}
