/**
 The mapping half of collect.js: walking a collection and handing each
 entry to the caller's map callback. Arrays are walked by index, every other
 value with `for…in`; either way the results form a new array. With no map
 callback the collection itself is passed on untouched.
 */
module CollectionView {
  import opened Wrappers
  import opened JsValue

  /** A map callback `(value, indexOrKey) -> newValue`. */
  type MapFn = (Value, Key) -> Value

  /** `arrayMap`: one result per index, pushed in index order. */
  function ArrayMap(xs: seq<Value>, f: MapFn): (results: seq<Value>)
    ensures |results| == |xs|
    ensures forall i :: 0 <= i < |xs| ==> results[i] == f(xs[i], Index(i))
  {
    if |xs| == 0 then []
    else ArrayMap(xs[..|xs| - 1], f) + [f(xs[|xs| - 1], Index(|xs| - 1))]
  }

  /** `objMap`: one result per enumerated property, pushed in enumeration
      order, the callback receiving the property's value and its name. */
  function ObjMap(obj: Fields, f: MapFn): (results: seq<Value>)
    ensures |results| == |obj|
    ensures forall i :: 0 <= i < |obj| ==> results[i] == f(obj[i].1, Name(obj[i].0))
  {
    if |obj| == 0 then []
    else ObjMap(obj[..|obj| - 1], f) + [f(obj[|obj| - 1].1, Name(obj[|obj| - 1].0))]
  }

  /** What `for…in` enumerates on a string primitive: the properties "0",
      "1", … each holding a one-character string. */
  function StringProps(s: string): Fields
  {
    seq(|s|, i requires 0 <= i < |s| => (Decimal(i), Str([s[i]])))
  }

  /** The entries a map callback is handed, as (value, key) pairs in the order
      it sees them. Numbers and booleans enumerate nothing. */
  function Entries(data: Value): seq<(Value, Key)>
  {
    match data
    case Arr(xs) => seq(|xs|, i requires 0 <= i < |xs| => (xs[i], Index(i)))
    case Obj(fields) => seq(|fields|, i requires 0 <= i < |fields| => (fields[i].1, Name(fields[i].0)))
    case Str(s) => seq(|s|, i requires 0 <= i < |s| => (Str([s[i]]), Name(Decimal(i))))
    case _ => []
  }

  /** `typeMap(data)(f)`: arrays through `arrayMap`, everything else through
      `objMap`. The result is a fresh array holding the callback's answer for
      each entry, in order. */
  function TypeMap(data: Value, f: MapFn): (r: Value)
    ensures r.Arr?
    ensures |r.elems| == |Entries(data)|
    ensures forall i :: 0 <= i < |r.elems| ==> r.elems[i] == f(Entries(data)[i].0, Entries(data)[i].1)
  {
    match data
    case Arr(xs) => Arr(ArrayMap(xs, f))
    case Obj(fields) => Arr(ObjMap(fields, f))
    case Str(s) => Arr(ObjMap(StringProps(s), f))
    case _ => Arr([])
  }

  /** `getMap(data)(map)`: without a callback the collection itself comes
      back (the same value, not a copy); with one, the array of its results
      over the entries. */
  function GetMap(data: Value, mapFn: Option<MapFn>): (r: Value)
    ensures mapFn.None? ==> r == data
    ensures mapFn.Some? ==> r.Arr? && |r.elems| == |Entries(data)|
    ensures mapFn.Some? ==> forall i :: 0 <= i < |r.elems| ==>
              r.elems[i] == mapFn.value(Entries(data)[i].0, Entries(data)[i].1)
  {
    if mapFn.None? then data else TypeMap(data, mapFn.value)
  }
}
