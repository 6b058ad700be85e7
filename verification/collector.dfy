/**
 `collect(data, maps)`: the guard, the choice between one pair and a set of
 named pairs, and the loop over named pairs that lets later pairs draw on
 earlier results through `data` and `init`.
 */
module Collector {
  import opened Wrappers
  import opened JsValue
  import opened CollectionView
  import opened Fold
  import opened Pairs
  import opened Chain

  /** The `maps` argument. `top` holds the object's own `map`, `reduce` and
      `init`; `named` is the object's enumerable properties read as pairs,
      consulted only when `top` has neither map nor reduce. */
  datatype Spec = Spec(top: Pair, named: NamedPairs)

  /** The single form: the spec itself carries a map or a reduce. */
  predicate IsSingle(spec: Spec)
  {
    spec.top.mapFn.Some? || spec.top.reduceFn.Some?
  }

  /** The guard: no source, a source whose `length` is 0, or no spec. */
  predicate Guarded(data: Value, maps: Option<Spec>)
  {
    IsNullish(data) || LengthProp(data) == Num(0) || maps.None?
  }

  /** `getMapReduce(map, reduce)(fns, newMap)`: map the replacement collection
      when there is one, the source otherwise; return that when the pair has
      no reduce, else fold it from `init` as resolved against the results so
      far. */
  function MapReduce(collection: Fields, source: Value, fns: Pair, alt: Option<Value>): (r: Value)
    ensures r == Eval(alt.GetOr(source), ResolveInit(collection, fns.init), fns)
  {
    var mapped := GetMap(alt.GetOr(source), fns.mapFn);
    if fns.reduceFn.None? then mapped else Reduce(collection, mapped, fns.reduceFn.value, fns.init)
  }

  /** `typeof fns.data == 'string' && collection[fns.data]`, kept only when
      truthy (`!!altData`). */
  function AltSource(collection: Fields, data: Value): (r: Option<Value>)
    ensures r.Some? ==> data.Str? && Lookup(collection, data.s) == Some(r.value) && Truthy(r.value)
    ensures data.Str? && Truthy(Get(collection, data.s)) ==> r.Some?
  {
    if data.Str? && Truthy(Get(collection, data.s)) then Some(Get(collection, data.s)) else None
  }

  /** The `for (var key in maps)` loop, entered with the results computed so
      far: each pair is evaluated against them and its value stored under its
      name. */
  function RunNamed(source: Value, named: NamedPairs, collection: Fields): Fields
    decreases |named|
  {
    if |named| == 0 then collection
    else
      var key := named[0].0;
      var fns := named[0].1;
      var value := MapReduce(collection, source, fns, AltSource(collection, fns.data));
      RunNamed(source, named[1..], Put(collection, key, value))
  }

  /** `collect(data, maps)`. */
  function Collect(data: Value, maps: Option<Spec>): (r: Value)
    ensures Guarded(data, maps) ==> r == Obj([])
    ensures !Guarded(data, maps) && IsSingle(maps.value) ==>
              r == Eval(data, maps.value.top.init, maps.value.top)
    ensures !Guarded(data, maps) && !IsSingle(maps.value) && DistinctNames(maps.value.named) ==>
              r == Obj(NamedSpec(data, maps.value.named))
  {
    if IsNullish(data) || LengthProp(data) == Num(0) || maps.None? then Obj([])
    else if maps.value.top.mapFn.Some? || maps.value.top.reduceFn.Some? then
      MapReduce([], data, maps.value.top, None)
    else
      var named := maps.value.named;
      assert DistinctNames(named) ==> RunNamed(data, named, []) == NamedSpec(data, named) by {
        if DistinctNames(named) {
          RunNamedMatchesSpec(data, named);
        }
      }
      Obj(RunNamed(data, named, []))
  }

  /** The results of the first `k` pairs have distinct names, and each name
      reads back its pair's value, or undefined if no earlier pair has it. */
  lemma {:induction false} SpecLookup(source: Value, named: NamedPairs, k: nat, name: string)
    requires DistinctNames(named)
    requires k <= |named|
    ensures DistinctKeys(NamedSpec(source, named[..k]))
    ensures Get(NamedSpec(source, named[..k]), name) ==
              match EarlierIndex(named, k, name)
              case Some(j) => ResultAt(source, named, j)
              case None => Undefined
  {
    var c := NamedSpec(source, named[..k]);
    match EarlierIndex(named, k, name)
    case Some(j) =>
      assert c[j].0 == name;
      LookupDistinct(c, j);
      ResultAtPrefix(source, named, k, j);
    case None =>
      assert name !in Keys(c);
  }

  /** Appending pair `k`'s value to the results of the first `k` pairs gives
      the results of the first `k + 1`. */
  lemma {:induction false} SpecExtend(source: Value, named: NamedPairs, k: nat)
    requires k < |named|
    ensures NamedSpec(source, named[..k + 1])
         == NamedSpec(source, named[..k]) + [(named[k].0, ResultAt(source, named, k))]
  {
    var lhs := NamedSpec(source, named[..k + 1]);
    var rhs := NamedSpec(source, named[..k]) + [(named[k].0, ResultAt(source, named, k))];
    forall i | 0 <= i < k + 1
      ensures lhs[i] == rhs[i]
    {
      ResultAtPrefix(source, named, k + 1, i);
      if i < k {
        ResultAtPrefix(source, named, k, i);
      }
    }
  }

  /** One turn of the loop: evaluating pair `k` against the results of the
      first `k` pairs and storing it under its name extends those results by
      exactly its reference value. */
  lemma {:induction false} RunNamedStep(source: Value, named: NamedPairs, k: nat)
    requires DistinctNames(named)
    requires k < |named|
    ensures var c := NamedSpec(source, named[..k]);
            var fns := named[k].1;
            Put(c, named[k].0, MapReduce(c, source, fns, AltSource(c, fns.data)))
              == NamedSpec(source, named[..k + 1])
  {
    var c := NamedSpec(source, named[..k]);
    var fns := named[k].1;
    StepSourceMatches(source, named, k);
    StepInitMatches(source, named, k);
    assert named[k].0 !in Keys(c);
    SpecExtend(source, named, k);
  }

  /** The collection the loop hands pair `k` is the positional reference's. */
  lemma StepSourceMatches(source: Value, named: NamedPairs, k: nat)
    requires DistinctNames(named)
    requires k < |named|
    ensures AltSource(NamedSpec(source, named[..k]), named[k].1.data).GetOr(source) == SourceUsed(source, named, k)
  {
    var data := named[k].1.data;
    if data.Str? {
      SpecLookup(source, named, k, data.s);
    }
  }

  /** The accumulator the loop starts pair `k` from is the positional
      reference's. */
  lemma StepInitMatches(source: Value, named: NamedPairs, k: nat)
    requires DistinctNames(named)
    requires k < |named|
    ensures ResolveInit(NamedSpec(source, named[..k]), named[k].1.init) == InitUsed(source, named, k)
  {
    var init := named[k].1.init;
    if init.Str? {
      SpecLookup(source, named, k, init.s);
    }
  }

  /** The loop, entered after the first `k` pairs, finishes with the reference
      result object. */
  lemma {:induction false} RunNamedFrom(source: Value, named: NamedPairs, k: nat)
    requires DistinctNames(named)
    requires k <= |named|
    ensures RunNamed(source, named[k..], NamedSpec(source, named[..k])) == NamedSpec(source, named)
    decreases |named| - k
  {
    if k == |named| {
      assert named[..k] == named;
    } else {
      RunNamedStep(source, named, k);
      assert named[k..][1..] == named[k + 1..];
      RunNamedFrom(source, named, k + 1);
    }
  }

  /** The named form computes, for every pair in order, the value the
      positional reference assigns it, under the pair's own name. */
  lemma RunNamedMatchesSpec(source: Value, named: NamedPairs)
    requires DistinctNames(named)
    ensures RunNamed(source, named, []) == NamedSpec(source, named)
  {
    RunNamedFrom(source, named, 0);
    assert named[0..] == named;
    assert NamedSpec(source, named[..0]) == [];
  }

  /** The guard's cases: no source, an empty array or string, or no spec
      give an empty object. */
  lemma GuardCases(data: Value, maps: Option<Spec>)
    requires IsNullish(data) || data == Arr([]) || data == Str("") || maps.None?
    ensures Collect(data, maps) == Obj([])
  {
  }

  /** An object with no properties is not caught by the guard: a map over it
      yields an empty array, not an empty object. */
  lemma EmptyObjectNotGuarded(f: MapFn, named: NamedPairs)
    ensures Collect(Obj([]), Some(Spec(Pair(Some(f), None, Undefined, Undefined), named))) == Arr([])
  {
  }

  /** Reduce with no map over an object without a `length` property: the
      object itself is handed to the loop, which runs zero times, so the
      literal `init` comes back. */
  lemma ObjectReduceWithoutMap(fields: Fields, fn: ReduceFn, init: Value, named: NamedPairs)
    requires "length" !in Keys(fields)
    ensures Collect(Obj(fields), Some(Spec(Pair(None, Some(fn), init, Undefined), named))) == init
  {
  }

  /** In the named form the result object lists exactly the spec's names, in
      order, each holding its pair's value. */
  lemma NamedResultShape(data: Value, spec: Spec)
    requires !Guarded(data, Some(spec)) && !IsSingle(spec)
    requires DistinctNames(spec.named)
    ensures Collect(data, Some(spec)).Obj?
    ensures Keys(Collect(data, Some(spec)).fields) == seq(|spec.named|, k requires 0 <= k < |spec.named| => spec.named[k].0)
    ensures forall k :: 0 <= k < |spec.named| ==>
              Get(Collect(data, Some(spec)).fields, spec.named[k].0) == ResultAt(data, spec.named, k)
  {
    var fields := Collect(data, Some(spec)).fields;
    assert DistinctKeys(fields);
    forall k | 0 <= k < |spec.named|
      ensures Get(fields, spec.named[k].0) == ResultAt(data, spec.named, k)
    {
      LookupDistinct(fields, k);
    }
  }
}
