/**
 The cases of test/collect.spec.js, worked through the model with integer
 callbacks, plus two chains showing the `data` and `init` back-references.
 */
module WorkedExamples {
  import opened Wrappers
  import opened JsValue
  import opened CollectionView
  import opened Fold
  import opened Pairs
  import opened Chain
  import opened Collector

  /** `function(x, i) { return x + 1; }` on integers. */
  function Inc(v: Value, k: Key): Value
  {
    if v.Num? then Num(v.n + 1) else Undefined
  }

  /** `res + cur` on two integers or two strings; the remaining mixes
      (coercions, NaN) are not needed here. */
  function Plus(acc: Value, cur: Value, i: nat): Value
  {
    if acc.Num? && cur.Num? then Num(acc.n + cur.n)
    else if acc.Str? && cur.Str? then Str(acc.s + cur.s)
    else Undefined
  }

  /** `function(val, key) { return key; }` */
  function KeyOf(v: Value, k: Key): Value
  {
    match k
    case Index(i) => Num(i)
    case Name(name) => Str(name)
  }

  const Data: Value := Arr([Num(0), Num(1), Num(2)])
  const Hash: Value := Obj([("zero", Num(0)), ("one", Num(1)), ("two", Num(2))])
  const NoPair: Pair := Pair(None, None, Undefined, Undefined)
  const IncSumFromZero: Pair := Pair(Some(Inc), Some(Plus), Num(0), Undefined)

  /** "calls a top-level map function" */
  lemma TopLevelMap()
    ensures Collect(Data, Some(Spec(Pair(Some(Inc), None, Undefined, Undefined), []))) == Arr([Num(1), Num(2), Num(3)])
  {
    var r := Collect(Data, Some(Spec(Pair(Some(Inc), None, Undefined, Undefined), [])));
    assert |r.elems| == 3;
    assert r.elems[0] == Num(1) && r.elems[1] == Num(2) && r.elems[2] == Num(3);
  }

  /** Folding three elements combines them left to right. */
  lemma FoldThree(fn: ReduceFn, acc: Value, a: Value, b: Value, c: Value)
    ensures FoldSeq(fn, acc, [a, b, c]) == fn(fn(fn(acc, a, 0), b, 1), c, 2)
  {
    assert [a][..0] == [];
    assert FoldSeq(fn, acc, [a]) == fn(acc, a, 0);
    assert [a, b][..1] == [a];
    assert FoldSeq(fn, acc, [a, b]) == fn(fn(acc, a, 0), b, 1);
    assert [a, b, c][..2] == [a, b];
  }

  /** Incrementing [0, 1, 2] and summing from `start` adds 6. */
  lemma IncSum(start: int)
    ensures Eval(Data, Num(start), IncSumFromZero) == Num(start + 6)
  {
    var mapped := GetMap(Data, Some(Inc));
    assert mapped.elems == [Num(1), Num(2), Num(3)];
    VisitedArray(mapped.elems);
    FoldThree(Plus, Num(start), Num(1), Num(2), Num(3));
  }

  /** "calls a top-level reduce function": with no `init` the first
      accumulator the callback receives is undefined. */
  lemma TopLevelReduceStartsUndefined(fn: ReduceFn)
    ensures Collect(Data, Some(Spec(Pair(None, Some(fn), Undefined, Undefined), [])))
         == fn(fn(fn(Undefined, Num(0), 0), Num(1), 1), Num(2), 2)
  {
    VisitedArray([Num(0), Num(1), Num(2)]);
    FoldThree(fn, Undefined, Num(0), Num(1), Num(2));
  }

  /** "supports initial values in reduce" */
  lemma ReduceWithInit()
    ensures Collect(Data, Some(Spec(IncSumFromZero, []))) == Num(6)
  {
    IncSum(0);
  }

  /** The test object has no `length` property, so the guard lets it
      through. */
  lemma HashHasNoLength()
    ensures LengthProp(Hash) == Undefined
  {
    assert "length" !in Keys(Hash.fields);
  }

  lemma HashIncremented()
    ensures GetMap(Hash, Some(Inc)) == Arr([Num(1), Num(2), Num(3)])
  {
    var mapped := GetMap(Hash, Some(Inc));
    assert |mapped.elems| == 3;
    assert mapped.elems[0] == Num(1) && mapped.elems[1] == Num(2) && mapped.elems[2] == Num(3);
  }

  lemma HashKeys()
    ensures GetMap(Hash, Some(KeyOf)) == Arr([Str("zero"), Str("one"), Str("two")])
  {
    var mapped := GetMap(Hash, Some(KeyOf));
    assert |mapped.elems| == 3;
    assert mapped.elems[0] == Str("zero") && mapped.elems[1] == Str("one") && mapped.elems[2] == Str("two");
  }

  /** "can map object values" */
  lemma MapObjectValues()
    ensures Collect(Hash, Some(Spec(Pair(Some(Inc), None, Undefined, Undefined), []))) == Arr([Num(1), Num(2), Num(3)])
  {
    HashHasNoLength();
    HashIncremented();
  }

  /** "can map object keys" */
  lemma MapObjectKeys()
    ensures Collect(Hash, Some(Spec(Pair(Some(KeyOf), Some(Plus), Str(""), Undefined), []))) == Str("zeroonetwo")
  {
    HashHasNoLength();
    HashKeys();
    ConcatKeys();
  }

  lemma ConcatKeys()
    ensures FoldSeq(Plus, Str(""), Visited(Arr([Str("zero"), Str("one"), Str("two")]))) == Str("zeroonetwo")
  {
    VisitedArray([Str("zero"), Str("one"), Str("two")]);
    FoldThree(Plus, Str(""), Str("zero"), Str("one"), Str("two"));
    assert "" + "zero" + "one" + "two" == "zeroonetwo";
  }

  /** "loops through data and calls mappings on each datum" */
  lemma NamedPairResult()
    ensures Collect(Data, Some(Spec(NoPair, [("test", IncSumFromZero)]))) == Obj([("test", Num(6))])
  {
    var named := [("test", IncSumFromZero)];
    assert SourceUsed(Data, named, 0) == Data;
    assert InitUsed(Data, named, 0) == Num(0);
    IncSum(0);
    assert ResultAt(Data, named, 0) == Num(6);
    assert NamedSpec(Data, named) == [("test", Num(6))];
  }

  /** The named form over three distinctly named pairs, spelled out. */
  lemma NamedThree(data: Value, named: NamedPairs)
    requires |named| == 3 && DistinctNames(named)
    requires !Guarded(data, Some(Spec(NoPair, named)))
    ensures Collect(data, Some(Spec(NoPair, named)))
         == Obj([(named[0].0, ResultAt(data, named, 0)),
                 (named[1].0, ResultAt(data, named, 1)),
                 (named[2].0, ResultAt(data, named, 2))])
  {
    var spec := Spec(NoPair, named);
    assert !IsSingle(spec);
    var fields := NamedSpec(data, named);
    assert Collect(data, Some(spec)) == Obj(fields);
    assert |fields| == 3;
    assert fields[0] == (named[0].0, ResultAt(data, named, 0));
    assert fields[1] == (named[1].0, ResultAt(data, named, 1));
    assert fields[2] == (named[2].0, ResultAt(data, named, 2));
  }

  const IncPair: Pair := Pair(Some(Inc), None, Undefined, Undefined)
  const DataChainPairs: NamedPairs := [
    ("inc", IncPair),
    ("sum", Pair(None, Some(Plus), Num(0), Str("inc"))),
    ("self", Pair(None, Some(Plus), Num(0), Str("self")))]

  lemma DataChainInc()
    ensures ResultAt(Data, DataChainPairs, 0) == Arr([Num(1), Num(2), Num(3)])
  {
    var incs := ResultAt(Data, DataChainPairs, 0);
    assert |incs.elems| == 3;
    assert incs.elems[0] == Num(1) && incs.elems[1] == Num(2) && incs.elems[2] == Num(3);
  }

  lemma DataChainSum()
    ensures ResultAt(Data, DataChainPairs, 1) == Num(6)
  {
    var named := DataChainPairs;
    var incs := Arr([Num(1), Num(2), Num(3)]);
    DataChainInc();
    assert EarlierIndex(named, 1, "inc") == Some(0);
    assert SourceUsed(Data, named, 1) == incs;
    assert InitUsed(Data, named, 1) == Num(0);
    VisitedArray(incs.elems);
    FoldThree(Plus, Num(0), Num(1), Num(2), Num(3));
  }

  lemma DataChainSelf()
    ensures ResultAt(Data, DataChainPairs, 2) == Num(3)
  {
    var named := DataChainPairs;
    assert EarlierIndex(named, 2, "self") == None;
    VisitedArray([Num(0), Num(1), Num(2)]);
    FoldThree(Plus, Num(0), Num(0), Num(1), Num(2));
  }

  /** A later pair walks an earlier pair's array through `data`, and a pair
      whose `data` names itself falls back to the source. */
  lemma DataChain()
    ensures Collect(Data, Some(Spec(NoPair, DataChainPairs)))
         == Obj([("inc", Arr([Num(1), Num(2), Num(3)])), ("sum", Num(6)), ("self", Num(3))])
  {
    NamedThree(Data, DataChainPairs);
    DataChainInc();
    DataChainSum();
    DataChainSelf();
  }

  const ZeroPairs: NamedPairs := [
    ("zero", Pair(None, Some(Plus), Num(-3), Undefined)),
    ("asData", Pair(Some(Inc), None, Undefined, Str("zero"))),
    ("asInit", IncSumFromZero.(init := Str("zero")))]

  lemma ZeroResult()
    ensures ResultAt(Data, ZeroPairs, 0) == Num(0)
  {
    var named := ZeroPairs;
    assert SourceUsed(Data, named, 0) == Data;
    assert InitUsed(Data, named, 0) == Num(-3);
    VisitedArray([Num(0), Num(1), Num(2)]);
    FoldThree(Plus, Num(-3), Num(0), Num(1), Num(2));
  }

  lemma ZeroAsData()
    ensures ResultAt(Data, ZeroPairs, 1) == Arr([Num(1), Num(2), Num(3)])
  {
    var named := ZeroPairs;
    ZeroResult();
    assert EarlierIndex(named, 1, "zero") == Some(0);
    assert SourceUsed(Data, named, 1) == Data;
    var incs := ResultAt(Data, named, 1);
    assert |incs.elems| == 3;
    assert incs.elems[0] == Num(1) && incs.elems[1] == Num(2) && incs.elems[2] == Num(3);
  }

  lemma ZeroAsInit()
    ensures ResultAt(Data, ZeroPairs, 2) == Num(6)
  {
    var named := ZeroPairs;
    ZeroResult();
    InitBackReference(Data, named, 0, 2);
    assert InitUsed(Data, named, 2) == Num(0);
    assert SourceUsed(Data, named, 2) == Data;
    IncSum(0);
  }

  /** An earlier result of 0 is falsy, so `data` naming it walks the source;
      it is not null, so `init` naming it starts the fold from 0. */
  lemma ZeroServesInitButNotData()
    ensures Collect(Data, Some(Spec(NoPair, ZeroPairs)))
         == Obj([("zero", Num(0)), ("asData", Arr([Num(1), Num(2), Num(3)])), ("asInit", Num(6))])
  {
    NamedThree(Data, ZeroPairs);
    ZeroResult();
    ZeroAsData();
    ZeroAsInit();
  }
}
