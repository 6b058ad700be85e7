/**
 The named form of collect.js, defined by position instead of by lookups in a
 growing result object: pair `k` may draw on the result of an earlier pair
 `j < k` through `data` or `init`, and on nothing else.
 */
module Chain {
  import opened Wrappers
  import opened JsValue
  import opened Pairs

  /** The spec object's properties read as pairs, in enumeration order. */
  type NamedPairs = seq<(string, Pair)>

  /** A JavaScript object never repeats a property name. */
  predicate DistinctNames(named: NamedPairs)
  {
    DistinctKeys(named)
  }

  /** The position among the first `k` pairs of the pair called `name`, if
      there is one (the last such, should names repeat). */
  function EarlierIndex(named: NamedPairs, k: nat, name: string): (r: Option<nat>)
    requires k <= |named|
    ensures r.Some? ==> r.value < k && named[r.value].0 == name
    ensures r.None? ==> forall j :: 0 <= j < k ==> named[j].0 != name
    decreases k
  {
    if k == 0 then None
    else if named[k - 1].0 == name then Some(k - 1)
    else EarlierIndex(named, k - 1, name)
  }

  /** The value pair `k` contributes to the result. */
  function ResultAt(source: Value, named: NamedPairs, k: nat): Value
    requires k < |named|
    decreases k, 1
  {
    Eval(SourceUsed(source, named, k), InitUsed(source, named, k), named[k].1)
  }

  /** The collection pair `k` walks: the result of the earlier pair its
      `data` names when that result is truthy, the original source
      otherwise. */
  function SourceUsed(source: Value, named: NamedPairs, k: nat): Value
    requires k < |named|
    decreases k, 0
  {
    var data := named[k].1.data;
    if data.Str? then
      match EarlierIndex(named, k, data.s)
      case Some(j) => if Truthy(ResultAt(source, named, j)) then ResultAt(source, named, j) else source
      case None => source
    else source
  }

  /** The accumulator pair `k` starts from: the result of the earlier pair its
      `init` names when that result is neither null nor undefined, the
      literal `init` otherwise. */
  function InitUsed(source: Value, named: NamedPairs, k: nat): Value
    requires k < |named|
    decreases k, 0
  {
    var init := named[k].1.init;
    if init.Str? then
      match EarlierIndex(named, k, init.s)
      case Some(j) => if !IsNullish(ResultAt(source, named, j)) then ResultAt(source, named, j) else init
      case None => init
    else init
  }

  /** The result object of the named form: one property per pair, in the
      pairs' order, each holding that pair's value. */
  function NamedSpec(source: Value, named: NamedPairs): Fields
  {
    seq(|named|, k requires 0 <= k < |named| => (named[k].0, ResultAt(source, named, k)))
  }

  lemma {:induction false} EarlierIndexPrefix(named: NamedPairs, n: nat, k: nat, name: string)
    requires k <= n <= |named|
    ensures EarlierIndex(named[..n], k, name) == EarlierIndex(named, k, name)
    decreases k
  {
    if k > 0 {
      EarlierIndexPrefix(named, n, k - 1, name);
    }
  }

  /** A pair's value depends only on the pairs before it: pairs appended
      later do not change it. */
  lemma {:induction false} ResultAtPrefix(source: Value, named: NamedPairs, n: nat, k: nat)
    requires k < n <= |named|
    ensures ResultAt(source, named[..n], k) == ResultAt(source, named, k)
    decreases k
  {
    var p := named[k].1;
    assert named[..n][k] == named[k];
    if p.data.Str? {
      EarlierIndexPrefix(named, n, k, p.data.s);
      match EarlierIndex(named, k, p.data.s)
      case Some(j) => ResultAtPrefix(source, named, n, j);
      case None =>
    }
    if p.init.Str? {
      EarlierIndexPrefix(named, n, k, p.init.s);
      match EarlierIndex(named, k, p.init.s)
      case Some(j) => ResultAtPrefix(source, named, n, j);
      case None =>
    }
  }

  /** With distinct names, a name found among the first `k` pairs is found at
      its one position. */
  lemma {:induction false} EarlierIndexDistinct(named: NamedPairs, k: nat, j: nat)
    requires DistinctNames(named)
    requires j < k <= |named|
    ensures EarlierIndex(named, k, named[j].0) == Some(j)
    decreases k
  {
    if j < k - 1 {
      assert named[k - 1].0 != named[j].0;
      EarlierIndexDistinct(named, k - 1, j);
    }
  }

  /** `data` naming an earlier pair: its result is walked if truthy, the
      original source otherwise. */
  lemma DataBackReference(source: Value, named: NamedPairs, j: nat, k: nat)
    requires DistinctNames(named)
    requires j < k < |named|
    requires named[k].1.data == Str(named[j].0)
    ensures Truthy(ResultAt(source, named, j)) ==> SourceUsed(source, named, k) == ResultAt(source, named, j)
    ensures !Truthy(ResultAt(source, named, j)) ==> SourceUsed(source, named, k) == source
  {
    EarlierIndexDistinct(named, k, j);
  }

  /** `init` naming an earlier pair: its result starts the fold unless it is
      null or undefined, in which case the name itself does. */
  lemma InitBackReference(source: Value, named: NamedPairs, j: nat, k: nat)
    requires DistinctNames(named)
    requires j < k < |named|
    requires named[k].1.init == Str(named[j].0)
    ensures !IsNullish(ResultAt(source, named, j)) ==> InitUsed(source, named, k) == ResultAt(source, named, j)
    ensures IsNullish(ResultAt(source, named, j)) ==> InitUsed(source, named, k) == Str(named[j].0)
  {
    EarlierIndexDistinct(named, k, j);
  }

  /** A name that no earlier pair carries (a later pair, the pair itself, or
      no pair at all) substitutes nothing. */
  lemma UnreadyReferenceFallsBack(source: Value, named: NamedPairs, k: nat, name: string)
    requires k < |named|
    requires forall j :: 0 <= j < k ==> named[j].0 != name
    ensures named[k].1.data == Str(name) ==> SourceUsed(source, named, k) == source
    ensures named[k].1.init == Str(name) ==> InitUsed(source, named, k) == Str(name)
  {
  }
}
