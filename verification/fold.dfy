/**
 The reduce half of collect.js: resolving the initial accumulator and the
 counting loop that folds the mapped collection.
 */
module Fold {
  import opened Wrappers
  import opened JsValue

  /** A reduce callback `(accumulator, value, index) -> newAccumulator`. */
  type ReduceFn = (Value, Value, nat) -> Value

  /** The bound `len = data.length` as the test `i < len` sees it: a number
      compares by value, and undefined (no `length`) admits no index. */
  function LoopBound(data: Value): int
  {
    var len := LengthProp(data);
    if len.Num? then len.n else 0
  }

  /** How many indices the loop visits. */
  function Count(len: int): nat
  {
    if len > 0 then len else 0
  }

  /** `data[0]`, …, `data[n - 1]`. */
  function Prefix(data: Value, n: nat): seq<Value>
  {
    seq(n, i requires 0 <= i < n => Elem(data, i))
  }

  /** The elements the reduce loop hands to the callback, in order. */
  function Visited(data: Value): seq<Value>
  {
    Prefix(data, Count(LoopBound(data)))
  }

  /** Reference left fold: the last element is combined last, with its
      index. */
  function FoldSeq(fn: ReduceFn, acc: Value, vs: seq<Value>): Value
  {
    if |vs| == 0 then acc
    else fn(FoldSeq(fn, acc, vs[..|vs| - 1]), vs[|vs| - 1], |vs| - 1)
  }

  /** The loop `for (i = 0, len = data.length; i < len; i++) result =
      fn(result, data[i], i)`, entered at index `i`. */
  function ReduceLoop(fn: ReduceFn, data: Value, acc: Value, i: nat, len: int): Value
    decreases len - i
  {
    if i < len then ReduceLoop(fn, data, fn(acc, Elem(data, i), i), i + 1, len) else acc
  }

  /** Entered at index `i` with the fold of the first `i` elements, the loop
      finishes with the fold of all of them. */
  lemma {:induction false} ReduceLoopFolds(fn: ReduceFn, data: Value, acc: Value, i: nat, len: int)
    requires i <= Count(len)
    ensures ReduceLoop(fn, data, FoldSeq(fn, acc, Prefix(data, i)), i, len)
         == FoldSeq(fn, acc, Prefix(data, Count(len)))
    decreases len - i
  {
    if i < len {
      assert Prefix(data, i + 1)[..i] == Prefix(data, i);
      ReduceLoopFolds(fn, data, acc, i + 1, len);
    }
  }

  /** The first lines of `getReduce`'s closure: a string `init` naming an
      already computed result that is not null or undefined starts the fold
      from that result; anything else is used as written. */
  function ResolveInit(collection: Fields, init: Value): (r: Value)
    ensures !init.Str? ==> r == init
    ensures init.Str? && init.s !in Keys(collection) ==> r == init
    ensures r != init ==> init.Str? && Lookup(collection, init.s) == Some(r) && !IsNullish(r)
    ensures init.Str? && Lookup(collection, init.s).Some? && !IsNullish(Lookup(collection, init.s).value) ==>
              r == Lookup(collection, init.s).value
  {
    if init.Str? && !IsNullish(Get(collection, init.s)) then Get(collection, init.s) else init
  }

  /** `getReduce(collection)(data, fn, init)`: a left fold of `fn` over the
      elements the loop visits, from the resolved initial accumulator. */
  function Reduce(collection: Fields, data: Value, fn: ReduceFn, init: Value): (r: Value)
    ensures r == FoldSeq(fn, ResolveInit(collection, init), Visited(data))
    ensures LoopBound(data) <= 0 ==> r == ResolveInit(collection, init)
  {
    var start := ResolveInit(collection, init);
    ReduceLoopFolds(fn, data, start, 0, LoopBound(data));
    assert Prefix(data, 0) == [];
    ReduceLoop(fn, data, start, 0, LoopBound(data))
  }

  /** Over an array the loop visits exactly the array's elements. */
  lemma VisitedArray(xs: seq<Value>)
    ensures Visited(Arr(xs)) == xs
  {
  }
}
