/**
 One map/reduce pair, `{map, reduce, init, data}`, and what it computes once
 the collection it walks and the accumulator it starts from are fixed.
 */
module Pairs {
  import opened Wrappers
  import opened JsValue
  import opened CollectionView
  import opened Fold

  /** A pair as collect.js reads it: `map` and `reduce` are absent when
      `== null`; an absent `init` or `data` is `Undefined`. A named entry that
      is a number or a non-empty string reads as the empty pair, since none of
      the four properties exist on it. */
  datatype Pair = Pair(mapFn: Option<MapFn>, reduceFn: Option<ReduceFn>, init: Value, data: Value)

  /** The pair's value over `src` with the fold starting from `start`: the
      mapped collection when there is no reduce, else the left fold of the
      reduce callback over what the loop visits in it. */
  function Eval(src: Value, start: Value, p: Pair): Value
  {
    var mapped := GetMap(src, p.mapFn);
    if p.reduceFn.None? then mapped else FoldSeq(p.reduceFn.value, start, Visited(mapped))
  }
}
