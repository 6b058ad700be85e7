# collect: a Dafny model of a map/reduce dispatcher

`collect(data, maps)` walks a collection (an array by index, anything else
with `for…in`), hands each entry to a map callback, and optionally folds the
mapped values with a reduce callback from an initial accumulator. `maps` is
either one pair `{map, reduce, init}` or an object of named pairs. Named
pairs are evaluated in order into a result object, and a later pair may use
an earlier pair's result. Through `data: "name"` it walks that result
instead of the source. Through `init: "name"` it starts its fold from it.

The model is pure and functional:

- `JsValue`: JavaScript values (`Undefined | Null | Bool | Num(int) | Str | Arr | Obj`), an object being its own properties in enumeration order. It also holds `== null` (`IsNullish`), truthiness (`Truthy`), property read and write (`Lookup`, `Get`, `Put`), and `length` and `v[i]` (`LengthProp`, `Elem`).
- `CollectionView`: `arrayMap`, `objMap`, `typeMap` and `getMap`. `Entries` is the reference enumeration they are proved against. A string source is enumerated as `for…in` enumerates a string, keys "0", "1", … each holding a one-character string, with a string taken as a sequence of code points (see "## Left out").
- `Fold`: `getReduce`. `ResolveInit` resolves the initial accumulator. `ReduceLoop` is the counting loop. `FoldSeq` is a reference left fold, and `ReduceLoopFolds` proves the loop computes it.
- `Pairs`: a pair `{map, reduce, init, data}`, with callbacks as Dafny functions. `Eval` is what a pair computes once the collection and the starting accumulator are fixed.
- `Chain`: a positional reference for the named form. Pair `k` draws only on the results of pairs `j < k`, found by position rather than by looking names up in a growing object.
- `Collector`: `getMapReduce` (`MapReduce`), the `data` back-reference (`AltSource`), the `for…in` loop over named pairs (`RunNamed`) and `collect` itself (`Collect`). `RunNamedMatchesSpec` proves the loop computes the positional reference whenever the names are distinct, as property names of a JavaScript object are.
- `WorkedExamples`: the cases of test/collect.spec.js and two chains, with integer callbacks.

The `maps` argument is `Option<Spec>`, with `None` standing for null or undefined. `Spec(top, named)` holds the object's own `map`, `reduce` and `init` in `top`. `named` holds its enumerable properties read as pairs. These are consulted only when `top` has neither map nor reduce. A named entry that is a number or a non-empty string has none of the four properties, so it reads as the empty pair.

`Collect` is a pure function of its arguments: the same source and spec always give the same result, and no value is changed in place.

collect.js's behaviour differs from its test in one case, and the model follows collect.js:

- **Reduce with no `init`.** test/collect.spec.js:29-34 expects `3` when summing `[0,1,2]` with no `init`. The code starts the accumulator at `undefined`, which gives `NaN` in JavaScript. `WorkedExamples.TopLevelReduceStartsUndefined` shows that the first accumulator handed to the callback is `Undefined`.

Two further behaviours of collect.js worth stating plainly:

- **Empty object source.** An object with no properties is not guarded (`data.length` is undefined on it), so a map over it gives `[]`, not `{}`.
- **Reduce with no map over an object.** The object is not turned into a sequence of its values. It is handed to the counting loop as is, and that loop runs zero times unless the object has a numeric `length`.

## Model

| member | source | states |
|---|---|---|
| JsValue.Lookup | collect.js:68-69 | an own-property read finds a value exactly when the name is among the object's keys, and the value found is stored under that name |
| JsValue.Put | collect.js:116 | after `collection[key] = v`, reading `key` gives `v`, every other name reads as before, and a name not yet present is enumerated last |
| JsValue.PutKeepsPlace | collect.js:116 | writing a name that is already present leaves the enumeration order of names unchanged |
| CollectionView.ArrayMap | collect.js:16-22 | one result per array element, in index order; result `i` is the callback applied to element `i` and the number `i` |
| CollectionView.ObjMap | collect.js:28-34 | one result per enumerated property, in enumeration order; result `i` is the callback applied to that property's value and its name |
| CollectionView.TypeMap | collect.js:39-50 | the result is a fresh array with one element per entry of the reference enumeration (index-keyed for arrays, name-keyed otherwise, empty for numbers and booleans), each the callback's value on that entry |
| CollectionView.GetMap | collect.js:55-60 | with no map callback the collection itself is returned unchanged; with one, the array of its results over the reference enumeration |
| Fold.ReduceLoopFolds | collect.js:71-73 | `Fold.ReduceLoop`, the model of the counting loop `result = fn(result, data[i], i)` for `i < len`, computes the reference left fold over `data[0..len)` |
| Fold.ResolveInit | collect.js:68-69 | the stored result replaces `init` if and only if `init` is a string naming a stored result that is neither null nor undefined; otherwise `init` is used as written (in particular a non-string `init`, or a name with no stored result) |
| Fold.Reduce | collect.js:66-76 | the reduce result is the left fold of the callback over the elements the loop visits, from the resolved `init`; with no positive `length` it is the resolved `init` itself |
| Collector.MapReduce | collect.js:83-92 | a pair maps the replacement collection if given, else the source; with no reduce the mapped value is the result, otherwise the fold of it from the resolved `init` |
| Collector.AltSource | collect.js:114-115 | a replacement collection is used only when `data` is a string naming a stored result that is truthy, and it is that stored result |
| Collector.Collect | collect.js:102-120 | null or undefined source, a source of `length` 0, or no spec gives `{}`; a spec with map or reduce gives that one pair's value with `init` taken literally; otherwise, for distinct names, the positional reference result object |
| Collector.RunNamedMatchesSpec | collect.js:111-118 | `Collector.RunNamed`, the model of the `for (var key in maps)` loop over named pairs, storing each result as it goes, yields one property per pair in order, each holding the value the positional reference assigns that pair |
| Collector.RunNamedStep | collect.js:113-116 | one iteration evaluates pair `k` against exactly the results of pairs before it and appends its value under its name |
| Collector.StepSourceMatches | collect.js:114-116 | the collection the loop hands a named pair, looked up by name among the results so far, is the one the positional reference chooses |
| Collector.StepInitMatches | collect.js:68-69 | the accumulator a named pair starts from, resolved by name among the results so far, is the one the positional reference chooses |
| Collector.GuardCases | collect.js:103 | null or undefined source, an empty array, an empty string, or a missing spec gives an empty object |
| Collector.EmptyObjectNotGuarded | collect.js:103 | an object source with no properties passes the guard, so mapping it gives an empty array, not an empty object |
| Collector.ObjectReduceWithoutMap | collect.js:71 | reduce with no map over an object without a `length` property returns the literal `init`, because the loop runs zero times |
| Collector.NamedResultShape | collect.js:112-118 | the named-form result has exactly the spec's names as keys, in order, and each name reads back its own pair's value |
| Chain.ResultAtPrefix | collect.js:112-116 | a named pair's value depends only on the pairs before it; later pairs cannot change it |
| Chain.DataBackReference | collect.js:114-115 | `data` naming an earlier pair walks that pair's result if it is truthy, and the original source if it is falsy (0, "", false, null, undefined) |
| Chain.InitBackReference | collect.js:68-69 | `init` naming an earlier pair starts the fold from that pair's result unless it is null or undefined, in which case the name string itself is the start |
| Chain.UnreadyReferenceFallsBack | collect.js:112-116 | a `data` or `init` name that no earlier pair carries (a later pair, the pair itself, or none) gives the original source and the literal `init` |
| Chain.EarlierIndexDistinct | collect.js:112 | with distinct names, a name among the first `k` pairs is found at its one position |
| WorkedExamples.TopLevelMap | test/collect.spec.js:22-27 | `[0,1,2]` with `x + 1` gives `[1,2,3]` |
| WorkedExamples.TopLevelReduceStartsUndefined | test/collect.spec.js:29-34 | with no `init`, the fold over `[0,1,2]` starts from undefined (the test's expected `3` is not what the code computes) |
| WorkedExamples.ReduceWithInit | test/collect.spec.js:36-41 | `[0,1,2]` with `x + 1`, `+` and `init` 0 gives 6 |
| WorkedExamples.MapObjectValues | test/collect.spec.js:43-49 | `{zero:0, one:1, two:2}` with `x + 1` gives `[1,2,3]`, in enumeration order |
| WorkedExamples.MapObjectKeys | test/collect.spec.js:51-60 | mapping the same object to its keys and concatenating from "" gives "zeroonetwo" |
| WorkedExamples.NamedPairResult | test/collect.spec.js:62-67 | the named form `{test: …}` gives `{test: 6}` |
| WorkedExamples.DataChain | collect.js:114-116 | a pair whose `data` names an earlier array result folds that array; one whose `data` names itself folds the source |
| WorkedExamples.ZeroServesInitButNotData | collect.js:68-115 | an earlier result of 0 is not used as `data` (falsy) but is used as `init` (not null) |

## Left out

- Prototype-chain lookups: `collection[name]` for a name such as "toString" would find an inherited member. Lookups here see only the properties stored in the object.
- JavaScript's `for…in` ordering of integer-like property names: an object's enumeration order is the order of its `Obj` field sequence.
- Named entries that are null or undefined (`fns.data` throws on them), exceptions raised by callbacks, and callback side effects: callbacks are total pure Dafny functions.
- `map` or `reduce` given as a non-function value, which throws when called: `Pair` holds only functions or absence.
- The `this` binding passed through `.call`: callbacks receive only their listed arguments.
- The `isArray` fallback through `toString`: being an array is the `Arr` tag.
- The unused `options` argument, and the module export at the end of the file.
- The performance helpers in the test file (`window`, `console` timing).
- Floating-point numbers, NaN and JavaScript's implicit coercions: numbers are integers. The example callbacks `Inc` and `Plus` cover only the integer and string cases the tests use.
- Fold.LoopBound: a `length` property that is not a number (such as the string "2" or `true`) is treated as admitting no index, whereas JavaScript's `i < len` would coerce it with ToNumber.
- Strings are sequences of code points, not of UTF-16 code units: `length`, `s[i]` and `for…in` over a string that holds characters outside the Basic Multilingual Plane count each such character once, where JavaScript counts two code units (and enumerates a lone surrogate under each index).
- Sparse arrays (holes): an array is a dense sequence of values.
- Collector.Collect: the named-form clause assumes distinct pair names, as property names of a JavaScript object always are; with repeated names the model still computes a value but no contract describes it.
