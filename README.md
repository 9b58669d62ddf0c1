# Transducers in Dafny

A model of a small Python transducer library with two execution models, and
proofs of what its doctests and tests promise.

- **Pull model** (transducers/transducers.py, and the older transducers.py at
  the repository root). A reducer is a function `(accumulator, input) ->
  accumulator`, and a transducer turns one reducer into another.
  - `mapping` and `filtering` are pure closures.
  - `taking(n)` builds a fresh `_Taking` object on every application. The
    object keeps a mutable `count`.
  - `functools.reduce` drives the reducer. It is the left fold `Folds.Fold`.
  - `_Taking` is the class `Transducers.TakingReducer`. Its `Call` method
    updates `count` in place.
  - `taking(n)` is a datatype value whose `Apply` method allocates a new
    `TakingReducer`.
- **Composers.**
  - `compose(c1, *composables)` in transducers/compose.py is `Composer.Compose`.
    The first argument is outermost. A call with no composable at all is ruled
    out by the signature, as in the source, where `c1` is a required argument.
  - `compose(*transducers)` in transducers.py is `LegacyTransducers.ComposeAll`.
    The last argument is outermost, and an empty list gives back the reducer.
  - Both are stated against one reference nesting, `Composer.Nest`.
- **Push model** (transducers/coroutines.py). Each stage is a primed generator
  that receives values through `send` and sends zero or more values to its
  target. The last target is `append(l)`.
  - A stage is a `Coroutines.Stage` value that holds its kind and its private
    state. A `taking` stage holds how many of its `range(n)` turns are left.
  - A running pipeline is the class `Coroutines.Pipeline`. Its fields are the
    stages, the list `l` of the `append` sink, and a flag that records a raised
    `StopConsumption`.
  - `Send` walks the stages one at a time and returns `Continue` or `Stop`.
  - `Consume` is a loop that sends elements until the input runs out or a send
    stops. It returns how many elements it drew.
  - Both methods are proved against the pure functions `Deliver`,
    `DeliverAll` and `Run`. The properties of the pipeline are lemmas about
    those functions.

The modules are:

| module | file |
|---|---|
| `Folds` | folds.dfy |
| `Operators` | folds.dfy |
| `Transducers` | transducers.dfy |
| `Composer` | compose.dfy |
| `ComposeScenarios` | compose.dfy |
| `LegacyTransducers` | legacy.dfy |
| `Coroutines` | coroutines.dfy |
| `CoroutineScenarios` | coroutines.dfy |

`Folds` holds `Fold` and the reference list functions `MapSeq`, `FilterSeq`,
`Flatten` and `TakeWhile`. `Operators` holds the named callables that stand for
the lambdas in the doctests.

## Model

| member | source | states |
|---|---|---|
| Transducers.MappingFold | transducers/transducers.py:13-16 | a mapped reducer hands `f(v)` to the wrapped reducer; folding it over `s` is folding the plain reducer over `s` mapped by `f` |
| Transducers.FilteringFold | transducers/transducers.py:30-36 | a filtered reducer returns the accumulator unchanged on a rejected input and delegates on an accepted one; folding it over `s` is folding the plain reducer over the filtered `s` |
| Transducers.TakingReducer.constructor | transducers/transducers.py:43-46 | a new `_Taking` keeps the given `n` and reducer and starts with `count == 0` |
| Transducers.TakingReducer.Call | transducers/transducers.py:48-52 | below the limit, `count` goes up by exactly one and the wrapped reducer's result is returned; at the limit, `count` stays and `result` is returned as given; `0 <= count <= max(n, 0)` is preserved |
| Transducers.TakingTransducer.Apply | transducers/transducers.py:72-73 | every application builds a freshly allocated `_Taking` with the transducer's `n`, the given reducer and `count == 0` |
| Transducers.Reduce | transducers/transducers.py:48-52 | `reduce` over a `_Taking` pulls every element; the result is the plain fold over the first `min(room, len(s))` elements, and `count` grows by exactly that many |
| Transducers.IndependentReducers | transducers/transducers.py:59-62 | two reducers built from one `taking(n)` value each take the full count: both folds equal the plain fold over `s[:max(n, 0)]` |
| Transducers.TakingDoctest | transducers/transducers.py:64-69 | `reduce(taking(5)(add), range(100), 0) == sum(range(5))` |
| Composer.ApplyInOrderReversed | transducers/compose.py:29-31 | folding `n(r)` over a list applies its elements in order, which nests the reversed list with the last element outermost |
| Composer.ComposeNestsFirstOutermost | transducers/compose.py:28-31 | `compose(c1, c2, ..., ck)(t) == c1(c2(... ck(t) ...))` |
| Composer.ComposeSingle | transducers/compose.py:28-31 | `compose(c)(t) == c(t)` |
| Composer.ComposeAssociative | transducers/compose.py:28-31 | `compose(compose(a, b...), c...)`, `compose(a, compose(b, c...))` and `compose(a, b..., c...)` build the same chain |
| ComposeScenarios.FilterThenMapDoctest | transducers/compose.py:16-25 | `compose(filtering(x < 5), mapping(x * 2))` folded with `*` from 1 is the product of the doubled inputs below 5, for every input |
| ComposeScenarios.FilterThenMapOverOneToNine | transducers/compose.py:20-25 | over 1..9 that composite gives 384 |
| ComposeScenarios.ThreeTransducers | transducers/test/test_transducers.py:61-75 | `compose(mapping(x * 2), mapping(x * x), filtering(even))` folded with `+` from 0 is the sum of the even values of `(2y)^2` |
| LegacyTransducers.ComposeAllNestsLastOutermost | transducers.py:43-48 | `compose(t1, ..., tk)(r) == tk(... t1(r) ...)`, and `compose()(r) == r` |
| LegacyTransducers.OppositeOrders | transducers.py:43-48 | the package's `compose(c1, ..., ck)` is this file's `compose(ck, ..., c1)`; with the same argument list, the package nests `c1` outermost and this file nests it innermost |
| LegacyTransducers.MappingTest | transducers.py:71-77 | `reduce(mapping(x * 2)(add), s, 0)` is the sum of the doubled inputs |
| LegacyTransducers.FilteringTest | transducers.py:79-85 | `reduce(filtering(x < 5)(add), s, 0)` is the sum of the inputs below 5 |
| LegacyTransducers.MappingAndFilterTest | transducers.py:87-99 | `compose(mapping(x * 2), filtering(x < 5))` folded with `*` filters first, then doubles |
| LegacyTransducers.ThreeTransducersTest | transducers.py:101-115 | `compose(filtering(even), mapping(x * x), mapping(x * 2))` folded with `+` doubles, squares, keeps the even values and sums them |
| Coroutines.Deliver | transducers/coroutines.py:48-156 | one `send` through the stages keeps their number, only appends to the sink's list, and leaves every stage able to receive again unless it stopped |
| Coroutines.DeliverAll | transducers/coroutines.py:110-112 | a batch of sends has the same guarantees, and the first stop ends it |
| Coroutines.Run | transducers/coroutines.py:41-45 | `consume` draws at most the whole input, and all of it unless a send stopped |
| Coroutines.Taking | transducers/coroutines.py:127-128 | `taking(n)` is a `ValueError` if and only if `n <= 0`, before any stage exists |
| Coroutines.Pipeline.constructor | transducers/coroutines.py:23-27 | a pipeline is ready to receive as soon as it is built, with its stages and the given list |
| Coroutines.Pipeline.Send | transducers/coroutines.py:43 | `pipeline.send(x)` leaves exactly the stage states, sink list and signal that `Deliver` gives, and the pipeline is stopped exactly when the signal is `Stop` |
| Coroutines.Pipeline.SendFrom | transducers/coroutines.py:52-156 | a send to stage `i` changes only stages `i` onwards and the sink, exactly as `Deliver` on those stages |
| Coroutines.Pipeline.PassOn | transducers/coroutines.py:73 | a stage's `target.send(y)` leaves that stage as it was and the rest as `Deliver` gives |
| Coroutines.Pipeline.PassEachOn | transducers/coroutines.py:111-112 | a stage's `for y in ys: target.send(y)` leaves that stage as it was and the rest as `DeliverAll` gives |
| Coroutines.Pipeline.SendEach | transducers/coroutines.py:111-112 | the send loop matches `DeliverAll`, including leaving the loop at the first stop |
| Coroutines.Consume | transducers/coroutines.py:36-45 | the pipeline's new stages, sink, stopped flag and the drawn count are exactly those of `Run` |
| Coroutines.StopPassesThrough | transducers/coroutines.py:69-156 | no stage catches `StopConsumption`: a stage's send ends with a stop if and only if its downstream stopped or it raised one itself, and the sink is what its downstream made of the values it forwarded |
| Coroutines.StopDropsRestOfBatch | transducers/coroutines.py:107-112 | a stop while `mapcatting` sends its `j`-th value drops the values after it |
| Coroutines.AppendCollectsAll | transducers/coroutines.py:48-54 | `append(l)` adds each value it receives to the end of `l` and never stops |
| Coroutines.DrawsNoFurther | transducers/coroutines.py:41-45 | `consume` stops at the first send that raises `StopConsumption`: when it stops, every send before the last drawn element returned normally and the send of the last drawn element stopped; running on the drawn prefix gives the same outcome, so nothing after it is drawn |
| Coroutines.TakingAtHead | transducers/coroutines.py:130-136 | `taking(n)` at the head of any pipeline: the stages behind it get exactly `s[:min(n, len(s))]`, `consume` draws no element past those (fewer if the stages behind stop first), and it stops if and only if they stop or `len(s) >= n` |
| Coroutines.TakingTakesPrefix | transducers/coroutines.py:130-136 | `taking(n)` in front of `append` collects exactly `s[:min(n, len(s))]`, draws exactly that many elements, and stops if and only if `len(s) >= n` |
| Coroutines.TakingWhileAtHead | transducers/coroutines.py:149-156 | `taking_while(pred)` at the head of any pipeline: the stages behind it get exactly the longest prefix satisfying `pred`; `consume` draws the first failing element and nothing after it, and stops if and only if the stages behind stop or an element fails |
| Coroutines.TakingWhileTakesPrefix | transducers/coroutines.py:149-156 | `taking_while(pred)` collects the longest prefix satisfying `pred`; the first failing element is drawn but not forwarded, and nothing after it is drawn |
| Coroutines.MappingMapsAll | transducers/coroutines.py:69-73 | a `mapping` stage is transparent: the stages behind it see `f(x)` for every `x` and draw and stop exactly as they would on the mapped input |
| Coroutines.FilteringAtHead | transducers/coroutines.py:88-93 | a `filtering` stage at the head of any pipeline is transparent to the satisfying inputs: the stages behind it run on exactly those, in order, stop where they would stop, and otherwise the whole input is drawn |
| Coroutines.FilteringKeepsSatisfying | transducers/coroutines.py:88-93 | a `filtering` stage forwards `x` if and only if `pred(x)`, in order, and draws the whole input |
| Coroutines.MapcattingConcatenates | transducers/coroutines.py:107-112 | a `mapcatting` stage forwards every value of `f(x)` in order before it takes the next input |
| CoroutineScenarios.ComposedStagesInOrder | transducers/compose.py:28-31 | `compose` over coroutine factories puts the first factory's stage at the head of the pipeline, then the others in order, then the target |
| CoroutineScenarios.ComposedMapThenFilter | transducers/compose.py:9 | `compose(mapping(f), filtering(pred))` over coroutines collects the mapped values that pass, for every input |
| CoroutineScenarios.TakingDoctest | transducers/coroutines.py:122-124 | `taking(5)` over `range(1000)` collects `[0, 1, 2, 3, 4]` and draws 5 elements |
| CoroutineScenarios.TakingWhileDoctest | transducers/coroutines.py:145-147 | `taking_while(x < 5)` over `range(1000)` collects `[0, 1, 2, 3, 4]` and draws 6 elements |
| CoroutineScenarios.MappingAndFilteringDoctests | transducers/coroutines.py:63-66 | over `range(10)`, `mapping(x * 2)` collects every doubled value and `filtering(even)` the even values |
| CoroutineScenarios.MapcattingDoctest | transducers/coroutines.py:101-105 | `mapcatting(reversed)` over `[(3, 2, 1, 0), (6, 5, 4), (9, 8, 7)]` collects the integers 0 to 9 in order |

## Left out

- Generator mechanics are not modelled: `yield`, `next`, the priming done by the `coroutine` decorator, and the `StopIteration` that a finished generator raises on a later `send`. `Coroutines.Pipeline.Send` and `Coroutines.Consume` require a pipeline that has not stopped. On a stopped pipeline the source would raise `StopIteration` from `send`, and `consume` of an empty input would send nothing and return normally. Neither case is modelled.
- Coroutines.Deliver: after a `Stop`, the stage states it returns are not the generators' states. In the source every generator the stop passed through is closed; the model still shows them as able to receive (a `taking` stage with turns left, a `taking_while` stage that raised). The pipeline's `stopped` flag is what records the end, and nothing is sent to a stopped pipeline.
- Errors raised by user callables (`f`, `pred`, `reversed`) are not modelled. They are total pure functions here.
- Infinite and lazy iterables are not modelled. Inputs are finite sequences.
- The `take -> map -> take` test that reuses one `taking(5)` value (test.py:51-60, transducers/test/test_transducers.py:77-86) is not modelled. There a `_Taking` object's wrapped reducer is a closure around another stateful object. A Dafny function cannot call a method, and dynamic dispatch over objects is not available here. `Transducers.IndependentReducers` states the fact that test relies on: two reducers from one `taking` value share no state.
- One push pipeline carries one value type. The doctests whose inputs and outputs differ in type use the sum type `CoroutineScenarios.Value`.
- CoroutineScenarios.MapcattingDoctest: `reversed` of an integer is modelled as empty rather than as an error. The doctest never does that.
- The test harness is not modelled: `load_tests`, doctest loading, `unittest.main` (transducers.py:118, test.py:65-69).
- Operations that only the tests call are not modelled: `reduce`, `conj`, `mapcatting`, `taking_while`, `map`, `filter` and `mapcat` in the `transducers` package. They do not exist in transducers/transducers.py.
- The test_transducers.py tests that expect `taking` not to consume all of its input are not modelled. They contradict the drop-silently `_Taking`.
- The compose and direct-send tests in transducers/test/test_coroutines.py are not modelled. They assume the opposite nesting order, or send without `consume`.
- `Coroutines.Pipeline.constructor` models a pipeline already built and primed. It does not model building the stages one factory call at a time.
