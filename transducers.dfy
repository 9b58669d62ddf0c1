/** The pull-model transducers of transducers/transducers.py.

    A reducer is a function `(accumulator, input) -> accumulator` and a
    transducer turns one reducer into another. `mapping` and `filtering` are
    pure closures; `taking` builds, on every application, a fresh `_Taking`
    object whose `count` field it updates in place. The fold that drives a
    reducer is `functools.reduce`, modelled by `Folds.Fold`. */
module Transducers {
  import opened Folds
  import opened Operators

  /** `mapping(f)`: the new reducer hands `f(v)` to the wrapped reducer. */
  function Mapping<A, X, Y>(f: X -> Y): ((A, Y) -> A) -> ((A, X) -> A)
  {
    (reducer: (A, Y) -> A) => (result: A, newValue: X) => reducer(result, f(newValue))
  }

  /** `filtering(pred)`: the new reducer hands `v` on when `pred(v)` holds and
      otherwise returns the accumulator it was given. */
  function Filtering<A, X>(pred: X -> bool): ((A, X) -> A) -> ((A, X) -> A)
  {
    (reducer: (A, X) -> A) => (result: A, newValue: X) => if pred(newValue) then reducer(result, newValue) else result
  }

  /** Folding a mapped reducer is folding the plain reducer over the mapped input. */
  lemma {:induction false} MappingFold<A, X, Y>(f: X -> Y, r: (A, Y) -> A, a: A, s: seq<X>)
    ensures forall v :: Mapping(f)(r)(a, v) == r(a, f(v))
    ensures Fold(Mapping(f)(r), a, s) == Fold(r, a, MapSeq(f, s))
    decreases |s|
  {
    if |s| > 0 {
      MappingFold(f, r, r(a, f(s[0])), s[1..]);
    }
  }

  /** Folding a filtered reducer is folding the plain reducer over the filtered
      input; a rejected input leaves the accumulator as it was. */
  lemma {:induction false} FilteringFold<A, X>(pred: X -> bool, r: (A, X) -> A, a: A, s: seq<X>)
    ensures forall v :: !pred(v) ==> Filtering(pred)(r)(a, v) == a
    ensures forall v :: pred(v) ==> Filtering(pred)(r)(a, v) == r(a, v)
    ensures Fold(Filtering(pred)(r), a, s) == Fold(r, a, FilterSeq(pred, s))
    decreases |s|
  {
    if |s| > 0 {
      if pred(s[0]) {
        FilteringFold(pred, r, r(a, s[0]), s[1..]);
      } else {
        FilteringFold(pred, r, a, s[1..]);
      }
    }
  }

  /** `_Taking`: the reducer a `taking(n)` transducer builds around `reducer`.
      It hands on the first `n` inputs it is called with and then returns the
      accumulator unchanged; `n` and `reducer` are fixed at construction. */
  class TakingReducer<A, X> {
    const n: int
    const reducer: (A, X) -> A
    var count: int

    /** The count starts at 0 and never passes `max(n, 0)`. */
    ghost predicate Valid()
      reads this
    {
      0 <= count <= Max(n, 0)
    }

    /** The number of further inputs this reducer will still hand on. */
    ghost function Room(): (k: nat)
      reads this
      requires Valid()
      ensures k == 0 <==> count >= n
    {
      Max(n, 0) - count
    }

    constructor (n: int, reducer: (A, X) -> A)
      ensures this.n == n && this.reducer == reducer && count == 0
      ensures Valid()
    {
      this.n := n;
      this.reducer := reducer;
      count := 0;
    }

    /** `__call__`: below the limit, count one more and delegate; at the limit,
        return `result` without calling the wrapped reducer. */
    method Call(result: A, newValue: X) returns (r: A)
      requires Valid()
      modifies this
      ensures Valid()
      ensures old(count) < n ==> count == old(count) + 1 && r == reducer(result, newValue)
      ensures old(count) >= n ==> count == old(count) && r == result
    {
      if count < n {
        count := count + 1;
        return reducer(result, newValue);
      }
      return result;
    }
  }

  /** `taking(n)`: a transducer value that holds only its configuration. */
  datatype TakingTransducer = Taking(n: int)
  {
    /** Applying the transducer to a reducer builds a new `_Taking` object with
        its own count at 0, so no two applications share state. */
    method Apply<A, X>(reducer: (A, X) -> A) returns (t: TakingReducer<A, X>)
      ensures fresh(t)
      ensures t.n == n && t.reducer == reducer && t.count == 0 && t.Valid()
    {
      t := new TakingReducer(n, reducer);
    }
  }

  /** `reduce(t, s, initial)` over a `_Taking` reducer. Every element of `s` is
      pulled and passed to `t` (reaching the limit does not end the fold), and
      the result is the plain fold over the first `Room()` elements. */
  method Reduce<A, X>(t: TakingReducer<A, X>, s: seq<X>, initial: A) returns (result: A, pulled: nat)
    requires t.Valid()
    modifies t
    ensures t.Valid()
    ensures pulled == |s|
    ensures var k := Min(old(t.Room()), |s|);
            t.count == old(t.count) + k && result == Fold(t.reducer, initial, s[..k])
  {
    ghost var room := t.Room();
    result, pulled := initial, 0;
    while pulled < |s|
      invariant 0 <= pulled <= |s|
      invariant t.Valid()
      invariant t.count == old(t.count) + Min(room, pulled)
      invariant result == Fold(t.reducer, initial, s[..Min(room, pulled)])
    {
      if pulled < room {
        assert s[..pulled + 1] == s[..pulled] + [s[pulled]];
        FoldSnoc(t.reducer, initial, s[..pulled], s[pulled]);
      }
      result := t.Call(result, s[pulled]);
      pulled := pulled + 1;
    }
  }

  /** Two reducers built from the same `taking(n)` value each take the full
      count: driving the first to its limit leaves the second untouched. */
  method IndependentReducers<A, X>(n: int, r: (A, X) -> A, a: A, s: seq<X>)
    returns (first: A, second: A)
    ensures first == Fold(r, a, s[..Min(Max(n, 0), |s|)])
    ensures second == first
  {
    var taking := Taking(n);
    var t1 := taking.Apply(r);
    var t2 := taking.Apply(r);
    var pulled;
    first, pulled := Reduce(t1, s, a);
    second, pulled := Reduce(t2, s, a);
  }

  /** The `taking` doctest: `reduce(taking(5)(add), range(100), 0) == sum(range(5))`. */
  method TakingDoctest() returns (x: int)
    ensures x == 0 + 1 + 2 + 3 + 4
  {
    var t := Taking(5).Apply(Add);
    var pulled;
    x, pulled := Reduce(t, Range(100), 0);
    assert Range(100)[..5] == [0, 1, 2, 3, 4];
    assert Fold(Add, 6, [4]) == Fold(Add, 10, []);
    assert Fold(Add, 3, [3, 4]) == Fold(Add, 6, [4]);
    assert Fold(Add, 1, [2, 3, 4]) == Fold(Add, 3, [3, 4]);
    assert Fold(Add, 0, [1, 2, 3, 4]) == Fold(Add, 1, [2, 3, 4]);
    assert Fold(Add, 0, [0, 1, 2, 3, 4]) == Fold(Add, 0, [1, 2, 3, 4]);
  }
}
