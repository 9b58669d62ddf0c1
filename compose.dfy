/** The composer of transducers/compose.py.

    `compose(c1, *composables)` folds `n(r)` over `reversed(composables)`
    followed by `c1`, starting from the terminus, so the LAST composable is
    applied first and `c1` last: `c1` ends up outermost. Nothing is assumed
    about what a composable is; the model takes any `T -> T`. */
module Composer {

  /** `reduce(lambda r, n: n(r), fs, t)`: apply `fs[0]`, then `fs[1]`, ... */
  function ApplyInOrder<T>(fs: seq<T -> T>, t: T): T
    decreases |fs|
  {
    if |fs| == 0 then t else ApplyInOrder(fs[1..], fs[0](t))
  }

  /** Reference nesting `fs[0](fs[1](... fs[k-1](t) ...))`: the first is outermost. */
  function Nest<T>(fs: seq<T -> T>, t: T): T
    decreases |fs|
  {
    if |fs| == 0 then t else fs[0](Nest(fs[1..], t))
  }

  /** `reversed(s)` */
  function Reverse<X>(s: seq<X>): (r: seq<X>)
    ensures |r| == |s|
    decreases |s|
  {
    if |s| == 0 then [] else Reverse(s[1..]) + [s[0]]
  }

  /** `compose(c1, *composables)`: the composite maps a terminus to the chain
      built around it. Requiring `c1` is how the source rejects an empty call. */
  function Compose<T>(c1: T -> T, composables: seq<T -> T>): T -> T
  {
    terminus => ApplyInOrder(Reverse(composables) + [c1], terminus)
  }

  /** Nesting a concatenation nests the first part around the nesting of the second. */
  lemma {:induction false} NestAppend<T>(fs: seq<T -> T>, gs: seq<T -> T>, t: T)
    ensures Nest(fs + gs, t) == Nest(fs, Nest(gs, t))
    decreases |fs|
  {
    if |fs| == 0 {
      assert fs + gs == gs;
    } else {
      assert (fs + gs)[1..] == fs[1..] + gs;
      NestAppend(fs[1..], gs, t);
    }
  }

  /** Applying in order a reversed list nests the original list: the last one
      applied is the outermost. */
  lemma {:induction false} ApplyInOrderReversed<T>(fs: seq<T -> T>, t: T)
    ensures ApplyInOrder(fs, t) == Nest(Reverse(fs), t)
    decreases |fs|
  {
    if |fs| > 0 {
      ApplyInOrderReversed(fs[1..], fs[0](t));
      NestAppend(Reverse(fs[1..]), [fs[0]], t);
      assert Nest([fs[0]], t) == fs[0](t) by {
        assert [fs[0]][1..] == [];
      }
    }
  }

  /** Reversing twice gives back the original order. */
  lemma {:induction false} ReverseReverse<X>(s: seq<X>)
    ensures Reverse(Reverse(s)) == s
    decreases |s|
  {
    if |s| > 0 {
      ReverseAppend(Reverse(s[1..]), [s[0]]);
      ReverseReverse(s[1..]);
      assert Reverse([s[0]]) == [s[0]];
      assert [s[0]] + s[1..] == s;
    }
  }

  /** Reversing a concatenation reverses and swaps the two parts. */
  lemma {:induction false} ReverseAppend<X>(s: seq<X>, t: seq<X>)
    ensures Reverse(s + t) == Reverse(t) + Reverse(s)
    decreases |s|
  {
    if |s| == 0 {
      assert s + t == t;
    } else {
      assert (s + t)[0] == s[0];
      assert (s + t)[1..] == s[1..] + t;
      ReverseAppend(s[1..], t);
    }
  }

  /** `compose(c1, c2, ..., ck)(t) == c1(c2(... ck(t) ...))`: the first argument
      is outermost, so at run time it is the first to see an input. */
  lemma ComposeNestsFirstOutermost<T>(c1: T -> T, composables: seq<T -> T>, terminus: T)
    ensures Compose(c1, composables)(terminus) == Nest([c1] + composables, terminus)
    ensures Compose(c1, composables)(terminus) == c1(Nest(composables, terminus))
  {
    var fs := Reverse(composables) + [c1];
    ApplyInOrderReversed(fs, terminus);
    ReverseAppend(Reverse(composables), [c1]);
    ReverseReverse(composables);
    assert Reverse([c1]) == [c1];
    assert ([c1] + composables)[1..] == composables;
  }

  /** `compose(c)` behaves exactly like `c`. */
  lemma ComposeSingle<T>(c: T -> T, terminus: T)
    ensures Compose(c, [])(terminus) == c(terminus)
  {
    ComposeNestsFirstOutermost(c, [], terminus);
  }

  /** Regrouping does not matter: `compose(compose(a, b...), c...)`,
      `compose(a, compose(b, c...))` and `compose(a, b..., c...)` build the same chain. */
  lemma ComposeAssociative<T>(a: T -> T, bs: seq<T -> T>, b: T -> T, cs: seq<T -> T>, terminus: T)
    ensures Compose(Compose(a, bs), cs)(terminus) == Compose(a, bs + cs)(terminus)
    ensures Compose(a, [Compose(b, cs)])(terminus) == Compose(a, [b] + cs)(terminus)
  {
    ComposeNestsFirstOutermost(Compose(a, bs), cs, terminus);
    ComposeNestsFirstOutermost(a, bs, Nest(cs, terminus));
    ComposeNestsFirstOutermost(a, bs + cs, terminus);
    NestAppend(bs, cs, terminus);

    ComposeNestsFirstOutermost(a, [Compose(b, cs)], terminus);
    ComposeNestsFirstOutermost(b, cs, terminus);
    ComposeNestsFirstOutermost(a, [b] + cs, terminus);
    assert [Compose(b, cs)][1..] == [];
    assert ([b] + cs)[1..] == cs;
  }
}

/** The composition scenarios that transducers/compose.py and its tests state
    for the pull-model transducers. */
module ComposeScenarios {
  import opened Folds
  import opened Transducers
  import opened Composer
  import opened Operators


  /** The doctest of `compose`: `compose(filtering(x < 5), mapping(x * 2))`
      folded with `*` from 1 filters first and doubles what passes, so over
      1..9 it is 2 * 4 * 6 * 8. */
  lemma FilterThenMapDoctest(s: seq<int>)
    ensures Fold(Compose(Filtering(LessThan5), [Mapping(Double)])(Mul), 1, s)
         == Fold(Mul, 1, MapSeq(Double, FilterSeq(LessThan5, s)))
  {
    ComposeNestsFirstOutermost(Filtering(LessThan5), [Mapping(Double)], Mul);
    assert [Mapping<int, int, int>(Double)][1..] == [];
    FilteringFold(LessThan5, Mapping(Double)(Mul), 1, s);
    MappingFold(Double, Mul, 1, FilterSeq(LessThan5, s));
  }

  /** The doctest's value: over 1..9 the composite computes 2 * 4 * 6 * 8. */
  lemma FilterThenMapOverOneToNine()
    ensures Fold(Compose(Filtering(LessThan5), [Mapping(Double)])(Mul), 1, [1, 2, 3, 4, 5, 6, 7, 8, 9]) == 384
  {
    var s := [1, 2, 3, 4, 5, 6, 7, 8, 9];
    FilterThenMapDoctest(s);
    assert FilterSeq(LessThan5, [5, 6, 7, 8, 9]) == [] by {
      assert [5, 6, 7, 8, 9][1..] == [6, 7, 8, 9];
      assert [6, 7, 8, 9][1..] == [7, 8, 9];
      assert [7, 8, 9][1..] == [8, 9];
      assert [8, 9][1..] == [9];
      assert FilterSeq(LessThan5, [9]) == [];
      assert FilterSeq(LessThan5, [8, 9]) == [];
      assert FilterSeq(LessThan5, [7, 8, 9]) == [];
      assert FilterSeq(LessThan5, [6, 7, 8, 9]) == [];
    }
    assert [4, 5, 6, 7, 8, 9][1..] == [5, 6, 7, 8, 9];
    assert [3, 4, 5, 6, 7, 8, 9][1..] == [4, 5, 6, 7, 8, 9];
    assert [2, 3, 4, 5, 6, 7, 8, 9][1..] == [3, 4, 5, 6, 7, 8, 9];
    assert s[1..] == [2, 3, 4, 5, 6, 7, 8, 9];
    assert FilterSeq(LessThan5, [4, 5, 6, 7, 8, 9]) == [4];
    assert FilterSeq(LessThan5, [3, 4, 5, 6, 7, 8, 9]) == [3, 4];
    assert FilterSeq(LessThan5, [2, 3, 4, 5, 6, 7, 8, 9]) == [2, 3, 4];
    assert FilterSeq(LessThan5, s) == [1, 2, 3, 4];
    assert MapSeq(Double, [1, 2, 3, 4]) == [2, 4, 6, 8];
    assert [2, 4, 6, 8][1..] == [4, 6, 8];
    assert [4, 6, 8][1..] == [6, 8];
    assert [6, 8][1..] == [8];
    assert Fold(Mul, 48, [8]) == 384;
    assert Fold(Mul, 8, [6, 8]) == Fold(Mul, 48, [8]);
    assert Fold(Mul, 2, [4, 6, 8]) == Fold(Mul, 8, [6, 8]);
    assert Fold(Mul, 1, [2, 4, 6, 8]) == Fold(Mul, 2, [4, 6, 8]);
  }

  /** `compose(mapping(x * 2), mapping(x * x), filtering(even))` folded with `+`
      from 0 is the sum of the even values among `(2y)^2`: the stages run in the
      order they are listed. */
  lemma ThreeTransducers(s: seq<int>)
    ensures Fold(Compose(Mapping(Double), [Mapping(Square), Filtering(Even)])(Add), 0, s)
         == Fold(Add, 0, FilterSeq(Even, MapSeq(Square, MapSeq(Double, s))))
  {
    var rest := [Mapping<int, int, int>(Square), Filtering(Even)];
    ComposeNestsFirstOutermost(Mapping(Double), rest, Add);
    assert rest[1..] == [Filtering(Even)];
    assert rest[1..][1..] == [];
    assert Nest(rest[1..][1..], Add) == Add;
    assert Nest(rest[1..], Add) == Filtering(Even)(Add);
    assert Nest(rest, Add) == Mapping(Square)(Filtering(Even)(Add));
    MappingFold(Double, Mapping(Square)(Filtering(Even)(Add)), 0, s);
    MappingFold(Square, Filtering(Even)(Add), 0, MapSeq(Double, s));
    FilteringFold(Even, Add, 0, MapSeq(Square, MapSeq(Double, s)));
  }
}
