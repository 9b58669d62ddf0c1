/** The older single-file version, transducers.py at the repository root.

    Its `mapping` and `filtering` are the same closures as in
    transducers/transducers.py and are modelled once, by `Transducers.Mapping`
    and `Transducers.Filtering`. Its `compose(*transducers)` folds `n(r)` over
    the transducers in the order given, so the LAST one listed is outermost,
    the opposite of transducers/compose.py. */
module LegacyTransducers {
  import opened Folds
  import opened Transducers
  import opened Composer
  import opened Operators

  /** `compose(*transducers)`: any number of transducers, none included. */
  function ComposeAll<T>(transducers: seq<T -> T>): T -> T
  {
    reducer => ApplyInOrder(transducers, reducer)
  }

  /** `compose(t1, ..., tk)(r) == tk(... t1(r) ...)`: the last one listed is
      outermost, and with no transducers the reducer comes back unchanged. */
  lemma ComposeAllNestsLastOutermost<T>(transducers: seq<T -> T>, reducer: T)
    ensures ComposeAll(transducers)(reducer) == Nest(Reverse(transducers), reducer)
    ensures |transducers| == 0 ==> ComposeAll(transducers)(reducer) == reducer
  {
    ApplyInOrderReversed(transducers, reducer);
  }

  /** The two composers nest in opposite orders: transducers/compose.py's
      `compose(c1, ..., ck)` is this file's `compose(ck, ..., c1)`. */
  lemma OppositeOrders<T>(c1: T -> T, composables: seq<T -> T>, terminus: T)
    ensures Compose(c1, composables)(terminus) == ComposeAll(Reverse([c1] + composables))(terminus)
    ensures Compose(c1, composables)(terminus) == c1(Nest(composables, terminus))
    ensures ComposeAll([c1] + composables)(terminus) == Nest(Reverse(composables), c1(terminus))
  {
    ReverseAppend([c1], composables);
    assert Reverse([c1]) == [c1];
    ReverseReverse([c1] + composables);
    ComposeAllNestsLastOutermost(Reverse([c1] + composables), terminus);
    ComposeNestsFirstOutermost(c1, composables, terminus);
    ComposeAllNestsLastOutermost([c1] + composables, terminus);
    NestAppend(Reverse(composables), [c1], terminus);
    assert Nest([c1], terminus) == c1(terminus) by {
      assert [c1][1..] == [];
    }
  }

  /** `reduce(mapping(x * 2)(add), s, 0)` is the sum of the doubled inputs. */
  lemma MappingTest(s: seq<int>)
    ensures Fold(Mapping(Double)(Add), 0, s) == Fold(Add, 0, MapSeq(Double, s))
  {
    MappingFold(Double, Add, 0, s);
  }

  /** `reduce(filtering(x < 5)(add), s, 0)` is the sum of the inputs below 5. */
  lemma FilteringTest(s: seq<int>)
    ensures Fold(Filtering(LessThan5)(Add), 0, s) == Fold(Add, 0, FilterSeq(LessThan5, s))
  {
    FilteringFold(LessThan5, Add, 0, s);
  }

  /** `compose(mapping(x * 2), filtering(x < 5))` folded with `*` from 1: the
      filter, listed last, runs first, so only the inputs below 5 are doubled. */
  lemma MappingAndFilterTest(s: seq<int>)
    ensures Fold(ComposeAll([Mapping(Double), Filtering(LessThan5)])(Mul), 1, s)
         == Fold(Mul, 1, MapSeq(Double, FilterSeq(LessThan5, s)))
  {
    var ts := [Mapping<int, int, int>(Double), Filtering(LessThan5)];
    assert ts[1..][1..] == [];
    assert ApplyInOrder(ts[1..], Mapping(Double)(Mul)) == Filtering(LessThan5)(Mapping(Double)(Mul));
    assert ComposeAll(ts)(Mul) == Filtering(LessThan5)(Mapping(Double)(Mul));
    FilteringFold(LessThan5, Mapping(Double)(Mul), 1, s);
    MappingFold(Double, Mul, 1, FilterSeq(LessThan5, s));
  }

  /** `compose(filtering(even), mapping(x * x), mapping(x * 2))` folded with `+`
      from 0 doubles, squares, keeps the even values and sums them. */
  lemma ThreeTransducersTest(s: seq<int>)
    ensures Fold(ComposeAll([Filtering(Even), Mapping(Square), Mapping(Double)])(Add), 0, s)
         == Fold(Add, 0, FilterSeq(Even, MapSeq(Square, MapSeq(Double, s))))
  {
    var ts := [Filtering<int, int>(Even), Mapping(Square), Mapping(Double)];
    assert ts[1..] == [Mapping(Square), Mapping(Double)];
    assert ts[1..][1..] == [Mapping(Double)];
    assert ts[1..][1..][1..] == [];
    var r2 := Mapping(Square)(Filtering(Even)(Add));
    assert ApplyInOrder(ts[1..][1..], r2) == Mapping(Double)(r2);
    assert ApplyInOrder(ts[1..], Filtering(Even)(Add)) == Mapping(Double)(r2);
    assert ComposeAll(ts)(Add) == Mapping(Double)(Mapping(Square)(Filtering(Even)(Add)));
    MappingFold(Double, Mapping(Square)(Filtering(Even)(Add)), 0, s);
    MappingFold(Square, Filtering(Even)(Add), 0, MapSeq(Double, s));
    FilteringFold(Even, Add, 0, MapSeq(Square, MapSeq(Double, s)));
  }
}
