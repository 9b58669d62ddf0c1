/** Left folds and the list operations the transducer laws are stated against:
    the `functools.reduce` driver and reference definitions of map, filter,
    concatenation and take-while over finite sequences. */
module Folds {

  function Min(a: int, b: int): int { if a <= b then a else b }

  function Max(a: int, b: int): int { if a <= b then b else a }

  /** `reduce(r, s, a)`: apply `r` to the accumulator and each element, left to right. */
  function Fold<A, X>(r: (A, X) -> A, a: A, s: seq<X>): A
    decreases |s|
  {
    if |s| == 0 then a else Fold(r, r(a, s[0]), s[1..])
  }

  /** Folding over a concatenation folds the second part from where the first left off. */
  lemma {:induction false} FoldAppend<A, X>(r: (A, X) -> A, a: A, s: seq<X>, t: seq<X>)
    ensures Fold(r, a, s + t) == Fold(r, Fold(r, a, s), t)
    decreases |s|
  {
    if |s| == 0 {
      assert s + t == t;
    } else {
      assert (s + t)[0] == s[0];
      assert (s + t)[1..] == s[1..] + t;
      FoldAppend(r, r(a, s[0]), s[1..], t);
    }
  }

  /** One more element at the end is one more reducer step. */
  lemma FoldSnoc<A, X>(r: (A, X) -> A, a: A, s: seq<X>, x: X)
    ensures Fold(r, a, s + [x]) == r(Fold(r, a, s), x)
  {
    FoldAppend(r, a, s, [x]);
    assert [x][1..] == [];
  }

  /** `[f(x) for x in s]` */
  function MapSeq<X, Y>(f: X -> Y, s: seq<X>): (r: seq<Y>)
    ensures |r| == |s|
    ensures forall i :: 0 <= i < |s| ==> r[i] == f(s[i])
    decreases |s|
  {
    if |s| == 0 then [] else [f(s[0])] + MapSeq(f, s[1..])
  }

  /** `[x for x in s if pred(x)]` */
  function FilterSeq<X>(pred: X -> bool, s: seq<X>): (r: seq<X>)
    ensures |r| <= |s|
    decreases |s|
  {
    if |s| == 0 then []
    else if pred(s[0]) then [s[0]] + FilterSeq(pred, s[1..])
    else FilterSeq(pred, s[1..])
  }

  /** Concatenation of a sequence of sequences, in order. */
  function Flatten<X>(ss: seq<seq<X>>): (r: seq<X>)
    decreases |ss|
  {
    if |ss| == 0 then [] else ss[0] + Flatten(ss[1..])
  }

  /** The longest prefix of `s` all of whose elements satisfy `pred`
      (`itertools.takewhile`). */
  function TakeWhile<X>(pred: X -> bool, s: seq<X>): seq<X>
    decreases |s|
  {
    if |s| == 0 || !pred(s[0]) then [] else [s[0]] + TakeWhile(pred, s[1..])
  }

  /** TakeWhile returns a prefix, every element of it satisfies the predicate,
      and when it is shorter than `s` the next element is the first one that fails. */
  lemma {:induction false} TakeWhileSpec<X>(pred: X -> bool, s: seq<X>)
    ensures |TakeWhile(pred, s)| <= |s|
    ensures TakeWhile(pred, s) == s[..|TakeWhile(pred, s)|]
    ensures forall i :: 0 <= i < |TakeWhile(pred, s)| ==> pred(s[i])
    ensures |TakeWhile(pred, s)| < |s| ==> !pred(s[|TakeWhile(pred, s)|])
    decreases |s|
  {
    if |s| > 0 && pred(s[0]) {
      TakeWhileSpec(pred, s[1..]);
    }
  }

  /** Conversely, a prefix whose elements all satisfy `pred` and that is followed
      by a failing element (or by nothing) is what TakeWhile returns. */
  lemma {:induction false} TakeWhileBoundary<X>(pred: X -> bool, s: seq<X>, k: nat)
    requires k <= |s|
    requires forall i :: 0 <= i < k ==> pred(s[i])
    requires k < |s| ==> !pred(s[k])
    ensures TakeWhile(pred, s) == s[..k]
    decreases k
  {
    if k > 0 {
      TakeWhileBoundary(pred, s[1..], k - 1);
      assert s[..k] == [s[0]] + s[1..][..k - 1];
    }
  }

  /** `list(range(n))` */
  function Range(n: nat): (r: seq<int>)
    ensures |r| == n
    ensures forall i :: 0 <= i < n ==> r[i] == i
  {
    seq(n, i => i)
  }
}

/** The operators and one-line callables the repository's doctests and tests use. */
module Operators {
  function Add(a: int, v: int): int { a + v }
  function Mul(a: int, v: int): int { a * v }
  function LessThan5(x: int): bool { x < 5 }
  function Double(x: int): int { x * 2 }
  function Square(x: int): int { x * x }
  function Even(x: int): bool { x % 2 == 0 }
}
