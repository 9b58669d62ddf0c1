/** The push-model pipeline of transducers/coroutines.py.

    Each stage is a primed generator that receives one value per `send` and
    sends zero or more values on to its target; the last target is `append(l)`,
    which adds what it receives to the list `l`. `taking` and `taking_while`
    end the whole pipeline by raising `StopConsumption`; no stage catches it,
    and `consume` is the only place that does.

    A stage is modelled by its kind and its private state (`TakeStage` keeps
    how many of its `range(n)` turns are left). A pipeline is the list of its
    stages from head to sink together with the list `l` of the `append` sink.
    `Signal` says whether a `send` returned normally or raised `StopConsumption`. */
module Coroutines {
  import opened Folds

  datatype Signal = Continue | Stop

  datatype Stage<!V> =
    | MapStage(f: V -> V)
    | FilterStage(pred: V -> bool)
    | MapcatStage(expand: V -> seq<V>)
    | TakeStage(remaining: nat)
    | TakeWhileStage(pred: V -> bool)

  /** The stages between the head of a pipeline and its `append` sink. */
  type Chain<!V> = seq<Stage<V>>

  /** A stage can still receive: a `taking` generator has turns left. Only a
      generator that has already raised has none. */
  predicate Live<V>(st: Stage<V>)
  {
    !st.TakeStage? || st.remaining > 0
  }

  predicate AllLive<V>(stages: Chain<V>)
  {
    forall i :: 0 <= i < |stages| ==> Live(stages[i])
  }

  /** What one `send` leaves behind: the new stage states, the sink's list, and
      whether `StopConsumption` came out. */
  datatype Delivery<!V> = Delivery(stages: Chain<V>, sink: seq<V>, signal: Signal)

  function Prepend<V>(st: Stage<V>, d: Delivery<V>): Delivery<V>
  {
    Delivery([st] + d.stages, d.sink, d.signal)
  }

  /** `send(x)` to the head of `stages`, whose last target appends to `sink`.
      The stages keep their number; the sink only grows; a send that returns
      normally leaves every stage able to receive again. */
  function Deliver<V>(stages: Chain<V>, x: V, sink: seq<V>): (d: Delivery<V>)
    requires AllLive(stages)
    ensures |d.stages| == |stages|
    ensures sink <= d.sink
    ensures d.signal == Continue ==> AllLive(d.stages)
    decreases |stages|, 0
  {
    if |stages| == 0 then
      Delivery([], sink + [x], Continue)
    else
      var rest := stages[1..];
      match stages[0]
      case MapStage(f) =>
        Prepend(stages[0], Deliver(rest, f(x), sink))
      case FilterStage(pred) =>
        if pred(x) then Prepend(stages[0], Deliver(rest, x, sink))
        else Delivery(stages, sink, Continue)
      case MapcatStage(expand) =>
        Prepend(stages[0], DeliverAll(rest, expand(x), sink))
      case TakeStage(remaining) =>
        var d := Deliver(rest, x, sink);
        Delivery([TakeStage(remaining - 1)] + d.stages, d.sink,
                 if remaining == 1 then Stop else d.signal)
      case TakeWhileStage(pred) =>
        if pred(x) then Prepend(stages[0], Deliver(rest, x, sink))
        else Delivery(stages, sink, Stop)
  }

  /** `for x in xs: target.send(x)`: send each value in turn, and let the first
      `StopConsumption` end the loop and everything after it. */
  function DeliverAll<V>(stages: Chain<V>, xs: seq<V>, sink: seq<V>): (d: Delivery<V>)
    requires AllLive(stages)
    ensures |d.stages| == |stages|
    ensures sink <= d.sink
    ensures d.signal == Continue ==> AllLive(d.stages)
    decreases |stages|, |xs|
  {
    if |xs| == 0 then
      Delivery(stages, sink, Continue)
    else
      var d := Deliver(stages, xs[0], sink);
      if d.signal == Stop then d else DeliverAll(d.stages, xs[1..], d.sink)
  }

  /** What `consume` leaves behind: the stage states, the sink's list, how many
      elements it drew from the input, and whether a stop ended it. */
  datatype Outcome<!V> = Outcome(stages: Chain<V>, sink: seq<V>, drawn: nat, stopped: bool)

  /** `consume(pipeline, seq)`: send the elements in order until the input runs
      out or a send raises `StopConsumption`, which ends it normally. */
  function Run<V>(stages: Chain<V>, s: seq<V>, sink: seq<V>): (o: Outcome<V>)
    requires AllLive(stages)
    ensures o.drawn <= |s|
    ensures !o.stopped ==> o.drawn == |s|
    decreases |s|
  {
    if |s| == 0 then
      Outcome(stages, sink, 0, false)
    else
      var d := Deliver(stages, s[0], sink);
      if d.signal == Stop then Outcome(d.stages, d.sink, 1, true)
      else
        var o := Run(d.stages, s[1..], d.sink);
        Outcome(o.stages, o.sink, o.drawn + 1, o.stopped)
  }

  /** A coroutine factory: given the target, build the stage that sends to it.
      The `coroutine` decorator's priming is the stage being ready at once. */
  type Factory<!V> = Chain<V> -> Chain<V>

  function Attach<V>(st: Stage<V>): Factory<V>
  {
    target => [st] + target
  }

  function Mapping<V>(f: V -> V): Factory<V> { Attach(MapStage(f)) }

  function Filtering<V>(pred: V -> bool): Factory<V> { Attach(FilterStage(pred)) }

  function Mapcatting<V>(f: V -> seq<V>): Factory<V> { Attach(MapcatStage(f)) }

  function TakingWhile<V>(pred: V -> bool): Factory<V> { Attach(TakeWhileStage(pred)) }

  datatype Result<T> = Ok(value: T) | ValueError(message: string)

  /** `taking(n)` checks `n` when it is called, before any stage exists:
      a count that is not positive is a `ValueError`. */
  function Taking<V>(n: int): (r: Result<Factory<V>>)
    ensures r.ValueError? <==> n <= 0
  {
    if n <= 0 then ValueError("taking() requires a positive value.")
    else Ok(Attach(TakeStage(n)))
  }

  /** The running pipeline: its stages and the list its `append` sink fills. */
  class Pipeline<V> {
    var stages: Chain<V>
    var sink: seq<V>
    /** A send has raised `StopConsumption`, so the generators it passed are finished. */
    var stopped: bool

    ghost predicate Valid()
      reads this
    {
      !stopped ==> AllLive(stages)
    }

    /** Build the generators of `stages`, primed and ready, in front of `append(l)`. */
    constructor (stages: Chain<V>, l: seq<V>)
      requires AllLive(stages)
      ensures this.stages == stages && sink == l && !stopped && Valid()
    {
      this.stages := stages;
      sink := l;
      stopped := false;
    }

    /** `pipeline.send(x)` */
    method Send(x: V) returns (signal: Signal)
      requires Valid() && !stopped
      modifies this
      ensures Valid()
      ensures var d := Deliver(old(stages), x, old(sink));
              stages == d.stages && sink == d.sink && signal == d.signal
      ensures stopped <==> signal == Stop
    {
      signal := SendFrom(0, x);
      assert stages[0..] == stages;
      stopped := signal == Stop;
    }

    /** `send(x)` to the generator of stage `i`; it runs one turn of its loop. */
    method SendFrom(i: nat, x: V) returns (signal: Signal)
      requires i <= |stages| && AllLive(stages[i..])
      modifies this
      ensures |stages| == old(|stages|) && stages[..i] == old(stages[..i])
      ensures var d := Deliver(old(stages[i..]), x, old(sink));
              stages[i..] == d.stages && sink == d.sink && signal == d.signal
      ensures stopped == old(stopped)
      decreases |stages| - i, 2
    {
      if i == |stages| {
        // append(l): l.append(x)
        sink := sink + [x];
        return Continue;
      }
      ghost var before := stages[i..];
      ghost var sink0 := sink;
      assert before[0] == stages[i] && before[1..] == stages[i + 1..];
      var stage := stages[i];
      match stage
      case MapStage(f) =>
        signal := PassOn(i, f(x));
      case FilterStage(pred) =>
        if pred(x) {
          signal := PassOn(i, x);
        } else {
          signal := Continue;
        }
      case MapcatStage(expand) =>
        signal := PassEachOn(i, expand(x));
      case TakeStage(remaining) =>
        signal := PassOn(i, x);
        stages := stages[i := TakeStage(remaining - 1)];
        assert stages[i..] == [TakeStage(remaining - 1)] + stages[i + 1..];
        if remaining == 1 {
          // the `for _ in range(n)` loop is over: raise StopConsumption()
          signal := Stop;
        }
      case TakeWhileStage(pred) =>
        if pred(x) {
          signal := PassOn(i, x);
        } else {
          signal := Stop;
        }
    }

    /** `target.send(y)` from the generator of stage `i`, which itself is left as it was. */
    method PassOn(i: nat, y: V) returns (signal: Signal)
      requires i < |stages| && AllLive(stages[i + 1..])
      modifies this
      ensures |stages| == old(|stages|) && stages[..i + 1] == old(stages[..i + 1])
      ensures var d := Deliver(old(stages[i + 1..]), y, old(sink));
              stages[i..] == [old(stages[i])] + d.stages && sink == d.sink && signal == d.signal
      ensures stopped == old(stopped)
      decreases |stages| - i, 1
    {
      signal := SendFrom(i + 1, y);
      assert stages[i..] == [stages[i]] + stages[i + 1..];
    }

    /** `for y in ys: target.send(y)` from the generator of stage `i`. */
    method PassEachOn(i: nat, ys: seq<V>) returns (signal: Signal)
      requires i < |stages| && AllLive(stages[i + 1..])
      modifies this
      ensures |stages| == old(|stages|) && stages[..i + 1] == old(stages[..i + 1])
      ensures var d := DeliverAll(old(stages[i + 1..]), ys, old(sink));
              stages[i..] == [old(stages[i])] + d.stages && sink == d.sink && signal == d.signal
      ensures stopped == old(stopped)
      decreases |stages| - i, 1
    {
      signal := SendEach(i + 1, ys);
      assert stages[i..] == [stages[i]] + stages[i + 1..];
    }

    /** `for x in xs: target.send(x)` with the generator of stage `i` as the
        target: a `StopConsumption` leaves the loop and drops the rest of `xs`. */
    method SendEach(i: nat, xs: seq<V>) returns (signal: Signal)
      requires i <= |stages| && AllLive(stages[i..])
      modifies this
      ensures |stages| == old(|stages|) && stages[..i] == old(stages[..i])
      ensures var d := DeliverAll(old(stages[i..]), xs, old(sink));
              stages[i..] == d.stages && sink == d.sink && signal == d.signal
      ensures stopped == old(stopped)
      decreases |stages| - i, 3
    {
      ghost var target := DeliverAll(stages[i..], xs, sink);
      var j := 0;
      signal := Continue;
      while j < |xs|
        invariant 0 <= j <= |xs|
        invariant |stages| == old(|stages|) && stages[..i] == old(stages[..i])
        invariant AllLive(stages[i..])
        invariant DeliverAll(stages[i..], xs[j..], sink) == target
        invariant stopped == old(stopped)
        invariant signal == Continue
        decreases |xs| - j
      {
        ghost var prior := stages[i..];
        ghost var priorSink := sink;
        assert xs[j..][0] == xs[j] && xs[j..][1..] == xs[j + 1..];
        signal := SendFrom(i, xs[j]);
        if signal == Stop {
          assert DeliverAll(prior, xs[j..], priorSink) == Deliver(prior, xs[j], priorSink);
          return;
        }
        j := j + 1;
      }
    }
  }

  /** `consume(pipeline, seq)`, reporting how many elements it drew from `seq`. */
  method Consume<V>(pipeline: Pipeline<V>, s: seq<V>) returns (drawn: nat)
    requires pipeline.Valid() && !pipeline.stopped
    modifies pipeline
    ensures pipeline.Valid()
    ensures var o := Run(old(pipeline.stages), s, old(pipeline.sink));
            pipeline.stages == o.stages && pipeline.sink == o.sink
            && drawn == o.drawn && pipeline.stopped == o.stopped
  {
    ghost var target := Run(pipeline.stages, s, pipeline.sink);
    drawn := 0;
    while drawn < |s|
      invariant 0 <= drawn <= |s|
      invariant pipeline.Valid() && !pipeline.stopped
      invariant var o := Run(pipeline.stages, s[drawn..], pipeline.sink);
                o.stages == target.stages && o.sink == target.sink
                && o.drawn + drawn == target.drawn && o.stopped == target.stopped
      decreases |s| - drawn
    {
      assert s[drawn..][0] == s[drawn] && s[drawn..][1..] == s[drawn + 1..];
      var signal := pipeline.Send(s[drawn]);
      drawn := drawn + 1;
      if signal == Stop {
        return;
      }
    }
  }

  /** The values a stage sends to its target for input `x`. */
  function Forwarded<V>(st: Stage<V>, x: V): seq<V>
  {
    match st
    case MapStage(f) => [f(x)]
    case FilterStage(pred) => if pred(x) then [x] else []
    case MapcatStage(expand) => expand(x)
    case TakeStage(_) => [x]
    case TakeWhileStage(pred) => if pred(x) then [x] else []
  }

  /** The stage raises `StopConsumption` of its own accord on input `x`: a
      `taking` stage on its last turn, or a `taking_while` stage whose predicate fails. */
  predicate RaisesOnItsOwn<V>(st: Stage<V>, x: V)
  {
    (st.TakeStage? && st.remaining == 1) || (st.TakeWhileStage? && !st.pred(x))
  }

  lemma LiveCons<V>(st: Stage<V>, rest: Chain<V>)
    requires Live(st) && AllLive(rest)
    ensures AllLive([st] + rest)
  {
    forall i | 0 <= i < |[st] + rest| ensures Live(([st] + rest)[i]) {
      if i > 0 { assert ([st] + rest)[i] == rest[i - 1]; }
    }
  }

  /** Sending one value is delivering a one-element batch. */
  lemma DeliverAllSingle<V>(stages: Chain<V>, y: V, sink: seq<V>)
    requires AllLive(stages)
    ensures DeliverAll(stages, [y], sink) == Deliver(stages, y, sink)
  {
    assert [y][1..] == [];
  }

  /** No stage catches `StopConsumption`: a stage sends its values downstream
      exactly as a plain `for ... target.send(...)` loop would, and it ends with
      a stop exactly when the downstream stopped or it raised one itself. */
  lemma StopPassesThrough<V>(st: Stage<V>, rest: Chain<V>, x: V, sink: seq<V>)
    requires Live(st) && AllLive(rest)
    ensures AllLive([st] + rest)
    ensures var d := Deliver([st] + rest, x, sink);
            var down := DeliverAll(rest, Forwarded(st, x), sink);
            d.sink == down.sink && d.stages[1..] == down.stages
            && (d.signal == Stop <==> down.signal == Stop || RaisesOnItsOwn(st, x))
  {
    assert ([st] + rest)[0] == st && ([st] + rest)[1..] == rest;
    LiveCons(st, rest);
    match st
    case MapStage(f) => DeliverAllSingle(rest, f(x), sink);
    case FilterStage(pred) => if pred(x) { DeliverAllSingle(rest, x, sink); }
    case MapcatStage(_) =>
    case TakeStage(_) => DeliverAllSingle(rest, x, sink);
    case TakeWhileStage(pred) => if pred(x) { DeliverAllSingle(rest, x, sink); }
  }

  /** A stop raised while a `mapcatting` stage sends its `j`-th value drops the
      values after it: the batch ends exactly where that send ended. */
  lemma {:induction false} StopDropsRestOfBatch<V>(stages: Chain<V>, ys: seq<V>, sink: seq<V>, j: nat)
    requires AllLive(stages) && j < |ys|
    requires DeliverAll(stages, ys[..j], sink).signal == Continue
    requires Deliver(DeliverAll(stages, ys[..j], sink).stages, ys[j], DeliverAll(stages, ys[..j], sink).sink).signal == Stop
    ensures DeliverAll(stages, ys, sink)
         == Deliver(DeliverAll(stages, ys[..j], sink).stages, ys[j], DeliverAll(stages, ys[..j], sink).sink)
    decreases j
  {
    if j > 0 {
      var d := Deliver(stages, ys[0], sink);
      assert ys[..j][0] == ys[0] && ys[..j][1..] == ys[1..][..j - 1];
      StopDropsRestOfBatch(d.stages, ys[1..], d.sink, j - 1);
    }
  }

  /** `append(l)` adds every value it receives to the end of `l` and nothing else. */
  lemma {:induction false} AppendCollectsAll<V>(s: seq<V>, sink: seq<V>)
    ensures Run([], s, sink) == Outcome([], sink + s, |s|, false)
    ensures DeliverAll([], s, sink) == Delivery([], sink + s, Continue)
    decreases |s|
  {
    if |s| > 0 {
      AppendCollectsAll(s[1..], sink + [s[0]]);
      assert sink + [s[0]] + s[1..] == sink + s;
    }
  }

  /** `consume` stops at the first send that raises `StopConsumption` and draws
      nothing after it: every send before the last drawn element returned
      normally, the last one stopped, and running on just the drawn prefix gives
      the same outcome. */
  lemma {:induction false} DrawsNoFurther<V>(stages: Chain<V>, s: seq<V>, sink: seq<V>)
    requires AllLive(stages)
    ensures Run(stages, s[..Run(stages, s, sink).drawn], sink) == Run(stages, s, sink)
    ensures var o := Run(stages, s, sink);
            o.stopped ==> 1 <= o.drawn
                          && var p := Run(stages, s[..o.drawn - 1], sink);
                             !p.stopped && AllLive(p.stages)
                             && Deliver(p.stages, s[o.drawn - 1], p.sink).signal == Stop
    decreases |s|
  {
    if |s| > 0 {
      var d := Deliver(stages, s[0], sink);
      var k := Run(stages, s, sink).drawn;
      assert s[..k][0] == s[0];
      if d.signal == Continue {
        DrawsNoFurther(d.stages, s[1..], d.sink);
        assert s[..k][1..] == s[1..][..k - 1];
        if k >= 2 {
          assert s[..k - 1][0] == s[0] && s[..k - 1][1..] == s[1..][..k - 2];
        }
      } else {
        assert s[..0] == [];
      }
    }
  }

  /** `taking(n)` at the head of any pipeline: the stages behind it see exactly
      the first `min(n, |s|)` elements, and `consume` draws no element past them.
      It stops when those stages stop, or when `s` has at least `n` elements. */
  lemma {:induction false} TakingAtHead<V>(n: nat, rest: Chain<V>, s: seq<V>, sink: seq<V>)
    requires n >= 1 && AllLive(rest)
    ensures AllLive([Stage<V>.TakeStage(n)] + rest)
    ensures var m := Min(n, |s|);
            var r := Run(rest, s[..m], sink);
            var o := Run([TakeStage(n)] + rest, s, sink);
            o.sink == r.sink && o.drawn == (if r.stopped then r.drawn else m)
            && o.stopped == (r.stopped || n <= |s|)
    decreases |s|
  {
    var head := [Stage<V>.TakeStage(n)] + rest;
    LiveCons(TakeStage(n), rest);
    if |s| > 0 {
      var m := Min(n, |s|);
      assert head[0] == TakeStage(n) && head[1..] == rest;
      assert s[..m][0] == s[0] && s[..m][1..] == s[1..][..m - 1];
      var d := Deliver(rest, s[0], sink);
      if n > 1 && d.signal == Continue {
        TakingAtHead(n - 1, d.stages, s[1..], d.sink);
      }
    }
  }

  /** `taking(n)` in front of `append`: exactly the first `min(n, |s|)` elements
      reach the list, exactly that many are drawn, and the pipeline stops when
      `s` has at least `n` elements. */
  lemma TakingTakesPrefix<V>(n: nat, s: seq<V>, sink: seq<V>)
    requires n >= 1
    ensures AllLive([Stage<V>.TakeStage(n)])
    ensures var o := Run([TakeStage(n)], s, sink);
            o.sink == sink + s[..Min(n, |s|)] && o.drawn == Min(n, |s|) && o.stopped == (n <= |s|)
  {
    TakingAtHead(n, [], s, sink);
    AppendCollectsAll(s[..Min(n, |s|)], sink);
    assert [Stage<V>.TakeStage(n)] + [] == [TakeStage(n)];
  }

  /** `taking_while(pred)` at the head of any pipeline: the stages behind it see
      exactly the longest prefix of `s` satisfying `pred`. The first failing
      element is drawn but not sent on, and nothing after it is drawn. */
  lemma {:induction false} TakingWhileAtHead<V>(pred: V -> bool, rest: Chain<V>, s: seq<V>, sink: seq<V>)
    requires AllLive(rest)
    ensures AllLive([TakeWhileStage(pred)] + rest)
    ensures var t := TakeWhile(pred, s);
            var r := Run(rest, t, sink);
            var o := Run([TakeWhileStage(pred)] + rest, s, sink);
            o.sink == r.sink
            && o.drawn == (if r.stopped then r.drawn else if |t| < |s| then |t| + 1 else |s|)
            && o.stopped == (r.stopped || |t| < |s|)
    decreases |s|
  {
    var head := [TakeWhileStage(pred)] + rest;
    LiveCons(TakeWhileStage(pred), rest);
    if |s| > 0 {
      assert head[0] == TakeWhileStage(pred) && head[1..] == rest;
      if pred(s[0]) {
        var t := TakeWhile(pred, s);
        assert t[0] == s[0] && t[1..] == TakeWhile(pred, s[1..]);
        var d := Deliver(rest, s[0], sink);
        if d.signal == Continue {
          TakingWhileAtHead(pred, d.stages, s[1..], d.sink);
        }
      }
    }
  }

  /** `taking_while(pred)` in front of `append`: the longest prefix satisfying
      `pred` reaches the list; the first failing element is drawn but not sent
      on, and nothing after it. */
  lemma TakingWhileTakesPrefix<V>(pred: V -> bool, s: seq<V>, sink: seq<V>)
    ensures var t := TakeWhile(pred, s);
            var o := Run([TakeWhileStage(pred)], s, sink);
            o.sink == sink + t && o.stopped == (|t| < |s|)
            && o.drawn == (if |t| < |s| then |t| + 1 else |s|)
  {
    TakingWhileAtHead(pred, [], s, sink);
    AppendCollectsAll(TakeWhile(pred, s), sink);
    assert [TakeWhileStage(pred)] + [] == [TakeWhileStage(pred)];
  }

  /** A `mapping` stage is transparent: the pipeline behind it sees `f` applied
      to every input, draws as much, and stops where it would have stopped. */
  lemma {:induction false} MappingMapsAll<V>(f: V -> V, rest: Chain<V>, s: seq<V>, sink: seq<V>)
    requires AllLive(rest)
    ensures AllLive([MapStage(f)] + rest)
    ensures var r := Run(rest, MapSeq(f, s), sink);
            Run([MapStage(f)] + rest, s, sink) == Outcome([MapStage(f)] + r.stages, r.sink, r.drawn, r.stopped)
    decreases |s|
  {
    LiveCons(MapStage(f), rest);
    if |s| > 0 {
      var d := Deliver(rest, f(s[0]), sink);
      assert ([MapStage(f)] + rest)[1..] == rest;
      assert MapSeq(f, s)[1..] == MapSeq(f, s[1..]);
      if d.signal == Continue {
        MappingMapsAll(f, d.stages, s[1..], d.sink);
      }
    }
  }

  /** A `filtering` stage at the head of any pipeline: the stages behind it see
      exactly the inputs that satisfy `pred`, in order, and stop where they would
      have stopped on those; the filter itself keeps no state, and when the
      stages behind it do not stop, the whole input is drawn. */
  lemma {:induction false} FilteringAtHead<V>(pred: V -> bool, rest: Chain<V>, s: seq<V>, sink: seq<V>)
    requires AllLive(rest)
    ensures AllLive([FilterStage(pred)] + rest)
    ensures var r := Run(rest, FilterSeq(pred, s), sink);
            var o := Run([FilterStage(pred)] + rest, s, sink);
            o.stages == [FilterStage(pred)] + r.stages && o.sink == r.sink
            && o.stopped == r.stopped && (!r.stopped ==> o.drawn == |s|)
    decreases |s|
  {
    var head := [FilterStage(pred)] + rest;
    LiveCons(FilterStage(pred), rest);
    if |s| > 0 {
      assert head[0] == FilterStage(pred) && head[1..] == rest;
      if pred(s[0]) {
        var f := FilterSeq(pred, s);
        assert f[0] == s[0] && f[1..] == FilterSeq(pred, s[1..]);
        var d := Deliver(rest, s[0], sink);
        if d.signal == Continue {
          FilteringAtHead(pred, d.stages, s[1..], d.sink);
        }
      } else {
        FilteringAtHead(pred, rest, s[1..], sink);
      }
    }
  }

  /** A `filtering` stage in front of `append` collects exactly the inputs that
      satisfy `pred`, in order, and draws all of the input. */
  lemma FilteringKeepsSatisfying<V>(pred: V -> bool, s: seq<V>, sink: seq<V>)
    ensures Run([FilterStage(pred)], s, sink) == Outcome([FilterStage(pred)], sink + FilterSeq(pred, s), |s|, false)
  {
    FilteringAtHead(pred, [], s, sink);
    AppendCollectsAll(FilterSeq(pred, s), sink);
    assert [FilterStage(pred)] + [] == [FilterStage(pred)];
  }

  /** A `mapcatting` stage in front of `append` collects every value of every
      `f(x)`, in order, before the next input. */
  lemma {:induction false} MapcattingConcatenates<V>(f: V -> seq<V>, s: seq<V>, sink: seq<V>)
    ensures Run([MapcatStage(f)], s, sink) == Outcome([MapcatStage(f)], sink + Flatten(MapSeq(f, s)), |s|, false)
    decreases |s|
  {
    var head := [MapcatStage(f)];
    assert head[1..] == [];
    assert head + [] == head;
    if |s| > 0 {
      AppendCollectsAll(f(s[0]), sink);
      MapcattingConcatenates(f, s[1..], sink + f(s[0]));
      assert MapSeq(f, s)[1..] == MapSeq(f, s[1..]);
      assert sink + f(s[0]) + Flatten(MapSeq(f, s[1..])) == sink + Flatten(MapSeq(f, s));
    }
  }
}

/** The doctests of transducers/coroutines.py, and `compose` from
    transducers/compose.py applied to coroutine factories. */
module CoroutineScenarios {
  import opened Folds
  import opened Operators
  import opened Composer
  import opened Coroutines

  /** `compose(c1, c2, ...)` over coroutine factories puts the stage of `c1` at
      the head of the pipeline, then `c2`'s, and so on down to the target. */
  lemma {:induction false} ComposedStagesInOrder<V>(st: Stage<V>, sts: seq<Stage<V>>, target: Chain<V>)
    ensures Compose(Attach(st), MapSeq(Attach, sts))(target) == [st] + sts + target
  {
    ComposeNestsFirstOutermost(Attach(st), MapSeq(Attach, sts), target);
    AttachedNest(sts, target);
  }

  lemma {:induction false} AttachedNest<V>(sts: seq<Stage<V>>, target: Chain<V>)
    ensures Nest(MapSeq(Attach, sts), target) == sts + target
    decreases |sts|
  {
    if |sts| > 0 {
      assert MapSeq(Attach, sts)[1..] == MapSeq(Attach, sts[1..]);
      AttachedNest(sts[1..], target);
      assert [sts[0]] + (sts[1..] + target) == sts + target;
    }
  }

  /** `compose(mapping(f), filtering(pred))` consumed into `append`: the first
      listed stage sees the raw input, so the list gets the mapped values that pass. */
  lemma ComposedMapThenFilter<V>(f: V -> V, pred: V -> bool, s: seq<V>)
    ensures AllLive(Compose(Mapping(f), [Filtering(pred)])([]))
    ensures var o := Run(Compose(Mapping(f), [Filtering(pred)])([]), s, []);
            o.sink == FilterSeq(pred, MapSeq(f, s)) && o.drawn == |s| && !o.stopped
  {
    ComposedStagesInOrder(MapStage(f), [FilterStage(pred)], []);
    assert MapSeq(Attach, [FilterStage(pred)]) == [Filtering(pred)];
    assert [MapStage(f)] + [FilterStage(pred)] + [] == [MapStage(f)] + [FilterStage(pred)];
    LiveCons(MapStage(f), [FilterStage(pred)]);
    MappingMapsAll(f, [FilterStage(pred)], s, []);
    FilteringKeepsSatisfying(pred, MapSeq(f, s), []);
  }

  /** `consume(taking(5)(append(result)), range(1000))` leaves `[0, 1, 2, 3, 4]`
      in `result` and draws five elements. */
  lemma TakingDoctest()
    ensures Taking<int>(5).Ok?
    ensures AllLive(Taking<int>(5).value([]))
    ensures var o := Run(Taking<int>(5).value([]), Range(1000), []);
            o.sink == [0, 1, 2, 3, 4] && o.drawn == 5 && o.stopped
  {
    TakingTakesPrefix<int>(5, Range(1000), []);
    assert Taking<int>(5).value([]) == [TakeStage(5)];
    assert Range(1000)[..5] == [0, 1, 2, 3, 4];
  }

  /** `consume(taking_while(x < 5)(append(result)), range(1000))` leaves
      `[0, 1, 2, 3, 4]` in `result`, and the element 5 is the last one drawn. */
  lemma TakingWhileDoctest()
    ensures var o := Run(TakingWhile(LessThan5)([]), Range(1000), []);
            o.sink == [0, 1, 2, 3, 4] && o.drawn == 6 && o.stopped
  {
    TakeWhileBoundary(LessThan5, Range(1000), 5);
    TakingWhileTakesPrefix(LessThan5, Range(1000), []);
    assert TakingWhile(LessThan5)([]) == [TakeWhileStage(LessThan5)];
    assert Range(1000)[..5] == [0, 1, 2, 3, 4];
  }

  /** The `mapping` and `filtering` doctests: over `range(10)` the list gets
      `x * 2` for every `x`, or the even `x` only. */
  lemma MappingAndFilteringDoctests()
    ensures Run(Mapping(Double)([]), Range(10), []).sink == MapSeq(Double, Range(10))
    ensures Run(Filtering(Even)([]), Range(10), []).sink == FilterSeq(Even, Range(10))
  {
    assert Mapping(Double)([]) == [MapStage(Double)] + [];
    MappingMapsAll(Double, [], Range(10), []);
    AppendCollectsAll(MapSeq(Double, Range(10)), []);
    assert Filtering(Even)([]) == [FilterStage(Even)];
    FilteringKeepsSatisfying(Even, Range(10), []);
  }

  /** The dynamically typed values of the `mapcatting` doctest: its inputs are
      tuples of integers and its outputs integers. */
  datatype Value = Tuple(items: seq<int>) | Int(i: int)

  function AsValue(i: int): Value { Int(i) }

  /** `reversed(x)` on a tuple, as the integers it yields. */
  function ReversedItems(v: Value): seq<Value>
  {
    match v
    case Tuple(items) => MapSeq(AsValue, Reverse(items))
    case Int(_) => []
  }

  /** `consume(mapcatting(reversed)(append(result)), [(3, 2, 1, 0), (6, 5, 4), (9, 8, 7)])`
      leaves the integers 0 to 9 in `result`, in order. */
  lemma MapcattingDoctest()
    ensures var o := Run(Mapcatting(ReversedItems)([]), [Tuple([3, 2, 1, 0]), Tuple([6, 5, 4]), Tuple([9, 8, 7])], []);
            o.sink == [Int(0), Int(1), Int(2), Int(3), Int(4), Int(5), Int(6), Int(7), Int(8), Int(9)]
            && o.drawn == 3 && !o.stopped
  {
    var s := [Tuple([3, 2, 1, 0]), Tuple([6, 5, 4]), Tuple([9, 8, 7])];
    assert Mapcatting(ReversedItems)([]) == [MapcatStage(ReversedItems)];
    MapcattingConcatenates(ReversedItems, s, []);
    ReversedTuplesFlatten();
  }

  lemma ReversedTuplesFlatten()
    ensures Flatten(MapSeq(ReversedItems, [Tuple([3, 2, 1, 0]), Tuple([6, 5, 4]), Tuple([9, 8, 7])]))
         == [Int(0), Int(1), Int(2), Int(3), Int(4), Int(5), Int(6), Int(7), Int(8), Int(9)]
  {
    var s := [Tuple([3, 2, 1, 0]), Tuple([6, 5, 4]), Tuple([9, 8, 7])];
    ReverseOfFour(3, 2, 1, 0);
    ReverseOfThree(6, 5, 4);
    ReverseOfThree(9, 8, 7);
    var ss := MapSeq(ReversedItems, s);
    assert ss[0] == [Int(0), Int(1), Int(2), Int(3)];
    assert ss[1] == [Int(4), Int(5), Int(6)];
    assert ss[2] == [Int(7), Int(8), Int(9)];
    assert ss[1..][1..] == [ss[2]] && ss[1..][1..][1..] == [];
    assert Flatten(ss[1..][1..]) == ss[2];
    assert Flatten(ss[1..]) == ss[1] + ss[2];
  }

  lemma ReverseOfThree(a: int, b: int, c: int)
    ensures Reverse([a, b, c]) == [c, b, a]
  {
    assert [a, b, c][1..] == [b, c];
    assert [b, c][1..] == [c];
    assert [c][1..] == [];
    assert Reverse([c]) == [c];
    assert Reverse([b, c]) == [c, b];
  }

  lemma ReverseOfFour(a: int, b: int, c: int, d: int)
    ensures Reverse([a, b, c, d]) == [d, c, b, a]
  {
    assert [a, b, c, d][1..] == [b, c, d];
    ReverseOfThree(b, c, d);
  }
}
