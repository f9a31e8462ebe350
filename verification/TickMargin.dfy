/**
  The collector's ticks against the generator's clock. The collector is given the generator's delay plus
  a margin for what the generator takes to process its input; here is what that margin is worth.
*/
module TickMargin {
  import opened Basics
  import QG = QuadrupleGenerator
  import QR = QuadrupleRuns
  import opened Collector
  import opened Pipeline
  import opened CollectorTicks

  // ---------------------------------------------------------------- when a slot is closed, on both sides

  /** A tick at `now` closes slot `e` of the collector. Below the delay the clock is taken as it is. */
  predicate TickCloses(ctx: Context, now: nat, e: nat) {
    if now < ctx.delay then e * Interval(ctx.kind) + Interval(ctx.kind) <= now
    else e * Interval(ctx.kind) + ctx.delay + (if ctx.kind.Second? then 1 else 0) <= now
  }

  lemma ReachPasses(kind: Kind, delay: nat, now: nat, t: nat)
    ensures var ctx := MetricTypeToTag(kind, delay);
      t < Reach(ctx, Tick(now)) <==> TickCloses(ctx, now, t / Interval(kind))
  {
    TickNeverUnderflows(kind, delay, now);
    match kind
    case Second =>
    case Minute =>
  }

  /** Some input handled so far has a time not before `t`. */
  predicate Handled(ys: seq<QR.Input>, t: int) { exists j :: 0 <= j < |ys| && t <= QR.TimeOf(ys[j]) }

  lemma HandleCloses(p: QG.Params, g: QG.Gen, x: QR.Input, e: nat)
    requires QG.WellFormed(p, g)
    ensures e < QR.Handle(p, g, x).first <==> e < g.first || e * p.interval + p.delay <= QR.TimeOf(x)
  {
    var t := QR.TimeOf(x);
    if t < QG.Start(p, g) {
      if g.first <= e { QG.MulMono(g.first, e, p.interval); }
    } else {
      QG.MovedWindow(p, g, t);
      QG.MoveCloses(p, g.first, t, e);
      hide QG.Moved, QG.NewFirst, QG.Stashed, QG.Connected;
    }
  }

  /** Over every run of the generator: a slot is closed exactly when a time not before its end plus the delay came. */
  lemma {:induction false} RunCloses(p: QG.Params, g: QG.Gen, ys: seq<QR.Input>, e: nat)
    requires QG.WellFormed(p, g)
    ensures e < QR.Run(p, g, ys).first <==> e < g.first || Handled(ys, e * p.interval + p.delay)
    decreases |ys|
  {
    if ys != [] {
      var t := e * p.interval + p.delay;
      HandleCloses(p, g, ys[0], e);
      hide QR.Handle;
      RunCloses(p, QR.Handle(p, g, ys[0]), ys[1..], e);
      if j :| 0 <= j < |ys[1..]| && t <= QR.TimeOf(ys[1..][j]) { assert t <= QR.TimeOf(ys[j + 1]); }
      if j :| 0 <= j < |ys| && t <= QR.TimeOf(ys[j]) { assert j == 0 || t <= QR.TimeOf(ys[1..][j - 1]); }
    }
  }

  // ---------------------------------------------------------------- late records

  /**
    Whatever the generator was fed, and whatever ticks come between its records: a record is late in the
    collector exactly when an earlier tick came at a time that closes the record's slot.
  */
  lemma RecordLateIff(kind: Kind, p: QG.Params, first: nat, counting: bool, ys: seq<QR.Input>,
                      delay: nat, start: nat, from: seq<nat>, xs: seq<Input>, i: nat)
    requires p.Valid() && p.interval == Interval(kind) && start <= first * p.interval
    requires Delivers(QR.Run(p, QR.Fresh(p, first, counting), ys).out, from, Flows(xs))
    requires i < |xs| && xs[i].Report?
    ensures var ctx := MetricTypeToTag(kind, delay);
      LateAt(ctx, start, xs, i) <==>
      exists j :: 0 <= j < i && xs[j].Tick? && TickCloses(ctx, xs[j].now, xs[i].flow.time / Interval(kind))
  {
    var ctx, t := MetricTypeToTag(kind, delay), xs[i].flow.time;
    RecordLateIffTickPassed(kind, p, first, counting, ys, ctx, start, from, xs, i);
    forall j | 0 <= j < i && xs[j].Tick?
      ensures t < Reach(ctx, xs[j]) <==> TickCloses(ctx, xs[j].now, t / Interval(kind))
    {
      ReachPasses(kind, delay, xs[j].now, t);
    }
    hide TickCloses, Reach, LateAt;
  }

  /** A record of time `t` leaves the generator after it has handled `m` of its inputs. */
  ghost predicate EmittedAfter(p: QG.Params, g: QG.Gen, ys: seq<QR.Input>, m: nat, t: nat)
    requires QG.WellFormed(p, g) && m <= |ys|
  {
    exists b :: |QR.Run(p, g, ys[..m]).out| <= b < |QR.Run(p, g, ys).out| && IsRecord(QR.Run(p, g, ys).out[b], t)
  }

  lemma {:induction false} RunAppend(p: QG.Params, g: QG.Gen, ys: seq<QR.Input>, zs: seq<QR.Input>)
    requires QG.WellFormed(p, g)
    ensures QR.Run(p, g, ys + zs) == QR.Run(p, QR.Run(p, g, ys), zs)
    decreases |ys|
  {
    if ys == [] {
      assert ys + zs == zs;
    } else {
      assert (ys + zs)[1..] == ys[1..] + zs;
      RunAppend(p, QR.Handle(p, g, ys[0]), ys[1..], zs);
    }
  }

  /** What leaves the generator after `m` inputs is of a slot it had not closed by then. */
  lemma EmittedLater(kind: Kind, p: QG.Params, first: nat, counting: bool, ys: seq<QR.Input>, m: nat, t: nat)
    requires p.Valid() && p.interval == Interval(kind) && m <= |ys|
    requires EmittedAfter(p, QR.Fresh(p, first, counting), ys, m, t)
    ensures QR.Run(p, QR.Fresh(p, first, counting), ys[..m]).first <= t / Interval(kind)
  {
    var g0 := QR.Fresh(p, first, counting);
    var g1, g := QR.Run(p, g0, ys[..m]), QR.Run(p, g0, ys);
    var h := QR.History(p, g0, QR.NO_HISTORY, ys);
    assert ys[..m] + ys[m..] == ys;
    RunAppend(p, g0, ys[..m], ys[m..]);
    RunNotBefore(p, g1, ys[m..], |g1.out|, g1.first);
    QR.FreshInv(p, first, counting);
    QR.RunKeeps(p, g0, QR.NO_HISTORY, ys);
    hide QR.Run, QR.History;
    RecordsStamped(kind, p, g, h);
    hide QR.Inv;
    var b :| |g1.out| <= b < |g.out| && IsRecord(g.out[b], t);
    assert Stamped(kind, g.out);
    assert Floor(kind, t) == g.out[b].slot * Interval(kind);
    SameSlot(kind, t, g.out[b].slot);
  }

  lemma SameSlot(kind: Kind, t: nat, e: nat)
    requires Floor(kind, t) == e * Interval(kind)
    ensures t / Interval(kind) == e
  {
  }

  /** By the time the record leaves, the generator had handled a time that `now` exceeds by at most the margin. */
  ghost predicate InStep(p: QG.Params, g: QG.Gen, ys: seq<QR.Input>, margin: nat, now: nat, t: nat)
    requires QG.WellFormed(p, g)
  {
    exists m: nat :: m <= |ys| && Handled(ys[..m], now - margin) && EmittedAfter(p, g, ys, m, t)
  }

  lemma InStepStaysOpen(kind: Kind, p: QG.Params, first: nat, counting: bool, ys: seq<QR.Input>,
                        delay: nat, margin: nat, now: nat, t: nat)
    requires p.Valid() && p.interval == Interval(kind)
    requires var ctx := MetricTypeToTag(kind, delay); p.delay + margin <= ctx.delay <= now
    requires InStep(p, QR.Fresh(p, first, counting), ys, margin, now, t)
    ensures !TickCloses(MetricTypeToTag(kind, delay), now, t / Interval(kind))
  {
    var g0 := QR.Fresh(p, first, counting);
    var m: nat :| m <= |ys| && Handled(ys[..m], now - margin) && EmittedAfter(p, g0, ys, m, t);
    var g1, e := QR.Run(p, g0, ys[..m]), t / Interval(kind);
    EmittedLater(kind, p, first, counting, ys, m, t);
    RunCloses(p, g0, ys[..m], g1.first);
    hide QR.Run, EmittedAfter, MetricTypeToTag;
    QG.MulMono(g1.first, e, p.interval);
  }

  /**
    No record is lost while the clocks stay in step: if every tick before a record is ahead of a time the
    generator handled before the record left it by no more than the margin between the delays, it is in time.
  */
  lemma InStepNeverLate(kind: Kind, p: QG.Params, first: nat, counting: bool, ys: seq<QR.Input>,
                        delay: nat, margin: nat, start: nat, from: seq<nat>, xs: seq<Input>, i: nat)
    requires p.Valid() && p.interval == Interval(kind) && start <= first * p.interval
    requires p.delay + margin <= MetricTypeToTag(kind, delay).delay
    requires Delivers(QR.Run(p, QR.Fresh(p, first, counting), ys).out, from, Flows(xs))
    requires i < |xs| && xs[i].Report?
    requires forall j :: 0 <= j < i && xs[j].Tick? ==>
      && MetricTypeToTag(kind, delay).delay <= xs[j].now
      && InStep(p, QR.Fresh(p, first, counting), ys, margin, xs[j].now, xs[i].flow.time)
    ensures !LateAt(MetricTypeToTag(kind, delay), start, xs, i)
  {
    hide TickCloses, LateAt, InStep, Delivers, QR.Run, Flows;
    var ctx, t := MetricTypeToTag(kind, delay), xs[i].flow.time;
    RecordLateIff(kind, p, first, counting, ys, delay, start, from, xs, i);
    forall j | 0 <= j < i && xs[j].Tick? ensures !TickCloses(ctx, xs[j].now, t / Interval(kind)) {
      InStepStaysOpen(kind, p, first, counting, ys, delay, margin, xs[j].now, t);
    }
  }

  // ---------------------------------------------------------------- a record that is lost

  lemma FirstFlowLeaves(p: QG.Params, first: nat, counting: bool, f: QG.Flow)
    requires p.Valid() && f.time == first * p.interval
    ensures var out := QR.Run(p, QR.Fresh(p, first, counting), [QR.Report(f), QR.Tick(f.time + p.delay)]).out;
      |out| == 1 && IsRecord(out[0], f.time)
  {
    var g0 := QR.Fresh(p, first, counting);
    var ys := [QR.Report(f), QR.Tick(f.time + p.delay)];
    var g1 := QR.Handle(p, g0, ys[0]);
    assert g1.first == first && g1.out == [] && g1.stashes[0] == QG.Stashed(p.source, map[], f);
    assert QG.SlotsToShift(p, QG.Start(p, g1), f.time + p.delay) == 1;
    assert QG.Shifts(p, g1, f.time + p.delay, 1) == QG.Shift(p, g1, f.time + p.delay);
    var g2 := QR.Handle(p, g1, ys[1]);
    assert ys[1..] == [ys[1]] && [ys[1]][1..] == [];
    assert QR.Run(p, g2, []) == g2;
    assert QR.Run(p, g1, [ys[1]]) == QR.Run(p, g2, []);
    assert QR.Run(p, g0, ys) == QR.Run(p, g1, ys[1..]);
    assert g2.out == [QG.Batch(first, QG.FinishedAll(p.source, QG.Front(g1), g1.stashes[0]))];
    assert f.key in g2.out[0].records && g2.out[0].records[f.key].time == f.time;
  }

  /**
    In every configuration: one flow, the tick of the generator that sends its record, and a tick of the
    collector before the record arrives, at the first time that closes its slot. The record is lost.
  */
  lemma TickLosesRecord(kind: Kind, p: QG.Params, first: nat, counting: bool, f: QG.Flow,
                        delay: nat, start: nat, r: Flow)
    requires p.Valid() && p.interval == Interval(kind) && start <= first * p.interval
    requires first >= 1 && f.time == r.time == first * p.interval
    ensures Delivers(QR.Run(p, QR.Fresh(p, first, counting), [QR.Report(f), QR.Tick(f.time + p.delay)]).out, [0], [r])
    ensures var ctx := MetricTypeToTag(kind, delay);
      var now := r.time + ctx.delay + (if kind.Second? then 1 else 0);
      LateInputs(ctx, start, [Tick(now), Report(r)]) == 1 && LateInputs(ctx, start, [Tick(now - 1), Report(r)]) == 0
  {
    FirstFlowLeaves(p, first, counting, f);
    var ctx := MetricTypeToTag(kind, delay);
    var now := r.time + ctx.delay + (if kind.Second? then 1 else 0);
    OneTick(ctx, start, now, r);
    OneTick(ctx, start, now - 1, r);
    ReachPasses(kind, delay, now, r.time);
    ReachPasses(kind, delay, now - 1, r.time);
    SlotOfBoundary(kind, first);
    hide Reach, LateInputs, MetricTypeToTag;
  }

  lemma SlotOfBoundary(kind: Kind, e: nat)
    ensures e * Interval(kind) / Interval(kind) == e
  {
  }

  lemma OneTick(ctx: Context, start: nat, now: nat, r: Flow)
    requires start <= now && start <= r.time
    ensures LateInputs(ctx, start, [Tick(now), Report(r)]) == if r.time < Reach(ctx, Tick(now)) then 1 else 0
  {
    hide Reach;
    var xs := [Tick(now), Report(r)];
    assert xs[1..] == [Report(r)] && xs[1..][1..] == [];
    var reach := Reach(ctx, Tick(now));
    assert LateInputs(ctx, Max(start, reach), xs[1..]) == if r.time < reach then 1 else 0;
  }

  // ---------------------------------------------------------------- the margin as configured

  const QG_PROCESS_MAX_DELAY: nat := 5

  /**
    The agent gives each collector the generator's delay plus five. Five is what a second collector has; a minute
    collector loses it to the clamp as the delay `d` of the flow generator grows, and has none from 59 on.
  */
  lemma ConfiguredMargin(source: Source, d: nat)
    ensures MetricTypeToTag(Second, d + QG_PROCESS_MAX_DELAY).delay == QG.SecondParams(source, d).delay + 5
    ensures MetricTypeToTag(Minute, 60 + d + QG_PROCESS_MAX_DELAY).delay
         == QG.MinuteParams(source, 60 + d).delay + Min(5, QG.Monus(59, d))
  {
  }
}
