/**
  The generator and the collector composed: the order in which slots are emitted is what keeps the
  collector from dropping anything.
*/
module Pipeline {
  import QG = QuadrupleGenerator
  import QR = QuadrupleRuns
  import opened Collector
  import opened CollectorRuns

  // ---------------------------------------------------------------- the collector on ordered input

  /** Times whose slots never go back, the first not before `start`. */
  predicate InOrder(kind: Kind, start: nat, fs: seq<Flow>)
    decreases |fs|
  {
    fs == [] || (Floor(kind, fs[0].time) >= start && InOrder(kind, Floor(kind, fs[0].time), fs[1..]))
  }

  function Reports(fs: seq<Flow>): seq<Input> {
    if fs == [] then [] else [Report(fs[0])] + Reports(fs[1..])
  }

  lemma ReportInOrder(kind: Kind, s: Stash, f: Flow)
    requires Floor(kind, f.time) >= s.start
    ensures ReportL4(kind, s, f).Some? ==>
      ReportL4(kind, s, f).value.start == Floor(kind, f.time) && ReportL4(kind, s, f).value.late == s.late
  {
    hide AddAll, Contributions, Floor;
    AddAllStays(Counted(MoveTo(kind, s, f.time), f), Contributions(kind, f));
  }

  lemma FloorBelow(kind: Kind, t: nat)
    ensures Floor(kind, t) <= t
  {
  }

  /** Reports that come in slot order are never late. */
  lemma {:induction false} InOrderNeverLate(ctx: Context, s: Stash, fs: seq<Flow>)
    requires InOrder(ctx.kind, s.start, fs)
    ensures Run(ctx, s, Reports(fs)).Some? ==> Run(ctx, s, Reports(fs)).value.late == s.late
    decreases |fs|
  {
    if fs != [] {
      ReportInOrder(ctx.kind, s, fs[0]);
      FloorBelow(ctx.kind, fs[0].time);
      hide ReportL4, Floor;
      assert Reports(fs)[0] == Report(fs[0]) && Reports(fs)[1..] == Reports(fs[1..]);
      var r := CollectL4(ctx, s, Report(fs[0]));
      if r.Some? { InOrderNeverLate(ctx, r.value, fs[1..]); }
    }
  }

  // ---------------------------------------------------------------- the generator's output is ordered

  /** The batches from number `b` on are of slots not before `lo`. */
  predicate NotBefore(out: seq<QG.Batch>, b: nat, lo: nat) { forall j :: b <= j < |out| ==> lo <= out[j].slot }

  lemma {:induction false} ShiftsNotBefore(p: QG.Params, g: QG.Gen, t: nat, n: nat, b: nat, lo: nat)
    requires QG.WellFormed(p, g) && lo <= g.first && NotBefore(g.out, b, lo)
    ensures NotBefore(QG.Shifts(p, g, t, n).out, b, lo)
  {
    hide QG.FinishedAll, QG.ShiftConns;
    if n > 0 { ShiftsNotBefore(p, g, t, n - 1, b, lo); }
  }

  lemma HandleNotBefore(p: QG.Params, g: QG.Gen, x: QR.Input, b: nat, lo: nat)
    requires QG.WellFormed(p, g) && lo <= g.first && NotBefore(g.out, b, lo)
    ensures var r := QR.Handle(p, g, x); lo <= r.first && NotBefore(r.out, b, lo)
  {
    var t := QR.TimeOf(x);
    if t >= QG.Start(p, g) {
      QG.MovedWindow(p, g, t);
      MoveNotBefore(p, g, t, b, lo);
      hide QG.Moved, QG.Stashed, QG.Connected;
    }
  }

  lemma MoveNotBefore(p: QG.Params, g: QG.Gen, t: nat, b: nat, lo: nat)
    requires QG.WellFormed(p, g) && lo <= g.first && NotBefore(g.out, b, lo)
    ensures NotBefore(QG.Moved(p, g, t).out, b, lo)
  {
    if t >= QG.Start(p, g) + p.delay {
      var n := QG.SlotsToShift(p, QG.Start(p, g), t);
      hide QG.SlotsToShift, QG.Shift;
      ShiftsNotBefore(p, g, t, p.slots, b, lo);
      ShiftsNotBefore(p, g, t, n, b, lo);
    }
  }

  /** A generator never emits a slot older than the oldest it holds, in whatever state it is. */
  lemma {:induction false} RunNotBefore(p: QG.Params, g: QG.Gen, xs: seq<QR.Input>, b: nat, lo: nat)
    requires QG.WellFormed(p, g) && lo <= g.first && NotBefore(g.out, b, lo)
    ensures NotBefore(QR.Run(p, g, xs).out, b, lo)
    decreases |xs|
  {
    if xs != [] {
      HandleNotBefore(p, g, xs[0], b, lo);
      hide QR.Handle;
      RunNotBefore(p, QR.Handle(p, g, xs[0]), xs[1..], b, lo);
    }
  }

  /** `fs` are records of `out` taken batch by batch: `from[i]` is the batch of the i-th. */
  ghost predicate Delivers(out: seq<QG.Batch>, from: seq<nat>, fs: seq<Flow>) {
    && |from| == |fs|
    && (forall i :: 0 <= i < |fs| ==> from[i] < |out| && IsRecord(out[from[i]], fs[i].time))
    && (forall i, j :: 0 <= i < j < |from| ==> from[i] <= from[j])
  }

  ghost predicate IsRecord(b: QG.Batch, t: nat) {
    exists k :: k in b.records && b.records[k].time == t
  }

  /** The slots of the batches, in seconds. */
  ghost predicate Stamped(kind: Kind, out: seq<QG.Batch>) {
    forall j, t :: 0 <= j < |out| && IsRecord(out[j], t) ==> Floor(kind, t) == out[j].slot * Interval(kind)
  }

  lemma {:induction false} DeliveryInOrder(kind: Kind, start: nat, out: seq<QG.Batch>, from: seq<nat>, fs: seq<Flow>)
    requires QR.Increasing(out) && Stamped(kind, out) && Delivers(out, from, fs)
    requires fs != [] ==> start <= out[from[0]].slot * Interval(kind)
    ensures InOrder(kind, start, fs)
    decreases |fs|
  {
    if fs != [] {
      assert IsRecord(out[from[0]], fs[0].time);
      if |fs| > 1 {
        assert from[0] <= from[1];
        assert out[from[0]].slot <= out[from[1]].slot;
        QG.MulMono(out[from[0]].slot, out[from[1]].slot, Interval(kind));
      }
      DeliveryInOrder(kind, out[from[0]].slot * Interval(kind), out, from[1..], fs[1..]);
    }
  }

  lemma RecordsStamped(kind: Kind, p: QG.Params, g: QG.Gen, h: QR.Hist)
    requires QR.Inv(p, g, h) && p.interval == Interval(kind)
    ensures Stamped(kind, g.out)
  {
    forall j, t | 0 <= j < |g.out| && IsRecord(g.out[j], t) ensures Floor(kind, t) == g.out[j].slot * Interval(kind) {
      var k :| k in g.out[j].records && g.out[j].records[k].time == t;
      assert QR.BatchOk(p, g.conns.Some?, h, g.out[j], k);
      QR.TallyFacts(p, h.log, g.out[j].slot, k);
      hide QR.TallyOf, QR.CarryBefore;
    }
  }

  /** Whatever the generator was fed, its records taken batch by batch are in slot order. */
  lemma GeneratorInOrder(kind: Kind, p: QG.Params, first: nat, counting: bool, xs: seq<QR.Input>, start: nat,
                         from: seq<nat>, fs: seq<Flow>)
    requires p.Valid() && p.interval == Interval(kind) && start <= first * p.interval
    requires Delivers(QR.Run(p, QR.Fresh(p, first, counting), xs).out, from, fs)
    ensures InOrder(kind, start, fs)
  {
    var g0 := QR.Fresh(p, first, counting);
    var g, h := QR.Run(p, g0, xs), QR.History(p, g0, QR.NO_HISTORY, xs);
    QR.FreshInv(p, first, counting);
    QR.RunKeeps(p, g0, QR.NO_HISTORY, xs);
    RunNotBefore(p, g0, xs, 0, first);
    hide QR.Run, QR.History;
    RecordsStamped(kind, p, g, h);
    assert QR.Increasing(g.out);
    hide QR.Inv, Stamped, QR.Increasing;
    if fs != [] { QG.MulMono(first, g.out[from[0]].slot, p.interval); }
    DeliveryInOrder(kind, start, g.out, from, fs);
  }

  /**
    Whatever the generator was fed, a collector that takes its records batch by batch, and starts no
    later than the generator's window, never counts one as late.
  */
  lemma GeneratorFeedsCollector(kind: Kind, p: QG.Params, first: nat, counting: bool, xs: seq<QR.Input>,
                                ctx: Context, s: Stash, from: seq<nat>, fs: seq<Flow>)
    requires p.Valid() && p.interval == Interval(kind) && ctx.kind == kind && s.start <= first * p.interval
    requires Delivers(QR.Run(p, QR.Fresh(p, first, counting), xs).out, from, fs)
    ensures Run(ctx, s, Reports(fs)).Some? ==> Run(ctx, s, Reports(fs)).value.late == s.late
  {
    GeneratorInOrder(kind, p, first, counting, xs, s.start, from, fs);
    InOrderNeverLate(ctx, s, fs);
  }

  lemma {:induction false} ReportsTagged(fs: seq<Flow>)
    requires forall f :: f in fs ==> FlowTagged(f)
    ensures forall x :: x in Reports(fs) ==> InputTagged(x)
  {
    hide FlowTagged;
    if fs != [] {
      assert fs[0] in fs;
      ReportsTagged(fs[1..]);
    }
  }

  lemma StartsAligned(kind: Kind, now: nat, later: nat)
    requires 120 <= now && now / 60 <= later / 60
    ensures StartTime(now) <= StartTime(later) / Interval(kind) * Interval(kind)
    ensures Floor(kind, StartTime(now)) == StartTime(now)
  {
    match kind
    case Second =>
    case Minute =>
  }

  /**
    Both stages started by their constructors, the collector's clock not in a later minute than the
    generator's: every record reaches a document, for none is late and nothing panics.
  */
  lemma StartedTogether(kind: Kind, delay: nat, p: QG.Params, counting: bool, xs: seq<QR.Input>,
                        generatorNow: nat, collectorNow: nat, from: seq<nat>, fs: seq<Flow>)
    requires p.Valid() && p.interval == Interval(kind) && 120 <= collectorNow && collectorNow / 60 <= generatorNow / 60
    requires Delivers(QR.Run(p, QR.Fresh(p, StartTime(generatorNow) / p.interval, counting), xs).out, from, fs)
    requires forall f :: f in fs ==> FlowTagged(f)
    ensures var r := Run(MetricTypeToTag(kind, delay), CollectorRuns.Fresh(StartTime(collectorNow)), Reports(fs));
      r.Some? && r.value.late == 0
  {
    var s := CollectorRuns.Fresh(StartTime(collectorNow));
    var first := StartTime(generatorNow) / p.interval;
    StartsAligned(kind, collectorNow, generatorNow);
    hide StartTime, Delivers, QR.Run, FlowTagged, Run, Floor;
    ReportsTagged(fs);
    forall k ensures DocsOk(s.inner, [], s.start, k) { TallyEmpty([], s.start, k); }
    CollectorRuns.RunKeeps(kind, delay, s, [], Reports(fs));
    GeneratorFeedsCollector(kind, p, first, counting, xs, MetricTypeToTag(kind, delay), s, from, fs);
  }
}
