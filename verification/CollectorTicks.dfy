/**
  The collector's idle ticks beside its records: what is late is a function of the times alone, and a record
  of the generator is late exactly when a tick went past it.
*/
module CollectorTicks {
  import QG = QuadrupleGenerator
  import QR = QuadrupleRuns
  import opened Collector
  import opened CollectorRuns
  import opened Pipeline

  function Max(a: nat, b: nat): nat { if a < b then b else a }

  function Arrival(x: Input): nat { if x.Tick? then x.now else x.flow.time }

  /** The slot an input moves the window to, if that is ahead. */
  function Reach(ctx: Context, x: Input): nat {
    if x.Report? then Floor(ctx.kind, x.flow.time)
    else if TickTime(ctx, x.now).None? then 0
    else Floor(ctx.kind, TickTime(ctx, x.now).value)
  }

  function HighWater(ctx: Context, start: nat, xs: seq<Input>): nat
    decreases |xs|
  {
    if xs == [] then start else HighWater(ctx, Max(start, Reach(ctx, xs[0])), xs[1..])
  }

  /** How many inputs arrive behind the window, from their times alone. */
  function LateInputs(ctx: Context, start: nat, xs: seq<Input>): nat
    decreases |xs|
  {
    if xs == [] then 0
    else (if Arrival(xs[0]) < start then 1 else 0) + LateInputs(ctx, Max(start, Reach(ctx, xs[0])), xs[1..])
  }

  lemma CollectMoves(ctx: Context, s: Stash, x: Input)
    requires Floor(ctx.kind, s.start) == s.start && CollectL4(ctx, s, x).Some?
    ensures var r := CollectL4(ctx, s, x).value;
      && r.start == Max(s.start, Reach(ctx, x)) && Floor(ctx.kind, r.start) == r.start
      && r.late == s.late + (if Arrival(x) < s.start then 1 else 0)
  {
    var t := Arrival(x);
    FloorLaws(ctx.kind, t, s.start);
    if x.Tick? {
      if TickTime(ctx, x.now).Some? { FloorLaws(ctx.kind, TickTime(ctx, x.now).value, s.start); }
    } else {
      AddAllStays(Counted(MoveTo(ctx.kind, s, t), x.flow), Contributions(ctx.kind, x.flow));
    }
    hide Floor, AddAll, Contributions;
  }

  /** Start and late counter of any run are those functions of the times. */
  lemma {:induction false} RunMoves(ctx: Context, s: Stash, xs: seq<Input>)
    requires Floor(ctx.kind, s.start) == s.start && Run(ctx, s, xs).Some?
    ensures Run(ctx, s, xs).value.start == HighWater(ctx, s.start, xs)
    ensures Run(ctx, s, xs).value.late == s.late + LateInputs(ctx, s.start, xs)
    decreases |xs|
  {
    hide CollectL4, Floor, Reach;
    if xs != [] {
      CollectMoves(ctx, s, xs[0]);
      RunMoves(ctx, CollectL4(ctx, s, xs[0]).value, xs[1..]);
    }
  }

  /** Input `i` arrives behind the window. */
  predicate LateAt(ctx: Context, start: nat, xs: seq<Input>, i: nat)
    requires i < |xs|
  {
    Arrival(xs[i]) < HighWater(ctx, start, xs[..i])
  }

  lemma {:induction false} HighWaterIsMax(ctx: Context, start: nat, xs: seq<Input>, t: nat)
    ensures t < HighWater(ctx, start, xs) <==> t < start || exists j :: 0 <= j < |xs| && t < Reach(ctx, xs[j])
    decreases |xs|
  {
    hide Reach;
    if xs != [] {
      HighWaterIsMax(ctx, Max(start, Reach(ctx, xs[0])), xs[1..], t);
      if j :| 0 <= j < |xs[1..]| && t < Reach(ctx, xs[1..][j]) { assert t < Reach(ctx, xs[j + 1]); }
      if j :| 0 <= j < |xs| && t < Reach(ctx, xs[j]) { assert j == 0 || t < Reach(ctx, xs[1..][j - 1]); }
    }
  }

  // ---------------------------------------------------------------- the generator's records among the ticks

  /** The flows of the reports, in order. */
  function Flows(xs: seq<Input>): seq<Flow> {
    if xs == [] then [] else (if xs[0].Report? then [xs[0].flow] else []) + Flows(xs[1..])
  }

  lemma {:induction false} OrderFacts(kind: Kind, start: nat, xs: seq<Input>, i: nat)
    requires InOrder(kind, start, Flows(xs)) && i < |xs| && xs[i].Report?
    ensures start <= Floor(kind, xs[i].flow.time)
    ensures forall j :: 0 <= j < i && xs[j].Report? ==> Floor(kind, xs[j].flow.time) <= Floor(kind, xs[i].flow.time)
    decreases |xs|
  {
    hide Floor;
    var rest := Flows(xs[1..]);
    if xs[0].Report? {
      var t := Floor(kind, xs[0].flow.time);
      assert Flows(xs)[1..] == rest;
      if i > 0 {
        OrderFacts(kind, t, xs[1..], i - 1);
        forall j | 0 <= j < i && xs[j].Report? ensures Floor(kind, xs[j].flow.time) <= Floor(kind, xs[i].flow.time) {
          if j > 0 { assert xs[1..][j - 1].Report?; }
        }
      }
    } else {
      assert Flows(xs) == rest;
      OrderFacts(kind, start, xs[1..], i - 1);
      forall j | 0 <= j < i && xs[j].Report? ensures Floor(kind, xs[j].flow.time) <= Floor(kind, xs[i].flow.time) {
        assert xs[1..][j - 1].Report?;
      }
    }
  }

  /** Reports in slot order: one is late exactly when an earlier tick reached past its time. */
  lemma LateIffTickPassed(ctx: Context, start: nat, xs: seq<Input>, i: nat)
    requires InOrder(ctx.kind, start, Flows(xs)) && i < |xs| && xs[i].Report?
    ensures LateAt(ctx, start, xs, i) <==> exists j :: 0 <= j < i && xs[j].Tick? && xs[i].flow.time < Reach(ctx, xs[j])
  {
    var t := xs[i].flow.time;
    OrderFacts(ctx.kind, start, xs, i);
    FloorBelow(ctx.kind, t);
    HighWaterIsMax(ctx, start, xs[..i], t);
    if j :| 0 <= j < i && xs[j].Tick? && t < Reach(ctx, xs[j]) { assert t < Reach(ctx, xs[..i][j]); }
    if j :| 0 <= j < |xs[..i]| && t < Reach(ctx, xs[..i][j]) { assert t < Reach(ctx, xs[j]); }
    hide Floor, TickTime;
  }

  /**
    Whatever the generator was fed, and whatever ticks come between its records: a record is late in the
    collector exactly when an earlier tick, less the delay, lies in a slot past the record's time.
  */
  lemma RecordLateIffTickPassed(kind: Kind, p: QG.Params, first: nat, counting: bool, ys: seq<QR.Input>,
                                ctx: Context, start: nat, from: seq<nat>, xs: seq<Input>, i: nat)
    requires p.Valid() && p.interval == Interval(kind) && ctx.kind == kind && start <= first * p.interval
    requires Delivers(QR.Run(p, QR.Fresh(p, first, counting), ys).out, from, Flows(xs))
    requires i < |xs| && xs[i].Report?
    ensures LateAt(ctx, start, xs, i) <==> exists j :: 0 <= j < i && xs[j].Tick? && xs[i].flow.time < Reach(ctx, xs[j])
  {
    GeneratorInOrder(kind, p, first, counting, ys, start, from, Flows(xs));
    LateIffTickPassed(ctx, start, xs, i);
  }
}
