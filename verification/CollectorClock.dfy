/**
  The collector's delay statistic. With overflow checks its unsigned subtraction panics when the slot of an
  input lies ahead of the clock; the clock's reading, in nanoseconds, is an input of each call.
*/
module CollectorClock {
  import opened Options
  import opened Collector
  import opened CollectorRuns
  import opened CollectorTicks

  const NANOS: nat := 1_000_000_000

  /** One call; `None` is a panic. */
  function CheckedL4(ctx: Context, s: Stash, x: Input, clock: nat): Option<Stash> {
    if Arrival(x) >= s.start && clock < Reach(ctx, x) * NANOS then None else CollectL4(ctx, s, x)
  }

  function CheckedRun(ctx: Context, s: Stash, xs: seq<Input>, clocks: seq<nat>): Option<Stash>
    requires |xs| == |clocks|
    decreases |xs|
  {
    if xs == [] then Some(s)
    else
      match CheckedL4(ctx, s, xs[0], clocks[0])
      case None => None
      case Some(s') => CheckedRun(ctx, s', xs[1..], clocks[1..])
  }

  /** Input `i` is dropped as late, or its slot has begun by the clock. */
  predicate Begun(ctx: Context, start: nat, xs: seq<Input>, clocks: seq<nat>, i: nat)
    requires i < |xs| == |clocks|
  {
    LateAt(ctx, start, xs, i) || Reach(ctx, xs[i]) * NANOS <= clocks[i]
  }

  lemma BegunLater(ctx: Context, start: nat, xs: seq<Input>, clocks: seq<nat>, i: nat)
    requires i + 1 < |xs| == |clocks|
    ensures Begun(ctx, start, xs, clocks, i + 1) <==>
      Begun(ctx, Max(start, Reach(ctx, xs[0])), xs[1..], clocks[1..], i)
  {
    hide Reach;
    assert xs[..i + 1][1..] == xs[1..][..i];
  }

  lemma BegunFirst(ctx: Context, s: Stash, xs: seq<Input>, clocks: seq<nat>)
    requires 0 < |xs| == |clocks| && CollectL4(ctx, s, xs[0]).Some?
    ensures CheckedL4(ctx, s, xs[0], clocks[0]).Some? <==> Begun(ctx, s.start, xs, clocks, 0)
  {
    hide CollectL4, Reach;
    assert xs[..0] == [];
  }

  /**
    With overflow checks a run goes through exactly when each input is late or its slot has begun by the clock
    when it is collected; and it then does what it does without them.
  */
  lemma {:induction false} CheckedRunIff(kind: Kind, delay: nat, s: Stash, log: seq<Item>, xs: seq<Input>,
                                          clocks: seq<nat>)
    requires Inv(kind, s, log) && |xs| == |clocks| && forall x :: x in xs ==> InputTagged(x)
    ensures var ctx := MetricTypeToTag(kind, delay);
      && (CheckedRun(ctx, s, xs, clocks).Some? <==> forall i :: 0 <= i < |xs| ==> Begun(ctx, s.start, xs, clocks, i))
      && (CheckedRun(ctx, s, xs, clocks).Some? ==> CheckedRun(ctx, s, xs, clocks) == Run(ctx, s, xs))
    decreases |xs|
  {
    var ctx := MetricTypeToTag(kind, delay);
    assert ctx.kind == kind;
    if xs != [] {
      assert InputTagged(xs[0]);
      CollectKeeps(kind, delay, s, log, xs[0]);
      assert Floor(kind, s.start) == s.start;
      CollectMoves(ctx, s, xs[0]);
      BegunFirst(ctx, s, xs, clocks);
      hide CollectL4, Reach, Begun, Inv, Recall, InputTagged, MetricTypeToTag, Floor;
      var s' := CollectL4(ctx, s, xs[0]).value;
      CheckedRunIff(kind, delay, s', Recall(kind, s, log, xs[0]), xs[1..], clocks[1..]);
      forall i: nat | i + 1 < |xs|
        ensures Begun(ctx, s.start, xs, clocks, i + 1) <==> Begun(ctx, s'.start, xs[1..], clocks[1..], i)
      {
        BegunLater(ctx, s.start, xs, clocks, i);
      }
      SplitFirst(ctx, s.start, s'.start, xs, clocks);
    }
  }

  /** All inputs have begun when the first has and the rest have. */
  lemma SplitFirst(ctx: Context, start: nat, start': nat, xs: seq<Input>, clocks: seq<nat>)
    requires 0 < |xs| == |clocks|
    requires forall i: nat :: i + 1 < |xs| ==>
      (Begun(ctx, start, xs, clocks, i + 1) <==> Begun(ctx, start', xs[1..], clocks[1..], i))
    ensures (forall i :: 0 <= i < |xs| ==> Begun(ctx, start, xs, clocks, i)) <==>
      Begun(ctx, start, xs, clocks, 0) &&
      forall i :: 0 <= i < |xs[1..]| ==> Begun(ctx, start', xs[1..], clocks[1..], i)
  {
    hide Begun;
    if Begun(ctx, start, xs, clocks, 0) &&
       forall i :: 0 <= i < |xs[1..]| ==> Begun(ctx, start', xs[1..], clocks[1..], i)
    {
      forall i | 0 <= i < |xs| ensures Begun(ctx, start, xs, clocks, i) {
        if i > 0 { assert Begun(ctx, start', xs[1..], clocks[1..], i - 1); }
      }
    }
    if forall i :: 0 <= i < |xs| ==> Begun(ctx, start, xs, clocks, i) {
      forall i | 0 <= i < |xs[1..]| ensures Begun(ctx, start', xs[1..], clocks[1..], i) {
        assert Begun(ctx, start, xs, clocks, i + 1);
      }
    }
  }

  lemma ReachNotAhead(kind: Kind, delay: nat, x: Input)
    ensures Reach(MetricTypeToTag(kind, delay), x) <= Arrival(x)
  {
    TickNeverUnderflows(kind, delay, Arrival(x));
    if x.Tick? {
      FloorLaws(kind, TickTime(MetricTypeToTag(kind, delay), x.now).value, 0);
    } else {
      FloorLaws(kind, x.flow.time, 0);
    }
    hide Floor, TickTime;
  }

  /** So a collector fed nothing from the future never panics, whatever the order and the ticks. */
  lemma NothingAheadNeverPanics(kind: Kind, delay: nat, now: nat, xs: seq<Input>, clocks: seq<nat>)
    requires now >= 120 && |xs| == |clocks| && forall x :: x in xs ==> InputTagged(x)
    requires forall i :: 0 <= i < |xs| ==> Arrival(xs[i]) * NANOS <= clocks[i]
    ensures var ctx := MetricTypeToTag(kind, delay);
      CheckedRun(ctx, Fresh(StartTime(now)), xs, clocks).Some?
  {
    var ctx, s := MetricTypeToTag(kind, delay), Fresh(StartTime(now));
    FreshKeeps(kind, now);
    forall i | 0 <= i < |xs| ensures Begun(ctx, s.start, xs, clocks, i) { ReachNotAhead(kind, delay, xs[i]); }
    hide Begun, StartTime, Inv, InputTagged, CheckedRun;
    CheckedRunIff(kind, delay, s, [], xs, clocks);
  }

  /** One flow a slot ahead of the clock, in a fresh collector: it panics with the checks, and only with them. */
  lemma AheadPanics(kind: Kind, delay: nat, now: nat, f: Flow, clock: nat)
    requires now >= 120 && FlowTagged(f) && f.time >= StartTime(now) && clock < Floor(kind, f.time) * NANOS
    ensures var ctx, s := MetricTypeToTag(kind, delay), Fresh(StartTime(now));
      CheckedRun(ctx, s, [Report(f)], [clock]).None? && Run(ctx, s, [Report(f)]).Some?
  {
    FreshKeeps(kind, now);
    hide StartTime, Floor, FlowTagged, Inv, ReportL4, MetricTypeToTag;
    var ctx, s := MetricTypeToTag(kind, delay), Fresh(StartTime(now));
    KindKept(kind, delay);
    RunKeeps(kind, delay, s, [], [Report(f)]);
  }

  lemma KindKept(kind: Kind, delay: nat)
    ensures MetricTypeToTag(kind, delay).kind == kind
  {
  }
}
