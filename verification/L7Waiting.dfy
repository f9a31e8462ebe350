/**
  What waits for a flow, read off the reports: for every flow, slot, endpoint, type and span the plain sum over
  the reports since the last drain that have the settled protocol, and nothing is lost but to another protocol.
*/
module L7Waiting {
  import opened QuadrupleGenerator
  import opened L7Generator
  import opened L7Runs

  // ---------------------------------------------------------------- the reference: reports since the last drain

  /** Whether a flow has an entry in a slot, and its reports since the entry was last emptied. */
  datatype Waits = Waits(known: bool, since: seq<L7Stats>)

  predicate CountsNothing(x: L7Stats) { x.meter.request == 0 && x.meter.response == 0 }

  /**
    From the accepted reports alone: one without a flow waits, unless it is the first and counts nothing; one
    with the flow takes everything along that waits.
  */
  function WaitsOf(p: Params, log: seq<L7Stats>, k: nat, e: nat): Waits
    requires p.Valid()
  {
    if log == [] then Waits(false, [])
    else
      var w, x := WaitsOf(p, log[..|log| - 1], k, e), log[|log| - 1];
      if x.flowId != k || x.time / p.interval != e then w
      else if x.flow.Some? then w.(since := [])
      else if !w.known && CountsNothing(x) then w
      else Waits(true, w.since + [x])
  }

  datatype Category = Category(endpoint: nat, bizType: nat, span: int)

  function CategoryOf(p: Params, x: L7Stats): Category
    requires p.Valid() && x.timeSpan <= x.time
  {
    Category(x.endpoint, x.bizType, x.time / p.interval - (x.time - x.timeSpan) / p.interval)
  }

  predicate InTime(since: seq<L7Stats>) { forall i :: 0 <= i < |since| ==> since[i].timeSpan <= since[i].time }

  /** How many reports are of a category. */
  function CountOf(p: Params, since: seq<L7Stats>, c: Category): nat
    requires p.Valid() && InTime(since)
  {
    if since == [] then 0
    else
      CountOf(p, since[..|since| - 1], c) + (if CategoryOf(p, since[|since| - 1]) == c then 1 else 0)
  }

  /** The first known protocol among the reports of a category. */
  function Settled(p: Params, since: seq<L7Stats>, c: Category): nat
    requires p.Valid() && InTime(since)
  {
    if since == [] then UNKNOWN
    else
      var before, x := Settled(p, since[..|since| - 1], c), since[|since| - 1];
      if before == UNKNOWN && CategoryOf(p, x) == c then x.protocol else before
  }

  /** The sum over the reports of a category that have a protocol. */
  function SumFor(p: Params, since: seq<L7Stats>, c: Category, protocol: nat, v: Counter): nat
    requires p.Valid() && InTime(since)
  {
    if since == [] then 0
    else
      var x := since[|since| - 1];
      SumFor(p, since[..|since| - 1], c, protocol, v)
      + (if CategoryOf(p, x) == c && x.protocol == protocol then Val(v, x.meter) else 0)
  }

  function CategoryIn(s: Stat): Category { Category(s.endpoint, s.bizType, s.timeSpan) }

  /** A stat is the sum of the reports of its category that have the settled protocol. */
  ghost predicate StatOk(p: Params, s: Stat, since: seq<L7Stats>)
    requires p.Valid() && InTime(since)
  {
    var c := CategoryIn(s);
    && CountOf(p, since, c) > 0 && s.protocol == Settled(p, since, c)
    && (forall v: Counter :: Val(v, s.meter) == SumFor(p, since, c, s.protocol, v))
  }

  ghost predicate HasStat(ss: seq<Stat>, c: Category) { exists i :: 0 <= i < |ss| && CategoryIn(ss[i]) == c }

  /** One stat for every category that has reports. */
  ghost predicate ListOk(p: Params, ss: seq<Stat>, since: seq<L7Stats>)
    requires p.Valid() && InTime(since)
  {
    && (forall i :: 0 <= i < |ss| ==> StatOk(p, ss[i], since))
    && (forall i, j :: 0 <= i < j < |ss| ==> CategoryIn(ss[i]) != CategoryIn(ss[j]))
    && (forall c :: CountOf(p, since, c) > 0 ==> HasStat(ss, c))
  }

  // ---------------------------------------------------------------- one more report

  lemma CountSnoc(p: Params, since: seq<L7Stats>, x: L7Stats, c: Category)
    requires p.Valid() && x.timeSpan <= x.time && InTime(since + [x]) && InTime(since)
    ensures CountOf(p, since + [x], c) == CountOf(p, since, c) + (if CategoryOf(p, x) == c then 1 else 0)
    ensures Settled(p, since + [x], c) ==
      if Settled(p, since, c) == UNKNOWN && CategoryOf(p, x) == c then x.protocol else Settled(p, since, c)
  {
    hide CategoryOf;
    assert (since + [x])[..|since|] == since;
  }

  lemma SumSnoc(p: Params, since: seq<L7Stats>, x: L7Stats, c: Category, protocol: nat, v: Counter)
    requires p.Valid() && x.timeSpan <= x.time && InTime(since + [x]) && InTime(since)
    ensures SumFor(p, since + [x], c, protocol, v) == SumFor(p, since, c, protocol, v) +
      (if CategoryOf(p, x) == c && x.protocol == protocol then Val(v, x.meter) else 0)
  {
    hide CategoryOf, Val;
    assert (since + [x])[..|since|] == since;
  }

  /** While no known protocol has come, no report has one; and a category without reports sums to nothing. */
  lemma {:induction false} NothingYet(p: Params, since: seq<L7Stats>, c: Category, protocol: nat, v: Counter)
    requires p.Valid() && InTime(since)
    ensures Settled(p, since, c) == UNKNOWN != protocol ==> SumFor(p, since, c, protocol, v) == 0
    ensures CountOf(p, since, c) == 0 ==> Settled(p, since, c) == UNKNOWN && SumFor(p, since, c, protocol, v) == 0
  {
    hide CategoryOf, Val;
    if since != [] { NothingYet(p, since[..|since| - 1], c, protocol, v); }
  }

  /** Where a report goes: into the one stat of its endpoint, type and span, or behind them all. */
  lemma {:induction false} GatheredAt(ss: seq<Stat>, x: L7Stats, span: nat) returns (i: nat)
    ensures i <= |ss| && forall j :: 0 <= j < i ==> !Same(ss[j], x, span)
    ensures i < |ss| ==>
      Same(ss[i], x, span) && Gathered(ss, x, span) == (ss[i := Blended(ss[i], x).0], Blended(ss[i], x).1)
    ensures i == |ss| ==> Gathered(ss, x, span) == (ss + [NewStat(x, span)], [])
  {
    hide Same, Blended, NewStat;
    if ss == [] {
      assert ss + [NewStat(x, span)] == [NewStat(x, span)];
      return 0;
    }
    if Same(ss[0], x, span) {
      assert [Blended(ss[0], x).0] + ss[1..] == ss[0 := Blended(ss[0], x).0];
      return 0;
    }
    i := GatheredAt(ss[1..], x, span);
    assert [ss[0]] + (ss[1..] + [NewStat(x, span)]) == ss + [NewStat(x, span)];
    if i < |ss[1..]| {
      assert [ss[0]] + ss[1..][i := Blended(ss[1..][i], x).0] == ss[i + 1 := Blended(ss[i + 1], x).0];
    }
    i := i + 1;
  }

  lemma MeterAdds(a: AppMeter, b: AppMeter, v: Counter)
    ensures Val(v, AddMeters(a, b)) == Val(v, a) + Val(v, b)
  {
  }

  lemma BlendOk(p: Params, s: Stat, since: seq<L7Stats>, x: L7Stats)
    requires p.Valid() && InTime(since) && x.timeSpan <= x.time && InTime(since + [x])
    requires StatOk(p, s, since) && CategoryOf(p, x) == CategoryIn(s)
    ensures StatOk(p, Blended(s, x).0, since + [x]) && CategoryIn(Blended(s, x).0) == CategoryIn(s)
  {
    hide CategoryOf, Val, AddMeters, CountOf, Settled, SumFor;
    var c, r := CategoryIn(s), Blended(s, x).0;
    CountSnoc(p, since, x, c);
    forall v: Counter ensures Val(v, r.meter) == SumFor(p, since + [x], c, r.protocol, v) {
      SumSnoc(p, since, x, c, r.protocol, v);
      MeterAdds(s.meter, x.meter, v);
      NothingYet(p, since, c, r.protocol, v);
    }
  }

  lemma OtherOk(p: Params, s: Stat, since: seq<L7Stats>, x: L7Stats)
    requires p.Valid() && InTime(since) && x.timeSpan <= x.time && InTime(since + [x])
    requires StatOk(p, s, since) && CategoryOf(p, x) != CategoryIn(s)
    ensures StatOk(p, s, since + [x])
  {
    hide CategoryOf, Val, CountOf, Settled, SumFor;
    CountSnoc(p, since, x, CategoryIn(s));
    forall v: Counter ensures Val(v, s.meter) == SumFor(p, since + [x], CategoryIn(s), s.protocol, v) {
      SumSnoc(p, since, x, CategoryIn(s), s.protocol, v);
    }
  }

  lemma NewOk(p: Params, since: seq<L7Stats>, x: L7Stats, span: nat)
    requires p.Valid() && InTime(since) && x.timeSpan <= x.time && InTime(since + [x]) && span == CategoryOf(p, x).span
    requires CountOf(p, since, CategoryOf(p, x)) == 0
    ensures CategoryIn(NewStat(x, span)) == CategoryOf(p, x) && StatOk(p, NewStat(x, span), since + [x])
  {
    hide Val, CountOf, Settled, SumFor;
    var c := CategoryOf(p, x);
    CountSnoc(p, since, x, c);
    forall v: Counter ensures Val(v, x.meter) == SumFor(p, since + [x], c, x.protocol, v) {
      SumSnoc(p, since, x, c, x.protocol, v);
      NothingYet(p, since, c, x.protocol, v);
    }
    NothingYet(p, since, c, x.protocol, Requests);
  }

  lemma SameCategory(p: Params, s: Stat, x: L7Stats, span: nat)
    requires p.Valid() && x.timeSpan <= x.time && span == CategoryOf(p, x).span
    ensures Same(s, x, span) <==> CategoryIn(s) == CategoryOf(p, x)
  {
  }

  /** Gathering keeps one stat for every category. */
  lemma GatherOk(p: Params, ss: seq<Stat>, since: seq<L7Stats>, x: L7Stats, span: nat)
    requires p.Valid() && InTime(since) && x.timeSpan <= x.time && InTime(since + [x])
    requires span == CategoryOf(p, x).span && ListOk(p, ss, since)
    ensures ListOk(p, Gathered(ss, x, span).0, since + [x])
  {
    hide CategoryOf, StatOk, CountOf, Gathered, Same, Blended, NewStat, CategoryIn;
    var c := CategoryOf(p, x);
    var i := GatheredAt(ss, x, span);
    var r := Gathered(ss, x, span).0;
    forall j | 0 <= j < |ss| ensures Same(ss[j], x, span) <==> CategoryIn(ss[j]) == c {
      SameCategory(p, ss[j], x, span);
    }
    if i < |ss| {
      BlendOk(p, ss[i], since, x);
    } else {
      assert !HasStat(ss, c);
      NewOk(p, since, x, span);
    }
    assert forall j :: 0 <= j < |ss| ==> CategoryIn(r[j]) == CategoryIn(ss[j]);
    forall j | 0 <= j < |r| ensures StatOk(p, r[j], since + [x]) {
      if j < |ss| && j != i { OtherOk(p, ss[j], since, x); }
    }
    forall d | CountOf(p, since + [x], d) > 0 ensures HasStat(r, d) {
      CountSnoc(p, since, x, d);
      if d == c {
        assert CategoryIn(r[i]) == d;
      } else {
        assert HasStat(ss, d);
        var j :| 0 <= j < |ss| && CategoryIn(ss[j]) == d;
        assert CategoryIn(r[j]) == d;
      }
    }
  }

  // ---------------------------------------------------------------- every run

  ghost predicate SlotOk(p: Params, g: L7Gen, log: seq<L7Stats>, i: nat, k: nat)
    requires Sound(p, g) && i < p.slots
  {
    var w, stats := WaitsOf(p, log, k, g.first + i), g.stashes[i].stats;
    (k in stats <==> w.known) && (k in stats ==> InTime(w.since) && ListOk(p, stats[k], w.since))
  }

  ghost predicate Inv(p: Params, g: L7Gen, log: seq<L7Stats>) {
    && Sound(p, g)
    && (forall i: nat, k: nat :: i < p.slots ==> SlotOk(p, g, log, i, k))
    && (forall x :: x in log ==> x.time / p.interval < g.first + p.slots)
  }

  lemma InvShape(p: Params, g: L7Gen, log: seq<L7Stats>)
    requires Inv(p, g, log)
    ensures Sound(p, g)
  {
  }

  lemma {:induction false} WaitsNone(p: Params, log: seq<L7Stats>, k: nat, e: nat)
    requires p.Valid() && forall x :: x in log ==> x.time / p.interval != e
    ensures WaitsOf(p, log, k, e) == Waits(false, [])
  {
    if log != [] {
      assert log[|log| - 1] in log;
      WaitsNone(p, log[..|log| - 1], k, e);
    }
  }

  lemma {:induction false} UnknownWaitsNothing(p: Params, log: seq<L7Stats>, k: nat, e: nat)
    requires p.Valid()
    ensures !WaitsOf(p, log, k, e).known ==> WaitsOf(p, log, k, e).since == []
  {
    if log != [] { UnknownWaitsNothing(p, log[..|log| - 1], k, e); }
  }

  lemma ShiftOk(p: Params, g: L7Gen, log: seq<L7Stats>)
    requires Inv(p, g, log)
    ensures Inv(p, ShiftSlot(p, g), log)
  {
    hide WaitsOf, ListOk;
    var r := ShiftSlot(p, g);
    forall i: nat, k: nat | i < p.slots ensures SlotOk(p, r, log, i, k) {
      if i < p.slots - 1 {
        assert SlotOk(p, g, log, i + 1, k);
        assert r.stashes[i] == g.stashes[i + 1];
      } else {
        WaitsNone(p, log, k, g.first + p.slots);
      }
    }
  }

  lemma {:induction false} ShiftsOk(p: Params, g: L7Gen, log: seq<L7Stats>, n: nat)
    requires Inv(p, g, log) && Sound(p, g)
    ensures Inv(p, ShiftSlots(p, g, n), log)
  {
    hide Inv, ShiftSlot;
    if n > 0 {
      ShiftsOk(p, g, log, n - 1);
      ShiftOk(p, ShiftSlots(p, g, n - 1), log);
    }
  }

  lemma JumpOk(p: Params, g: L7Gen, log: seq<L7Stats>, first: nat)
    requires Inv(p, g, log) && first >= g.first && forall x :: x in log ==> x.time / p.interval < g.first
    ensures Inv(p, g.(first := first), log)
  {
    hide WaitsOf, ListOk;
    var r := g.(first := first);
    forall i: nat, k: nat | i < p.slots ensures SlotOk(p, r, log, i, k) {
      assert SlotOk(p, g, log, i, k);
      WaitsNone(p, log, k, g.first + i);
      WaitsNone(p, log, k, first + i);
    }
  }

  lemma LogBelow(p: Params, g: L7Gen, log: seq<L7Stats>)
    requires Inv(p, g, log)
    ensures forall x :: x in log ==> x.time / p.interval < g.first + p.slots
  {
  }

  lemma MoveOk(p: Params, g: L7Gen, log: seq<L7Stats>, t: nat)
    requires Inv(p, g, log) && Sound(p, g)
    ensures Inv(p, MoveWindow(p, g, t), log)
  {
    hide Inv, SlotsToShift, ShiftSlots, Begins;
    if t >= Begins(p, g) + p.delay {
      var n := SlotsToShift(p, Begins(p, g), t);
      if n >= p.slots {
        ShiftsOk(p, g, log, p.slots);
        LogBelow(p, g, log);
        JumpOk(p, ShiftSlots(p, g, p.slots), log, g.first + n);
      } else {
        ShiftsOk(p, g, log, n);
      }
    }
  }

  /** Two states with the same window and the same waiting stats. */
  ghost predicate SameStats(g: L7Gen, r: L7Gen) {
    r.first == g.first && |r.stashes| == |g.stashes| &&
    forall i :: 0 <= i < |g.stashes| ==> r.stashes[i].stats == g.stashes[i].stats
  }

  lemma SameStatsOk(p: Params, g: L7Gen, r: L7Gen, log: seq<L7Stats>)
    requires Inv(p, g, log) && SameStats(g, r)
    ensures Inv(p, r, log)
  {
    hide WaitsOf, ListOk;
    forall i: nat, k: nat | i < p.slots ensures SlotOk(p, r, log, i, k) { assert SlotOk(p, g, log, i, k); }
  }

  /** The list of the flow after a report; what else a report does is not about waiting. */
  function Listed(g: L7Gen, i: nat, x: L7Stats, span: nat): map<nat, seq<Stat>>
    requires i < |g.stashes|
  {
    var stats, k := g.stashes[i].stats, x.flowId;
    if k in stats then stats[k := if x.flow.Some? then [] else Gathered(stats[k], x, span).0]
    else if x.flow.Some? || Idle(x.meter) then stats
    else stats[k := [NewStat(x, span)]]
  }

  lemma IntoSlotLists(g: L7Gen, i: nat, x: L7Stats, span: nat)
    requires i < |g.stashes|
    ensures var r := IntoSlot(g, i, x, span);
      && |r.stashes| == |g.stashes| && r.first == g.first && r.stashes[i].stats == Listed(g, i, x, span)
      && (forall j :: 0 <= j < |g.stashes| && j != i ==> r.stashes[j].stats == g.stashes[j].stats)
  {
    hide Gathered, Drained, Idle;
  }

  lemma WaitsSnoc(p: Params, log: seq<L7Stats>, x: L7Stats, k: nat, e: nat)
    requires p.Valid()
    ensures WaitsOf(p, log + [x], k, e) ==
      var w := WaitsOf(p, log, k, e);
      if x.flowId != k || x.time / p.interval != e then w
      else if x.flow.Some? then w.(since := [])
      else if !w.known && CountsNothing(x) then w
      else Waits(true, w.since + [x])
  {
    assert (log + [x])[..|log|] == log;
  }

  lemma EmptyOk(p: Params)
    requires p.Valid()
    ensures ListOk(p, [], [])
  {
  }

  lemma FirstOk(p: Params, x: L7Stats, span: nat)
    requires p.Valid() && x.timeSpan <= x.time && span == CategoryOf(p, x).span
    ensures InTime([x]) && ListOk(p, [NewStat(x, span)], [x])
  {
    hide ListOk, CategoryOf;
    EmptyOk(p);
    assert [] + [x] == [x];
    GatherOk(p, [], [], x, span);
  }

  /** The list of the flow itself, after one of its reports. */
  lemma OwnListOk(p: Params, g: L7Gen, log: seq<L7Stats>, i: nat, x: L7Stats, span: nat)
    requires Inv(p, g, log) && i < p.slots && x.timeSpan <= x.time && x.time / p.interval == g.first + i
    requires span == CategoryOf(p, x).span
    ensures var w, stats := WaitsOf(p, log + [x], x.flowId, g.first + i), Listed(g, i, x, span);
      (x.flowId in stats <==> w.known) && (x.flowId in stats ==> InTime(w.since) && ListOk(p, stats[x.flowId], w.since))
  {
    hide WaitsOf, ListOk, Gathered, CategoryOf;
    var k, w := x.flowId, WaitsOf(p, log, x.flowId, g.first + i);
    assert SlotOk(p, g, log, i, k);
    WaitsSnoc(p, log, x, k, g.first + i);
    UnknownWaitsNothing(p, log, k, g.first + i);
    EmptyOk(p);
    FirstOk(p, x, span);
    if w.known {
      assert InTime(w.since + [x]);
      GatherOk(p, g.stashes[i].stats[k], w.since, x, span);
    } else {
      assert [] + [x] == [x];
    }
  }

  lemma IntoOk(p: Params, g: L7Gen, log: seq<L7Stats>, i: nat, x: L7Stats, span: nat)
    requires Inv(p, g, log) && i < p.slots && x.timeSpan <= x.time && x.time / p.interval == g.first + i
    requires span == CategoryOf(p, x).span
    ensures Inv(p, IntoSlot(g, i, x, span), log + [x])
  {
    hide WaitsOf, ListOk, Gathered, CategoryOf, IntoSlot;
    var r := IntoSlot(g, i, x, span);
    IntoSlotLists(g, i, x, span);
    OwnListOk(p, g, log, i, x, span);
    forall j: nat, k: nat | j < p.slots ensures SlotOk(p, r, log + [x], j, k) {
      if j != i || k != x.flowId {
        assert SlotOk(p, g, log, j, k);
        WaitsSnoc(p, log, x, k, g.first + j);
      }
    }
  }

  /** The reports accepted so far, by the number each is known by. */
  function Hear(p: Params, g: L7Gen, log: seq<L7Stats>, x: Input): seq<L7Stats> {
    if x.Report? && x.stats.time >= Begins(p, g) then log + [Numbered(x.stats, g.seen)] else log
  }

  lemma ReportOk(p: Params, g: L7Gen, log: seq<L7Stats>, s: L7Stats)
    requires Inv(p, g, log) && s.timeSpan <= s.time && Sound(p, g)
    ensures Inv(p, Handle(p, g, Report(s)), Hear(p, g, log, Report(s)))
  {
    hide Inv, MoveWindow, IntoSlot, Begins;
    var x, g' := Numbered(s, g.seen), g.(seen := g.seen + 1);
    SameWindow(p, g, g.seen + 1);
    SameStatsOk(p, g, g', log);
    if s.time < Begins(p, g) {
      SameStatsOk(p, g', Overdue(g', x), log);
    } else {
      CapIsIdle(p, g', s.time);
      MoveOk(p, g', log, s.time);
      SpanNatural(p, x);
      var m := MoveWindow(p, g', s.time);
      IntoOk(p, m, log, SlotFor(p, m, s.time), x, SpanOf(p, x));
    }
  }

  lemma HandleOk(p: Params, g: L7Gen, log: seq<L7Stats>, x: Input)
    requires Inv(p, g, log) && Timed(x) && Sound(p, g)
    ensures Inv(p, Handle(p, g, x), Hear(p, g, log, x))
  {
    hide Inv, MoveWindow;
    match x
    case SendClosed => SameStatsOk(p, g, Handle(p, g, x), log);
    case Tick(t) =>
      SameStatsOk(p, g, g.(dropped := g.dropped + 1), log);
      MoveOk(p, g, log, t);
    case Report(s) => ReportOk(p, g, log, s);
  }

  function Heard(p: Params, g: L7Gen, log: seq<L7Stats>, xs: seq<Input>): seq<L7Stats>
    requires Sound(p, g) && forall x :: x in xs ==> Timed(x)
    decreases |xs|
  {
    if xs == [] then log
    else
      assert Timed(xs[0]);
      HandleSound(p, g, xs[0]);
      Heard(p, Handle(p, g, xs[0]), Hear(p, g, log, xs[0]), xs[1..])
  }

  lemma {:induction false} RunOk(p: Params, g: L7Gen, log: seq<L7Stats>, xs: seq<Input>)
    requires Inv(p, g, log) && Sound(p, g) && forall x :: x in xs ==> Timed(x)
    ensures Inv(p, Run(p, g, xs), Heard(p, g, log, xs))
    decreases |xs|
  {
    hide Inv, Handle, Hear;
    if xs != [] {
      assert Timed(xs[0]);
      HandleSound(p, g, xs[0]);
      HandleOk(p, g, log, xs[0]);
      RunOk(p, Handle(p, g, xs[0]), Hear(p, g, log, xs[0]), xs[1..]);
    }
  }

  lemma FreshOk(p: Params, first: nat)
    requires p.Valid()
    ensures Inv(p, Fresh(p, first), [])
  {
  }

  /**
    In every run, for every slot of the ring and every flow: the flow has an entry exactly when a report of it
    waits or waited there, and the entry has one stat for every endpoint, type and span among the reports since
    the last drain, with the first known protocol among them and the plain sums over those that have it.
  */
  lemma EveryWaitIsSum(p: Params, first: nat, xs: seq<Input>, i: nat, k: nat)
    requires p.Valid() && i < p.slots && forall x :: x in xs ==> Timed(x)
    ensures var g, log := Run(p, Fresh(p, first), xs), Heard(p, Fresh(p, first), [], xs);
      && Sound(p, g) && SlotOk(p, g, log, i, k)
  {
    hide Run, Heard, SlotOk;
    FreshOk(p, first);
    RunOk(p, Fresh(p, first), [], xs);
  }

  // ---------------------------------------------------------------- what is lost to another protocol

  predicate ToProtocol(l: Loss, k: nat) { (l.Replaced? || l.OtherProtocol?) && l.flowId == k }

  /** How many reports of flow `k` were lost, or took others' place, for their protocol. */
  function LostToProtocol(ls: seq<Loss>, k: nat): nat {
    if ls == [] then 0 else LostToProtocol(ls[..|ls| - 1], k) + (if ToProtocol(ls[|ls| - 1], k) then 1 else 0)
  }

  lemma {:induction false} LostAppend(a: seq<Loss>, b: seq<Loss>, k: nat)
    ensures LostToProtocol(a + b, k) == LostToProtocol(a, k) + LostToProtocol(b, k)
    decreases |b|
  {
    if b == [] {
      assert a + b == a;
    } else {
      assert (a + b)[..|a + b| - 1] == a + b[..|b| - 1];
      LostAppend(a, b[..|b| - 1], k);
    }
  }

  lemma {:induction false} DrainLosesNone(ss: seq<Stat>, x: L7Stats, span: nat, k: nat)
    requires x.flow.Some?
    ensures LostToProtocol(Drained(ss, x, span).1, k) == 0
  {
    if ss != [] {
      var init := ss[..|ss| - 1];
      DrainLosesNone(init, x, span, k);
      var l := Drained(init, x, span).1;
      assert (l + [NothingCounted(x.flowId, ss[|ss| - 1].meter)])[..|l|] == l;
    }
  }

  /** A report meets others of its category that have settled on another protocol. */
  predicate Conflicts(p: Params, w: Waits, x: L7Stats)
    requires p.Valid() && InTime(w.since) && x.timeSpan <= x.time
  {
    CountOf(p, w.since, CategoryOf(p, x)) > 0 && Settled(p, w.since, CategoryOf(p, x)) != x.protocol
  }

  lemma OneLost(l: Loss, k: nat)
    ensures LostToProtocol([l], k) == if ToProtocol(l, k) then 1 else 0
  {
    assert [l][..0] == [];
  }

  lemma BlendLoses(s: Stat, x: L7Stats, k: nat)
    ensures LostToProtocol(Blended(s, x).1, k) == if k == x.flowId && s.protocol != x.protocol then 1 else 0
  {
    OneLost(Replaced(x.flowId, s.meter), k);
    OneLost(OtherProtocol(x.flowId, x.meter), k);
  }

  lemma GatherLosesIff(p: Params, ss: seq<Stat>, w: Waits, x: L7Stats, span: nat, k: nat)
    requires p.Valid() && InTime(w.since) && x.timeSpan <= x.time
    requires span == CategoryOf(p, x).span && ListOk(p, ss, w.since)
    ensures LostToProtocol(Gathered(ss, x, span).1, k) == if k == x.flowId && Conflicts(p, w, x) then 1 else 0
  {
    hide CategoryOf, CountOf, Settled, SumFor, Gathered, Same, Blended, CategoryIn, LostToProtocol;
    var c := CategoryOf(p, x);
    var i := GatheredAt(ss, x, span);
    forall j | 0 <= j < |ss| ensures Same(ss[j], x, span) <==> CategoryIn(ss[j]) == c {
      SameCategory(p, ss[j], x, span);
    }
    if i < |ss| {
      assert StatOk(p, ss[i], w.since);
      BlendLoses(ss[i], x, k);
    } else {
      assert !HasStat(ss, c);
      NoLost(k);
    }
  }

  lemma NoLost(k: nat)
    ensures LostToProtocol([], k) == 0
  {
  }

  /** What a report into a slot loses. */
  function LostBy(g: L7Gen, i: nat, x: L7Stats, span: nat): seq<Loss>
    requires i < |g.stashes|
  {
    var stats, k := g.stashes[i].stats, x.flowId;
    if k in stats then
      var (ss, lost) := Gathered(stats[k], x, span);
      if x.flow.None? then lost else lost + Drained(ss, x, span).1
    else if Idle(x.meter) then [NothingCounted(k, x.meter)]
    else []
  }

  lemma IntoSlotLost(g: L7Gen, i: nat, x: L7Stats, span: nat)
    requires i < |g.stashes|
    ensures IntoSlot(g, i, x, span).lost == g.lost + LostBy(g, i, x, span)
  {
    hide Gathered, Drained, Idle;
    if x.flowId in g.stashes[i].stats && x.flow.Some? {
      var (ss, lost) := Gathered(g.stashes[i].stats[x.flowId], x, span);
      assert g.lost + lost + Drained(ss, x, span).1 == g.lost + (lost + Drained(ss, x, span).1);
    }
  }

  lemma LostByIff(p: Params, g: L7Gen, log: seq<L7Stats>, i: nat, x: L7Stats, span: nat, k: nat)
    requires Inv(p, g, log) && i < p.slots && x.timeSpan <= x.time && span == CategoryOf(p, x).span
    ensures var w := WaitsOf(p, log, x.flowId, g.first + i);
      && InTime(w.since)
      && LostToProtocol(LostBy(g, i, x, span), k) == if k == x.flowId && Conflicts(p, w, x) then 1 else 0
  {
    hide WaitsOf, ListOk, CategoryOf, Gathered, Drained, LostToProtocol, Conflicts;
    var j, w := x.flowId, WaitsOf(p, log, x.flowId, g.first + i);
    assert SlotOk(p, g, log, i, j);
    UnknownWaitsNothing(p, log, j, g.first + i);
    NoLost(k);
    if w.known {
      GatherLosesIff(p, g.stashes[i].stats[j], w, x, span, k);
      if x.flow.Some? {
        var (ss, lost) := Gathered(g.stashes[i].stats[j], x, span);
        DrainLosesNone(ss, x, span, k);
        LostAppend(lost, Drained(ss, x, span).1, k);
      }
    } else {
      NoConflict(p, w, x);
      OneLost(NothingCounted(j, x.meter), k);
    }
  }

  lemma NoConflict(p: Params, w: Waits, x: L7Stats)
    requires p.Valid() && x.timeSpan <= x.time && w.since == []
    ensures InTime(w.since) && !Conflicts(p, w, x)
  {
  }

  lemma ShiftLoses(p: Params, g: L7Gen, k: nat)
    requires Sound(p, g)
    ensures LostToProtocol(ShiftSlot(p, g).lost, k) == LostToProtocol(g.lost, k)
  {
    hide LostToProtocol;
    LostAppend(g.lost, [Forgotten(g.stashes[0].stats)], k);
    OneLost(Forgotten(g.stashes[0].stats), k);
  }

  lemma {:induction false} ShiftsLose(p: Params, g: L7Gen, n: nat, k: nat)
    requires Sound(p, g)
    ensures LostToProtocol(ShiftSlots(p, g, n).lost, k) == LostToProtocol(g.lost, k)
  {
    hide LostToProtocol, ShiftSlot;
    if n > 0 {
      ShiftsLose(p, g, n - 1, k);
      ShiftLoses(p, ShiftSlots(p, g, n - 1), k);
    }
  }

  lemma MoveLoses(p: Params, g: L7Gen, t: nat, k: nat)
    requires Sound(p, g)
    ensures LostToProtocol(MoveWindow(p, g, t).lost, k) == LostToProtocol(g.lost, k)
  {
    hide LostToProtocol, SlotsToShift, ShiftSlots, Begins;
    if t >= Begins(p, g) + p.delay {
      ShiftsLose(p, g, p.slots, k);
      ShiftsLose(p, g, SlotsToShift(p, Begins(p, g), t), k);
    }
  }

  /**
    One more report in any reachable state: it costs a report of its flow exactly when it is in time and others
    of its category wait that have settled on another protocol.
  */
  lemma ReportLosesIff(p: Params, g: L7Gen, log: seq<L7Stats>, s: L7Stats, k: nat)
    requires Inv(p, g, log) && Sound(p, g) && s.timeSpan <= s.time
    ensures var w := WaitsOf(p, log, s.flowId, s.time / p.interval);
      && (s.time >= Begins(p, g) ==> InTime(w.since))
      && LostToProtocol(Handle(p, g, Report(s)).lost, k) == LostToProtocol(g.lost, k)
           + (if s.time >= Begins(p, g) && k == s.flowId && Conflicts(p, w, s) then 1 else 0)
  {
    hide Inv, WaitsOf, MoveWindow, IntoSlot, Begins, LostToProtocol, LostBy, Conflicts;
    var x, g' := Numbered(s, g.seen), g.(seen := g.seen + 1);
    SameWindow(p, g, g.seen + 1);
    SameStatsOk(p, g, g', log);
    if s.time < Begins(p, g) {
      LostAppend(g.lost, [Late(x.flowId, x.meter)], k);
      OneLost(Late(x.flowId, x.meter), k);
    } else {
      CapIsIdle(p, g', s.time);
      MoveOk(p, g', log, s.time);
      MoveLoses(p, g', s.time, k);
      SpanNatural(p, x);
      var m := MoveWindow(p, g', s.time);
      var i, span := SlotFor(p, m, s.time), SpanOf(p, x);
      IntoSlotLost(m, i, x, span);
      LostByIff(p, m, log, i, x, span, k);
      LostAppend(m.lost, LostBy(m, i, x, span), k);
      NumberedConflicts(p, WaitsOf(p, log, s.flowId, s.time / p.interval), s, g.seen);
    }
  }

  lemma NumberedConflicts(p: Params, w: Waits, s: L7Stats, n: nat)
    requires p.Valid() && InTime(w.since) && s.timeSpan <= s.time
    ensures Conflicts(p, w, Numbered(s, n)) == Conflicts(p, w, s)
  {
  }

  // ---------------------------------------------------------------- flows of one protocol lose nothing to another

  ghost predicate Speaks(log: seq<L7Stats>, k: nat, protocol: nat) {
    forall i :: 0 <= i < |log| && log[i].flowId == k ==> log[i].protocol == protocol
  }

  lemma {:induction false} SinceSpeaks(p: Params, log: seq<L7Stats>, k: nat, e: nat, protocol: nat)
    requires p.Valid() && Speaks(log, k, protocol)
    ensures forall y :: y in WaitsOf(p, log, k, e).since ==> y.protocol == protocol
  {
    if log != [] {
      var init := log[..|log| - 1];
      assert forall i :: 0 <= i < |init| ==> init[i] == log[i];
      SinceSpeaks(p, init, k, e, protocol);
      assert log[|log| - 1].flowId == k ==> log[|log| - 1].protocol == protocol;
    }
  }

  lemma {:induction false} SettledSpeaks(p: Params, since: seq<L7Stats>, c: Category, protocol: nat)
    requires p.Valid() && InTime(since) && forall y :: y in since ==> y.protocol == protocol
    ensures CountOf(p, since, c) > 0 ==> Settled(p, since, c) == protocol
    ensures Settled(p, since, c) == UNKNOWN || Settled(p, since, c) == protocol
  {
    hide CategoryOf;
    if since != [] { SettledSpeaks(p, since[..|since| - 1], c, protocol); }
  }

  ghost predicate AllSpeak(xs: seq<Input>, k: nat, protocol: nat) {
    forall i :: 0 <= i < |xs| && xs[i].Report? && xs[i].stats.flowId == k ==> xs[i].stats.protocol == protocol
  }

  lemma StepLosesNone(p: Params, g: L7Gen, log: seq<L7Stats>, x: Input, k: nat, protocol: nat)
    requires Inv(p, g, log) && Sound(p, g) && Timed(x) && Speaks(log, k, protocol)
    requires x.Report? && x.stats.flowId == k ==> x.stats.protocol == protocol
    ensures LostToProtocol(Handle(p, g, x).lost, k) == LostToProtocol(g.lost, k)
    ensures Speaks(Hear(p, g, log, x), k, protocol)
  {
    hide Inv, MoveWindow, Begins, LostToProtocol, InjectAppMeter, Overdue;
    match x
    case SendClosed =>
    case Tick(t) => MoveLoses(p, g, t, k);
    case Report(s) => OwnReportLosesNone(p, g, log, s, k, protocol);
  }

  lemma OwnReportLosesNone(p: Params, g: L7Gen, log: seq<L7Stats>, s: L7Stats, k: nat, protocol: nat)
    requires Inv(p, g, log) && Sound(p, g) && s.timeSpan <= s.time && Speaks(log, k, protocol)
    requires s.flowId == k ==> s.protocol == protocol
    ensures LostToProtocol(Handle(p, g, Report(s)).lost, k) == LostToProtocol(g.lost, k)
  {
    hide Inv, WaitsOf, Handle, Begins, LostToProtocol, CountOf, Settled, CategoryOf, Speaks;
    ReportLosesIff(p, g, log, s, k);
    if s.flowId == k && s.time >= Begins(p, g) {
      SinceSpeaks(p, log, k, s.time / p.interval, protocol);
      SettledSpeaks(p, WaitsOf(p, log, k, s.time / p.interval).since, CategoryOf(p, s), protocol);
    }
  }

  lemma {:induction false} RunLosesNone(p: Params, g: L7Gen, log: seq<L7Stats>, xs: seq<Input>, k: nat, protocol: nat)
    requires Inv(p, g, log) && Sound(p, g) && (forall x :: x in xs ==> Timed(x))
    requires Speaks(log, k, protocol) && AllSpeak(xs, k, protocol)
    ensures LostToProtocol(Run(p, g, xs).lost, k) == LostToProtocol(g.lost, k)
    decreases |xs|
  {
    hide Inv, Handle, Hear, LostToProtocol, Speaks;
    if xs != [] {
      assert Timed(xs[0]);
      HandleSound(p, g, xs[0]);
      HandleOk(p, g, log, xs[0]);
      StepLosesNone(p, g, log, xs[0], k, protocol);
      RunLosesNone(p, Handle(p, g, xs[0]), Hear(p, g, log, xs[0]), xs[1..], k, protocol);
    }
  }

  /** In any run in which all reports of a flow carry one protocol, none of them is lost to a protocol. */
  lemma OneProtocolLosesNone(p: Params, first: nat, xs: seq<Input>, k: nat, protocol: nat)
    requires p.Valid() && (forall x :: x in xs ==> Timed(x)) && AllSpeak(xs, k, protocol)
    ensures forall l :: l in Run(p, Fresh(p, first), xs).lost ==> !ToProtocol(l, k)
  {
    hide Run, AllSpeak, ToProtocol;
    FreshOk(p, first);
    RunLosesNone(p, Fresh(p, first), [], xs, k, protocol);
    NoLost(k);
    NoneOf(Run(p, Fresh(p, first), xs).lost, k);
  }

  lemma {:induction false} NoneOf(ls: seq<Loss>, k: nat)
    ensures LostToProtocol(ls, k) == 0 ==> forall l :: l in ls ==> !ToProtocol(l, k)
  {
    hide ToProtocol;
    if ls != [] {
      NoneOf(ls[..|ls| - 1], k);
      assert ls == ls[..|ls| - 1] + [ls[|ls| - 1]];
    }
  }

  // ---------------------------------------------------------------- what leaves with a flow

  /** The stats that have counted a request or a response. */
  function Busy(ss: seq<Stat>): seq<Stat> {
    if ss == [] then []
    else
      var s := ss[|ss| - 1];
      Busy(ss[..|ss| - 1]) + (if s.meter.request > 0 || s.meter.response > 0 then [s] else [])
  }

  /** `r` is the stat `s` leaving with the report `x` that brought the flow. */
  predicate LeavesAs(r: AppRecord, s: Stat, x: L7Stats, span: nat) {
    && x.flow.Some? && r.flowId == x.flowId && r.time == x.flow.value.statTime && r.timeSpan == span
    && r.meter == s.meter && r.endpoint == s.endpoint && r.bizType == s.bizType && r.protocol == s.protocol
  }

  ghost predicate LeaveAs(rs: seq<AppRecord>, ss: seq<Stat>, x: L7Stats, span: nat) {
    |rs| == |ss| && forall i :: 0 <= i < |rs| ==> LeavesAs(rs[i], ss[i], x, span)
  }

  lemma {:induction false} DrainLeaves(ss: seq<Stat>, x: L7Stats, span: nat)
    requires x.flow.Some?
    ensures LeaveAs(Drained(ss, x, span).0, Busy(ss), x, span)
  {
    if ss != [] { DrainLeaves(ss[..|ss| - 1], x, span); }
  }

  /** Records of closed flows are sent in the order they came, and a full batch of them does not wait. */
  lemma {:induction false} PushInOrder(g: L7Gen, rs: seq<AppRecord>)
    ensures var r := PushAllClosed(g, rs); r.out + r.closed == g.out + g.closed + rs
    ensures |g.closed| < 1024 ==> |PushAllClosed(g, rs).closed| == (|g.closed| + |rs|) % 1024
  {
    if rs == [] {
      assert g.out + g.closed + rs == g.out + g.closed;
    } else {
      var init, last := rs[..|rs| - 1], rs[|rs| - 1];
      var m := PushAllClosed(g, init);
      PushInOrder(g, init);
      assert m.out + (m.closed + [last]) + [] == m.out + m.closed + [last];
      assert g.out + g.closed + rs == g.out + g.closed + init + [last];
      assert m.out + (m.closed + [last]) == m.out + m.closed + [last];
    }
  }

  /** Records of a closed flow go to the sender, others stay in slot `i`; nothing else leaves or stays. */
  ghost predicate Sends(m: L7Gen, r: L7Gen, i: nat, closed: bool, rs: seq<AppRecord>)
    requires i < |m.stashes|
  {
    && |r.stashes| == |m.stashes|
    && (closed ==> r.out + r.closed == m.out + m.closed + rs && r.stashes[i].meters == m.stashes[i].meters)
    && (!closed ==> r.out == m.out && r.closed == m.closed && r.stashes[i].meters == m.stashes[i].meters + rs)
    && (forall j :: 0 <= j < |m.stashes| && j != i ==> r.stashes[j].meters == m.stashes[j].meters)
  }

  lemma DeliverSends(m: L7Gen, i: nat, x: L7Stats, rs: seq<AppRecord>)
    requires i < |m.stashes| && x.flow.Some?
    ensures Sends(m, Deliver(m, i, x, rs), i, x.flow.value.closed, rs)
  {
    hide PushAllClosed;
    PushInOrder(m, rs);
  }

  lemma SendsLater(m: L7Gen, m': L7Gen, r: L7Gen, i: nat, closed: bool, rs: seq<AppRecord>)
    requires i < |m.stashes| == |m'.stashes| && m'.out == m.out && m'.closed == m.closed && Sends(m', r, i, closed, rs)
    requires forall j :: 0 <= j < |m.stashes| ==> m'.stashes[j].meters == m.stashes[j].meters
    ensures Sends(m, r, i, closed, rs)
  {
  }

  /** What leaves with a flow that comes with report `x` into slot `i`: what waits there and the report itself. */
  lemma IntoSlotSends(p: Params, g: L7Gen, log: seq<L7Stats>, i: nat, x: L7Stats, span: nat)
    returns (ss: seq<Stat>, rs: seq<AppRecord>)
    requires Inv(p, g, log) && i < p.slots && x.timeSpan <= x.time && span == CategoryOf(p, x).span && x.flow.Some?
    ensures var w := WaitsOf(p, log, x.flowId, g.first + i);
      && InTime(w.since + [x])
      && (if !w.known && CountsNothing(x) then ss == [] else ListOk(p, ss, w.since + [x]))
      && LeaveAs(rs, Busy(ss), x, span) && Sends(g, IntoSlot(g, i, x, span), i, x.flow.value.closed, rs)
  {
    hide WaitsOf, ListOk, CategoryOf, Gathered, Drained, Busy, LeaveAs, Deliver, Sends;
    var k, w := x.flowId, WaitsOf(p, log, x.flowId, g.first + i);
    assert SlotOk(p, g, log, i, k);
    UnknownWaitsNothing(p, log, k, g.first + i);
    if w.known {
      ss := Gathered(g.stashes[i].stats[k], x, span).0;
      rs := Drained(ss, x, span).0;
      GatherOk(p, g.stashes[i].stats[k], w.since, x, span);
      DrainLeaves(ss, x, span);
      var m := Lose(Lose(Put(g, i, k, []), Gathered(g.stashes[i].stats[k], x, span).1), Drained(ss, x, span).1);
      DeliverSends(m, i, x, rs);
      SendsLater(g, m, IntoSlot(g, i, x, span), i, x.flow.value.closed, rs);
    } else if CountsNothing(x) {
      ss, rs := [], [];
      NothingLeaves(g, i, x, span);
    } else {
      ss, rs := [NewStat(x, span)], [RecordOf(NewStat(x, span), x, span)];
      FirstOk(p, x, span);
      assert [] + [x] == [x];
      FirstLeaves(x, span);
      DeliverSends(g, i, x, rs);
    }
  }

  lemma NothingLeaves(g: L7Gen, i: nat, x: L7Stats, span: nat)
    requires i < |g.stashes| && x.flow.Some?
    ensures LeaveAs([], Busy([]), x, span)
    ensures Sends(g, Lose(g, [NothingCounted(x.flowId, x.meter)]), i, x.flow.value.closed, [])
  {
    assert g.out + g.closed + [] == g.out + g.closed && g.stashes[i].meters + [] == g.stashes[i].meters;
  }

  lemma FirstLeaves(x: L7Stats, span: nat)
    requires x.flow.Some? && !CountsNothing(x)
    ensures LeaveAs([RecordOf(NewStat(x, span), x, span)], Busy([NewStat(x, span)]), x, span)
  {
    var s := NewStat(x, span);
    assert [s][..0] == [];
    assert Busy([s]) == [s];
  }

  /** From the moved window `m` to `r`: the report `x` leaves with what waits for its flow, as the records `rs`. */
  ghost predicate Takes(p: Params, m: L7Gen, r: L7Gen, log: seq<L7Stats>, x: L7Stats,
                        ss: seq<Stat>, rs: seq<AppRecord>)
  {
    && p.Valid() && x.flow.Some? && x.timeSpan <= x.time
    && var w := WaitsOf(p, log, x.flowId, x.time / p.interval);
       var i, span := x.time / p.interval - m.first, CategoryOf(p, x).span;
       && 0 <= i < |m.stashes| && span >= 0 && InTime(w.since + [x])
       && (if !w.known && CountsNothing(x) then ss == [] else ListOk(p, ss, w.since + [x]))
       && LeaveAs(rs, Busy(ss), x, span) && Sends(m, r, i, x.flow.value.closed, rs)
  }

  /**
    A flow that arrives in time in any reachable state takes everything of it along that waits in its slot, its
    own report included: one record for every endpoint, type and span that counted something, to the sender if
    the flow is closed and into the slot if not.
  */
  lemma FlowTakesAll(p: Params, g: L7Gen, log: seq<L7Stats>, s: L7Stats) returns (ss: seq<Stat>, rs: seq<AppRecord>)
    requires Inv(p, g, log) && Sound(p, g) && s.timeSpan <= s.time && s.time >= Begins(p, g) && s.flow.Some?
    ensures Takes(p, MoveWindow(p, g.(seen := g.seen + 1), s.time), Handle(p, g, Report(s)), log,
                  Numbered(s, g.seen), ss, rs)
  {
    hide Inv, WaitsOf, MoveWindow, Handle, IntoSlot, ListOk, Busy, LeaveAs, Sends, Begins, CategoryOf, InTime;
    var x, g' := Numbered(s, g.seen), g.(seen := g.seen + 1);
    var m := MoveWindow(p, g', s.time);
    Arrives(p, g, s);
    SameStatsOk(p, g, g', log);
    MoveOk(p, g', log, s.time);
    ss, rs := IntoSlotSends(p, m, log, s.time / p.interval - m.first, x, CategoryOf(p, x).span);
  }

  lemma Arrives(p: Params, g: L7Gen, s: L7Stats)
    requires Sound(p, g) && s.timeSpan <= s.time && s.time >= Begins(p, g)
    ensures var m, x := MoveWindow(p, g.(seen := g.seen + 1), s.time), Numbered(s, g.seen);
      var i, span := s.time / p.interval - m.first, CategoryOf(p, x).span;
      && Sound(p, m) && 0 <= i < |m.stashes| && span >= 0 && Handle(p, g, Report(s)) == IntoSlot(m, i, x, span)
  {
    hide MoveWindow, IntoSlot;
    CapIsIdle(p, g.(seen := g.seen + 1), s.time);
    SpanNatural(p, Numbered(s, g.seen));
  }
}
