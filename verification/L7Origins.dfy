/**
  Which reports a record is made of: every report ends in exactly one place, and the counters of a record
  are the sums over its reports.
*/
module L7Origins {
  import opened Options
  import opened QuadrupleGenerator
  import opened L7Generator
  import opened L7Runs

  // ---------------------------------------------------------------- every report ends in one place

  /** The flow of the `n`-th report. */
  function ReportFlow(xs: seq<Input>, n: nat): Option<nat>
    decreases |xs|
  {
    if xs == [] then None
    else if !xs[0].Report? then ReportFlow(xs[1..], n)
    else if n == 0 then Some(xs[0].stats.flowId)
    else ReportFlow(xs[1..], n - 1)
  }

  lemma {:induction false} InjectedOnce(seen: nat, xs: seq<Input>, n: nat, k: nat)
    ensures Injected(From(n), seen, xs, k) == if seen <= n && ReportFlow(xs, n - seen) == Some(k) then 1 else 0
    decreases |xs|
  {
    if xs != [] { InjectedOnce(After(seen, xs[0]), xs[1..], n, k); }
  }

  /**
    Over every run, for every number and flow: counted over what was sent, what waits for a send, what is in
    the ring and what was lost, report `n` appears once for its own flow and never for another.
  */
  lemma EveryReportOnce(p: Params, first: nat, xs: seq<Input>, n: nat, k: nat)
    requires p.Valid() && forall x :: x in xs ==> Timed(x)
    ensures var g := Run(p, Fresh(p, first), xs);
      Delivered(From(n), g, k) + RingSum(From(n), g.stashes, k) + LossSum(From(n), g.lost, k)
      == if ReportFlow(xs, n) == Some(k) then 1 else 0
  {
    hide Run, RecordSum, RingSum, LossSum, Injected, Delivered;
    EveryRunAccounts(From(n), p, first, xs, k);
    InjectedOnce(0, xs, n, k);
  }

  function RingRecords(ss: seq<SlotStash>): seq<AppRecord> {
    if ss == [] then [] else ss[0].meters + RingRecords(ss[1..])
  }

  function RingWaiting(c: Counter, ss: seq<SlotStash>, k: nat): nat {
    if ss == [] then 0 else WaitingSum(c, ss[0].stats, k) + RingWaiting(c, ss[1..], k)
  }

  /** Every record there is: sent, waiting for a send, or in a slot. */
  function Records(g: L7Gen): seq<AppRecord> { g.out + g.closed + RingRecords(g.stashes) }

  lemma {:induction false} RingSplits(c: Counter, ss: seq<SlotStash>, k: nat)
    ensures RingSum(c, ss, k) == RecordSum(c, RingRecords(ss), k) + RingWaiting(c, ss, k)
  {
    if ss != [] {
      RingSplits(c, ss[1..], k);
      RecordSumAppend(c, ss[0].meters, RingRecords(ss[1..]), k);
    }
  }

  lemma RecordsSum(c: Counter, g: L7Gen, k: nat)
    ensures RecordSum(c, Records(g), k) + RingWaiting(c, g.stashes, k) == Delivered(c, g, k) + RingSum(c, g.stashes, k)
  {
    hide RecordSum, RingSum, RingRecords, RingWaiting;
    RingSplits(c, g.stashes, k);
    RecordSumAppend(c, g.out, g.closed, k);
    RecordSumAppend(c, g.out + g.closed, RingRecords(g.stashes), k);
  }

  lemma {:induction false} RecordSumPart(c: Counter, rs: seq<AppRecord>, i: nat)
    requires i < |rs|
    ensures RecordSum(c, rs, rs[i].flowId) >= Val(c, rs[i].meter)
  {
    if i > 0 { RecordSumPart(c, rs[1..], i - 1); }
  }

  lemma {:induction false} RecordSumParts(c: Counter, rs: seq<AppRecord>, i: nat, j: nat)
    requires i < j < |rs| && rs[i].flowId == rs[j].flowId
    ensures RecordSum(c, rs, rs[i].flowId) >= Val(c, rs[i].meter) + Val(c, rs[j].meter)
  {
    if i == 0 {
      RecordSumPart(c, rs[1..], j - 1);
    } else {
      RecordSumParts(c, rs[1..], i - 1, j - 1);
    }
  }

  /**
    A report that is part of a record is a report of that record's flow, part of it once, and of nothing
    that still waits for a flow or was lost.
  */
  lemma RecordOwnsReport(p: Params, first: nat, xs: seq<Input>, i: nat, n: nat)
    requires p.Valid() && forall x :: x in xs ==> Timed(x)
    requires i < |Records(Run(p, Fresh(p, first), xs))| && n in Records(Run(p, Fresh(p, first), xs))[i].meter.origin
    ensures var g := Run(p, Fresh(p, first), xs); var r := Records(g)[i];
      && ReportFlow(xs, n) == Some(r.flowId) && multiset(r.meter.origin)[n] == 1
      && RingWaiting(From(n), g.stashes, r.flowId) == 0 && LossSum(From(n), g.lost, r.flowId) == 0
  {
    hide Run, Records, RecordSum, RingSum, RingWaiting, LossSum, ReportFlow, Delivered;
    var g := Run(p, Fresh(p, first), xs);
    var r := Records(g)[i];
    EveryReportOnce(p, first, xs, n, r.flowId);
    RecordsSum(From(n), g, r.flowId);
    RecordSumPart(From(n), Records(g), i);
  }

  /** Over every run: no report is part of two records, sent or not. */
  lemma AtMostOneRecord(p: Params, first: nat, xs: seq<Input>, i: nat, j: nat, n: nat)
    requires p.Valid() && forall x :: x in xs ==> Timed(x)
    requires i < j < |Records(Run(p, Fresh(p, first), xs))|
    ensures var rs := Records(Run(p, Fresh(p, first), xs)); !(n in rs[i].meter.origin && n in rs[j].meter.origin)
  {
    hide Run, Records, RecordSum, RingSum, RingWaiting, LossSum, ReportFlow, Delivered;
    var g := Run(p, Fresh(p, first), xs);
    var rs := Records(g);
    if n in rs[i].meter.origin && n in rs[j].meter.origin {
      RecordOwnsReport(p, first, xs, i, n);
      RecordOwnsReport(p, first, xs, j, n);
      EveryReportOnce(p, first, xs, n, rs[i].flowId);
      RecordsSum(From(n), g, rs[i].flowId);
      RecordSumParts(From(n), rs, i, j);
    }
  }

  // ---------------------------------------------------------------- a record is the sum of its reports

  function SumOver(c: Counter, log: seq<AppMeter>, origin: seq<nat>): nat {
    if origin == [] then 0
    else (if origin[0] < |log| then Val(c, log[origin[0]]) else 0) + SumOver(c, log, origin[1..])
  }

  predicate Sums(c: Counter, log: seq<AppMeter>, m: AppMeter) { Val(c, m) == SumOver(c, log, m.origin) }

  /** The counters of a meter are the sums of those of the reports it is made of. */
  predicate Honest(log: seq<AppMeter>, m: AppMeter) {
    && (forall i :: 0 <= i < |m.origin| ==> m.origin[i] < |log|)
    && Sums(Requests, log, m) && Sums(Responses, log, m) && Sums(Others, log, m)
  }

  lemma {:induction false} SumOverAppend(c: Counter, log: seq<AppMeter>, a: seq<nat>, b: seq<nat>)
    ensures SumOver(c, log, a + b) == SumOver(c, log, a) + SumOver(c, log, b)
  {
    if a == [] {
      assert a + b == b;
    } else {
      assert (a + b)[1..] == a[1..] + b;
      SumOverAppend(c, log, a[1..], b);
    }
  }

  lemma {:induction false} SumOverLonger(c: Counter, log: seq<AppMeter>, m: AppMeter, origin: seq<nat>)
    requires forall i :: 0 <= i < |origin| ==> origin[i] < |log|
    ensures SumOver(c, log + [m], origin) == SumOver(c, log, origin)
  {
    if origin != [] { SumOverLonger(c, log, m, origin[1..]); }
  }

  lemma HonestSum(log: seq<AppMeter>, a: AppMeter, b: AppMeter)
    requires Honest(log, a) && Honest(log, b)
    ensures Honest(log, AddMeters(a, b))
  {
    hide SumOver;
    SumOverAppend(Requests, log, a.origin, b.origin);
    SumOverAppend(Responses, log, a.origin, b.origin);
    SumOverAppend(Others, log, a.origin, b.origin);
  }

  lemma HonestLonger(log: seq<AppMeter>, m: AppMeter, a: AppMeter)
    requires Honest(log, a)
    ensures Honest(log + [m], a)
  {
    hide SumOver;
    SumOverLonger(Requests, log, m, a.origin);
    SumOverLonger(Responses, log, m, a.origin);
    SumOverLonger(Others, log, m, a.origin);
  }

  lemma SumOverOne(c: Counter, log: seq<AppMeter>, n: nat)
    requires n < |log|
    ensures SumOver(c, log, [n]) == Val(c, log[n])
  {
    assert [n][1..] == [];
  }

  lemma HonestNew(log: seq<AppMeter>, s: L7Stats)
    ensures Honest(log + [s.meter], Numbered(s, |log|).meter)
  {
    hide SumOver;
    SumOverOne(Requests, log + [s.meter], |log|);
    SumOverOne(Responses, log + [s.meter], |log|);
    SumOverOne(Others, log + [s.meter], |log|);
  }

  ghost predicate StatsHonest(log: seq<AppMeter>, ss: seq<Stat>) { forall s :: s in ss ==> Honest(log, s.meter) }

  ghost predicate RecordsHonest(log: seq<AppMeter>, rs: seq<AppRecord>) { forall r :: r in rs ==> Honest(log, r.meter) }

  ghost predicate SlotHonest(log: seq<AppMeter>, s: SlotStash) {
    RecordsHonest(log, s.meters) && forall k :: k in s.stats ==> StatsHonest(log, s.stats[k])
  }

  ghost predicate RingHonest(log: seq<AppMeter>, ss: seq<SlotStash>) { forall s :: s in ss ==> SlotHonest(log, s) }

  ghost predicate AllHonest(log: seq<AppMeter>, g: L7Gen) {
    RecordsHonest(log, g.out) && RecordsHonest(log, g.closed) && RingHonest(log, g.stashes)
  }

  lemma LongerHonest(log: seq<AppMeter>, m: AppMeter, g: L7Gen)
    requires AllHonest(log, g)
    ensures AllHonest(log + [m], g)
  {
    hide Honest;
    forall a | Honest(log, a) ensures Honest(log + [m], a) { HonestLonger(log, m, a); }
  }

  lemma ShiftHonest(log: seq<AppMeter>, p: Params, g: L7Gen)
    requires Sound(p, g) && AllHonest(log, g)
    ensures AllHonest(log, ShiftSlot(p, g))
  {
    hide Honest;
    assert g.stashes[0] in g.stashes && SlotHonest(log, EMPTY);
  }

  lemma {:induction false} ShiftsHonest(log: seq<AppMeter>, p: Params, g: L7Gen, n: nat)
    requires Sound(p, g) && AllHonest(log, g)
    ensures AllHonest(log, ShiftSlots(p, g, n))
  {
    hide AllHonest, ShiftSlot;
    if n > 0 {
      ShiftsHonest(log, p, g, n - 1);
      ShiftHonest(log, p, ShiftSlots(p, g, n - 1));
    }
  }

  lemma MoveHonest(log: seq<AppMeter>, p: Params, g: L7Gen, t: nat)
    requires Sound(p, g) && AllHonest(log, g)
    ensures AllHonest(log, MoveWindow(p, g, t))
  {
    hide RecordsHonest, RingHonest, SlotsToShift;
    if t >= Begins(p, g) + p.delay {
      ShiftsHonest(log, p, g, p.slots);
      ShiftsHonest(log, p, g, SlotsToShift(p, Begins(p, g), t));
    }
  }

  lemma {:induction false} GatherHonest(log: seq<AppMeter>, ss: seq<Stat>, x: L7Stats, span: nat)
    requires StatsHonest(log, ss) && Honest(log, x.meter)
    ensures StatsHonest(log, Gathered(ss, x, span).0)
  {
    hide Honest, Same, AddMeters;
    if ss != [] {
      assert ss[0] in ss;
      HonestSum(log, ss[0].meter, x.meter);
      GatherHonest(log, ss[1..], x, span);
    }
  }

  lemma {:induction false} DrainHonest(log: seq<AppMeter>, ss: seq<Stat>, x: L7Stats, span: nat)
    requires x.flow.Some? && StatsHonest(log, ss)
    ensures RecordsHonest(log, Drained(ss, x, span).0)
  {
    hide Honest;
    if ss != [] { DrainHonest(log, ss[..|ss| - 1], x, span); }
  }

  lemma {:induction false} PushHonest(log: seq<AppMeter>, g: L7Gen, rs: seq<AppRecord>)
    requires AllHonest(log, g) && RecordsHonest(log, rs)
    ensures AllHonest(log, PushAllClosed(g, rs))
  {
    hide Honest, RingHonest;
    if rs != [] { PushHonest(log, g, rs[..|rs| - 1]); }
  }

  lemma DeliverHonest(log: seq<AppMeter>, g: L7Gen, i: nat, x: L7Stats, rs: seq<AppRecord>)
    requires i < |g.stashes| && x.flow.Some? && AllHonest(log, g) && RecordsHonest(log, rs)
    ensures AllHonest(log, Deliver(g, i, x, rs))
  {
    hide Honest, PushAllClosed;
    if x.flow.value.closed {
      PushHonest(log, g, rs);
    } else {
      assert g.stashes[i] in g.stashes;
    }
  }

  lemma PutHonest(log: seq<AppMeter>, g: L7Gen, i: nat, k: nat, ss: seq<Stat>)
    requires i < |g.stashes| && AllHonest(log, g) && StatsHonest(log, ss)
    ensures AllHonest(log, Put(g, i, k, ss))
  {
    hide Honest;
    assert g.stashes[i] in g.stashes;
  }

  lemma LoseHonest(log: seq<AppMeter>, g: L7Gen, lost: seq<Loss>)
    requires AllHonest(log, g)
    ensures AllHonest(log, Lose(g, lost))
  {
    hide RecordsHonest, RingHonest;
  }

  lemma IntoSlotHonest(log: seq<AppMeter>, g: L7Gen, i: nat, x: L7Stats, span: nat)
    requires i < |g.stashes| && AllHonest(log, g) && Honest(log, x.meter)
    ensures AllHonest(log, IntoSlot(g, i, x, span))
  {
    assert g.stashes[i] in g.stashes;
    assert StatsHonest(log, [NewStat(x, span)]) && StatsHonest(log, []);
    assert x.flow.Some? ==> RecordsHonest(log, [RecordOf(NewStat(x, span), x, span)]);
    assert x.flowId in g.stashes[i].stats ==> StatsHonest(log, g.stashes[i].stats[x.flowId]);
    hide Honest, AllHonest, StatsHonest, RecordsHonest, Gathered, Drained, Deliver, Put, Lose;
    var k := x.flowId;
    if k in g.stashes[i].stats {
      var (ss, lost) := Gathered(g.stashes[i].stats[k], x, span);
      GatherHonest(log, g.stashes[i].stats[k], x, span);
      if x.flow.None? {
        PutHonest(log, g, i, k, ss);
        LoseHonest(log, Put(g, i, k, ss), lost);
      } else {
        var (rs, idle) := Drained(ss, x, span);
        DrainHonest(log, ss, x, span);
        PutHonest(log, g, i, k, []);
        LoseHonest(log, Put(g, i, k, []), lost);
        LoseHonest(log, Lose(Put(g, i, k, []), lost), idle);
        SameRing(g, i, k, lost, idle);
        DeliverHonest(log, Lose(Lose(Put(g, i, k, []), lost), idle), i, x, rs);
      }
    } else if Idle(x.meter) {
      LoseHonest(log, g, [NothingCounted(k, x.meter)]);
    } else if x.flow.None? {
      PutHonest(log, g, i, k, [NewStat(x, span)]);
    } else {
      DeliverHonest(log, g, i, x, [RecordOf(NewStat(x, span), x, span)]);
    }
  }

  /** The meters of the reports so far, by number. */
  function Logged(log: seq<AppMeter>, x: Input): seq<AppMeter> { if x.Report? then log + [x.stats.meter] else log }

  function Meters(log: seq<AppMeter>, xs: seq<Input>): seq<AppMeter>
    decreases |xs|
  {
    if xs == [] then log else Meters(Logged(log, xs[0]), xs[1..])
  }

  lemma ReportHonest(log: seq<AppMeter>, p: Params, g: L7Gen, s: L7Stats)
    requires Sound(p, g) && s.timeSpan <= s.time && AllHonest(log, g) && |log| == g.seen
    ensures AllHonest(log + [s.meter], Handle(p, g, Report(s)))
  {
    var x, g', log' := Numbered(s, g.seen), g.(seen := g.seen + 1), log + [s.meter];
    LongerHonest(log, s.meter, g);
    assert AllHonest(log', g') && AllHonest(log', g'.(dropped := g'.dropped + 1));
    HonestNew(log, s);
    hide AllHonest, Honest, MoveWindow, IntoSlot, Begins, Lose;
    SameWindow(p, g, g.seen + 1);
    if s.time < Begins(p, g) {
      LoseHonest(log', g'.(dropped := g'.dropped + 1), [Late(x.flowId, x.meter)]);
    } else {
      CapIsIdle(p, g', s.time);
      MoveHonest(log', p, g', s.time);
      SpanNatural(p, x);
      var m := MoveWindow(p, g', s.time);
      IntoSlotHonest(log', m, SlotFor(p, m, s.time), x, SpanOf(p, x));
    }
  }

  lemma HandleHonest(log: seq<AppMeter>, p: Params, g: L7Gen, x: Input)
    requires Sound(p, g) && Timed(x) && AllHonest(log, g) && |log| == g.seen
    ensures AllHonest(Logged(log, x), Handle(p, g, x))
  {
    hide Honest, RingHonest, MoveWindow;
    match x
    case SendClosed =>
    case Tick(t) => MoveHonest(log, p, g, t);
    case Report(s) => ReportHonest(log, p, g, s);
  }

  lemma {:induction false} RunHonest(log: seq<AppMeter>, p: Params, g: L7Gen, xs: seq<Input>)
    requires Sound(p, g) && (forall x :: x in xs ==> Timed(x)) && AllHonest(log, g) && |log| == g.seen
    ensures AllHonest(Meters(log, xs), Run(p, g, xs))
    decreases |xs|
  {
    hide AllHonest, Handle;
    if xs != [] {
      assert Timed(xs[0]);
      HandleSound(p, g, xs[0]);
      HandleSeen(p, g, xs[0]);
      HandleHonest(log, p, g, xs[0]);
      RunHonest(Logged(log, xs[0]), p, Handle(p, g, xs[0]), xs[1..]);
    }
  }

  lemma {:induction false} RingRecordsHonest(log: seq<AppMeter>, ss: seq<SlotStash>)
    requires RingHonest(log, ss)
    ensures RecordsHonest(log, RingRecords(ss))
  {
    hide Honest;
    if ss != [] {
      assert ss[0] in ss;
      RingRecordsHonest(log, ss[1..]);
    }
  }

  /** Over every run: requests, responses and other counts of every record are the sums over its reports. */
  lemma EveryRecordIsSum(p: Params, first: nat, xs: seq<Input>, i: nat)
    requires p.Valid() && forall x :: x in xs ==> Timed(x)
    requires i < |Records(Run(p, Fresh(p, first), xs))|
    ensures Honest(Meters([], xs), Records(Run(p, Fresh(p, first), xs))[i].meter)
  {
    var g := Run(p, Fresh(p, first), xs);
    hide Run, Meters, Honest, RingRecords;
    RunHonest([], p, Fresh(p, first), xs);
    RingRecordsHonest(Meters([], xs), g.stashes);
    assert Records(g)[i] in Records(g);
  }
}
