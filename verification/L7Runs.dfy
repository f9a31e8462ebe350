/**
  Where every injected meter ends up. All statements are about one flow and one counter; flows do not
  mix, and a counter is any that merging adds up.
*/
module L7Runs {
  import opened Options
  import opened QuadrupleGenerator
  import opened L7Generator

  /** A counter; `From(n)` counts how often report `n` is among the reports a meter is made of. */
  datatype Counter = Requests | Responses | Others | From(n: nat)

  function Val(c: Counter, m: AppMeter): nat {
    match c
    case Requests => m.request
    case Responses => m.response
    case Others => m.other
    case From(n) => multiset(m.origin)[n]
  }

  function StatSum(c: Counter, ss: seq<Stat>): nat {
    if ss == [] then 0 else Val(c, ss[0].meter) + StatSum(c, ss[1..])
  }

  function RecordSum(c: Counter, rs: seq<AppRecord>, k: nat): nat {
    if rs == [] then 0
    else (if rs[0].flowId == k then Val(c, rs[0].meter) else 0) + RecordSum(c, rs[1..], k)
  }

  function WaitingSum(c: Counter, stats: map<nat, seq<Stat>>, k: nat): nat {
    if k in stats then StatSum(c, stats[k]) else 0
  }

  function SlotSum(c: Counter, s: SlotStash, k: nat): nat { WaitingSum(c, s.stats, k) + RecordSum(c, s.meters, k) }

  function RingSum(c: Counter, ss: seq<SlotStash>, k: nat): nat {
    if ss == [] then 0 else SlotSum(c, ss[0], k) + RingSum(c, ss[1..], k)
  }

  function LossOf(c: Counter, l: Loss, k: nat): nat {
    if l.Forgotten? then WaitingSum(c, l.stats, k) else if l.flowId == k then Val(c, l.meter) else 0
  }

  function LossSum(c: Counter, ls: seq<Loss>, k: nat): nat {
    if ls == [] then 0 else LossOf(c, ls[0], k) + LossSum(c, ls[1..], k)
  }

  function InjectedBy(c: Counter, seen: nat, x: Input, k: nat): nat {
    if x.Report? && x.stats.flowId == k then Val(c, Numbered(x.stats, seen).meter) else 0
  }

  function After(seen: nat, x: Input): nat { if x.Report? then seen + 1 else seen }

  function Injected(c: Counter, seen: nat, xs: seq<Input>, k: nat): nat
    decreases |xs|
  {
    if xs == [] then 0 else InjectedBy(c, seen, xs[0], k) + Injected(c, After(seen, xs[0]), xs[1..], k)
  }

  /** What has left in records or will leave. */
  function Delivered(c: Counter, g: L7Gen, k: nat): nat { RecordSum(c, g.out, k) + RecordSum(c, g.closed, k) }

  function Accounted(c: Counter, g: L7Gen, k: nat): nat {
    Delivered(c, g, k) + RingSum(c, g.stashes, k) + LossSum(c, g.lost, k)
  }

  // ---------------------------------------------------------------- sums of sequences

  lemma {:induction false} RecordSumAppend(c: Counter, a: seq<AppRecord>, b: seq<AppRecord>, k: nat)
    ensures RecordSum(c, a + b, k) == RecordSum(c, a, k) + RecordSum(c, b, k)
  {
    if a == [] {
      assert a + b == b;
    } else {
      assert (a + b)[1..] == a[1..] + b;
      RecordSumAppend(c, a[1..], b, k);
    }
  }

  lemma {:induction false} LossSumAppend(c: Counter, a: seq<Loss>, b: seq<Loss>, k: nat)
    ensures LossSum(c, a + b, k) == LossSum(c, a, k) + LossSum(c, b, k)
  {
    if a == [] {
      assert a + b == b;
    } else {
      assert (a + b)[1..] == a[1..] + b;
      LossSumAppend(c, a[1..], b, k);
    }
  }

  lemma {:induction false} StatSumSnoc(c: Counter, ss: seq<Stat>, s: Stat)
    ensures StatSum(c, ss + [s]) == StatSum(c, ss) + Val(c, s.meter)
  {
    if ss == [] {
      assert ss + [s] == [s];
    } else {
      assert (ss + [s])[1..] == ss[1..] + [s];
      StatSumSnoc(c, ss[1..], s);
    }
  }

  lemma {:induction false} RingSumAppend(c: Counter, ss: seq<SlotStash>, s: SlotStash, k: nat)
    ensures RingSum(c, ss + [s], k) == RingSum(c, ss, k) + SlotSum(c, s, k)
  {
    if ss == [] {
      assert ss + [s] == [s];
    } else {
      assert (ss + [s])[1..] == ss[1..] + [s];
      RingSumAppend(c, ss[1..], s, k);
    }
  }

  lemma {:induction false} RingSumUpdate(c: Counter, ss: seq<SlotStash>, i: nat, s: SlotStash, k: nat)
    requires i < |ss|
    ensures RingSum(c, ss[i := s], k) + SlotSum(c, ss[i], k) == RingSum(c, ss, k) + SlotSum(c, s, k)
  {
    if i == 0 {
      assert ss[i := s][1..] == ss[1..];
    } else {
      assert ss[i := s][1..] == ss[1..][i - 1 := s];
      RingSumUpdate(c, ss[1..], i - 1, s, k);
    }
  }

  // ---------------------------------------------------------------- the window

  lemma ShiftAccounts(c: Counter, p: Params, g: L7Gen, k: nat)
    requires Sound(p, g)
    ensures Accounted(c, ShiftSlot(p, g), k) == Accounted(c, g, k)
  {
    var front := g.stashes[0];
    RecordSumAppend(c, g.out, front.meters, k);
    LossSumAppend(c, g.lost, [Forgotten(front.stats)], k);
    RingSumAppend(c, g.stashes[1..], EMPTY, k);
    assert LossSum(c, [Forgotten(front.stats)], k) == WaitingSum(c, front.stats, k);
    assert SlotSum(c, EMPTY, k) == 0;
    hide RecordSum, LossSum, WaitingSum;
  }

  lemma {:induction false} ShiftsAccount(c: Counter, p: Params, g: L7Gen, n: nat, k: nat)
    requires Sound(p, g)
    ensures Accounted(c, ShiftSlots(p, g, n), k) == Accounted(c, g, k)
  {
    if n > 0 {
      ShiftsAccount(c, p, g, n - 1, k);
      hide Accounted, ShiftSlot;
      ShiftAccounts(c, p, ShiftSlots(p, g, n - 1), k);
    }
  }

  lemma MoveAccounts(c: Counter, p: Params, g: L7Gen, t: nat, k: nat)
    requires Sound(p, g)
    ensures Accounted(c, MoveWindow(p, g, t), k) == Accounted(c, g, k)
  {
    hide RecordSum, RingSum, LossSum;
    if t >= Begins(p, g) + p.delay {
      var n := SlotsToShift(p, Begins(p, g), t);
      hide SlotsToShift;
      ShiftsAccount(c, p, g, p.slots, k);
      ShiftsAccount(c, p, g, n, k);
    }
  }

  // ---------------------------------------------------------------- one report

  lemma BlendAccounts(c: Counter, s: Stat, x: L7Stats)
    ensures Val(c, Blended(s, x).0.meter) + LossSum(c, Blended(s, x).1, x.flowId) == Val(c, s.meter) + Val(c, x.meter)
    ensures forall k :: k != x.flowId ==> LossSum(c, Blended(s, x).1, k) == 0
  {
  }

  lemma {:induction false} GatherAccounts(c: Counter, ss: seq<Stat>, x: L7Stats, span: nat, k: nat)
    ensures var (ss', lost) := Gathered(ss, x, span);
      && StatSum(c, ss') + LossSum(c, lost, x.flowId) == StatSum(c, ss) + Val(c, x.meter)
      && (k != x.flowId ==> LossSum(c, lost, k) == 0)
  {
    if ss != [] {
      BlendAccounts(c, ss[0], x);
      GatherAccounts(c, ss[1..], x, span, k);
      hide Blended, LossSum, Same;
    }
  }

  lemma {:induction false} DrainAccounts(c: Counter, ss: seq<Stat>, x: L7Stats, span: nat, k: nat)
    requires x.flow.Some?
    ensures var (rs, lost) := Drained(ss, x, span);
      && RecordSum(c, rs, x.flowId) + LossSum(c, lost, x.flowId) == StatSum(c, ss)
      && (k != x.flowId ==> RecordSum(c, rs, k) == 0 && LossSum(c, lost, k) == 0)
  {
    if ss != [] {
      var init, s := ss[..|ss| - 1], ss[|ss| - 1];
      var (rs, lost) := Drained(init, x, span);
      DrainAccounts(c, init, x, span, k);
      assert ss == init + [s];
      StatSumSnoc(c, init, s);
      var l, r := NothingCounted(x.flowId, s.meter), RecordOf(s, x, span);
      RecordSumAppend(c, rs, [r], x.flowId);
      RecordSumAppend(c, rs, [r], k);
      LossSumAppend(c, lost, [l], x.flowId);
      LossSumAppend(c, lost, [l], k);
      OneRecord(c, r, x.flowId);
      OneRecord(c, r, k);
      OneLoss(c, l, x.flowId);
      OneLoss(c, l, k);
      hide RecordSum, LossSum, StatSum;
    }
  }

  lemma OneRecord(c: Counter, r: AppRecord, k: nat)
    ensures RecordSum(c, [r], k) == if r.flowId == k then Val(c, r.meter) else 0
  {
  }

  lemma OneLoss(c: Counter, l: Loss, k: nat)
    ensures LossSum(c, [l], k) == LossOf(c, l, k)
  {
  }

  lemma PutAccounts(c: Counter, g: L7Gen, i: nat, j: nat, ss: seq<Stat>, k: nat)
    requires i < |g.stashes|
    ensures Accounted(c, Put(g, i, j, ss), k) + (if j == k then WaitingSum(c, g.stashes[i].stats, k) else 0)
         == Accounted(c, g, k) + (if j == k then StatSum(c, ss) else 0)
  {
    RingSumUpdate(c, g.stashes, i, g.stashes[i].(stats := g.stashes[i].stats[j := ss]), k);
    hide RingSum, RecordSum, LossSum, StatSum;
  }

  lemma LoseAccounts(c: Counter, g: L7Gen, lost: seq<Loss>, k: nat)
    ensures Accounted(c, Lose(g, lost), k) == Accounted(c, g, k) + LossSum(c, lost, k)
  {
    LossSumAppend(c, g.lost, lost, k);
    hide RingSum, RecordSum, LossSum;
  }

  lemma PushAccounts(c: Counter, g: L7Gen, r: AppRecord, k: nat)
    ensures Delivered(c, PushClosed(g, r), k) == Delivered(c, g, k) + RecordSum(c, [r], k)
  {
    RecordSumAppend(c, g.closed, [r], k);
    RecordSumAppend(c, g.out, g.closed + [r], k);
    assert RecordSum(c, [], k) == 0;
    hide RecordSum;
  }

  /** Sending full batches early moves records, and changes no count. */
  lemma {:induction false} PushAllAccounts(c: Counter, g: L7Gen, rs: seq<AppRecord>, k: nat)
    ensures Delivered(c, PushAllClosed(g, rs), k) == Delivered(c, g, k) + RecordSum(c, rs, k)
  {
    if rs != [] {
      var init, r := rs[..|rs| - 1], rs[|rs| - 1];
      PushAllAccounts(c, g, init, k);
      assert rs == init + [r];
      RecordSumAppend(c, init, [r], k);
      PushAccounts(c, PushAllClosed(g, init), r, k);
    }
  }

  lemma DeliverAccounts(c: Counter, g: L7Gen, i: nat, x: L7Stats, rs: seq<AppRecord>, k: nat)
    requires i < |g.stashes| && x.flow.Some?
    ensures Accounted(c, Deliver(g, i, x, rs), k) == Accounted(c, g, k) + RecordSum(c, rs, k)
  {
    if x.flow.value.closed {
      PushAllAccounts(c, g, rs, k);
    } else {
      RecordSumAppend(c, g.stashes[i].meters, rs, k);
      RingSumUpdate(c, g.stashes, i, g.stashes[i].(meters := g.stashes[i].meters + rs), k);
    }
    hide RingSum, RecordSum, LossSum, WaitingSum;
  }

  function Share(c: Counter, x: L7Stats, k: nat): nat { if x.flowId == k then Val(c, x.meter) else 0 }

  lemma KnownAccounts(c: Counter, g: L7Gen, i: nat, x: L7Stats, span: nat, k: nat)
    requires i < |g.stashes| && x.flowId in g.stashes[i].stats
    ensures Accounted(c, IntoSlot(g, i, x, span), k) == Accounted(c, g, k) + Share(c, x, k)
  {
    var j := x.flowId;
    var ss0 := g.stashes[i].stats[j];
    var (ss, lost) := Gathered(ss0, x, span);
    GatherAccounts(c, ss0, x, span, k);
    GatherAccounts(c, ss0, x, span, j);
    assert WaitingSum(c, g.stashes[i].stats, j) == StatSum(c, ss0);
    assert StatSum(c, []) == 0;
    hide Accounted, Gathered, Drained, Deliver, Put, Lose, RecordSum, LossSum, StatSum, WaitingSum;
    if x.flow.None? {
      PutAccounts(c, g, i, j, ss, k);
      LoseAccounts(c, Put(g, i, j, ss), lost, k);
    } else {
      var (rs, idle) := Drained(ss, x, span);
      DrainAccounts(c, ss, x, span, k);
      var g1 := Put(g, i, j, []);
      PutAccounts(c, g, i, j, [], k);
      LoseAccounts(c, g1, lost, k);
      LoseAccounts(c, Lose(g1, lost), idle, k);
      SameRing(g, i, j, lost, idle);
      DeliverAccounts(c, Lose(Lose(g1, lost), idle), i, x, rs, k);
    }
  }

  lemma SameRing(g: L7Gen, i: nat, j: nat, lost: seq<Loss>, idle: seq<Loss>)
    requires i < |g.stashes|
    ensures |Lose(Lose(Put(g, i, j, []), lost), idle).stashes| == |g.stashes|
  {
  }

  lemma FirstAccounts(c: Counter, g: L7Gen, i: nat, x: L7Stats, span: nat, k: nat)
    requires i < |g.stashes| && x.flowId !in g.stashes[i].stats
    ensures Accounted(c, IntoSlot(g, i, x, span), k) == Accounted(c, g, k) + Share(c, x, k)
  {
    var j, s := x.flowId, NewStat(x, span);
    assert WaitingSum(c, g.stashes[i].stats, j) == 0;
    assert StatSum(c, [s]) == Val(c, x.meter);
    hide Accounted, Gathered, Drained, Deliver, Put, Lose, RecordSum, LossSum, StatSum, WaitingSum;
    if Idle(x.meter) {
      LoseAccounts(c, g, [NothingCounted(j, x.meter)], k);
      OneLoss(c, NothingCounted(j, x.meter), k);
    } else if x.flow.None? {
      PutAccounts(c, g, i, j, [s], k);
    } else {
      DeliverAccounts(c, g, i, x, [RecordOf(s, x, span)], k);
      OneRecord(c, RecordOf(s, x, span), k);
    }
  }

  lemma OverdueAccounts(c: Counter, g: L7Gen, x: L7Stats, k: nat)
    ensures Accounted(c, Overdue(g, x), k) == Accounted(c, g, k) + Share(c, x, k)
  {
    hide RecordSum, RingSum, LossSum;
    var d := g.(dropped := g.dropped + 1);
    LoseAccounts(c, d, [Late(x.flowId, x.meter)], k);
    OneLoss(c, Late(x.flowId, x.meter), k);
  }

  lemma InjectAccounts(c: Counter, p: Params, g: L7Gen, x: L7Stats, k: nat)
    requires Sound(p, g) && x.timeSpan <= x.time
    ensures Accounted(c, InjectAppMeter(p, g, x), k) == Accounted(c, g, k) + Share(c, x, k)
  {
    if x.time < Begins(p, g) {
      OverdueAccounts(c, g, x, k);
    } else {
      SpanNatural(p, x);
      var i, span := SlotFor(p, g, x.time), SpanOf(p, x);
      hide SlotFor, SpanOf, Accounted, IntoSlot;
      if x.flowId in g.stashes[i].stats {
        KnownAccounts(c, g, i, x, span, k);
      } else {
        FirstAccounts(c, g, i, x, span, k);
      }
    }
  }

  // ---------------------------------------------------------------- every run

  predicate Timed(x: Input) { x.Report? ==> x.stats.timeSpan <= x.stats.time }

  lemma SeenAccounts(c: Counter, g: L7Gen, n: nat, k: nat)
    ensures Accounted(c, g.(seen := n), k) == Accounted(c, g, k)
  {
  }

  lemma SameWindow(p: Params, g: L7Gen, n: nat)
    ensures Begins(p, g.(seen := n)) == Begins(p, g)
  {
  }

  lemma ReportAccounts(c: Counter, p: Params, g: L7Gen, s: L7Stats, k: nat)
    requires Sound(p, g) && s.timeSpan <= s.time
    ensures Accounted(c, Handle(p, g, Report(s)), k) == Accounted(c, g, k) + InjectedBy(c, g.seen, Report(s), k)
  {
    hide Accounted, InjectAppMeter, MoveWindow, Overdue, Begins;
    var x, g' := Numbered(s, g.seen), g.(seen := g.seen + 1);
    SeenAccounts(c, g, g.seen + 1, k);
    SameWindow(p, g, g.seen + 1);
    if s.time < Begins(p, g) {
      OverdueAccounts(c, g', x, k);
    } else {
      CapIsIdle(p, g', s.time);
      MoveAccounts(c, p, g', s.time, k);
      InjectAccounts(c, p, MoveWindow(p, g', s.time), x, k);
    }
  }

  lemma HandleAccounts(c: Counter, p: Params, g: L7Gen, x: Input, k: nat)
    requires Sound(p, g) && Timed(x)
    ensures Accounted(c, Handle(p, g, x), k) == Accounted(c, g, k) + InjectedBy(c, g.seen, x, k)
  {
    hide RingSum, LossSum;
    match x
    case SendClosed => RecordSumAppend(c, g.out, g.closed, k);
    case Tick(t) => MoveAccounts(c, p, g, t, k);
    case Report(s) => ReportAccounts(c, p, g, s, k);
  }

  function Run(p: Params, g: L7Gen, xs: seq<Input>): L7Gen
    requires Sound(p, g) && forall x :: x in xs ==> Timed(x)
    decreases |xs|
  {
    if xs == [] then g
    else
      assert Timed(xs[0]);
      HandleSound(p, g, xs[0]);
      Run(p, Handle(p, g, xs[0]), xs[1..])
  }

  lemma {:induction false} RunAccounts(c: Counter, p: Params, g: L7Gen, xs: seq<Input>, k: nat)
    requires Sound(p, g) && forall x :: x in xs ==> Timed(x)
    ensures Accounted(c, Run(p, g, xs), k) == Accounted(c, g, k) + Injected(c, g.seen, xs, k)
    decreases |xs|
  {
    hide Accounted, InjectedBy, Handle;
    if xs != [] {
      assert Timed(xs[0]);
      HandleSound(p, g, xs[0]);
      HandleSeen(p, g, xs[0]);
      HandleAccounts(c, p, g, xs[0], k);
      RunAccounts(c, p, Handle(p, g, xs[0]), xs[1..], k);
    }
  }

  function Fresh(p: Params, first: nat): L7Gen { L7Gen(first, seq(p.slots, _ => EMPTY), [], [], 0, [], 0) }

  lemma {:induction false} RingEmpty(c: Counter, ss: seq<SlotStash>, k: nat)
    requires forall i :: 0 <= i < |ss| ==> ss[i] == EMPTY
    ensures RingSum(c, ss, k) == 0
  {
    if ss != [] {
      assert SlotSum(c, EMPTY, k) == 0;
      RingEmpty(c, ss[1..], k);
    }
  }

  /**
    In every run, for every flow and counter: what was delivered in records, what waits in the ring and
    what was lost for a stated reason add up to what was injected. So nothing is counted twice.
  */
  lemma EveryRunAccounts(c: Counter, p: Params, first: nat, xs: seq<Input>, k: nat)
    requires p.Valid() && forall x :: x in xs ==> Timed(x)
    ensures var g := Run(p, Fresh(p, first), xs);
      && Delivered(c, g, k) + RingSum(c, g.stashes, k) + LossSum(c, g.lost, k) == Injected(c, 0, xs, k)
      && Delivered(c, g, k) + RingSum(c, g.stashes, k) <= Injected(c, 0, xs, k)
  {
    var g := Fresh(p, first);
    RingEmpty(c, g.stashes, k);
    assert Accounted(c, g, k) == 0;
    RunAccounts(c, p, g, xs, k);
    hide Run, Injected, RecordSum, RingSum, LossSum;
  }

  // ---------------------------------------------------------------- when a slot is closed

  /** Some report or tick so far has a time not before `t`. */
  predicate Reached(xs: seq<Input>, t: nat) {
    exists j :: 0 <= j < |xs| && !xs[j].SendClosed? && t <= TimeOf(xs[j])
  }

  function TimeOf(x: Input): nat {
    match x
    case Tick(t) => t
    case Report(s) => s.time
    case SendClosed => 0
  }

  lemma MoveFirst(p: Params, g: L7Gen, t: nat)
    requires Sound(p, g)
    ensures MoveWindow(p, g, t).first == NewFirst(p, g.first, t)
  {
    hide SlotsToShift;
  }

  lemma InjectFirst(p: Params, g: L7Gen, x: L7Stats)
    requires Sound(p, g) && x.timeSpan <= x.time
    ensures InjectAppMeter(p, g, x).first == g.first
  {
    hide Gathered, Drained, SlotFor, SpanOf;
  }

  lemma HandleCloses(p: Params, g: L7Gen, x: Input, e: nat)
    requires Sound(p, g) && Timed(x)
    ensures e < Handle(p, g, x).first <==> e < g.first || (!x.SendClosed? && e * p.interval + p.delay <= TimeOf(x))
  {
    hide MoveWindow, InjectAppMeter, NewFirst;
    if !x.SendClosed? {
      var t := TimeOf(x);
      if t < Begins(p, g) {
        if g.first <= e { MulMono(g.first, e, p.interval); }
      } else {
        MoveCloses(p, g.first, t, e);
        MoveFirst(p, g, t);
        if x.Report? {
          var g' := g.(seen := g.seen + 1);
          MoveFirst(p, g', t);
          CapIsIdle(p, g', t);
          InjectFirst(p, MoveWindow(p, g', t), Numbered(x.stats, g.seen));
        }
      }
    }
  }

  /** Over every run: a slot is closed exactly when a time not before its start plus the delay came. */
  lemma {:induction false} RunCloses(p: Params, g: L7Gen, xs: seq<Input>, e: nat)
    requires Sound(p, g) && forall x :: x in xs ==> Timed(x)
    ensures e < Run(p, g, xs).first <==> e < g.first || Reached(xs, e * p.interval + p.delay)
    decreases |xs|
  {
    hide Handle, TimeOf;
    if xs != [] {
      var t := e * p.interval + p.delay;
      assert Timed(xs[0]);
      HandleSound(p, g, xs[0]);
      HandleCloses(p, g, xs[0], e);
      RunCloses(p, Handle(p, g, xs[0]), xs[1..], e);
      if j :| 0 <= j < |xs[1..]| && !xs[1..][j].SendClosed? && t <= TimeOf(xs[1..][j]) {
        assert !xs[j + 1].SendClosed? && t <= TimeOf(xs[j + 1]);
      }
      if j :| 0 <= j < |xs| && !xs[j].SendClosed? && t <= TimeOf(xs[j]) {
        assert j == 0 || (!xs[1..][j - 1].SendClosed? && t <= TimeOf(xs[1..][j - 1]));
      }
    }
  }

  // ---------------------------------------------------------------- what comes late, and what is sent last

  /** The reports and ticks that were behind the window when they arrived. */
  function LateOf(p: Params, g: L7Gen, xs: seq<Input>): nat
    requires Sound(p, g) && forall x :: x in xs ==> Timed(x)
    decreases |xs|
  {
    if xs == [] then 0
    else
      assert Timed(xs[0]);
      HandleSound(p, g, xs[0]);
      (if !xs[0].SendClosed? && TimeOf(xs[0]) < g.first * p.interval then 1 else 0)
      + LateOf(p, Handle(p, g, xs[0]), xs[1..])
  }

  lemma MoveDrops(p: Params, g: L7Gen, t: nat)
    requires Sound(p, g)
    ensures MoveWindow(p, g, t).dropped == g.dropped
  {
    hide SlotsToShift;
  }

  lemma InjectDrops(p: Params, g: L7Gen, x: L7Stats)
    requires Sound(p, g) && x.timeSpan <= x.time && x.time >= Begins(p, g)
    ensures InjectAppMeter(p, g, x).dropped == g.dropped
  {
    hide Gathered, Drained, SlotFor, SpanOf;
  }

  lemma HandleDrops(p: Params, g: L7Gen, x: Input)
    requires Sound(p, g) && Timed(x)
    ensures Handle(p, g, x).dropped ==
      g.dropped + (if !x.SendClosed? && TimeOf(x) < g.first * p.interval then 1 else 0)
  {
    hide MoveWindow, InjectAppMeter;
    if !x.SendClosed? && TimeOf(x) >= Begins(p, g) {
      MoveDrops(p, g, TimeOf(x));
      if x.Report? {
        var g' := g.(seen := g.seen + 1);
        MoveDrops(p, g', TimeOf(x));
        CapIsIdle(p, g', TimeOf(x));
        InjectDrops(p, MoveWindow(p, g', TimeOf(x)), Numbered(x.stats, g.seen));
      }
    }
  }

  /** Over every run the drop counter is the number of reports and ticks that came late. */
  lemma {:induction false} EveryDropIsLate(p: Params, g: L7Gen, xs: seq<Input>)
    requires Sound(p, g) && forall x :: x in xs ==> Timed(x)
    ensures Run(p, g, xs).dropped == g.dropped + LateOf(p, g, xs)
    decreases |xs|
  {
    hide Handle, TimeOf;
    if xs != [] {
      assert Timed(xs[0]);
      HandleSound(p, g, xs[0]);
      HandleDrops(p, g, xs[0]);
      EveryDropIsLate(p, Handle(p, g, xs[0]), xs[1..]);
    }
  }

  /** The send after a batch leaves no record of a closed flow behind, and keeps their order. */
  lemma SendsAllClosed(p: Params, g: L7Gen)
    requires Sound(p, g)
    ensures var r := Handle(p, g, SendClosed);
      r.closed == [] && r.out == g.out + g.closed && r.stashes == g.stashes && r.lost == g.lost
  {
  }

  // ---------------------------------------------------------------- a span lost from the start

  /** A request of flow one reported at time `t` without the flow, and one that covers `span` and comes with it. */
  function Unattended(t: nat): L7Stats { L7Stats(1, AppMeter(1, 0, 0, []), 0, 0, 0, 0, t, None) }

  function WithFlow(t: nat, span: nat): L7Stats {
    Unattended(t).(timeSpan := span, flow := Some(TaggedFlow(false, t)))
  }

  lemma BoundaryNumbers(first: nat, interval: nat)
    requires first >= 1 && interval >= 1
    ensures interval <= first * interval
    ensures first * interval / interval == first && (first * interval - interval) / interval == first - 1
  {
    assert first * interval - interval == (first - 1) * interval >= 0;
    QuotientUnique(first * interval, first, interval);
    QuotientUnique(first * interval - interval, first - 1, interval);
  }

  /**
    In every configuration two reports at the first slot boundary of an empty generator are enough: the first
    covers no boundary, the second one, and the record of the first is sent as if it covered one.
  */
  lemma SpanLostFromStart(p: Params, first: nat)
    requires p.Valid() && first >= 1
    ensures var t := first * p.interval; p.interval <= t
    ensures var t := first * p.interval; var x, y := Unattended(t), WithFlow(t, p.interval);
      var g := Handle(p, Fresh(p, first), Report(x));
      && SpanOf(p, x) == 0 && Sound(p, g)
      && var ring := Handle(p, g, Report(y)).stashes;
         && |ring| > 0 && |ring[0].meters| == 2
         && ring[0].meters[0].meter == Numbered(x, 0).meter && ring[0].meters[0].timeSpan == 1
  {
    var t := first * p.interval;
    BoundaryNumbers(first, p.interval);
    var g, x, y := Fresh(p, first), Unattended(t), WithFlow(t, p.interval);
    assert SpanOf(p, x) == 0 && SpanOf(p, y) == 1;
    assert SlotFor(p, g, t) == 0;
    hide SpanOf, SlotFor, Handle;
    FirstSpanIsLost(p, g, x, y);
  }
}
