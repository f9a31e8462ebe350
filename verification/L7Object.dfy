/** The application-layer generator as the object whose fields the agent updates. */
module L7Object {
  import opened Basics
  import opened Minutes
  import opened QuadrupleGenerator
  import opened L7Generator

  /** Gathering and draining from index `i` on, the form the loops have. */
  lemma {:induction false} GatheredSkips(ss: seq<Stat>, x: L7Stats, span: nat, i: nat)
    requires i <= |ss| && forall j :: 0 <= j < i ==> !Same(ss[j], x, span)
    ensures Gathered(ss, x, span) == (ss[..i] + Gathered(ss[i..], x, span).0, Gathered(ss[i..], x, span).1)
  {
    if i == 0 {
      assert ss[..0] + Gathered(ss[0..], x, span).0 == Gathered(ss, x, span).0;
    } else {
      GatheredSkips(ss[1..], x, span, i - 1);
      assert ss[1..][i - 1..] == ss[i..];
      assert [ss[0]] + (ss[1..][..i - 1] + Gathered(ss[i..], x, span).0) == ss[..i] + Gathered(ss[i..], x, span).0;
    }
  }

  /** A stat is updated where it is found, or the new one goes behind them all. */
  method GatherInto(ss: seq<Stat>, x: L7Stats, span: nat) returns (r: seq<Stat>, ghost lost: seq<Loss>)
    ensures r == Gathered(ss, x, span).0 && lost == Gathered(ss, x, span).1
  {
    var i := 0;
    while i < |ss| && !Same(ss[i], x, span)
      invariant 0 <= i <= |ss| && forall j :: 0 <= j < i ==> !Same(ss[j], x, span)
    {
      i := i + 1;
    }
    GatheredSkips(ss, x, span, i);
    if i < |ss| {
      var m := ss[i];
      if x.protocol == m.protocol {
        m, lost := m.(meter := AddMeters(m.meter, x.meter)), [];
      } else if m.protocol == UNKNOWN {
        m, lost := m.(protocol := x.protocol, meter := x.meter), [Replaced(x.flowId, m.meter)];
      } else {
        lost := [OtherProtocol(x.flowId, x.meter)];
      }
      r := ss[i := m];
      assert ss[i..][1..] == ss[i + 1..];
      assert r == ss[..i] + ([m] + ss[i + 1..]);
    } else {
      r, lost := ss + [NewStat(x, span)], [];
      assert ss[..i] == ss && ss[i..] == [];
    }
  }

  method DrainAll(ss: seq<Stat>, x: L7Stats, span: nat) returns (rs: seq<AppRecord>, ghost lost: seq<Loss>)
    requires x.flow.Some?
    ensures rs == Drained(ss, x, span).0 && lost == Drained(ss, x, span).1
  {
    rs, lost := [], [];
    var i := 0;
    while i < |ss|
      invariant 0 <= i <= |ss| && (rs, lost) == Drained(ss[..i], x, span)
    {
      assert ss[..i + 1][..i] == ss[..i];
      if ss[i].meter.request == 0 && ss[i].meter.response == 0 {
        lost := lost + [NothingCounted(x.flowId, ss[i].meter)];
      } else {
        rs := rs + [RecordOf(ss[i], x, span)];
      }
      i := i + 1;
    }
    assert ss[..i] == ss;
  }

  class L7SubQuadGen {
    const p: Params
    var windowStart: nat
    var stashs: seq<SlotStash>
    var output: seq<AppRecord>
    var closedAppMeters: seq<AppRecord>
    var dropBeforeWindow: nat
    /** How many reports there have been; the next one is known by this number. */
    var seen: nat

    /** The window start in slots, and what left without a record. */
    ghost var first: nat
    ghost var lost: seq<Loss>

    ghost predicate Valid() reads this { windowStart == first * p.interval && Sound(p, Abs()) }

    ghost function Abs(): L7Gen reads this {
      L7Gen(first, stashs, output, closedAppMeters, dropBeforeWindow, lost, seen)
    }

    constructor (p: Params, minute: nat)
      requires p.Valid() && (p.interval == 1 || p.interval == SECONDS_IN_MINUTE)
      ensures Valid() && this.p == p && windowStart == minute * SECONDS_IN_MINUTE
      ensures Abs() == L7Gen(minute * SECONDS_IN_MINUTE / p.interval, seq(p.slots, _ => EMPTY), [], [], 0, [], 0)
    {
      this.p := p;
      windowStart := minute * SECONDS_IN_MINUTE;
      stashs := seq(p.slots, _ => EMPTY);
      output, closedAppMeters, dropBeforeWindow, seen := [], [], 0, 0;
      first, lost := minute * SECONDS_IN_MINUTE / p.interval, [];
    }

    /** Takes slot `i` out of the ring, leaving an empty one, and sends the records it holds. */
    method FlushStats(i: nat)
      requires i < |stashs|
      modifies `stashs, `output, `lost
      ensures stashs == old(stashs)[i := EMPTY]
      ensures output == old(output) + old(stashs)[i].meters && lost == old(lost) + [Forgotten(old(stashs)[i].stats)]
    {
      var last := |stashs|;
      stashs := stashs + [EMPTY];
      var stash := stashs[i];
      stashs := stashs[i := stashs[last]][..last];
      output := output + stash.meters;
      lost := lost + [Forgotten(stash.stats)];
    }

    /** The ring read from index `i` on: what it will be once it is rotated. */
    ghost function Rotated(i: nat): L7Gen
      reads this
      requires i <= |stashs|
    {
      L7Gen(first + i, stashs[i..] + stashs[..i], output, closedAppMeters, dropBeforeWindow, lost, seen)
    }

    method FlushOne(i: nat)
      requires p.Valid() && i < |stashs| && Sound(p, Rotated(i))
      modifies `stashs, `output, `lost
      ensures |stashs| == |old(stashs)| && Rotated(i + 1) == ShiftSlot(p, old(Rotated(i)))
    {
      ghost var before := stashs;
      assert Rotated(i).stashes[0] == stashs[i];
      FlushStats(i);
      assert stashs[i + 1..] + stashs[..i + 1] == (before[i..] + before[..i])[1..] + [EMPTY];
    }

    /** Flushes the oldest `n` slots in place. */
    method FlushOldest(n: nat)
      requires Valid() && n <= p.slots
      modifies `stashs, `output, `lost
      ensures |stashs| == p.slots && Rotated(n) == ShiftSlots(p, old(Abs()), n)
    {
      hide ShiftSlot;
      var i := 0;
      ghost var g0 := Abs();
      assert stashs[0..] + stashs[..0] == stashs;
      while i < n
        invariant i <= n && |stashs| == p.slots
        invariant Rotated(i) == ShiftSlots(p, g0, i)
      {
        FlushOne(i);
        i := i + 1;
      }
    }

    method MoveOnce(t: nat)
      requires Valid() && t >= windowStart + p.delay
      modifies this
      ensures Valid() && Abs() == L7Generator.MoveWindow(p, old(Abs()), t)
    {
      hide ShiftSlots;
      ghost var g0 := Abs();
      var n := SlotsToShift(p, windowStart, t);
      hide SlotsToShift;
      if n >= p.slots {
        FlushOldest(p.slots);
        assert stashs[p.slots..] + stashs[..p.slots] == stashs;
      } else {
        FlushOldest(n);
        stashs := stashs[n..] + stashs[..n];
      }
      windowStart := windowStart + p.interval * n;
      first := first + n;
      Distrib(g0.first, n, p.interval);
    }

    /** Moves the window so that `t` fits; false when `t` is before it. */
    method MoveWindow(t: nat) returns (ok: bool)
      requires Valid()
      modifies this
      ensures Valid() && ok == (t >= old(windowStart))
      ensures Abs() == if ok then L7Generator.MoveWindow(p, old(Abs()), t)
                       else old(Abs()).(dropped := old(dropBeforeWindow) + 1)
    {
      if t < windowStart {
        dropBeforeWindow := dropBeforeWindow + 1;
        return false;
      }
      ghost var g0 := Abs();
      CapIsIdle(p, g0, t);
      while t >= windowStart + p.delay
        invariant Valid()
        invariant Abs() == if t < windowStart + p.delay then L7Generator.MoveWindow(p, g0, t) else g0
        decreases if t >= windowStart + p.delay then 1 else 0
      {
        MoveOnce(t);
      }
      ok := true;
    }

    /** Queues records of closed flows, sending the queue whenever a batch is full. */
    method PushAll(rs: seq<AppRecord>)
      requires Valid()
      modifies `closedAppMeters, `output
      ensures Valid() && Abs() == PushAllClosed(old(Abs()), rs)
    {
      var i := 0;
      while i < |rs|
        invariant 0 <= i <= |rs| && Valid() && Abs() == PushAllClosed(old(Abs()), rs[..i])
      {
        assert rs[..i + 1][..i] == rs[..i];
        closedAppMeters := closedAppMeters + [rs[i]];
        if |closedAppMeters| >= QUEUE_BATCH_SIZE {
          output := output + closedAppMeters;
          closedAppMeters := [];
        }
        i := i + 1;
      }
      assert rs[..i] == rs;
    }

    method DeliverAll(i: nat, x: L7Stats, rs: seq<AppRecord>)
      requires Valid() && i < |stashs| && x.flow.Some?
      modifies `stashs, `closedAppMeters, `output
      ensures Valid() && Abs() == Deliver(old(Abs()), i, x, rs)
    {
      if x.flow.value.closed {
        PushAll(rs);
      } else {
        stashs := stashs[i := stashs[i].(meters := stashs[i].meters + rs)];
      }
    }

    /** One report into the slot of its time. */
    method InjectAppMeter(x: L7Stats)
      requires Valid() && x.timeSpan <= x.time
      modifies this
      ensures Valid() && Abs() == L7Generator.InjectAppMeter(p, old(Abs()), x)
    {
      hide Gathered, Drained;
      if x.time < windowStart {
        dropBeforeWindow := dropBeforeWindow + 1;
        lost := lost + [Late(x.flowId, x.meter)];
        return;
      }
      var slot := (x.time - windowStart) / p.interval;
      if slot > |stashs| - 1 { slot := |stashs| - 1; }
      assert slot == SlotFor(p, Abs(), x.time);
      SpanNatural(p, x);
      var span := x.time / p.interval - (x.time - x.timeSpan) / p.interval;
      assert span == SpanOf(p, x);
      hide SlotFor, SpanOf;
      InjectInto(slot, x, span);
    }

    method InjectInto(i: nat, x: L7Stats, span: nat)
      requires Valid() && i < |stashs|
      modifies `stashs, `closedAppMeters, `output, `lost
      ensures Valid() && Abs() == IntoSlot(old(Abs()), i, x, span)
    {
      hide Gathered, Drained, Deliver;
      var stash, k := stashs[i], x.flowId;
      if k in stash.stats {
        var ss, blended := GatherInto(stash.stats[k], x, span);
        if x.flow.Some? {
          stashs := stashs[i := stash.(stats := stash.stats[k := []])];
          var rs, idle := DrainAll(ss, x, span);
          lost := lost + blended + idle;
          DeliverAll(i, x, rs);
        } else {
          stashs := stashs[i := stash.(stats := stash.stats[k := ss])];
          lost := lost + blended;
        }
      } else if x.meter.request == 0 && x.meter.response == 0 {
        lost := lost + [NothingCounted(k, x.meter)];
      } else if x.flow.Some? {
        DeliverAll(i, x, [RecordOf(NewStat(x, span), x, span)]);
      } else {
        stashs := stashs[i := stash.(stats := stash.stats[k := [NewStat(x, span)]])];
      }
    }

    /** One report or tick, or the send of closed records after a batch. */
    method Accept(x: Input)
      requires Valid() && (x.Report? ==> x.stats.timeSpan <= x.stats.time)
      modifies this
      ensures Valid() && Abs() == Handle(p, old(Abs()), x)
    {
      hide IntoSlot, SlotFor, SpanOf;
      match x {
        case SendClosed =>
          output := output + closedAppMeters;
          closedAppMeters := [];
        case Tick(t) =>
          var _ := MoveWindow(t);
        case Report(s) =>
          var numbered := Numbered(s, seen);
          seen := seen + 1;
          if s.time >= windowStart { CapIsIdle(p, Abs(), s.time); }
          var ok := MoveWindow(s.time);
          if ok {
            InjectAppMeter(numbered);
          } else {
            lost := lost + [Late(s.flowId, numbered.meter)];
          }
      }
    }
  }
}
