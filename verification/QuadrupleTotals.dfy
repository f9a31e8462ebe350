/**
  Nothing is lost or counted twice between what the generator is given and what it emits.
*/
module QuadrupleTotals {
  import opened Basics
  import opened QuadrupleGenerator
  import opened QuadrupleRuns

  function Part(records: map<Key, Record>, k: Key): Traffic {
    if k in records then records[k].traffic else NO_TRAFFIC
  }

  /** The traffic of a key over all batches. */
  function Emitted(out: seq<Batch>, k: Key): Traffic {
    if out == [] then NO_TRAFFIC else Plus(Emitted(out[..|out| - 1], k), Part(out[|out| - 1].records, k))
  }

  /** The traffic of a key over all slots of the ring. */
  function InRing(stashes: seq<Stash>, k: Key): Traffic {
    if stashes == [] then NO_TRAFFIC else Plus(Part(stashes[0], k), InRing(stashes[1..], k))
  }

  function Offered(log: seq<Flow>, k: Key): Traffic {
    if log == [] then NO_TRAFFIC
    else
      var before, f := Offered(log[..|log| - 1], k), log[|log| - 1];
      if f.key == k then Plus(before, Meter(f)) else before
  }

  predicate Conserved(g: Gen, log: seq<Flow>, k: Key) {
    Plus(Emitted(g.out, k), InRing(g.stashes, k)) == Offered(log, k)
  }

  lemma PlusZero(a: Traffic)
    ensures Plus(a, NO_TRAFFIC) == a && Plus(NO_TRAFFIC, a) == a
  {
  }

  lemma PlusAssoc(a: Traffic, b: Traffic, c: Traffic)
    ensures Plus(Plus(a, b), c) == Plus(a, Plus(b, c))
  {
  }

  lemma PlusSwap(a: Traffic, b: Traffic, c: Traffic)
    ensures Plus(Plus(a, b), c) == Plus(Plus(a, c), b)
  {
  }

  lemma {:induction false} RingAppend(stashes: seq<Stash>, last: Stash, k: Key)
    requires k !in last
    ensures InRing(stashes + [last], k) == InRing(stashes, k)
  {
    hide Plus;
    var s := stashes + [last];
    if stashes == [] {
      assert s[1..] == [];
      PlusZero(NO_TRAFFIC);
    } else {
      RingAppend(stashes[1..], last, k);
      assert s[1..] == stashes[1..] + [last];
    }
  }

  lemma {:induction false} RingUpdate(stashes: seq<Stash>, i: nat, stash: Stash, k: Key, extra: Traffic)
    requires i < |stashes| && Part(stash, k) == Plus(Part(stashes[i], k), extra)
    ensures InRing(stashes[i := stash], k) == Plus(InRing(stashes, k), extra)
  {
    hide Plus;
    if i == 0 {
      assert stashes[i := stash][1..] == stashes[1..];
      PlusSwap(Part(stashes[0], k), extra, InRing(stashes[1..], k));
    } else {
      PlusAssoc(Part(stashes[0], k), InRing(stashes[1..], k), extra);
      RingUpdate(stashes[1..], i - 1, stash, k, extra);
      assert stashes[i := stash][1..] == stashes[1..][i - 1 := stash];
    }
  }

  lemma {:induction false} RingEmpty(stashes: seq<Stash>, k: Key)
    requires forall i :: 0 <= i < |stashes| ==> k !in stashes[i]
    ensures InRing(stashes, k) == NO_TRAFFIC
  {
    hide Plus;
    if stashes != [] {
      RingEmpty(stashes[1..], k);
      PlusZero(NO_TRAFFIC);
    }
  }

  lemma FrontPart(p: Params, g: Gen, k: Key)
    requires WellFormed(p, g)
    ensures Part(FinishedAll(p.source, Front(g), g.stashes[0]), k) == Part(g.stashes[0], k)
  {
  }

  /** Flushing moves the oldest slot from the ring to the output, traffic untouched. */
  lemma {:induction false} ShiftConserves(p: Params, g: Gen, t: nat, log: seq<Flow>, k: Key)
    requires WellFormed(p, g) && Conserved(g, log, k)
    ensures Conserved(Shift(p, g, t), log, k)
  {
    var g' := Shift(p, g, t);
    FrontPart(p, g, k);
    hide Plus, Finished, FinishedAll, ShiftConns, Part;
    RingAppend(g.stashes[1..], map[], k);
    assert g'.out[..|g'.out| - 1] == g.out;
    PlusAssoc(Emitted(g.out, k), Part(g.stashes[0], k), InRing(g.stashes[1..], k));
  }

  lemma {:induction false} ShiftsConserve(p: Params, g: Gen, t: nat, n: nat, log: seq<Flow>, k: Key)
    requires WellFormed(p, g) && Conserved(g, log, k)
    ensures Conserved(Shifts(p, g, t, n), log, k)
  {
    if n > 0 {
      ShiftsConserve(p, g, t, n - 1, log, k);
      ShiftConserves(p, Shifts(p, g, t, n - 1), t, log, k);
    }
  }

  lemma MoveConserves(p: Params, g: Gen, t: nat, log: seq<Flow>, k: Key)
    requires WellFormed(p, g) && Conserved(g, log, k)
    ensures Conserved(Moved(p, g, t), log, k)
  {
    if t >= Start(p, g) + p.delay {
      var n := SlotsToShift(p, Start(p, g), t);
      hide SlotsToShift;
      ShiftsConserve(p, g, t, n, log, k);
      ShiftsConserve(p, g, t, p.slots, log, k);
    }
  }

  lemma StashPart(s: Source, stash: Stash, f: Flow, k: Key)
    requires Metered(s)
    ensures Part(Stashed(s, stash, f), k) == Plus(Part(stash, k), if f.key == k then Meter(f) else NO_TRAFFIC)
  {
    PlusZero(Meter(f));
    PlusZero(Part(stash, k));
  }

  lemma InjectConserves(p: Params, g: Gen, f: Flow, log: seq<Flow>, k: Key)
    requires WellFormed(p, g) && Conserved(g, log, k) && Metered(p.source)
    requires Start(p, g) <= f.time && IndexOf(p, Start(p, g), f.time) < p.slots
    ensures Conserved(Inject(p, g, f), log + [f], k)
  {
    hide IndexOf, Stashed, Connected, Plus, Part, Meter;
    var i := IndexOf(p, Start(p, g), f.time);
    var stash := Stashed(p.source, g.stashes[i], f);
    var extra := if f.key == k then Meter(f) else NO_TRAFFIC;
    StashPart(p.source, g.stashes[i], f, k);
    RingUpdate(g.stashes, i, stash, k, extra);
    assert (log + [f])[..|log|] == log;
    PlusAssoc(Emitted(g.out, k), InRing(g.stashes, k), extra);
    PlusZero(Offered(log, k));
  }

  lemma HandleConserves(p: Params, g: Gen, h: Hist, x: Input, k: Key)
    requires WellFormed(p, g) && Metered(p.source) && Conserved(g, h.log, k)
    ensures Conserved(Handle(p, g, x), Recall(p, g, h, x).log, k)
  {
    var t := TimeOf(x);
    if t >= Start(p, g) {
      MovedWindow(p, g, t);
      MoveConserves(p, g, t, h.log, k);
      MovedLog(p, g, h, x);
      hide Conserved, Moved;
      if x.Report? { InjectConserves(p, Moved(p, g, t), x.flow, h.log, k); }
    }
  }

  lemma {:induction false} FlushedLog(h: Hist, first: nat, n: nat, t: nat)
    ensures FlushedUpTo(h, first, n, t).log == h.log
  {
    if n > 0 { FlushedLog(h, first, n - 1, t); }
  }

  lemma MovedLog(p: Params, g: Gen, h: Hist, x: Input)
    requires WellFormed(p, g)
    ensures Recall(p, g, h, x).log == if TimeOf(x) >= Start(p, g) && x.Report? then h.log + [x.flow] else h.log
  {
    var t := TimeOf(x);
    if t >= Start(p, g) + p.delay { FlushedLog(h, g.first, Min(SlotsToShift(p, Start(p, g), t), p.slots), t); }
  }

  lemma {:induction false} RunConserves(p: Params, g: Gen, h: Hist, xs: seq<Input>, k: Key)
    requires WellFormed(p, g) && Metered(p.source) && Conserved(g, h.log, k)
    ensures Conserved(Run(p, g, xs), History(p, g, h, xs).log, k)
    decreases |xs|
  {
    if xs != [] {
      HandleConserves(p, g, h, xs[0], k);
      hide Handle, Recall, Conserved;
      RunConserves(p, Handle(p, g, xs[0]), Recall(p, g, h, xs[0]), xs[1..], k);
    }
  }

  function Reports(xs: seq<Input>): nat {
    if xs == [] then 0 else (if xs[0].Report? then 1 else 0) + Reports(xs[1..])
  }

  /** The ticks that were behind the window when they arrived; the same counter takes them. */
  function LateTicks(p: Params, g: Gen, xs: seq<Input>): nat
    requires WellFormed(p, g)
    decreases |xs|
  {
    if xs == [] then 0
    else (if xs[0].Tick? && xs[0].time < Start(p, g) then 1 else 0) + LateTicks(p, Handle(p, g, xs[0]), xs[1..])
  }

  /** Every report is accepted or counted as dropped, once, whatever ticks move the window in between. */
  lemma {:induction false} RunAccounts(p: Params, g: Gen, h: Hist, xs: seq<Input>)
    requires WellFormed(p, g)
    ensures Run(p, g, xs).dropped + |History(p, g, h, xs).log|
         == g.dropped + |h.log| + Reports(xs) + LateTicks(p, g, xs)
    decreases |xs|
  {
    hide Handle, Recall;
    if xs != [] {
      MovedLog(p, g, h, xs[0]);
      HandleDrops(p, g, xs[0]);
      RunAccounts(p, Handle(p, g, xs[0]), Recall(p, g, h, xs[0]), xs[1..]);
    }
  }

  lemma HandleDrops(p: Params, g: Gen, x: Input)
    requires WellFormed(p, g)
    ensures Handle(p, g, x).dropped == if TimeOf(x) < Start(p, g) then g.dropped + 1 else g.dropped
  {
  }

  lemma FreshConserves(p: Params, first: nat, counting: bool, k: Key)
    requires p.Valid()
    ensures WellFormed(p, Fresh(p, first, counting)) && Fresh(p, first, counting).dropped == 0
    ensures Conserved(Fresh(p, first, counting), NO_HISTORY.log, k)
  {
    hide Plus, InRing;
    RingEmpty(Fresh(p, first, counting).stashes, k);
    PlusZero(NO_TRAFFIC);
  }

  /**
    Over any run with metered reports: what was emitted for a key plus what the ring still holds for it
    is exactly what was accepted for it.
  */
  lemma EveryRunConserves(p: Params, first: nat, counting: bool, xs: seq<Input>, k: Key)
    requires p.Valid() && Metered(p.source)
    ensures var g := Run(p, Fresh(p, first, counting), xs);
      Plus(Emitted(g.out, k), InRing(g.stashes, k))
      == Offered(History(p, Fresh(p, first, counting), NO_HISTORY, xs).log, k)
  {
    FreshConserves(p, first, counting, k);
    hide Run, History, Emitted, InRing, Offered, Plus, Fresh;
    RunConserves(p, Fresh(p, first, counting), NO_HISTORY, xs, k);
  }

  // ---------------------------------------------------------------- the same in plain numbers

  predicate IsTraffic(m: Measure) { !m.Flows? && !m.News? && !m.Opened? && !m.Shut? }

  function Get(t: Traffic, m: Measure): nat {
    match m
    case PacketTx => t.packetTx
    case PacketRx => t.packetRx
    case ByteTx => t.byteTx
    case ByteRx => t.byteRx
    case NewFlow => t.newFlow
    case ClosedFlow => t.closedFlow
    case _ => 0
  }

  function EmittedOf(out: seq<Batch>, k: Key, m: Measure): nat {
    if out == [] then 0
    else
      var records := out[|out| - 1].records;
      EmittedOf(out[..|out| - 1], k, m) + (if k in records then Get(records[k].traffic, m) else 0)
  }

  function InRingOf(stashes: seq<Stash>, k: Key, m: Measure): nat {
    if stashes == [] then 0
    else (if k in stashes[0] then Get(stashes[0][k].traffic, m) else 0) + InRingOf(stashes[1..], k, m)
  }

  function OfferedOf(p: Params, log: seq<Flow>, k: Key, m: Measure): nat {
    if log == [] then 0
    else
      var f := log[|log| - 1];
      OfferedOf(p, log[..|log| - 1], k, m) + (if f.key == k then Of(p, f, m) else 0)
  }

  lemma {:induction false} EmittedPlain(out: seq<Batch>, k: Key, m: Measure)
    ensures EmittedOf(out, k, m) == Get(Emitted(out, k), m)
  {
    if out != [] { EmittedPlain(out[..|out| - 1], k, m); }
  }

  lemma {:induction false} InRingPlain(stashes: seq<Stash>, k: Key, m: Measure)
    ensures InRingOf(stashes, k, m) == Get(InRing(stashes, k), m)
  {
    if stashes != [] { InRingPlain(stashes[1..], k, m); }
  }

  lemma {:induction false} OfferedPlain(p: Params, log: seq<Flow>, k: Key, m: Measure)
    requires IsTraffic(m)
    ensures OfferedOf(p, log, k, m) == Get(Offered(log, k), m)
  {
    if log != [] { OfferedPlain(p, log[..|log| - 1], k, m); }
  }

  /** Over any run with metered reports, field by field: emitted plus in the ring is what was accepted. */
  lemma EveryFieldConserves(p: Params, first: nat, counting: bool, xs: seq<Input>, k: Key, m: Measure)
    requires p.Valid() && Metered(p.source) && IsTraffic(m)
    ensures var g := Run(p, Fresh(p, first, counting), xs);
      EmittedOf(g.out, k, m) + InRingOf(g.stashes, k, m)
      == OfferedOf(p, History(p, Fresh(p, first, counting), NO_HISTORY, xs).log, k, m)
  {
    var g, log := Run(p, Fresh(p, first, counting), xs), History(p, Fresh(p, first, counting), NO_HISTORY, xs).log;
    EveryRunConserves(p, first, counting, xs, k);
    hide Run, History, Emitted, InRing, Offered;
    EmittedPlain(g.out, k, m);
    InRingPlain(g.stashes, k, m);
    OfferedPlain(p, log, k, m);
  }

  /** Over any run: drops and accepted reports are the reports and the ticks that came late. */
  lemma EveryRunAccounts(p: Params, first: nat, counting: bool, xs: seq<Input>)
    requires p.Valid()
    ensures var g0 := Fresh(p, first, counting);
      Run(p, g0, xs).dropped + |History(p, g0, NO_HISTORY, xs).log| == Reports(xs) + LateTicks(p, g0, xs)
  {
    RunAccounts(p, Fresh(p, first, counting), NO_HISTORY, xs);
  }
}
