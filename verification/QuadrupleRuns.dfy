/**
  What every run of the generator keeps: its slots and batches are the group-by of the accepted
  flows, and the load of a record is a simple fold over the slots before it.
*/
module QuadrupleRuns {
  import opened Basics
  import opened Options
  import opened QuadrupleGenerator

  // ---------------------------------------------------------------- the reference: plain sums over the accepted flows

  /**
    What the accepted flows of one key in one slot add up to; `lead` is the traffic of the first of them, and
    `load` and `alive` follow the flows from the second on, and `seen` is when a connection was last counted.
  */
  datatype Tally = Tally(count: nat, events: nat, news: nat, living: int, traffic: Traffic, time: nat,
                         lead: Traffic, load: nat, alive: nat, seen: nat)

  const NOTHING: Tally := Tally(0, 0, 0, 0, NO_TRAFFIC, 0, NO_TRAFFIC, 0, 0, 0)

  function SlotNumber(p: Params, t: nat): nat
    requires p.Valid()
  {
    t / p.interval
  }

  function Add(s: Source, y: Tally, f: Flow): Tally {
    var load := if y.count == 0 then 0 else y.alive + (if f.isNew then 1 else 0);
    Tally(y.count + 1,
          y.events + (if Counted(s, f) then 1 else 0),
          y.news + (if Counted(s, f) && f.isNew then 1 else 0),
          y.living + (if Counted(s, f) then Living(f) else 0),
          Plus(y.traffic, Meter(f)), f.time,
          if y.count == 0 then Meter(f) else y.lead,
          load, if f.closed && load > 0 then load - 1 else load,
          if Counted(s, f) then f.time else y.seen)
  }

  function TallyOf(p: Params, log: seq<Flow>, e: nat, k: Key): Tally
    requires p.Valid()
  {
    if log == [] then NOTHING
    else
      var y, f := TallyOf(p, log[..|log| - 1], e, k), log[|log| - 1];
      if f.key == k && SlotNumber(p, f.time) == e then Add(p.source, y, f) else y
  }

  /** What can be counted of a flow, read off its fields. */
  datatype Measure = Flows | News | Opened | Shut | PacketTx | PacketRx | ByteTx | ByteRx | NewFlow | ClosedFlow

  /** Connections are those of TCP and UDP in captured packets. */
  predicate IsConnection(p: Params, f: Flow) { p.source.Packet? && f.key.tcpOrUdp }

  function Of(p: Params, f: Flow, m: Measure): nat {
    match m
    case Flows => 1
    case News => if IsConnection(p, f) && f.isNew then 1 else 0
    case Opened => if IsConnection(p, f) && f.isNew && !f.closed then 1 else 0
    case Shut => if IsConnection(p, f) && f.closed && !f.isNew then 1 else 0
    case PacketTx => f.packetTx
    case PacketRx => f.packetRx
    case ByteTx => f.byteTx
    case ByteRx => f.byteRx
    case NewFlow => if f.isNew then 1 else 0
    case ClosedFlow => if f.closed then 1 else 0
  }

  /** The plain sum over the flows of a key in a slot. */
  function SumOf(p: Params, log: seq<Flow>, e: nat, k: Key, m: Measure): nat
    requires p.Valid()
  {
    if log == [] then 0
    else
      var f := log[|log| - 1];
      SumOf(p, log[..|log| - 1], e, k, m) + (if f.key == k && SlotNumber(p, f.time) == e then Of(p, f, m) else 0)
  }

  /** A tally in plain numbers: what is living is what was opened less what was closed. */
  ghost predicate Adds(y: Tally, sum: Measure -> nat) {
    && y.count == sum(Flows) && y.news == sum(News) && y.living == sum(Opened) - sum(Shut)
    && y.traffic.packetTx == sum(PacketTx) && y.traffic.packetRx == sum(PacketRx)
    && y.traffic.byteTx == sum(ByteTx) && y.traffic.byteRx == sum(ByteRx)
    && y.traffic.newFlow == sum(NewFlow) && y.traffic.closedFlow == sum(ClosedFlow)
  }

  lemma AddAdds(p: Params, y: Tally, f: Flow, sum: Measure -> nat, sum': Measure -> nat)
    requires Adds(y, sum) && forall m :: sum'(m) == sum(m) + Of(p, f, m)
    ensures Adds(Add(p.source, y, f), sum')
  {
    assert sum'(Flows) == sum(Flows) + 1;
  }

  lemma {:induction false} TallyIsSum(p: Params, log: seq<Flow>, e: nat, k: Key)
    requires p.Valid()
    ensures Adds(TallyOf(p, log, e, k), m => SumOf(p, log, e, k, m))
  {
    hide Of;
    if log != [] {
      var init, f := log[..|log| - 1], log[|log| - 1];
      TallyIsSum(p, init, e, k);
      if f.key == k && SlotNumber(p, f.time) == e {
        hide Adds, Add, SlotNumber;
        AddAdds(p, TallyOf(p, init, e, k), f, m => SumOf(p, init, e, k, m), m => SumOf(p, log, e, k, m));
      }
    }
  }

  /** The accepted flows in order, and for each flushed slot the time that moved the window past it. */
  datatype Hist = Hist(log: seq<Flow>, flushed: map<nat, nat>)

  datatype Carry = Carry(living: nat, time: nat)

  /**
    The connections of key `k` still living when slot `e` begins: those living before plus opened
    less closed, forgotten when none is left or when the key was last seen more than 300 seconds before the flush.
  */
  function CarryBefore(p: Params, h: Hist, e: nat, k: Key): Carry
    requires p.Valid()
  {
    if e == 0 then Carry(0, 0)
    else
      var before := CarryBefore(p, h, e - 1, k);
      if e - 1 !in h.flushed then before
      else CarryOver(before, TallyOf(p, h.log, e - 1, k), h.flushed[e - 1])
  }

  function CarryOver(before: Carry, y: Tally, t: nat): Carry {
    var living := before.living + y.living;
    var time := if y.count > 0 then y.time else before.time;
    if living > 0 && t <= time + 300 then Carry(living, time) else Carry(0, 0)
  }

  // ---------------------------------------------------------------- agreement with the reference

  /** The traffic of a record: all flows of metered data, the first flow of other data. */
  function TrafficOf(p: Params, y: Tally): Traffic { if Metered(p.source) then y.traffic else y.lead }

  function OwnLoad(p: Params, y: Tally): nat { if Metered(p.source) then y.load else 0 }

  function OwnAlive(p: Params, y: Tally): nat { if Metered(p.source) then y.alive else 0 }

  predicate StashOk(p: Params, stash: Stash, k: Key, y: Tally) {
    && (k in stash <==> y.count > 0)
    && (k in stash ==> stash[k] == Record(TrafficOf(p, y), OwnLoad(p, y), OwnAlive(p, y), y.time))
  }

  predicate ConnOk(p: Params, conns: Conns, k: Key, before: Carry, y: Tally) {
    && (k in conns <==> before.living > 0 || y.events > 0)
    && (k in conns ==>
          && k.tcpOrUdp && p.source.Packet?
          && conns[k].sum == before.living + y.news
          && conns[k].living == before.living + y.living
          && conns[k].time == (if y.events > 0 then y.seen else before.time))
  }

  function Max(a: int, b: int): int { if a < b then b else a }

  /** Data from eBPF, and other protocols than TCP and UDP, have no connections. */
  predicate Connects(p: Params, k: Key) { !p.source.EBPF? && k.tcpOrUdp }

  predicate RecordOk(p: Params, loaded: bool, records: map<Key, Record>, k: Key, before: Carry, y: Tally) {
    && (k in records <==> y.count > 0)
    && (k in records ==>
          && records[k].time == y.time && records[k].traffic == TrafficOf(p, y)
          && records[k].load == (if loaded && Connects(p, k) then Max(1, before.living + y.news) else OwnLoad(p, y))
          && records[k].flowCount ==
             (if Connects(p, k) then Max(0, records[k].load - TrafficOf(p, y).closedFlow) else OwnAlive(p, y)))
  }

  function CarryInto(p: Params, g: Gen, h: Hist, i: nat, k: Key): Carry
    requires p.Valid()
  {
    if i == 0 then CarryBefore(p, h, g.first, k) else Carry(0, 0)
  }

  ghost predicate SlotOk(p: Params, g: Gen, h: Hist, i: nat, k: Key)
    requires WellFormed(p, g) && i < p.slots
  {
    var y := TallyOf(p, h.log, g.first + i, k);
    && StashOk(p, g.stashes[i], k, y)
    && (g.conns.Some? ==> ConnOk(p, g.conns.value[i], k, CarryInto(p, g, h, i, k), y))
  }

  ghost predicate BatchOk(p: Params, loaded: bool, h: Hist, b: Batch, k: Key)
    requires p.Valid()
  {
    RecordOk(p, loaded, b.records, k, CarryBefore(p, h, b.slot, k), TallyOf(p, h.log, b.slot, k))
  }

  /** Every accepted flow is still in the ring or its slot has been flushed. */
  ghost predicate Placed(p: Params, g: Gen, h: Hist, f: Flow)
    requires p.Valid()
  {
    var e := SlotNumber(p, f.time);
    e < g.first + p.slots && (e < g.first ==> exists j :: 0 <= j < |g.out| && g.out[j].slot == e)
  }

  ghost predicate Increasing(out: seq<Batch>) {
    forall i, j :: 0 <= i < j < |out| ==> out[i].slot < out[j].slot
  }

  ghost predicate Inv(p: Params, g: Gen, h: Hist) {
    && WellFormed(p, g)
    && (forall i: nat, k: Key :: i < p.slots ==> SlotOk(p, g, h, i, k))
    && (forall j, k: Key :: 0 <= j < |g.out| ==> BatchOk(p, g.conns.Some?, h, g.out[j], k))
    && (forall j :: 0 <= j < |g.out| ==> g.out[j].slot < g.first && g.out[j].slot in h.flushed)
    && Increasing(g.out)
    && (forall f :: f in h.log ==> Placed(p, g, h, f))
    && (forall e :: e in h.flushed ==> e < g.first)
  }

  // ---------------------------------------------------------------- facts about the reference

  predicate TallySane(p: Params, y: Tally, e: nat, k: Key)
    requires p.Valid()
  {
    && y.news <= y.events <= y.count
    && (y.events > 0 ==> k.tcpOrUdp && p.source.Packet?)
    && (y.events == 0 ==> y.living == 0)
    && (y.count > 0 ==> SlotNumber(p, y.time) == e)
    && (y.count == 0 ==> y == NOTHING)
  }

  lemma {:induction false} TallyFacts(p: Params, log: seq<Flow>, e: nat, k: Key)
    requires p.Valid()
    ensures TallySane(p, TallyOf(p, log, e, k), e, k)
  {
    if log != [] { TallyFacts(p, log[..|log| - 1], e, k); }
  }

  lemma {:induction false} TallyEmpty(p: Params, log: seq<Flow>, e: nat, k: Key)
    requires p.Valid() && forall f :: f in log ==> SlotNumber(p, f.time) != e
    ensures TallyOf(p, log, e, k) == NOTHING
  {
    if log != [] {
      assert log[|log| - 1] in log;
      TallyEmpty(p, log[..|log| - 1], e, k);
    }
  }

  lemma TallySnoc(p: Params, log: seq<Flow>, f: Flow, e: nat, k: Key)
    requires p.Valid()
    ensures TallyOf(p, log + [f], e, k) ==
      if f.key == k && SlotNumber(p, f.time) == e then Add(p.source, TallyOf(p, log, e, k), f)
      else TallyOf(p, log, e, k)
  {
  }

  /** The carry into a slot depends only on the flows and flushes before it. */
  lemma {:induction false} CarryStable(p: Params, h: Hist, h': Hist, e: nat, k: Key)
    requires p.Valid()
    requires forall s: nat :: s < e ==> (s in h.flushed <==> s in h'.flushed)
    requires forall s: nat :: s < e && s in h.flushed ==> h.flushed[s] == h'.flushed[s]
    requires forall s: nat :: s < e ==> TallyOf(p, h.log, s, k) == TallyOf(p, h'.log, s, k)
    ensures CarryBefore(p, h, e, k) == CarryBefore(p, h', e, k)
  {
    if e > 0 { CarryStable(p, h, h', e - 1, k); }
  }

  lemma {:induction false} CarrySkips(p: Params, h: Hist, e: nat, e': nat, k: Key)
    requires p.Valid() && e <= e'
    requires forall s :: s in h.flushed ==> s < e
    ensures CarryBefore(p, h, e', k) == CarryBefore(p, h, e, k)
    decreases e'
  {
    if e < e' { CarrySkips(p, h, e, e' - 1, k); }
  }

  // ---------------------------------------------------------------- one slot at a time

  lemma {:induction false} FrontFinishes(p: Params, g: Gen, k: Key, before: Carry, y: Tally)
    requires WellFormed(p, g) && StashOk(p, g.stashes[0], k, y)
    requires g.conns.Some? ==> ConnOk(p, g.conns.value[0], k, before, y)
    requires TallySane(p, y, g.first, k)
    ensures RecordOk(p, g.conns.Some?, FinishedAll(p.source, Front(g), g.stashes[0]), k, before, y)
  {
  }

  lemma {:induction false} FrontCarries(p: Params, front: Conns, stash: Stash, next: Conns, t: nat, k: Key,
                                        before: Carry, y: Tally, y': Tally, e: nat)
    requires p.Valid() && TallySane(p, y, e, k) && TallySane(p, y', e + 1, k)
    requires StashOk(p, stash, k, y) && ConnOk(p, front, k, before, y) && ConnOk(p, next, k, Carry(0, 0), y')
    ensures ConnOk(p, Merged(next, Touched(p.source, front, stash), t), k, CarryOver(before, y, t), y')
  {
  }

  /** The history once slot `g.first` has been flushed by a move to time `t`. */
  function Flushed(h: Hist, e: nat, t: nat): Hist { h.(flushed := h.flushed[e := t]) }

  lemma CarryNext(p: Params, h: Hist, e: nat, t: nat, k: Key)
    requires p.Valid()
    ensures CarryBefore(p, Flushed(h, e, t), e + 1, k) == CarryOver(CarryBefore(p, h, e, k), TallyOf(p, h.log, e, k), t)
  {
    hide TallyOf, CarryOver;
    CarryStable(p, h, Flushed(h, e, t), e, k);
  }

  lemma {:induction false} ShiftSlot(p: Params, g: Gen, h: Hist, t: nat, i: nat, k: Key)
    requires Inv(p, g, h) && i < p.slots
    ensures SlotOk(p, Shift(p, g, t), Flushed(h, g.first, t), i, k)
  {
    var g' := Shift(p, g, t);
    assert forall f :: f in h.log ==> SlotNumber(p, f.time) < g.first + p.slots by {
      forall f | f in h.log ensures SlotNumber(p, f.time) < g.first + p.slots { assert Placed(p, g, h, f); }
    }
    if i == p.slots - 1 {
      TallyEmpty(p, h.log, g'.first + i, k);
    } else {
      assert g'.stashes[i] == g.stashes[i + 1];
      assert SlotOk(p, g, h, i + 1, k);
    }
    if g.conns.Some? && i == 0 { ShiftFrontConns(p, g, h, t, k); }
    hide TallyOf, CarryBefore, Merged, Touched, CarryOver;
  }

  lemma ShiftFrontConns(p: Params, g: Gen, h: Hist, t: nat, k: Key)
    requires Inv(p, g, h) && g.conns.Some?
    ensures var cs := g.conns.value;
      ConnOk(p, Merged(cs[1], Touched(p.source, cs[0], g.stashes[0]), t), k,
             CarryBefore(p, Flushed(h, g.first, t), g.first + 1, k), TallyOf(p, h.log, g.first + 1, k))
  {
    assert SlotOk(p, g, h, 0, k) && SlotOk(p, g, h, 1, k);
    hide Inv, TallyOf, CarryBefore, Merged, Touched, CarryOver, StashOk, ConnOk, TallySane;
    var cs := g.conns.value;
    TallyFacts(p, h.log, g.first, k);
    TallyFacts(p, h.log, g.first + 1, k);
    CarryNext(p, h, g.first, t, k);
    FrontCarries(p, cs[0], g.stashes[0], cs[1], t, k, CarryBefore(p, h, g.first, k),
                 TallyOf(p, h.log, g.first, k), TallyOf(p, h.log, g.first + 1, k), g.first);
  }

  lemma {:induction false} ShiftBatch(p: Params, g: Gen, h: Hist, t: nat, j: nat, k: Key)
    requires Inv(p, g, h) && j < |Shift(p, g, t).out|
    ensures BatchOk(p, g.conns.Some?, Flushed(h, g.first, t), Shift(p, g, t).out[j], k)
  {
    var h' := Flushed(h, g.first, t);
    if j < |g.out| {
      assert BatchOk(p, g.conns.Some?, h, g.out[j], k);
      CarryStable(p, h, h', g.out[j].slot, k);
    } else {
      assert SlotOk(p, g, h, 0, k);
      TallyFacts(p, h.log, g.first, k);
      CarryStable(p, h, h', g.first, k);
      FrontFinishes(p, g, k, CarryBefore(p, h, g.first, k), TallyOf(p, h.log, g.first, k));
    }
  }

  lemma {:induction false} ShiftPlaces(p: Params, g: Gen, h: Hist, t: nat, f: Flow)
    requires Inv(p, g, h) && f in h.log
    ensures Placed(p, Shift(p, g, t), Flushed(h, g.first, t), f)
  {
    var g' := Shift(p, g, t);
    var e := SlotNumber(p, f.time);
    assert Placed(p, g, h, f);
    if e == g.first {
      assert g'.out[|g.out|].slot == e;
    } else if e < g.first {
      var j :| 0 <= j < |g.out| && g.out[j].slot == e;
      assert g'.out[j].slot == e;
    }
  }

  lemma {:induction false} ShiftKeeps(p: Params, g: Gen, h: Hist, t: nat)
    requires Inv(p, g, h)
    ensures Inv(p, Shift(p, g, t), Flushed(h, g.first, t))
  {
    var g', h' := Shift(p, g, t), Flushed(h, g.first, t);
    forall i: nat, k: Key | i < p.slots ensures SlotOk(p, g', h', i, k) { ShiftSlot(p, g, h, t, i, k); }
    forall j, k: Key | 0 <= j < |g'.out| ensures BatchOk(p, g'.conns.Some?, h', g'.out[j], k) {
      ShiftBatch(p, g, h, t, j, k);
    }
    forall f | f in h'.log ensures Placed(p, g', h', f) { ShiftPlaces(p, g, h, t, f); }
  }

  function FlushedUpTo(h: Hist, first: nat, n: nat, t: nat): Hist {
    if n == 0 then h else Flushed(FlushedUpTo(h, first, n - 1, t), first + n - 1, t)
  }

  lemma InvShape(p: Params, g: Gen, h: Hist)
    requires Inv(p, g, h)
    ensures WellFormed(p, g)
  {
  }

  lemma {:induction false} ShiftsKeep(p: Params, g: Gen, h: Hist, t: nat, n: nat)
    requires Inv(p, g, h)
    ensures Inv(p, Shifts(p, g, t, n), FlushedUpTo(h, g.first, n, t))
    ensures FlushedUpTo(h, g.first, n, t).log == h.log
  {
    hide Inv, Shift;
    InvShape(p, g, h);
    if n > 0 {
      ShiftsKeep(p, g, h, t, n - 1);
      ShiftKeeps(p, Shifts(p, g, t, n - 1), FlushedUpTo(h, g.first, n - 1, t), t);
    }
  }

  // ---------------------------------------------------------------- a jump past the ring

  lemma {:induction false} JumpKeeps(p: Params, g: Gen, h: Hist, first: nat)
    requires Inv(p, g, h) && first >= g.first
    requires forall f :: f in h.log ==> SlotNumber(p, f.time) < g.first
    ensures Inv(p, g.(first := first), h)
  {
    var g' := g.(first := first);
    forall i: nat, k: Key | i < p.slots ensures SlotOk(p, g', h, i, k) {
      assert SlotOk(p, g, h, i, k);
      TallyEmpty(p, h.log, g.first + i, k);
      TallyEmpty(p, h.log, first + i, k);
      CarrySkips(p, h, g.first, first, k);
    }
    forall j, k: Key | 0 <= j < |g'.out| ensures BatchOk(p, g'.conns.Some?, h, g'.out[j], k) {
      assert BatchOk(p, g.conns.Some?, h, g.out[j], k);
    }
    forall f | f in h.log ensures Placed(p, g', h, f) { assert Placed(p, g, h, f); }
  }

  // ---------------------------------------------------------------- one flow

  lemma {:induction false} StashFlow(p: Params, stash: Stash, f: Flow, k: Key, y: Tally)
    requires StashOk(p, stash, k, y) && (y.count == 0 ==> y == NOTHING)
    ensures StashOk(p, Stashed(p.source, stash, f), k, if f.key == k then Add(p.source, y, f) else y)
  {
  }

  lemma {:induction false} ConnFlow(p: Params, conns: Conns, f: Flow, k: Key, before: Carry, y: Tally, e: nat)
    requires p.Valid() && ConnOk(p, conns, k, before, y) && TallySane(p, y, e, k)
    ensures ConnOk(p, Connected(p.source, conns, f), k, before, if f.key == k then Add(p.source, y, f) else y)
  {
  }

  lemma {:induction false} InjectSlot(p: Params, g: Gen, h: Hist, f: Flow, i: nat, k: Key)
    requires Inv(p, g, h) && i < p.slots
    requires Start(p, g) <= f.time && IndexOf(p, Start(p, g), f.time) < p.slots
    requires SlotNumber(p, f.time) == g.first + IndexOf(p, Start(p, g), f.time)
    ensures SlotOk(p, Inject(p, g, f), h.(log := h.log + [f]), i, k)
  {
    var h' := h.(log := h.log + [f]);
    assert SlotOk(p, g, h, i, k);
    TallySnoc(p, h.log, f, g.first + i, k);
    TallyFacts(p, h.log, g.first + i, k);
    CarryAfterFlow(p, h, f, g.first, k);
    var y := TallyOf(p, h.log, g.first + i, k);
    if i == IndexOf(p, Start(p, g), f.time) {
      StashFlow(p, g.stashes[i], f, k, y);
      if g.conns.Some? { ConnFlow(p, g.conns.value[i], f, k, CarryInto(p, g, h, i, k), y, g.first + i); }
      hide Stashed, Connected, TallyOf, CarryBefore, StashOk, ConnOk, Add;
    }
  }

  lemma {:induction false} CarryAfterFlow(p: Params, h: Hist, f: Flow, e: nat, k: Key)
    requires p.Valid() && SlotNumber(p, f.time) >= e
    ensures CarryBefore(p, h.(log := h.log + [f]), e, k) == CarryBefore(p, h, e, k)
  {
    forall s: nat | s < e ensures TallyOf(p, h.log + [f], s, k) == TallyOf(p, h.log, s, k) {
      TallySnoc(p, h.log, f, s, k);
    }
    CarryStable(p, h.(log := h.log + [f]), h, e, k);
  }

  lemma {:induction false} InjectKeeps(p: Params, g: Gen, h: Hist, f: Flow)
    requires Inv(p, g, h)
    requires Start(p, g) <= f.time && IndexOf(p, Start(p, g), f.time) < p.slots
    requires SlotNumber(p, f.time) == g.first + IndexOf(p, Start(p, g), f.time)
    ensures Inv(p, Inject(p, g, f), h.(log := h.log + [f]))
  {
    var g', h' := Inject(p, g, f), h.(log := h.log + [f]);
    forall i: nat, k: Key | i < p.slots ensures SlotOk(p, g', h', i, k) { InjectSlot(p, g, h, f, i, k); }
    forall j, k: Key | 0 <= j < |g'.out| ensures BatchOk(p, g'.conns.Some?, h', g'.out[j], k) {
      assert BatchOk(p, g.conns.Some?, h, g.out[j], k);
      TallySnoc(p, h.log, f, g.out[j].slot, k);
      CarryAfterFlow(p, h, f, g.out[j].slot, k);
    }
    forall x | x in h'.log ensures Placed(p, g', h', x) {
      if x in h.log { assert Placed(p, g, h, x); }
    }
  }

  // ---------------------------------------------------------------- every run

  datatype Input = Tick(time: nat) | Report(flow: Flow)

  function TimeOf(x: Input): nat { if x.Tick? then x.time else x.flow.time }

  /** One call of the generator: late input is counted and dropped, other input moves the window. */
  function Handle(p: Params, g: Gen, x: Input): (r: Gen)
    requires WellFormed(p, g)
    ensures WellFormed(p, r)
  {
    var t := TimeOf(x);
    if t < Start(p, g) then g.(dropped := g.dropped + 1)
    else
      MovedWindow(p, g, t);
      var m := Moved(p, g, t);
      if x.Tick? then m else Inject(p, m, x.flow)
  }

  function Recall(p: Params, g: Gen, h: Hist, x: Input): Hist
    requires WellFormed(p, g)
  {
    var t := TimeOf(x);
    if t < Start(p, g) then h
    else
      var moved := if t < Start(p, g) + p.delay then h
                   else FlushedUpTo(h, g.first, Min(SlotsToShift(p, Start(p, g), t), p.slots), t);
      if x.Tick? then moved else moved.(log := moved.log + [x.flow])
  }

  lemma LogInReach(p: Params, g: Gen, h: Hist)
    requires Inv(p, g, h)
    ensures forall f :: f in h.log ==> SlotNumber(p, f.time) < g.first + p.slots
  {
    forall f | f in h.log ensures SlotNumber(p, f.time) < g.first + p.slots { assert Placed(p, g, h, f); }
  }

  lemma {:induction false} MoveKeeps(p: Params, g: Gen, h: Hist, t: nat)
    requires Inv(p, g, h) && t >= Start(p, g)
    ensures Inv(p, Moved(p, g, t), Recall(p, g, h, Tick(t)))
    ensures Recall(p, g, h, Tick(t)).log == h.log
  {
    hide Inv, FlushedUpTo, SlotNumber, SlotsToShift, Shifts, Start;
    InvShape(p, g, h);
    if t >= Start(p, g) + p.delay {
      var n := SlotsToShift(p, Start(p, g), t);
      if n >= p.slots {
        ShiftsKeep(p, g, h, t, p.slots);
        LogInReach(p, g, h);
        JumpKeeps(p, Shifts(p, g, t, p.slots), FlushedUpTo(h, g.first, p.slots, t), g.first + n);
      } else {
        ShiftsKeep(p, g, h, t, n);
      }
    }
  }

  lemma {:induction false} HandleKeeps(p: Params, g: Gen, h: Hist, x: Input)
    requires Inv(p, g, h)
    ensures Inv(p, Handle(p, g, x), Recall(p, g, h, x))
  {
    var t := TimeOf(x);
    if t >= Start(p, g) {
      MovedWindow(p, g, t);
      MoveKeeps(p, g, h, t);
      if x.Report? { InjectKeeps(p, Moved(p, g, t), Recall(p, g, h, Tick(t)), x.flow); }
    } else {
      LateKeeps(p, g, h);
    }
  }

  lemma {:induction false} LateKeeps(p: Params, g: Gen, h: Hist)
    requires Inv(p, g, h)
    ensures Inv(p, g.(dropped := g.dropped + 1), h)
  {
    var g' := g.(dropped := g.dropped + 1);
    forall i: nat, k: Key | i < p.slots ensures SlotOk(p, g', h, i, k) { assert SlotOk(p, g, h, i, k); }
    forall f | f in h.log ensures Placed(p, g', h, f) { assert Placed(p, g, h, f); }
  }

  function Fresh(p: Params, first: nat, counting: bool): Gen {
    Gen(first, seq(p.slots, _ => map[]), if counting then Some(seq(p.slots, _ => map[])) else None, [], 0)
  }

  function Run(p: Params, g: Gen, xs: seq<Input>): (r: Gen)
    requires WellFormed(p, g)
    ensures WellFormed(p, r)
    decreases |xs|
  {
    if xs == [] then g else Run(p, Handle(p, g, xs[0]), xs[1..])
  }

  function History(p: Params, g: Gen, h: Hist, xs: seq<Input>): Hist
    requires WellFormed(p, g)
    decreases |xs|
  {
    if xs == [] then h else History(p, Handle(p, g, xs[0]), Recall(p, g, h, xs[0]), xs[1..])
  }

  const NO_HISTORY: Hist := Hist([], map[])

  lemma {:induction false} CarryNone(p: Params, e: nat, k: Key)
    requires p.Valid()
    ensures CarryBefore(p, NO_HISTORY, e, k) == Carry(0, 0)
  {
    if e > 0 { CarryNone(p, e - 1, k); }
  }

  lemma {:induction false} FreshInv(p: Params, first: nat, counting: bool)
    requires p.Valid()
    ensures Inv(p, Fresh(p, first, counting), NO_HISTORY)
  {
    forall k: Key ensures CarryBefore(p, NO_HISTORY, first, k) == Carry(0, 0) { CarryNone(p, first, k); }
  }

  lemma {:induction false} RunKeeps(p: Params, g: Gen, h: Hist, xs: seq<Input>)
    requires Inv(p, g, h)
    ensures Inv(p, Run(p, g, xs), History(p, g, h, xs))
    decreases |xs|
  {
    if xs != [] {
      HandleKeeps(p, g, h, xs[0]);
      RunKeeps(p, Handle(p, g, xs[0]), Recall(p, g, h, xs[0]), xs[1..]);
    }
  }

  /**
    In every run the generator is the group-by of the accepted flows on key and slot: a key is in a
    stash or batch exactly when it had flows there, with exactly their sums; every accepted flow is in
    the ring or in a batch, and no slot is emitted twice.
  */
  lemma EveryRunGroupsBy(p: Params, first: nat, counting: bool, xs: seq<Input>, k: Key)
    requires p.Valid()
    ensures var g, h := Run(p, Fresh(p, first, counting), xs), History(p, Fresh(p, first, counting), NO_HISTORY, xs);
      && (forall i: nat :: i < p.slots ==> StashOk(p, g.stashes[i], k, TallyOf(p, h.log, g.first + i, k)))
      && (forall j :: 0 <= j < |g.out| ==>
            RecordOk(p, counting, g.out[j].records, k,
                     CarryBefore(p, h, g.out[j].slot, k), TallyOf(p, h.log, g.out[j].slot, k)))
      && (forall f :: f in h.log ==> Placed(p, g, h, f))
      && Increasing(g.out)
  {
    var f0 := Fresh(p, first, counting);
    FreshInv(p, first, counting);
    RunKeeps(p, f0, NO_HISTORY, xs);
    CountingKept(p, f0, xs);
    var g, h := Run(p, f0, xs), History(p, f0, NO_HISTORY, xs);
    forall i: nat | i < p.slots ensures StashOk(p, g.stashes[i], k, TallyOf(p, h.log, g.first + i, k)) {
      assert SlotOk(p, g, h, i, k);
    }
    forall j | 0 <= j < |g.out|
      ensures RecordOk(p, counting, g.out[j].records, k,
                       CarryBefore(p, h, g.out[j].slot, k), TallyOf(p, h.log, g.out[j].slot, k))
    {
      assert BatchOk(p, g.conns.Some?, h, g.out[j], k);
    }
  }

  lemma {:induction false} ShiftsCounting(p: Params, g: Gen, t: nat, n: nat)
    requires WellFormed(p, g)
    ensures Shifts(p, g, t, n).conns.Some? == g.conns.Some?
  {
    if n > 0 { ShiftsCounting(p, g, t, n - 1); }
  }

  lemma {:induction false} CountingKept(p: Params, g: Gen, xs: seq<Input>)
    requires WellFormed(p, g)
    ensures Run(p, g, xs).conns.Some? == g.conns.Some?
    decreases |xs|
  {
    if xs != [] {
      var t := TimeOf(xs[0]);
      if t >= Start(p, g) + p.delay {
        ShiftsCounting(p, g, t, p.slots);
        ShiftsCounting(p, g, t, SlotsToShift(p, Start(p, g), t));
      }
      CountingKept(p, Handle(p, g, xs[0]), xs[1..]);
    }
  }

  // ---------------------------------------------------------------- the load without timeouts

  /** The fold the counters stand for: opened less closed, never below zero. */
  function LivingBefore(p: Params, log: seq<Flow>, e: nat, k: Key): nat
    requires p.Valid()
  {
    if e == 0 then 0
    else Max(0, LivingBefore(p, log, e - 1, k) + SumOf(p, log, e - 1, k, Opened) - SumOf(p, log, e - 1, k, Shut))
  }

  /** No flush forgot a living connection because its key had not been seen for too long. */
  ghost predicate NoTimeout(p: Params, h: Hist, k: Key)
    requires p.Valid()
  {
    forall e :: e in h.flushed ==> InTime(CarryBefore(p, h, e, k), TallyOf(p, h.log, e, k), h.flushed[e])
  }

  predicate InTime(before: Carry, y: Tally, t: nat) {
    before.living + y.living > 0 ==> t <= (if y.count > 0 then y.time else before.time) + 300
  }

  lemma {:induction false} CarryIsFold(p: Params, g: Gen, h: Hist, e: nat, k: Key)
    requires Inv(p, g, h) && NoTimeout(p, h, k) && e <= g.first
    ensures CarryBefore(p, h, e, k).living == LivingBefore(p, h.log, e, k)
    decreases e
  {
    if e > 0 {
      CarryIsFold(p, g, h, e - 1, k);
      TallyIsSum(p, h.log, e - 1, k);
      if e - 1 !in h.flushed {
        forall f | f in h.log ensures SlotNumber(p, f.time) != e - 1 { assert Placed(p, g, h, f); }
        TallyEmpty(p, h.log, e - 1, k);
      } else {
        assert InTime(CarryBefore(p, h, e - 1, k), TallyOf(p, h.log, e - 1, k), h.flushed[e - 1]);
      }
    }
  }

  /** Without timeouts the load of a record is the living connections before its slot plus its new ones, or one. */
  lemma EveryLoadIsFold(p: Params, first: nat, xs: seq<Input>, k: Key)
    requires p.Valid() && p.source.Packet? && k.tcpOrUdp
    requires NoTimeout(p, History(p, Fresh(p, first, true), NO_HISTORY, xs), k)
    ensures var g, h := Run(p, Fresh(p, first, true), xs), History(p, Fresh(p, first, true), NO_HISTORY, xs);
      forall j :: 0 <= j < |g.out| && k in g.out[j].records ==>
        g.out[j].records[k].load ==
          Max(1, LivingBefore(p, h.log, g.out[j].slot, k) + SumOf(p, h.log, g.out[j].slot, k, News))
  {
    var f0 := Fresh(p, first, true);
    FreshInv(p, first, true);
    RunKeeps(p, f0, NO_HISTORY, xs);
    CountingKept(p, f0, xs);
    var g, h := Run(p, f0, xs), History(p, f0, NO_HISTORY, xs);
    forall j | 0 <= j < |g.out| && k in g.out[j].records
      ensures g.out[j].records[k].load ==
        Max(1, LivingBefore(p, h.log, g.out[j].slot, k) + SumOf(p, h.log, g.out[j].slot, k, News))
    {
      assert BatchOk(p, g.conns.Some?, h, g.out[j], k);
      CarryIsFold(p, g, h, g.out[j].slot, k);
      TallyIsSum(p, h.log, g.out[j].slot, k);
    }
  }
}
