/**
  The sliding window of the quadruple generator: a ring of per-slot stashes and, beside it, a ring
  of connection counters whose living connections are carried into the next slot.

  Times are whole seconds: the window start is one, so comparing and truncating a time with a
  fraction gives the same result as truncating it first.
*/
module QuadrupleGenerator {
  import opened Basics
  import opened Options
  import opened Minutes

  const CONCURRENT_TIMEOUT: nat := 300

  /** A quadruple key; whether it is TCP or UDP is one of the fields packed into it. */
  datatype Key = Key(tcpOrUdp: bool, id: nat)

  datatype Traffic = Traffic(packetTx: nat, packetRx: nat, byteTx: nat, byteRx: nat, newFlow: nat, closedFlow: nat)

  const NO_TRAFFIC: Traffic := Traffic(0, 0, 0, 0, 0, 0)

  function Plus(a: Traffic, b: Traffic): Traffic {
    Traffic(a.packetTx + b.packetTx, a.packetRx + b.packetRx, a.byteTx + b.byteTx, a.byteRx + b.byteRx,
            a.newFlow + b.newFlow, a.closedFlow + b.closedFlow)
  }

  /** A flow report; `closed` is any close type but the forced periodic report. */
  datatype Flow = Flow(key: Key, time: nat, isNew: bool, closed: bool, packetTx: nat, packetRx: nat,
                       byteTx: nat, byteRx: nat)

  function Meter(f: Flow): Traffic {
    Traffic(f.packetTx, f.packetRx, f.byteTx, f.byteRx, if f.isNew then 1 else 0, if f.closed then 1 else 0)
  }

  datatype Record = Record(traffic: Traffic, load: nat, flowCount: nat, time: nat)

  datatype Conn = Conn(sum: int, living: int, time: nat)

  type Stash = map<Key, Record>
  type Conns = map<Key, Conn>

  /** What one flush of a slot hands to the collector; the order inside a batch is that of a hash map. */
  datatype Batch = Batch(slot: nat, records: map<Key, Record>)

  /** One kind of generator; `source` is the single kind of data it is fed. */
  datatype Params = Params(source: Source, interval: nat, slots: nat, delay: nat) {
    predicate Valid() { 0 < interval <= delay <= slots * interval && slots >= 2 }
  }

  /** `first` is the number of the oldest slot of the ring: the window starts `first` intervals after time zero. */
  datatype Gen = Gen(first: nat, stashes: seq<Stash>, conns: Option<seq<Conns>>, out: seq<Batch>, dropped: nat)

  function Start(p: Params, g: Gen): nat { g.first * p.interval }

  predicate WellFormed(p: Params, g: Gen) {
    && p.Valid()
    && |g.stashes| == p.slots
    && (g.conns.Some? ==> |g.conns.value| == p.slots)
  }

  // ---------------------------------------------------------------- the two kinds of window

  function SecondParams(source: Source, delay: nat): Params { Params(source, 1, delay, delay) }

  function MinuteParams(source: Source, delay: nat): Params { Params(source, 60, 2, ResetDelaySeconds(delay)) }

  lemma BothWindowsValid(source: Source, delay: nat)
    ensures MinuteParams(source, delay).Valid()
    ensures MinuteParams(source, delay).interval == 60 && MinuteParams(source, delay).slots == 2
    ensures SecondParams(source, delay).Valid() <==> delay >= 2
    ensures SecondParams(source, delay).interval == 1 && SecondParams(source, delay).slots == delay
  {
  }

  // ---------------------------------------------------------------- accumulation

  function Metered(s: Source): bool { s.Packet? || s.XFlow? }

  function Monus(a: nat, b: nat): nat { if a > b then a - b else 0 }

  function MergeFlow(s: Source, r: Record, f: Flow): Record {
    if Metered(s) then
      var load := r.flowCount + Meter(f).newFlow;
      Record(Plus(r.traffic, Meter(f)), load, Monus(load, Meter(f).closedFlow), f.time)
    else r.(time := f.time)
  }

  function Stashed(s: Source, stash: Stash, f: Flow): Stash {
    stash[f.key := if f.key in stash then MergeFlow(s, stash[f.key], f) else Record(Meter(f), 0, 0, f.time)]
  }

  function Counted(s: Source, f: Flow): bool { f.key.tcpOrUdp && s.Packet? && (f.isNew || f.closed) }

  function NewOpen(f: Flow): bool { f.isNew && !f.closed }

  function Living(f: Flow): int { if NewOpen(f) then 1 else if f.closed && !f.isNew then -1 else 0 }

  function Connected(s: Source, conns: Conns, f: Flow): Conns {
    if !Counted(s, f) then conns
    else
      var c := if f.key in conns then conns[f.key] else Conn(0, 0, 0);
      conns[f.key := Conn(c.sum + (if f.isNew then 1 else 0), c.living + Living(f), f.time)]
  }

  // ---------------------------------------------------------------- flushing one slot

  function LoadOf(conns: Conns, k: Key): nat {
    if k in conns && conns[k].sum > 0 then conns[k].sum else 1
  }

  /** The record as it leaves: its load is read off the connection table. */
  function Finished(s: Source, conns: Option<Conns>, k: Key, r: Record): Record {
    if s.EBPF? || !k.tcpOrUdp then r
    else
      var load := if conns.Some? then LoadOf(conns.value, k) else r.load;
      r.(load := load, flowCount := Monus(load, r.traffic.closedFlow))
  }

  function FinishedAll(s: Source, conns: Option<Conns>, stash: Stash): map<Key, Record> {
    map k | k in stash :: Finished(s, conns, k, stash[k])
  }

  /** Reading the load refreshes the time of the entry. */
  function TouchedEntry(s: Source, c: Conn, stash: Stash, k: Key): Conn {
    if !s.EBPF? && k.tcpOrUdp && k in stash then c.(time := stash[k].time) else c
  }

  function Touched(s: Source, conns: Conns, stash: Stash): Conns {
    map k | k in conns :: TouchedEntry(s, conns[k], stash, k)
  }

  predicate Carries(front: Conns, k: Key, t: nat) {
    k in front && t <= front[k].time + CONCURRENT_TIMEOUT && front[k].living > 0
  }

  function MergedEntry(next: Conns, front: Conns, t: nat, k: Key): Conn
    requires k in next || Carries(front, k, t)
  {
    if !Carries(front, k, t) then next[k]
    else if k in next then Conn(next[k].sum + front[k].living, next[k].living + front[k].living, next[k].time)
    else Conn(front[k].living, front[k].living, front[k].time)
  }

  /** The next slot's table once the living connections of the flushed one are added to it. */
  function Merged(next: Conns, front: Conns, t: nat): Conns {
    map k | k in next.Keys + front.Keys && (k in next || Carries(front, k, t)) :: MergedEntry(next, front, t, k)
  }

  /** The simple form of moving on by one slot: flush the oldest, carry, append an empty one. */
  function Shift(p: Params, g: Gen, t: nat): Gen
    requires WellFormed(p, g)
  {
    Gen(g.first + 1, g.stashes[1..] + [map[]], ShiftConns(p, g, t),
        g.out + [Batch(g.first, FinishedAll(p.source, Front(g), g.stashes[0]))], g.dropped)
  }

  function Front(g: Gen): Option<Conns>
    requires g.conns.Some? ==> g.conns.value != []
  {
    if g.conns.Some? then Some(g.conns.value[0]) else None
  }

  function ShiftConns(p: Params, g: Gen, t: nat): Option<seq<Conns>>
    requires WellFormed(p, g)
  {
    match g.conns
    case None => None
    case Some(cs) => Some([Merged(cs[1], Touched(p.source, cs[0], g.stashes[0]), t)] + cs[2..] + [map[]])
  }

  function Shifts(p: Params, g: Gen, t: nat, n: nat): (r: Gen)
    requires WellFormed(p, g)
    ensures WellFormed(p, r) && r.first == g.first + n && r.dropped == g.dropped
  {
    if n == 0 then g else Shift(p, Shifts(p, g, t, n - 1), t)
  }

  function SlotsToShift(p: Params, start: nat, t: nat): nat
    requires p.Valid() && t >= start + p.delay
  {
    (t - start - p.delay) / p.interval + 1
  }

  /** The window moved on so that `t` fits: slot by slot, or all slots at once and then a jump. */
  function Moved(p: Params, g: Gen, t: nat): Gen
    requires WellFormed(p, g)
  {
    if t < Start(p, g) + p.delay then g
    else
      var n := SlotsToShift(p, Start(p, g), t);
      if n >= p.slots then Shifts(p, g, t, p.slots).(first := g.first + n) else Shifts(p, g, t, n)
  }

  /** The ring index of a time that is inside the window. */
  function IndexOf(p: Params, start: nat, t: nat): nat
    requires p.Valid() && t >= start
  {
    (t - start) / p.interval
  }

  function Inject(p: Params, g: Gen, f: Flow): Gen
    requires WellFormed(p, g) && Start(p, g) <= f.time && IndexOf(p, Start(p, g), f.time) < p.slots
  {
    var i := IndexOf(p, Start(p, g), f.time);
    g.(stashes := g.stashes[i := Stashed(p.source, g.stashes[i], f)],
       conns := match g.conns
                case None => None
                case Some(cs) => Some(cs[i := Connected(p.source, cs[i], f)]))
  }

  // ---------------------------------------------------------------- window arithmetic

  lemma DivStep(a: nat, d: nat)
    requires d > 0
    ensures a / d * d <= a < a / d * d + d
  {
  }

  lemma Distrib(a: nat, b: nat, c: nat)
    ensures (a + b) * c == a * c + b * c
  {
  }

  lemma MulMono(a: nat, b: nat, c: nat)
    requires a <= b
    ensures a * c <= b * c
  {
  }

  lemma BelowRing(a: nat, interval: nat, slots: nat)
    requires interval > 0 && a < slots * interval
    ensures a / interval < slots
  {
  }

  /** The quotient is fixed by the multiples around a number. */
  lemma QuotientUnique(a: nat, q: nat, d: nat)
    requires d > 0 && q * d <= a < q * d + d
    ensures a / d == q
  {
    DivStep(a, d);
    if a / d < q {
      MulMono(a / d + 1, q, d);
      Distrib(a / d, 1, d);
    } else if a / d > q {
      MulMono(q + 1, a / d, d);
      Distrib(q, 1, d);
    }
  }

  /** The ring index of a time is its slot number less the number of the oldest slot. */
  lemma IndexIsSlotDifference(first: nat, interval: nat, t: nat)
    requires interval > 0 && t >= first * interval
    ensures t / interval == first + (t - first * interval) / interval
  {
    var i := (t - first * interval) / interval;
    DivStep(t - first * interval, interval);
    Distrib(first, i, interval);
    QuotientUnique(t, first + i, interval);
  }

  /** Where the window starts, in slots, once it has moved for time `t`. */
  function NewFirst(p: Params, first: nat, t: nat): nat
    requires p.Valid()
  {
    if t < first * p.interval + p.delay then first else first + SlotsToShift(p, first * p.interval, t)
  }

  lemma {:induction false} OneMoveIsEnough(p: Params, first: nat, t: nat)
    requires p.Valid() && t >= first * p.interval
    ensures NewFirst(p, first, t) * p.interval <= t < NewFirst(p, first, t) * p.interval + p.delay
  {
  }

  /** A move for time `t` closes exactly the slots that end, delay included, by then. */
  lemma MoveCloses(p: Params, first: nat, t: nat, e: nat)
    requires p.Valid() && t >= first * p.interval
    ensures e < NewFirst(p, first, t) <==> e < first || e * p.interval + p.delay <= t
  {
    OneMoveIsEnough(p, first, t);
    var f := NewFirst(p, first, t);
    if e < f {
      if first < f { MoveIsLeast(p, first, t); MulMono(e, f - 1, p.interval); }
    } else {
      MulMono(f, e, p.interval);
    }
    hide NewFirst;
  }

  lemma MoveIsLeast(p: Params, first: nat, t: nat)
    requires p.Valid() && first < NewFirst(p, first, t)
    ensures (NewFirst(p, first, t) - 1) * p.interval + p.delay <= t
  {
    var d := t - first * p.interval - p.delay;
    DivStep(d, p.interval);
    Distrib(first, d / p.interval, p.interval);
  }

  /**
    After a move the time lies in the window, one move is enough, the start is again a whole number
    of intervals, and the slot of the time is inside the ring.
  */
  lemma {:induction false} MovedWindow(p: Params, g: Gen, t: nat)
    requires WellFormed(p, g) && t >= Start(p, g)
    ensures WellFormed(p, Moved(p, g, t)) && Moved(p, g, t).first == NewFirst(p, g.first, t) >= g.first
    ensures Start(p, Moved(p, g, t)) <= t < Start(p, Moved(p, g, t)) + p.delay
    ensures IndexOf(p, Start(p, Moved(p, g, t)), t) < p.slots
    ensures t / p.interval == Moved(p, g, t).first + IndexOf(p, Start(p, Moved(p, g, t)), t)
  {
    var m := Moved(p, g, t);
    assert m.first == NewFirst(p, g.first, t);
    hide Moved, NewFirst, SlotsToShift;
    OneMoveIsEnough(p, g.first, t);
    BelowRing(t - Start(p, m), p.interval, p.slots);
    IndexIsSlotDifference(m.first, p.interval, t);
  }
}
