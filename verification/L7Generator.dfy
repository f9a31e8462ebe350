/**
  The application-layer generator: the same window as the quadruple generator, but meters wait in a
  slot until a flow for them arrives, and what never gets one is forgotten with its slot.
*/
module L7Generator {
  import opened Basics
  import opened Options
  import opened QuadrupleGenerator

  /**
    `other` stands for any further counter that merging adds up. `origin` lists the numbers of the reports
    the meter is made of; the generator never looks at it.
  */
  datatype AppMeter = AppMeter(request: nat, response: nat, other: nat, origin: seq<nat>)

  function AddMeters(a: AppMeter, b: AppMeter): AppMeter {
    AppMeter(a.request + b.request, a.response + b.response, a.other + b.other, a.origin + b.origin)
  }

  predicate Idle(m: AppMeter) { m.request == 0 && m.response == 0 }

  const UNKNOWN: nat := 0

  /** A meter waiting for its flow. */
  datatype Stat = Stat(meter: AppMeter, endpoint: nat, bizType: nat, timeSpan: nat, protocol: nat)

  /** A meter with its flow. */
  datatype AppRecord = AppRecord(flowId: nat, meter: AppMeter, endpoint: nat, bizType: nat, timeSpan: nat,
                                 protocol: nat, time: nat)

  /** `closed` is any close type but unknown and the forced report. */
  datatype TaggedFlow = TaggedFlow(closed: bool, statTime: nat)

  datatype L7Stats = L7Stats(flowId: nat, meter: AppMeter, endpoint: nat, bizType: nat, timeSpan: nat, protocol: nat,
                             time: nat, flow: Option<TaggedFlow>)

  datatype SlotStash = SlotStash(stats: map<nat, seq<Stat>>, meters: seq<AppRecord>)

  const EMPTY: SlotStash := SlotStash(map[], [])

  /** Why a meter is not in any record; kept to account for every one of them. */
  datatype Loss =
    | Late(flowId: nat, meter: AppMeter)
    | Replaced(flowId: nat, meter: AppMeter)
    | OtherProtocol(flowId: nat, meter: AppMeter)
    | NothingCounted(flowId: nat, meter: AppMeter)
    | Forgotten(stats: map<nat, seq<Stat>>)

  /**
    `out` is what has been sent, `closed` the records of closed flows waiting for the next send, and `seen`
    the number of reports so far, by which the next one is known.
  */
  datatype L7Gen = L7Gen(first: nat, stashes: seq<SlotStash>, out: seq<AppRecord>, closed: seq<AppRecord>, dropped: nat,
                         lost: seq<Loss>, seen: nat)

  predicate Sound(p: Params, g: L7Gen) { p.Valid() && |g.stashes| == p.slots }

  function Begins(p: Params, g: L7Gen): nat { g.first * p.interval }

  // ---------------------------------------------------------------- the window

  /** The oldest slot is sent, its waiting meters are forgotten, an empty slot follows. */
  function ShiftSlot(p: Params, g: L7Gen): L7Gen
    requires Sound(p, g)
  {
    g.(first := g.first + 1, stashes := g.stashes[1..] + [EMPTY], out := g.out + g.stashes[0].meters,
       lost := g.lost + [Forgotten(g.stashes[0].stats)])
  }

  function ShiftSlots(p: Params, g: L7Gen, n: nat): (r: L7Gen)
    requires Sound(p, g)
    ensures Sound(p, r) && r.first == g.first + n && r.dropped == g.dropped && r.closed == g.closed && r.seen == g.seen
  {
    if n == 0 then g else ShiftSlot(p, ShiftSlots(p, g, n - 1))
  }

  function MoveWindow(p: Params, g: L7Gen, t: nat): L7Gen
    requires Sound(p, g)
  {
    if t < Begins(p, g) + p.delay then g
    else
      var n := SlotsToShift(p, Begins(p, g), t);
      if n >= p.slots then ShiftSlots(p, g, p.slots).(first := g.first + n) else ShiftSlots(p, g, n)
  }

  // ---------------------------------------------------------------- one report

  /** How many slots before its report the request was. */
  function SpanOf(p: Params, x: L7Stats): int
    requires p.Valid() && x.timeSpan <= x.time
  {
    x.time / p.interval - (x.time - x.timeSpan) / p.interval
  }

  predicate Same(s: Stat, x: L7Stats, span: nat) {
    s.endpoint == x.endpoint && s.bizType == x.bizType && s.timeSpan == span
  }

  function NewStat(x: L7Stats, span: nat): Stat { Stat(x.meter, x.endpoint, x.bizType, span, x.protocol) }

  /** Equal protocols add up; an unknown one gives way with its counters; any other keeps the old meter. */
  function Blended(s: Stat, x: L7Stats): (Stat, seq<Loss>) {
    if x.protocol == s.protocol then (s.(meter := AddMeters(s.meter, x.meter)), [])
    else if s.protocol == UNKNOWN then (s.(protocol := x.protocol, meter := x.meter), [Replaced(x.flowId, s.meter)])
    else (s, [OtherProtocol(x.flowId, x.meter)])
  }

  /** Into the first stat of the same endpoint, type and span, or else behind them all. */
  function Gathered(ss: seq<Stat>, x: L7Stats, span: nat): (seq<Stat>, seq<Loss>) {
    if ss == [] then ([NewStat(x, span)], [])
    else if Same(ss[0], x, span) then
      var (s, lost) := Blended(ss[0], x);
      ([s] + ss[1..], lost)
    else
      var (rest, lost) := Gathered(ss[1..], x, span);
      ([ss[0]] + rest, lost)
  }

  function RecordOf(s: Stat, x: L7Stats, span: nat): AppRecord
    requires x.flow.Some?
  {
    AppRecord(x.flowId, s.meter, s.endpoint, s.bizType, span, s.protocol, x.flow.value.statTime)
  }

  /** Every waiting stat leaves with the flow that arrived, unless it has counted nothing. */
  function Drained(ss: seq<Stat>, x: L7Stats, span: nat): (seq<AppRecord>, seq<Loss>)
    requires x.flow.Some?
  {
    if ss == [] then ([], [])
    else
      var (rs, lost) := Drained(ss[..|ss| - 1], x, span);
      var s := ss[|ss| - 1];
      if Idle(s.meter) then (rs, lost + [NothingCounted(x.flowId, s.meter)])
      else (rs + [RecordOf(s, x, span)], lost)
  }

  /** A record of a closed flow waits beside the window; a full batch of them is sent. */
  function PushClosed(g: L7Gen, r: AppRecord): L7Gen {
    var closed := g.closed + [r];
    if |closed| >= QUEUE_BATCH_SIZE then g.(out := g.out + closed, closed := []) else g.(closed := closed)
  }

  function PushAllClosed(g: L7Gen, rs: seq<AppRecord>): (r: L7Gen)
    ensures r == g.(out := r.out, closed := r.closed)
    decreases |rs|
  {
    if rs == [] then g else PushClosed(PushAllClosed(g, rs[..|rs| - 1]), rs[|rs| - 1])
  }

  /** Records of closed flows leave beside the window, others with their slot. */
  function Deliver(g: L7Gen, i: nat, x: L7Stats, rs: seq<AppRecord>): L7Gen
    requires i < |g.stashes| && x.flow.Some?
  {
    if x.flow.value.closed then PushAllClosed(g, rs)
    else g.(stashes := g.stashes[i := g.stashes[i].(meters := g.stashes[i].meters + rs)])
  }

  function Put(g: L7Gen, i: nat, k: nat, ss: seq<Stat>): L7Gen
    requires i < |g.stashes|
  {
    g.(stashes := g.stashes[i := g.stashes[i].(stats := g.stashes[i].stats[k := ss])])
  }

  function Lose(g: L7Gen, lost: seq<Loss>): L7Gen { g.(lost := g.lost + lost) }

  function IntoSlot(g: L7Gen, i: nat, x: L7Stats, span: nat): L7Gen
    requires i < |g.stashes|
  {
    var k := x.flowId;
    if k in g.stashes[i].stats then
      var (ss, lost) := Gathered(g.stashes[i].stats[k], x, span);
      if x.flow.None? then Lose(Put(g, i, k, ss), lost)
      else
        var (rs, idle) := Drained(ss, x, span);
        Deliver(Lose(Lose(Put(g, i, k, []), lost), idle), i, x, rs)
    else if Idle(x.meter) then Lose(g, [NothingCounted(k, x.meter)])
    else if x.flow.None? then Put(g, i, k, [NewStat(x, span)])
    else Deliver(g, i, x, [RecordOf(NewStat(x, span), x, span)])
  }

  /** The slot of a report, capped at the last one. */
  function SlotFor(p: Params, g: L7Gen, t: nat): nat
    requires Sound(p, g) && t >= Begins(p, g)
  {
    Min((t - Begins(p, g)) / p.interval, |g.stashes| - 1)
  }

  function Overdue(g: L7Gen, x: L7Stats): L7Gen { Lose(g.(dropped := g.dropped + 1), [Late(x.flowId, x.meter)]) }

  function InjectAppMeter(p: Params, g: L7Gen, x: L7Stats): L7Gen
    requires Sound(p, g) && x.timeSpan <= x.time
  {
    if x.time < Begins(p, g) then Overdue(g, x)
    else
      SpanNatural(p, x);
      IntoSlot(g, SlotFor(p, g, x.time), x, SpanOf(p, x))
  }

  lemma SpanNatural(p: Params, x: L7Stats)
    requires p.Valid() && x.timeSpan <= x.time
    ensures SpanOf(p, x) >= 0
  {
    DivMono(x.time - x.timeSpan, x.time, p.interval);
  }

  lemma DivMono(a: nat, b: nat, d: nat)
    requires a <= b && d > 0
    ensures a / d <= b / d
  {
    DivStep(a, d);
    DivStep(b, d);
    QuotientMono(a, b, a / d, b / d, d);
  }

  lemma QuotientMono(a: nat, b: nat, q: nat, r: nat, d: nat)
    requires q * d <= a <= b < r * d + d
    ensures q <= r
  {
    Distrib(r, 1, d);
    if q > r { MulMono(r + 1, q, d); }
  }

  /** Once the window has moved for a time, the cap never changes its slot and the report is not late. */
  lemma CapIsIdle(p: Params, g: L7Gen, t: nat)
    requires Sound(p, g) && t >= Begins(p, g)
    ensures var m := MoveWindow(p, g, t);
      && Sound(p, m) && Begins(p, m) <= t < Begins(p, m) + p.delay
      && SlotFor(p, m, t) == (t - Begins(p, m)) / p.interval
      && t / p.interval == m.first + SlotFor(p, m, t)
  {
    var m := MoveWindow(p, g, t);
    assert m.first == NewFirst(p, g.first, t) && Sound(p, m);
    hide MoveWindow, NewFirst, SlotsToShift;
    OneMoveIsEnough(p, g.first, t);
    BelowRing(t - Begins(p, m), p.interval, p.slots);
    IndexIsSlotDifference(m.first, p.interval, t);
  }

  // ---------------------------------------------------------------- the span of a drained record

  /** The spans the stats that leave as records were gathered under. */
  function OwnSpans(ss: seq<Stat>): seq<nat> {
    if ss == [] then []
    else OwnSpans(ss[..|ss| - 1]) + (if Idle(ss[|ss| - 1].meter) then [] else [ss[|ss| - 1].timeSpan])
  }

  function Spans(rs: seq<AppRecord>): seq<nat> {
    if rs == [] then [] else Spans(rs[..|rs| - 1]) + [rs[|rs| - 1].timeSpan]
  }

  predicate SpansAre(ss: seq<Stat>, span: nat) {
    forall i :: 0 <= i < |ss| && !Idle(ss[i].meter) ==> ss[i].timeSpan == span
  }

  lemma {:induction false} DrainedLength(ss: seq<Stat>, x: L7Stats, span: nat)
    requires x.flow.Some?
    ensures |Spans(Drained(ss, x, span).0)| == |Drained(ss, x, span).0| == |OwnSpans(ss)|
  {
    if ss != [] {
      DrainedLength(ss[..|ss| - 1], x, span);
      var rs := Drained(ss[..|ss| - 1], x, span).0;
      assert (rs + [RecordOf(ss[|ss| - 1], x, span)])[..|rs|] == rs;
    }
  }

  /**
    Draining stamps every record with the span of the report that drains. The records keep the spans their
    stats were gathered under exactly when every stat that leaves has that span.
  */
  lemma {:induction false} DrainKeepsSpansIff(ss: seq<Stat>, x: L7Stats, span: nat)
    requires x.flow.Some?
    ensures Spans(Drained(ss, x, span).0) == OwnSpans(ss) <==> SpansAre(ss, span)
  {
    if ss != [] {
      var init, s := ss[..|ss| - 1], ss[|ss| - 1];
      var rs := Drained(init, x, span).0;
      DrainKeepsSpansIff(init, x, span);
      DrainedLength(init, x, span);
      assert SpansAre(ss, span) <==> SpansAre(init, span) && (!Idle(s.meter) ==> s.timeSpan == span);
      if !Idle(s.meter) {
        assert (rs + [RecordOf(s, x, span)])[..|rs|] == rs;
        SnocEqual(Spans(rs), span, OwnSpans(init), s.timeSpan);
      } else {
        assert OwnSpans(init) + [] == OwnSpans(init);
      }
    }
  }

  lemma SnocEqual(a: seq<nat>, x: nat, b: seq<nat>, y: nat)
    requires |a| == |b|
    ensures a + [x] == b + [y] <==> a == b && x == y
  {
    if a + [x] == b + [y] {
      assert a == (a + [x])[..|a|] == b;
      assert x == (a + [x])[|a|] == y;
    }
  }

  datatype Input = Tick(time: nat) | Report(stats: L7Stats) | SendClosed

  /** A report known by its number. */
  function Numbered(s: L7Stats, n: nat): L7Stats { s.(meter := s.meter.(origin := [n])) }

  /** One call of the generator, or the send of closed records after a batch. */
  function Handle(p: Params, g: L7Gen, x: Input): L7Gen
    requires Sound(p, g) && (x.Report? ==> x.stats.timeSpan <= x.stats.time)
  {
    match x
    case SendClosed => g.(out := g.out + g.closed, closed := [])
    case Tick(t) => if t < Begins(p, g) then g.(dropped := g.dropped + 1) else MoveWindow(p, g, t)
    case Report(s) =>
      var x, g' := Numbered(s, g.seen), g.(seen := g.seen + 1);
      if s.time < Begins(p, g) then Overdue(g', x)
      else
        CapIsIdle(p, g', s.time);
        InjectAppMeter(p, MoveWindow(p, g', s.time), x)
  }

  lemma HandleSound(p: Params, g: L7Gen, x: Input)
    requires Sound(p, g) && (x.Report? ==> x.stats.timeSpan <= x.stats.time)
    ensures Sound(p, Handle(p, g, x))
  {
  }

  lemma HandleSeen(p: Params, g: L7Gen, x: Input)
    requires Sound(p, g) && (x.Report? ==> x.stats.timeSpan <= x.stats.time)
    ensures Handle(p, g, x).seen == if x.Report? then g.seen + 1 else g.seen
  {
  }

  /**
    Such a state is reached by two calls: a report without a flow, then one of the same flow and slot with
    another span and the flow. Both meters leave, the first with a span that is not its own.
  */
  lemma FirstSpanIsLost(p: Params, g: L7Gen, x: L7Stats, y: L7Stats)
    requires Sound(p, g) && x.timeSpan <= x.time && y.timeSpan <= y.time && x.time == y.time && x.flowId == y.flowId
    requires Begins(p, g) <= x.time < Begins(p, g) + p.delay && x.flowId !in g.stashes[SlotFor(p, g, x.time)].stats
    requires !Idle(x.meter) && !Idle(y.meter) && x.flow.None? && y.flow.Some? && !y.flow.value.closed
    requires SpanOf(p, x) != SpanOf(p, y)
    ensures Sound(p, Handle(p, g, Report(x)))
    ensures var i, g' := SlotFor(p, g, x.time), Handle(p, Handle(p, g, Report(x)), Report(y));
      && |g'.stashes| > i && |g'.stashes[i].meters| == |g.stashes[i].meters| + 2
      && var r := g'.stashes[i].meters[|g.stashes[i].meters|];
         && r.meter == Numbered(x, g.seen).meter && r.timeSpan == SpanOf(p, y) && r.timeSpan != SpanOf(p, x)
  {
    var i, a, b := SlotFor(p, g, x.time), Numbered(x, g.seen), Numbered(y, g.seen + 1);
    SpanNatural(p, x);
    SpanNatural(p, y);
    var sx: nat, sy: nat := SpanOf(p, x), SpanOf(p, y);
    assert SpanOf(p, a) == sx && SpanOf(p, b) == sy;
    var g1 := Handle(p, g, Report(x));
    assert g1 == Put(g.(seen := g.seen + 1), i, x.flowId, [NewStat(a, sx)]);
    assert SlotFor(p, g1, y.time) == i && Begins(p, g1) == Begins(p, g);
    hide SlotFor, SpanOf, Begins;
    GatheredBehind(NewStat(a, sx), b, sy);
    DrainedPair(NewStat(a, sx), NewStat(b, sy), b, sy);
  }

  lemma DrainedSnoc(ss: seq<Stat>, s: Stat, x: L7Stats, span: nat)
    requires x.flow.Some? && !Idle(s.meter)
    ensures Drained(ss + [s], x, span) == (Drained(ss, x, span).0 + [RecordOf(s, x, span)], Drained(ss, x, span).1)
  {
    assert (ss + [s])[..|ss|] == ss;
  }

  lemma GatheredBehind(s: Stat, x: L7Stats, span: nat)
    requires !Same(s, x, span)
    ensures Gathered([s], x, span) == ([s, NewStat(x, span)], [])
  {
    assert [s][1..] == [];
    assert Gathered([], x, span) == ([NewStat(x, span)], []);
    assert [s] + [NewStat(x, span)] == [s, NewStat(x, span)];
  }

  lemma DrainedPair(s: Stat, t: Stat, x: L7Stats, span: nat)
    requires x.flow.Some? && !Idle(s.meter) && !Idle(t.meter)
    ensures Drained([s, t], x, span) == ([RecordOf(s, x, span), RecordOf(t, x, span)], [])
  {
    assert Drained([], x, span) == ([], []);
    assert [] + [s] == [s] && [s] + [t] == [s, t];
    DrainedSnoc([], s, x, span);
    DrainedSnoc([s], t, x, span);
    hide Drained, RecordOf;
    assert [] + [RecordOf(s, x, span)] + [RecordOf(t, x, span)] == [RecordOf(s, x, span), RecordOf(t, x, span)];
  }
}
