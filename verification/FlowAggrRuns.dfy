/**
  What every run of the aggregator keeps: slot by slot and flow by flow, what was sent and what is
  stashed is the plain grouping of the accepted reports.
*/
module FlowAggrRuns {
  import opened Options
  import opened FlowAggr

  // ---------------------------------------------------------------- the reference: grouping one flow's reports

  /** The groups a flow's reports fall into: a report that closes the flow ends one. */
  datatype Groups = Groups(closed: seq<Flow>, open: Option<Flow>)

  const NO_GROUPS: Groups := Groups([], None)

  function Feed(g: Groups, f: Flow): Groups {
    var x := match g.open case None => f case Some(o) => Merged(o, f);
    if x.forced then Groups(g.closed, Some(x)) else Groups(g.closed + [x], None)
  }

  predicate Is(f: Flow, id: nat, m: nat) { Timed(f) && f.id == id && MinuteStart(f) == m }

  /** The groups of flow `id` in minute start `m`, from the reports alone. */
  function GroupsOf(log: seq<Flow>, id: nat, m: nat): Groups {
    if log == [] then NO_GROUPS
    else
      var g, f := GroupsOf(log[..|log| - 1], id, m), log[|log| - 1];
      if Is(f, id, m) then Feed(g, f) else g
  }

  function AsSeq(o: Option<Flow>): seq<Flow> { match o case None => [] case Some(f) => [f] }

  /** What one send carries for a flow and minute start. */
  function Carried(s: Send, id: nat, m: nat): seq<Flow> {
    match s
    case One(f) => if Is(f, id, m) then [f] else []
    case Slot(flows) => if id in flows && Is(flows[id], id, m) then [flows[id]] else []
  }

  function SentFor(sent: seq<Send>, id: nat, m: nat): seq<Flow> {
    if sent == [] then [] else SentFor(sent[..|sent| - 1], id, m) + Carried(sent[|sent| - 1], id, m)
  }

  function Stashed(stash: map<nat, Flow>, id: nat): Option<Flow> { if id in stash then Some(stash[id]) else None }

  // ---------------------------------------------------------------- agreement

  /** Slots that have been passed have sent their open group too. */
  ghost predicate SentOk(a: Aggr, log: seq<Flow>, id: nat, m: nat) {
    var g := GroupsOf(log, id, m);
    SentFor(a.sent, id, m) == g.closed + (if m < a.start then AsSeq(g.open) else [])
  }

  ghost predicate SlotOk(a: Aggr, log: seq<Flow>, i: nat, id: nat)
    requires i < |a.stashes|
  {
    Stashed(a.stashes[i], id) == GroupsOf(log, id, a.start + i).open
  }

  predicate InReach(a: Aggr, f: Flow) { Timed(f) && MinuteStart(f) < a.start + |a.stashes| }

  ghost predicate Inv(a: Aggr, log: seq<Flow>) {
    && WellFormed(a)
    && (forall id: nat, m: nat :: SentOk(a, log, id, m))
    && (forall i: nat, id: nat :: i < |a.stashes| ==> SlotOk(a, log, i, id))
    && (forall f :: f in log ==> InReach(a, f))
  }

  lemma {:induction false} OpenFacts(log: seq<Flow>, id: nat, m: nat)
    ensures var o := GroupsOf(log, id, m).open; o.Some? ==> Is(o.value, id, m) && o.value.forced
  {
    if log != [] {
      OpenFacts(log[..|log| - 1], id, m);
      var g, f := GroupsOf(log[..|log| - 1], id, m), log[|log| - 1];
      if Is(f, id, m) && g.open.Some? { MergeKeepsMinute(g.open.value, f); }
      hide Merged;
    }
  }

  lemma {:induction false} GroupsEmpty(log: seq<Flow>, id: nat, m: nat)
    requires forall f :: f in log ==> !Is(f, id, m)
    ensures GroupsOf(log, id, m) == NO_GROUPS
  {
    if log != [] {
      assert log[|log| - 1] in log;
      GroupsEmpty(log[..|log| - 1], id, m);
    }
  }

  lemma GroupsSnoc(log: seq<Flow>, f: Flow, id: nat, m: nat)
    ensures GroupsOf(log + [f], id, m) == if Is(f, id, m) then Feed(GroupsOf(log, id, m), f) else GroupsOf(log, id, m)
  {
  }

  lemma SentSnoc(sent: seq<Send>, s: Send, id: nat, m: nat)
    ensures SentFor(sent + [s], id, m) == SentFor(sent, id, m) + Carried(s, id, m)
  {
  }

  // ---------------------------------------------------------------- rotating

  lemma RotateSent(a: Aggr, log: seq<Flow>, id: nat, m: nat)
    requires WellFormed(a) && SentOk(a, log, id, m) && (m == a.start ==> SlotOk(a, log, 0, id)) && FrontOk(a)
    ensures SentOk(Rotate(a), log, id, m)
  {
  }

  /** Flows of the oldest slot have its minute start. */
  ghost predicate FrontOk(a: Aggr)
    requires WellFormed(a)
  {
    forall id :: id in a.stashes[0] ==> Is(a.stashes[0][id], id, a.start)
  }

  lemma RotateSlot(a: Aggr, log: seq<Flow>, i: nat, id: nat)
    requires Inv(a, log) && i < |a.stashes|
    ensures SlotOk(Rotate(a), log, i, id)
  {
    if i < |a.stashes| - 1 {
      assert SlotOk(a, log, i + 1, id);
    } else {
      forall f | f in log ensures !Is(f, id, a.start + |a.stashes|) { assert InReach(a, f); }
      GroupsEmpty(log, id, a.start + |a.stashes|);
    }
    hide GroupsOf;
  }

  lemma RotateKeeps(a: Aggr, log: seq<Flow>)
    requires Inv(a, log)
    ensures Inv(Rotate(a), log)
  {
    forall id | id in a.stashes[0] ensures Is(a.stashes[0][id], id, a.start) {
      assert SlotOk(a, log, 0, id);
      OpenFacts(log, id, a.start);
    }
    forall id: nat, m: nat ensures SentOk(Rotate(a), log, id, m) {
      assert SentOk(a, log, id, m) && SlotOk(a, log, 0, id);
      RotateSent(a, log, id, m);
    }
    forall i: nat, id: nat | i < |a.stashes| ensures SlotOk(Rotate(a), log, i, id) { RotateSlot(a, log, i, id); }
    hide SentOk, SlotOk, Is;
    forall f | f in log ensures InReach(Rotate(a), f) { assert InReach(a, f); }
  }

  lemma {:induction false} RotatesKeep(a: Aggr, log: seq<Flow>, n: nat)
    requires Inv(a, log)
    ensures Inv(Rotates(a, n), log)
  {
    if n > 0 {
      RotatesKeep(a, log, n - 1);
      hide Inv;
      RotateKeeps(Rotates(a, n - 1), log);
    }
  }

  /** Past the whole ring nothing is stashed any more, so the start can jump. */
  lemma JumpKeeps(a: Aggr, log: seq<Flow>, start: nat)
    requires Inv(a, log) && start >= a.start
    requires forall f :: f in log ==> MinuteStartBelow(f, a.start)
    ensures Inv(a.(start := start), log)
  {
    var b := a.(start := start);
    forall id: nat, m: nat ensures SentOk(b, log, id, m) {
      assert SentOk(a, log, id, m);
      if m >= a.start { GroupsEmpty(log, id, m); }
    }
    forall i: nat, id: nat | i < |b.stashes| ensures SlotOk(b, log, i, id) {
      assert SlotOk(a, log, i, id);
      GroupsEmpty(log, id, a.start + i);
      GroupsEmpty(log, id, start + i);
    }
    hide SentOk, SlotOk, GroupsOf;
    forall f | f in log ensures InReach(b, f) { assert InReach(a, f); }
  }

  predicate MinuteStartBelow(f: Flow, t: nat) { Timed(f) && MinuteStart(f) < t }

  lemma FlushKeeps(a: Aggr, log: seq<Flow>, n: nat)
    requires Inv(a, log)
    ensures Inv(FlushSlots(a, n), log)
  {
    if n > |a.stashes| {
      var b := Rotates(a, |a.stashes|);
      RotatesKeep(a, log, |a.stashes|);
      forall f | f in log ensures MinuteStartBelow(f, b.start) { assert InReach(a, f); }
      hide Inv;
      JumpKeeps(b, log, a.start + n);
    } else {
      RotatesKeep(a, log, n);
    }
  }

  // ---------------------------------------------------------------- one report

  /** A report in place, seen from the reference. */
  lemma InsertMatches(a: Aggr, log: seq<Flow>, i: nat, f: Flow)
    requires i < |a.stashes| && SlotOk(a, log, i, f.id) && Is(f, f.id, a.start + i)
    ensures var g := Grown(a.stashes[i], f); var r := GroupsOf(log, f.id, a.start + i);
      && Is(g, f.id, a.start + i)
      && Feed(r, f) == if g.forced then Groups(r.closed, Some(g)) else Groups(r.closed + [g], None)
  {
    OpenFacts(log, f.id, a.start + i);
    if f.id in a.stashes[i] { MergeKeepsMinute(a.stashes[i][f.id], f); }
    hide Merged, GroupsOf;
  }

  lemma InsertSlot(a: Aggr, log: seq<Flow>, i: nat, f: Flow, j: nat, id: nat)
    requires i < |a.stashes| && j < |a.stashes| && Is(f, f.id, a.start + i)
    requires SlotOk(a, log, i, f.id) && SlotOk(a, log, j, id)
    ensures SlotOk(Insert(a, i, f), log + [f], j, id)
  {
  }

  lemma InsertSent(a: Aggr, log: seq<Flow>, i: nat, f: Flow, id: nat, m: nat)
    requires i < |a.stashes| && Is(f, f.id, a.start + i) && SlotOk(a, log, i, f.id) && SentOk(a, log, id, m)
    ensures SentOk(Insert(a, i, f), log + [f], id, m)
  {
    hide Grown, GroupsOf, Feed, MinuteStart, SentFor;
    var g := Grown(a.stashes[i], f);
    InsertMatches(a, log, i, f);
    GroupsSnoc(log, f, id, m);
    SentSnoc(a.sent, One(g), id, m);
    var closed := GroupsOf(log, id, m).closed;
    if Is(f, id, m) {
      assert SentFor(a.sent, id, m) == closed;
      assert closed + [g] + [] == closed + [g];
    } else {
      assert Carried(One(g), id, m) == [];
    }
  }

  lemma InsertKeeps(a: Aggr, log: seq<Flow>, i: nat, f: Flow)
    requires Inv(a, log) && i < |a.stashes| && Is(f, f.id, a.start + i)
    ensures Inv(Insert(a, i, f), log + [f])
  {
    var b := Insert(a, i, f);
    assert SlotOk(a, log, i, f.id);
    forall id: nat, m: nat ensures SentOk(b, log + [f], id, m) {
      assert SentOk(a, log, id, m);
      InsertSent(a, log, i, f, id, m);
    }
    forall j: nat, id: nat | j < |b.stashes| ensures SlotOk(b, log + [f], j, id) {
      assert SlotOk(a, log, j, id);
      InsertSlot(a, log, i, f, j, id);
    }
    hide SentOk, SlotOk, Grown;
    forall x | x in log + [f] ensures InReach(b, x) {
      if x in log { assert InReach(a, x); }
    }
  }

  // ---------------------------------------------------------------- every run

  /** A report, or a time-out after which the oldest slot is due. */
  datatype Input = Report(flow: Flow) | SlotDue

  predicate InputTimed(x: Input) { x.Report? ==> Timed(x.flow) }

  function Handle(a: Aggr, x: Input): (r: Aggr)
    requires WellFormed(a) && InputTimed(x)
    ensures |r.stashes| == |a.stashes|
  {
    match x
    case Report(f) => MinuteMerge(a, f)
    case SlotDue => Rotate(a)
  }

  function Recall(a: Aggr, log: seq<Flow>, x: Input): seq<Flow>
    requires InputTimed(x)
  {
    if x.Report? && MinuteStart(x.flow) >= a.start then log + [x.flow] else log
  }

  lemma DropKeeps(a: Aggr, log: seq<Flow>)
    requires Inv(a, log)
    ensures Inv(a.(dropped := a.dropped + 1), log)
  {
    var b := a.(dropped := a.dropped + 1);
    hide GroupsOf, SentFor, MinuteStart;
    forall id: nat, m: nat ensures SentOk(b, log, id, m) { assert SentOk(a, log, id, m); }
    forall j: nat, id: nat | j < |b.stashes| ensures SlotOk(b, log, j, id) { assert SlotOk(a, log, j, id); }
    forall x | x in log ensures InReach(b, x) { assert InReach(a, x); }
  }

  lemma ReachingKeeps(a: Aggr, log: seq<Flow>, t: nat)
    requires Inv(a, log) && t >= a.start
    ensures Inv(Reaching(a, t), log)
  {
    hide FlushSlots;
    if t - a.start >= |a.stashes| { FlushKeeps(a, log, t - a.start - |a.stashes| + 1); }
  }

  lemma HandleKeeps(a: Aggr, log: seq<Flow>, x: Input)
    requires Inv(a, log) && InputTimed(x)
    ensures Inv(Handle(a, x), Recall(a, log, x))
  {
    match x
    case SlotDue => RotateKeeps(a, log);
    case Report(f) =>
      var t := MinuteStart(f);
      hide MinuteStart;
      if t < a.start {
        DropKeeps(a, log);
      } else {
        ReachingWindow(a, t);
        ReachingKeeps(a, log, t);
        var b := Reaching(a, t);
        hide Reaching, Inv, Insert;
        InsertKeeps(b, log, t - b.start, f);
      }
  }

  function Run(a: Aggr, xs: seq<Input>): Aggr
    requires WellFormed(a) && forall x :: x in xs ==> InputTimed(x)
    decreases |xs|
  {
    if xs == [] then a else assert InputTimed(xs[0]); Run(Handle(a, xs[0]), xs[1..])
  }

  function Log(a: Aggr, log: seq<Flow>, xs: seq<Input>): seq<Flow>
    requires WellFormed(a) && forall x :: x in xs ==> InputTimed(x)
    decreases |xs|
  {
    if xs == [] then log else assert InputTimed(xs[0]); Log(Handle(a, xs[0]), Recall(a, log, xs[0]), xs[1..])
  }

  lemma {:induction false} RunKeeps(a: Aggr, log: seq<Flow>, xs: seq<Input>)
    requires Inv(a, log) && forall x :: x in xs ==> InputTimed(x)
    ensures Inv(Run(a, xs), Log(a, log, xs))
    decreases |xs|
  {
    if xs != [] {
      assert InputTimed(xs[0]);
      HandleKeeps(a, log, xs[0]);
      assert WellFormed(a);
      hide Inv, Recall, InputTimed;
      RunKeeps(Handle(a, xs[0]), Recall(a, log, xs[0]), xs[1..]);
    }
  }

  function Fresh(delay: nat): Aggr { Aggr(0, seq(60 + delay, _ => map[]), [], 0) }

  lemma FreshInv(delay: nat)
    ensures Inv(Fresh(delay), [])
  {
  }

  /**
    In every run, for every flow and minute start: the records sent are exactly the closed groups of
    its accepted reports, in order, followed by the open one once the slot has been sent; an open group
    of a slot still in the window is exactly what is stashed for it, and it is a forced report with the
    minute start of its slot.
  */
  lemma EveryRunGroups(delay: nat, xs: seq<Input>, id: nat, m: nat)
    requires forall x :: x in xs ==> InputTimed(x)
    ensures var a, log := Run(Fresh(delay), xs), Log(Fresh(delay), [], xs);
      var g := GroupsOf(log, id, m);
      && SentFor(a.sent, id, m) == g.closed + (if m < a.start then AsSeq(g.open) else [])
      && (a.start <= m < a.start + |a.stashes| ==> Stashed(a.stashes[m - a.start], id) == g.open)
      && (m >= a.start + |a.stashes| ==> g == NO_GROUPS)
      && (g.open.Some? ==> Is(g.open.value, id, m) && g.open.value.forced)
  {
    FreshInv(delay);
    RunKeeps(Fresh(delay), [], xs);
    var a, log := Run(Fresh(delay), xs), Log(Fresh(delay), [], xs);
    hide Run, Log;
    assert SentOk(a, log, id, m);
    if a.start <= m < a.start + |a.stashes| { assert SlotOk(a, log, m - a.start, id); }
    if m >= a.start + |a.stashes| {
      forall f | f in log ensures !Is(f, id, m) { assert InReach(a, f); }
      GroupsEmpty(log, id, m);
    }
    OpenFacts(log, id, m);
  }

  // ---------------------------------------------------------------- conservation

  /** Traffic as the end that first saw the flow would count it: what it sent, and what it got. */
  datatype Traffic = Traffic(forth: Counts, back: Counts)

  const NO_TRAFFIC: Traffic := Traffic(Counts(0, 0), Counts(0, 0))

  function Oriented(f: Flow): Traffic { if f.reversed then Traffic(f.peer1, f.peer0) else Traffic(f.peer0, f.peer1) }

  function AddTraffic(a: Traffic, b: Traffic): Traffic {
    Traffic(AddCounts(a.forth, b.forth), AddCounts(a.back, b.back))
  }

  function Total(fs: seq<Flow>): Traffic {
    if fs == [] then NO_TRAFFIC else AddTraffic(Total(fs[..|fs| - 1]), Oriented(fs[|fs| - 1]))
  }

  /** The accepted traffic of a flow in a minute start. */
  function Offered(log: seq<Flow>, id: nat, m: nat): Traffic {
    if log == [] then NO_TRAFFIC
    else
      var t, f := Offered(log[..|log| - 1], id, m), log[|log| - 1];
      if Is(f, id, m) then AddTraffic(t, Oriented(f)) else t
  }

  function Held(t: Traffic, o: Option<Flow>): Traffic {
    match o
    case None => t
    case Some(f) => AddTraffic(t, Oriented(f))
  }

  /** Turning a flow before merging keeps the two directions apart. */
  lemma MergeOriented(a: Flow, b: Flow)
    ensures Oriented(Merged(a, b)) == AddTraffic(Oriented(a), Oriented(b))
  {
  }

  lemma AddAssoc(a: Traffic, b: Traffic, c: Traffic)
    ensures AddTraffic(AddTraffic(a, b), c) == AddTraffic(a, AddTraffic(b, c))
  {
  }

  lemma TotalSnoc(fs: seq<Flow>, f: Flow)
    ensures Total(fs + [f]) == AddTraffic(Total(fs), Oriented(f))
  {
  }

  lemma FeedConserves(g: Groups, f: Flow, t: Traffic)
    requires Held(Total(g.closed), g.open) == t
    ensures Held(Total(Feed(g, f).closed), Feed(g, f).open) == AddTraffic(t, Oriented(f))
  {
    var x := match g.open case None => f case Some(o) => Merged(o, f);
    TotalSnoc(g.closed, x);
    if g.open.Some? {
      MergeOriented(g.open.value, f);
      AddAssoc(Total(g.closed), Oriented(g.open.value), Oriented(f));
    }
    hide Total, AddTraffic, Oriented, Merged;
  }

  lemma {:induction false} GroupsConserve(log: seq<Flow>, id: nat, m: nat)
    ensures Held(Total(GroupsOf(log, id, m).closed), GroupsOf(log, id, m).open) == Offered(log, id, m)
  {
    if log != [] {
      var g := GroupsOf(log[..|log| - 1], id, m);
      GroupsConserve(log[..|log| - 1], id, m);
      hide Total, AddTraffic, Feed, Is, Oriented;
      FeedConserves(g, log[|log| - 1], Offered(log[..|log| - 1], id, m));
    }
  }

  /** For every flow and minute start, traffic sent plus traffic stashed is the traffic accepted. */
  lemma EveryRunConserves(delay: nat, xs: seq<Input>, id: nat, m: nat)
    requires forall x :: x in xs ==> InputTimed(x)
    ensures var a, log := Run(Fresh(delay), xs), Log(Fresh(delay), [], xs);
      Held(Total(SentFor(a.sent, id, m)),
           if a.start <= m < a.start + |a.stashes| then Stashed(a.stashes[m - a.start], id) else None)
      == Offered(log, id, m)
  {
    EveryRunGroups(delay, xs, id, m);
    var a, log := Run(Fresh(delay), xs), Log(Fresh(delay), [], xs);
    hide Run, Log;
    var g := GroupsOf(log, id, m);
    GroupsConserve(log, id, m);
    if m < a.start && g.open.Some? {
      TotalSnoc(g.closed, g.open.value);
    } else {
      assert g.closed + [] == g.closed;
    }
    hide GroupsOf, SentFor, Total, Offered, AddTraffic, Oriented;
  }

  function Reports(xs: seq<Input>): nat {
    if xs == [] then 0 else (if xs[0].Report? then 1 else 0) + Reports(xs[1..])
  }

  lemma {:induction false} RunAccounts(a: Aggr, log: seq<Flow>, xs: seq<Input>)
    requires WellFormed(a) && forall x :: x in xs ==> InputTimed(x)
    ensures Run(a, xs).dropped + |Log(a, log, xs)| == a.dropped + |log| + Reports(xs)
    decreases |xs|
  {
    hide MinuteMerge, MinuteStart;
    if xs != [] {
      assert InputTimed(xs[0]);
      if xs[0].Report? { MergeDrops(a, xs[0].flow); }
      RunAccounts(Handle(a, xs[0]), Recall(a, log, xs[0]), xs[1..]);
    }
  }

  /** Over any run, with any time-outs: every report is accepted or counted as dropped, once. */
  lemma EveryRunAccounts(delay: nat, xs: seq<Input>)
    requires forall x :: x in xs ==> InputTimed(x)
    ensures Run(Fresh(delay), xs).dropped + |Log(Fresh(delay), [], xs)| == Reports(xs)
  {
    RunAccounts(Fresh(delay), [], xs);
  }

  lemma MergeDrops(a: Aggr, f: Flow)
    requires WellFormed(a) && Timed(f)
    ensures MinuteMerge(a, f).dropped == if MinuteStart(f) < a.start then a.dropped + 1 else a.dropped
  {
  }

  // ---------------------------------------------------------------- the groups, read off the reports

  /** The reports of one flow and minute start, cut behind every one that closes the flow. */
  datatype Cuts = Cuts(done: seq<seq<Flow>>, open: seq<Flow>)

  function CutsOf(log: seq<Flow>, id: nat, m: nat): Cuts {
    if log == [] then Cuts([], [])
    else
      var c, f := CutsOf(log[..|log| - 1], id, m), log[|log| - 1];
      if !Is(f, id, m) then c
      else if f.forced then Cuts(c.done, c.open + [f])
      else Cuts(c.done + [c.open + [f]], [])
  }

  /** What can be counted of a report, in the direction of the end that first saw the flow. */
  datatype Measure = ForthPackets | ForthBytes | BackPackets | BackBytes

  function Of(f: Flow, x: Measure): nat {
    match x
    case ForthPackets => if f.reversed then f.peer1.packets else f.peer0.packets
    case ForthBytes => if f.reversed then f.peer1.bytes else f.peer0.bytes
    case BackPackets => if f.reversed then f.peer0.packets else f.peer1.packets
    case BackBytes => if f.reversed then f.peer0.bytes else f.peer1.bytes
  }

  function SumOf(fs: seq<Flow>, x: Measure): nat {
    if fs == [] then 0 else SumOf(fs[..|fs| - 1], x) + Of(fs[|fs| - 1], x)
  }

  /** `r` is one record of the reports `fs`: named by the first, closed and turned like the last, with all counts. */
  ghost predicate SumsUp(r: Flow, fs: seq<Flow>) {
    && fs != []
    && r.id == fs[0].id && r.start == fs[0].start && r.stat == fs[0].stat
    && r.forced == fs[|fs| - 1].forced && r.reversed == fs[|fs| - 1].reversed
    && (forall x: Measure :: Of(r, x) == SumOf(fs, x))
  }

  lemma OneSumsUp(f: Flow)
    ensures SumsUp(f, [f])
  {
    forall x: Measure ensures Of(f, x) == SumOf([f], x) { assert [f][..0] == []; }
  }

  lemma MergeCounts(a: Flow, f: Flow, x: Measure)
    ensures Of(Merged(a, f), x) == Of(a, x) + Of(f, x)
  {
  }

  lemma MergedSumsUp(a: Flow, fs: seq<Flow>, f: Flow)
    requires SumsUp(a, fs)
    ensures SumsUp(Merged(a, f), fs + [f])
  {
    assert (fs + [f])[..|fs|] == fs;
    forall x: Measure ensures Of(Merged(a, f), x) == SumOf(fs + [f], x) { MergeCounts(a, f, x); }
  }

  /** The groups are the cuts, each summed up. */
  ghost predicate GroupsAre(g: Groups, c: Cuts) {
    && |g.closed| == |c.done| && (forall i :: 0 <= i < |c.done| ==> SumsUp(g.closed[i], c.done[i]))
    && (g.open.Some? <==> c.open != []) && (g.open.Some? ==> SumsUp(g.open.value, c.open))
  }

  lemma {:induction false} GroupsAreCuts(log: seq<Flow>, id: nat, m: nat)
    ensures GroupsAre(GroupsOf(log, id, m), CutsOf(log, id, m))
  {
    if log != [] {
      var init, f := log[..|log| - 1], log[|log| - 1];
      var g, c := GroupsOf(init, id, m), CutsOf(init, id, m);
      GroupsAreCuts(init, id, m);
      if Is(f, id, m) {
        if g.open.Some? {
          MergedSumsUp(g.open.value, c.open, f);
        } else {
          OneSumsUp(f);
          assert c.open + [f] == [f];
        }
      }
    }
  }

  /** How many of the reports of a flow and minute start close the flow. */
  function Closings(log: seq<Flow>, id: nat, m: nat): nat {
    if log == [] then 0
    else
      var f := log[|log| - 1];
      Closings(log[..|log| - 1], id, m) + (if Is(f, id, m) && !f.forced then 1 else 0)
  }

  /** Every cut ends with a report that closes the flow and has no other; the open one has none. */
  ghost predicate CutRight(c: Cuts) {
    && (forall i, j :: 0 <= i < |c.done| && 0 <= j < |c.done[i]| ==> (c.done[i][j].forced <==> j < |c.done[i]| - 1))
    && (forall j :: 0 <= j < |c.open| ==> c.open[j].forced)
  }

  lemma {:induction false} CutsAreRight(log: seq<Flow>, id: nat, m: nat)
    ensures |CutsOf(log, id, m).done| == Closings(log, id, m) && CutRight(CutsOf(log, id, m))
  {
    if log != [] { CutsAreRight(log[..|log| - 1], id, m); }
  }

  /**
    In every run, for every flow and minute start: one record is sent for every accepted report that closes the
    flow, at once, made of exactly the reports since the one before; the reports after the last of them are
    stashed as one while the slot is in the window, and sent as one with it.
  */
  lemma EveryRecordSumsUp(delay: nat, xs: seq<Input>, id: nat, m: nat)
    requires forall x :: x in xs ==> InputTimed(x)
    ensures var a, log := Run(Fresh(delay), xs), Log(Fresh(delay), [], xs);
      var c, sent := CutsOf(log, id, m), SentFor(a.sent, id, m);
      && |c.done| == Closings(log, id, m) && CutRight(c)
      && |sent| == |c.done| + (if m < a.start && c.open != [] then 1 else 0)
      && (forall i :: 0 <= i < |c.done| ==> SumsUp(sent[i], c.done[i]) && !sent[i].forced)
      && (m < a.start && c.open != [] ==> SumsUp(sent[|c.done|], c.open))
      && (a.start <= m < a.start + |a.stashes| ==>
            var s := Stashed(a.stashes[m - a.start], id);
            (s.Some? <==> c.open != []) && (s.Some? ==> SumsUp(s.value, c.open)))
  {
    hide Run, Log, GroupsOf, CutsOf, SumsUp, SentFor, Closings, Is;
    EveryRunGroups(delay, xs, id, m);
    var a, log := Run(Fresh(delay), xs), Log(Fresh(delay), [], xs);
    GroupsAreCuts(log, id, m);
    CutsAreRight(log, id, m);
    var c, g := CutsOf(log, id, m), GroupsOf(log, id, m);
    forall i | 0 <= i < |c.done| ensures SumsUp(SentFor(a.sent, id, m)[i], c.done[i]) {
      assert SumsUp(g.closed[i], c.done[i]);
    }
    ClosedRecords(g, c);
  }

  lemma ClosedRecords(g: Groups, c: Cuts)
    requires GroupsAre(g, c) && CutRight(c)
    ensures forall i :: 0 <= i < |c.done| ==> !g.closed[i].forced
  {
    forall i | 0 <= i < |c.done| ensures !g.closed[i].forced { assert SumsUp(g.closed[i], c.done[i]); }
  }
}
