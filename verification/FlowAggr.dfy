/**
  The minute flow aggregator: one slot per second of minute start, flows of one id merged inside a
  slot until a report that closes the flow, or the slot itself, is sent. Merging of health checks is
  switched off.
*/
module FlowAggr {
  import opened Minutes

  datatype Counts = Counts(packets: nat, bytes: nat)

  /** A flow report; `forced` is the periodic report of a flow that goes on. */
  datatype Flow = Flow(id: nat, start: nat, stat: nat, forced: bool, reversed: bool, peer0: Counts, peer1: Counts)

  /** Times for which the minute start does not go below zero. */
  predicate Timed(f: Flow) { f.stat >= f.start % SECONDS_IN_MINUTE }

  function MinuteStart(f: Flow): nat
    requires Timed(f)
  {
    var second := f.start % SECONDS_IN_MINUTE;
    (f.stat - second) / SECONDS_IN_MINUTE * SECONDS_IN_MINUTE + second
  }

  function AddCounts(a: Counts, b: Counts): Counts { Counts(a.packets + b.packets, a.bytes + b.bytes) }

  function Reversed(f: Flow): Flow { f.(reversed := !f.reversed, peer0 := f.peer1, peer1 := f.peer0) }

  function SequentialMerge(a: Flow, b: Flow): Flow {
    a.(peer0 := AddCounts(a.peer0, b.peer0), peer1 := AddCounts(a.peer1, b.peer1),
       forced := b.forced, reversed := b.reversed)
  }

  /** A stashed flow with one more report of it, turned first if the two were seen from different ends. */
  function Merged(a: Flow, b: Flow): Flow {
    SequentialMerge(if a.reversed != b.reversed then Reversed(a) else a, b)
  }

  /** A flow with one more report, if it was already stashed. */
  function Grown(stash: map<nat, Flow>, f: Flow): Flow {
    if f.id in stash then Merged(stash[f.id], f) else f
  }

  /** What is handed to the sender: a flow that closed, or a whole slot in the order of a hash map. */
  datatype Send = One(flow: Flow) | Slot(flows: map<nat, Flow>)

  datatype Aggr = Aggr(start: nat, stashes: seq<map<nat, Flow>>, sent: seq<Send>, dropped: nat)

  predicate WellFormed(a: Aggr) { a.stashes != [] }

  /** The oldest slot is sent and an empty one is put at the end. */
  function Rotate(a: Aggr): Aggr
    requires WellFormed(a)
  {
    Aggr(a.start + 1, a.stashes[1..] + [map[]], a.sent + [Slot(a.stashes[0])], a.dropped)
  }

  function Rotates(a: Aggr, n: nat): (r: Aggr)
    requires WellFormed(a)
    ensures |r.stashes| == |a.stashes| && r.start == a.start + n && r.dropped == a.dropped
  {
    if n == 0 then a else Rotate(Rotates(a, n - 1))
  }

  /** At most every slot once; what is left of the distance is a jump. */
  function FlushSlots(a: Aggr, n: nat): Aggr
    requires WellFormed(a)
  {
    if n > |a.stashes| then Rotates(a, |a.stashes|).(start := a.start + n) else Rotates(a, n)
  }

  /** The aggregator once its window reaches time `t`. */
  function Reaching(a: Aggr, t: nat): Aggr
    requires WellFormed(a) && t >= a.start
  {
    if t - a.start >= |a.stashes| then FlushSlots(a, t - a.start - |a.stashes| + 1) else a
  }

  /** A report into slot `i`. */
  function Insert(a: Aggr, i: nat, f: Flow): Aggr
    requires i < |a.stashes|
  {
    var stash := a.stashes[i];
    var g := Grown(stash, f);
    if g.forced then a.(stashes := a.stashes[i := stash[f.id := g]])
    else a.(stashes := a.stashes[i := stash - {f.id}], sent := a.sent + [One(g)])
  }

  function MinuteMerge(a: Aggr, f: Flow): Aggr
    requires WellFormed(a) && Timed(f)
  {
    var t := MinuteStart(f);
    if t < a.start then a.(dropped := a.dropped + 1)
    else
      var b := Reaching(a, t);
      Insert(b, if t - a.start >= |a.stashes| then |a.stashes| - 1 else t - a.start, f)
  }

  // ---------------------------------------------------------------- window facts

  lemma ReachingWindow(a: Aggr, t: nat)
    requires WellFormed(a) && t >= a.start
    ensures var b := Reaching(a, t);
      && |b.stashes| == |a.stashes| && a.start <= b.start <= t < b.start + |b.stashes|
      && t - b.start == (if t - a.start >= |a.stashes| then |a.stashes| - 1 else t - a.start)
  {
  }

  /** The minute start of a report is congruent to its start and at most its statistics time. */
  lemma MinuteStartBounds(f: Flow)
    requires Timed(f)
    ensures MinuteStart(f) % SECONDS_IN_MINUTE == f.start % SECONDS_IN_MINUTE
    ensures MinuteStart(f) <= f.stat < MinuteStart(f) + SECONDS_IN_MINUTE
  {
  }

  lemma MergeKeepsMinute(a: Flow, b: Flow)
    requires Timed(a)
    ensures Timed(Merged(a, b)) && MinuteStart(Merged(a, b)) == MinuteStart(a) && Merged(a, b).id == a.id
  {
  }
}
