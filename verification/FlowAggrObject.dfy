/** The minute flow aggregator as the object whose fields the agent updates. */
module FlowAggrObject {
  import opened Minutes
  import Seqs
  import opened FlowAggr

  /** `fs` holds every flow of a slot once, in the order of some traversal of the map. */
  ghost predicate Enumerates(fs: seq<Flow>, flows: map<nat, Flow>)
    decreases |fs|
  {
    if fs == [] then flows == map[]
    else exists k :: k in flows && flows[k] == fs[0] && Enumerates(fs[1..], flows - {k})
  }

  ghost predicate Lists(handed: seq<Flow>, sent: seq<Send>)
    decreases |sent|
  {
    if sent == [] then handed == []
    else
      exists n | 0 <= n <= |handed| :: Lists(handed[..n], sent[..|sent| - 1]) && Expands(handed[n..], sent[|sent| - 1])
  }

  ghost predicate Expands(fs: seq<Flow>, s: Send) {
    match s
    case One(f) => fs == [f]
    case Slot(flows) => Enumerates(fs, flows)
  }

  lemma ListsOneMore(handed: seq<Flow>, sent: seq<Send>, fs: seq<Flow>, s: Send)
    requires Lists(handed, sent) && Expands(fs, s)
    ensures Lists(handed + fs, sent + [s])
  {
    var n := |handed|;
    assert (handed + fs)[..n] == handed && (handed + fs)[n..] == fs;
    assert (sent + [s])[..|sent|] == sent;
    hide Expands;
  }

  /** Whatever lists the rest, `fs` before it lists the whole slot. */
  ghost predicate Leads(fs: seq<Flow>, flows: map<nat, Flow>, rest: map<nat, Flow>) {
    forall tail :: Enumerates(tail, rest) ==> Enumerates(fs + tail, flows)
  }

  lemma LeadsStart(flows: map<nat, Flow>)
    ensures Leads([], flows, flows)
  {
    forall tail | Enumerates(tail, flows) ensures Enumerates([] + tail, flows) { assert [] + tail == tail; }
  }

  lemma LeadsOneMore(fs: seq<Flow>, flows: map<nat, Flow>, rest: map<nat, Flow>, k: nat)
    requires Leads(fs, flows, rest) && k in rest
    ensures Leads(fs + [rest[k]], flows, rest - {k})
  {
    forall tail | Enumerates(tail, rest - {k}) ensures Enumerates(fs + [rest[k]] + tail, flows) {
      assert ([rest[k]] + tail)[1..] == tail;
      assert Enumerates([rest[k]] + tail, rest);
      Seqs.Assoc(fs, [rest[k]], tail);
    }
  }

  lemma LeadsAll(fs: seq<Flow>, flows: map<nat, Flow>)
    requires Leads(fs, flows, map[])
    ensures Enumerates(fs, flows)
  {
    assert Enumerates([], map[]);
    assert fs + [] == fs;
  }

  class FlowAggregator {
    const slotCount: nat
    var slotStartTime: nat
    var flowStashs: seq<map<nat, Flow>>
    var lastFlushTime: nat
    var dropBeforeWindow: nat
    /** The flows handed to the sender. */
    var handed: seq<Flow>
    ghost var sent: seq<Send>

    ghost predicate Valid() reads this { 0 < slotCount == |flowStashs| && Lists(handed, sent) }

    ghost function Abs(): Aggr reads this { Aggr(slotStartTime, flowStashs, sent, dropBeforeWindow) }

    constructor (delay: nat)
      ensures Valid() && Abs() == Aggr(0, seq(60 + delay, _ => map[]), [], 0)
    {
      slotCount := SECONDS_IN_MINUTE + delay;
      slotStartTime := 0;
      flowStashs := seq(60 + delay, _ => map[]);
      lastFlushTime := 0;
      dropBeforeWindow := 0;
      handed := [];
      sent := [];
    }

    method FlushFrontSlotAndRotate(now: nat)
      requires Valid()
      modifies this
      ensures Valid() && Abs() == Rotate(old(Abs())) && lastFlushTime == now
    {
      var flowStash := flowStashs[0];
      ghost var flows := flowStash;
      ghost var before := handed;
      ghost var fs: seq<Flow> := [];
      LeadsStart(flows);
      hide Leads, Lists, Enumerates;
      assert before + fs == handed;
      while flowStash != map[]
        invariant slotStartTime == old(slotStartTime) && flowStashs == old(flowStashs) && sent == old(sent)
        invariant dropBeforeWindow == old(dropBeforeWindow)
        invariant handed == before + fs && Leads(fs, flows, flowStash)
        decreases |flowStash|
      {
        var k :| k in flowStash;
        LeadsOneMore(fs, flows, flowStash, k);
        Seqs.Assoc(before, fs, [flowStash[k]]);
        fs := fs + [flowStash[k]];
        handed := handed + [flowStash[k]];
        flowStash := flowStash - {k};
      }
      LeadsAll(fs, flows);
      ListsOneMore(before, sent, fs, Slot(flows));
      sent := sent + [Slot(flows)];
      flowStashs := flowStashs[1..] + [flowStash];
      lastFlushTime := now;
      slotStartTime := slotStartTime + 1;
    }

    method FlushSlots(count: nat, now: nat)
      requires Valid()
      modifies this
      ensures Valid() && Abs() == FlowAggr.FlushSlots(old(Abs()), count)
      ensures lastFlushTime == if count > 0 then now else old(lastFlushTime)
    {
      hide Lists;
      var n := if count < slotCount then count else slotCount;
      var i := 0;
      while i < n
        invariant 0 <= i <= n && Valid() && Abs() == Rotates(old(Abs()), i)
        invariant lastFlushTime == if i > 0 then now else old(lastFlushTime)
      {
        FlushFrontSlotAndRotate(now);
        i := i + 1;
      }
      if count > slotCount {
        slotStartTime := slotStartTime + (count - slotCount);
      }
    }

    /** One report; late ones are counted and dropped. */
    method MinuteMergeFlow(f: Flow, now: nat)
      requires Valid() && Timed(f)
      modifies this
      ensures Valid() && Abs() == MinuteMerge(old(Abs()), f)
      ensures lastFlushTime == if MinuteStart(f) >= old(slotStartTime) + slotCount then now else old(lastFlushTime)
    {
      var flowTime := MinuteStart(f);
      hide MinuteStart, Lists, FlowAggr.FlushSlots;
      if flowTime < slotStartTime {
        dropBeforeWindow := dropBeforeWindow + 1;
        return;
      }
      var timeSlot := flowTime - slotStartTime;
      if timeSlot >= slotCount {
        FlushSlots(timeSlot - slotCount + 1, now);
        timeSlot := slotCount - 1;
      }
      assert Abs() == Reaching(old(Abs()), flowTime);
      InsertFlow(timeSlot, f);
    }

    method InsertFlow(i: nat, f: Flow)
      requires Valid() && i < slotCount
      modifies this
      ensures Valid() && Abs() == Insert(old(Abs()), i, f) && lastFlushTime == old(lastFlushTime)
    {
      var stash: map<nat, Flow> := flowStashs[i];
      hide Lists;
      if f.id in stash {
        var flow := stash[f.id];
        if flow.reversed != f.reversed {
          flow := Reversed(flow);
        }
        flow := SequentialMerge(flow, f);
        if !flow.forced {
          stash := stash - {f.id};
          flowStashs := flowStashs[i := stash];
          Send(flow);
        } else {
          flowStashs := flowStashs[i := stash[f.id := flow]];
        }
      } else if !f.forced {
        assert stash - {f.id} == stash;
        Send(f);
      } else {
        flowStashs := flowStashs[i := stash[f.id := f]];
      }
    }

    method Send(f: Flow)
      requires Valid()
      modifies `handed, `sent
      ensures Valid() && handed == old(handed) + [f] && sent == old(sent) + [One(f)]
    {
      ListsOneMore(handed, sent, [f], One(f));
      hide Lists;
      handed := handed + [f];
      sent := sent + [One(f)];
    }

    /** Nothing arrived for a while: the oldest slot goes if the last flush is more than a window ago. */
    method OnTimeout(now: nat)
      requires Valid()
      modifies this
      ensures Valid()
      ensures Abs() == if now > old(lastFlushTime) + slotCount then Rotate(old(Abs())) else old(Abs())
      ensures lastFlushTime == if now > old(lastFlushTime) + slotCount then now else old(lastFlushTime)
    {
      hide Lists;
      if now > lastFlushTime + slotCount {
        FlushFrontSlotAndRotate(now);
      }
    }
  }
}
