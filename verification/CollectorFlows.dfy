/**
  What the collector's documents hold, counted over the accepted flows themselves: which flows count, for
  which key, and with which of their numbers.
*/
module CollectorFlows {
  import opened Options
  import opened StashKey
  import opened Collector
  import opened CollectorRuns

  // ---------------------------------------------------------------- the reference: plain sums over flows

  /** What a document counts; `Meters` is how many meters went into it. */
  datatype Field = Meters | PacketTx | PacketRx | ByteTx | ByteRx

  function Get(s: Sums, m: Field): nat {
    match m
    case Meters => 1
    case PacketTx => s.packetTx
    case PacketRx => s.packetRx
    case ByteTx => s.byteTx
    case ByteRx => s.byteRx
  }

  /** The endpoint entries of a flow with key `k`. */
  function EntrySum(es: seq<FlowEntry>, k: Key, m: Field): nat {
    if es == [] then 0
    else (if KeyOf(es[0].tag, es[0].ends) == Some(k) then Get(es[0].sums, m) else 0) + EntrySum(es[1..], k, m)
  }

  /** The key of a policy: its group and tunnel address id, and no endpoint. */
  predicate IsPolicy(a: Acl, k: Key) { k == Key(Join(0, AclLow(a.gid, a.ipId)), 0) }

  /** `amount` for every policy with key `k`. */
  function AclSum(acls: seq<Acl>, k: Key, amount: nat): nat {
    if acls == [] then 0 else (if IsPolicy(acls[0], k) then amount else 0) + AclSum(acls[1..], k, amount)
  }

  /** What is sent counts for the policies of the client side. */
  function SentPart(s: Sums, m: Field): nat {
    match m
    case Meters => 1
    case PacketTx => s.packetTx
    case ByteTx => s.byteTx
    case _ => 0
  }

  /** What is received counts for those of the server side. */
  function ReceivedPart(s: Sums, m: Field): nat {
    match m
    case Meters => 1
    case PacketRx => s.packetRx
    case ByteRx => s.byteRx
    case _ => 0
  }

  /**
    What one flow adds to key `k`: policies count only in minutes and for captured packets, endpoints only
    when some host is active or inactive ones are not aggregated.
  */
  function FlowSum(kind: Kind, f: Flow, k: Key, m: Field): nat {
    (if kind.Minute? && f.packet
     then AclSum(f.acls0, k, SentPart(f.sums, m)) + AclSum(f.acls1, k, ReceivedPart(f.sums, m)) else 0)
    + (if f.inactive then 0 else EntrySum(f.entries, k, m))
  }

  /** The sum over the flows of slot `t`. */
  function SlotSum(kind: Kind, log: seq<Flow>, t: nat, k: Key, m: Field): nat {
    if log == [] then 0
    else
      var f := log[|log| - 1];
      SlotSum(kind, log[..|log| - 1], t, k, m) + (if Floor(kind, f.time) == t then FlowSum(kind, f, k, m) else 0)
  }

  // ---------------------------------------------------------------- meters and flows count the same

  function ItemSum(items: seq<Item>, t: nat, k: Key, m: Field): nat {
    if items == [] then 0
    else
      ItemSum(items[..|items| - 1], t, k, m)
      + (if Hits(items[|items| - 1], t, k) then Get(items[|items| - 1].entry.meter.sums, m) else 0)
  }

  lemma {:induction false} TallyPlain(items: seq<Item>, t: nat, k: Key)
    ensures TallyOf(items, t, k).count == ItemSum(items, t, k, Meters)
    ensures forall m: Field :: !m.Meters? ==> Get(TallyOf(items, t, k).sums, m) == ItemSum(items, t, k, m)
  {
    hide Hits;
    if items != [] { TallyPlain(items[..|items| - 1], t, k); }
  }

  lemma {:induction false} ItemSumAppend(a: seq<Item>, b: seq<Item>, t: nat, k: Key, m: Field)
    ensures ItemSum(a + b, t, k, m) == ItemSum(a, t, k, m) + ItemSum(b, t, k, m)
    decreases |b|
  {
    hide Hits, Get;
    if b == [] {
      assert a + b == a;
    } else {
      assert (a + b)[..|a + b| - 1] == a + b[..|b| - 1];
      ItemSumAppend(a, b[..|b| - 1], t, k, m);
    }
  }

  /** The meters of one flow, as entries of its slot. */
  function EntriesSum(es: seq<Entry>, k: Key, m: Field): nat {
    if es == [] then 0
    else (if KeyOf(es[0].tag, es[0].ends) == Some(k) then Get(es[0].meter.sums, m) else 0) + EntriesSum(es[1..], k, m)
  }

  lemma OneItem(i: Item, t: nat, k: Key, m: Field)
    ensures ItemSum([i], t, k, m) == if Hits(i, t, k) then Get(i.entry.meter.sums, m) else 0
  {
    hide Hits, Get;
    assert [i][..0] == [];
  }

  lemma {:induction false} ItemsOfSum(u: nat, es: seq<Entry>, t: nat, k: Key, m: Field)
    ensures ItemSum(ItemsOf(u, es), t, k, m) == if u == t then EntriesSum(es, k, m) else 0
  {
    hide KeyOf, Get;
    if es != [] {
      ItemsOfSum(u, es[1..], t, k, m);
      ItemSumAppend([Item(u, es[0])], ItemsOf(u, es[1..]), t, k, m);
      OneItem(Item(u, es[0]), t, k, m);
    }
  }

  lemma {:induction false} EntriesSumAppend(a: seq<Entry>, b: seq<Entry>, k: Key, m: Field)
    ensures EntriesSum(a + b, k, m) == EntriesSum(a, k, m) + EntriesSum(b, k, m)
  {
    hide KeyOf, Get;
    if a == [] {
      assert a + b == b;
    } else {
      assert (a + b)[1..] == a[1..] + b;
      EntriesSumAppend(a[1..], b, k, m);
    }
  }

  lemma {:induction false} EndpointsSum(f: Flow, k: Key, m: Field)
    ensures EntriesSum(FlowPart(f), k, m) == if f.inactive then 0 else EntrySum(f.entries, k, m)
    decreases |f.entries|
  {
    hide KeyOf, Get;
    if !f.inactive && f.entries != [] {
      var rest := f.(entries := f.entries[1..]);
      EndpointsSum(rest, k, m);
      assert FlowPart(f)[1..] == FlowPart(rest);
    }
  }

  lemma PolicyKey(a: Acl, k: Key)
    ensures KeyOf(AclTag(a), 0) == Some(k) <==> IsPolicy(a, k)
  {
    hide FastId, Join, AclLow;
    AclId(AclTag(a));
  }

  lemma {:induction false} PoliciesSum(acls: seq<Acl>, meter: Meter, k: Key, m: Field)
    ensures EntriesSum(AclEntries(acls, meter), k, m) == AclSum(acls, k, Get(meter.sums, m))
    decreases |acls|
  {
    hide KeyOf, Get, AclTag, IsPolicy;
    if acls != [] {
      PoliciesSum(acls[1..], meter, k, m);
      assert AclEntries(acls, meter)[1..] == AclEntries(acls[1..], meter);
      PolicyKey(acls[0], k);
    }
  }

  lemma PolicyPart(kind: Kind, f: Flow, k: Key, m: Field)
    ensures EntriesSum(AclPart(kind, f), k, m) ==
      if kind.Minute? && f.packet
      then AclSum(f.acls0, k, SentPart(f.sums, m)) + AclSum(f.acls1, k, ReceivedPart(f.sums, m)) else 0
  {
    hide EntriesSum, AclSum, AclEntries;
    if kind.Minute? && f.packet {
      var sent := UsageMeter(Sums(f.sums.packetTx, 0, f.sums.byteTx, 0));
      var received := UsageMeter(Sums(0, f.sums.packetRx, 0, f.sums.byteRx));
      PoliciesSum(f.acls0, sent, k, m);
      PoliciesSum(f.acls1, received, k, m);
      EntriesSumAppend(AclEntries(f.acls0, sent), AclEntries(f.acls1, received), k, m);
    } else {
      NoEntries(k, m);
    }
  }

  lemma NoEntries(k: Key, m: Field)
    ensures EntriesSum([], k, m) == 0
  {
  }

  lemma ContributionsSum(kind: Kind, f: Flow, k: Key, m: Field)
    ensures EntriesSum(Contributions(kind, f), k, m) == FlowSum(kind, f, k, m)
  {
    hide EntriesSum, AclSum, EntrySum, AclPart, FlowPart;
    EntriesSumAppend(AclPart(kind, f), FlowPart(f), k, m);
    PolicyPart(kind, f, k, m);
    EndpointsSum(f, k, m);
  }

  // ---------------------------------------------------------------- every run

  /** The accepted flows after one more call: those that are not behind the window. */
  function Accept(s: Stash, log: seq<Flow>, x: Input): seq<Flow> {
    if x.Report? && x.flow.time >= s.start then log + [x.flow] else log
  }

  function Accepted(ctx: Context, s: Stash, log: seq<Flow>, xs: seq<Input>): seq<Flow>
    decreases |xs|
  {
    if xs == [] then log
    else
      match CollectL4(ctx, s, xs[0])
      case None => log
      case Some(s') => Accepted(ctx, s', Accept(s, log, xs[0]), xs[1..])
  }

  /** The logged meters are those of the logged flows. */
  ghost predicate SameCounts(kind: Kind, items: seq<Item>, log: seq<Flow>) {
    forall t: nat, k: Key, m: Field :: ItemSum(items, t, k, m) == SlotSum(kind, log, t, k, m)
  }

  lemma SlotSumSnoc(kind: Kind, log: seq<Flow>, f: Flow, t: nat, k: Key, m: Field)
    ensures SlotSum(kind, log + [f], t, k, m) ==
      SlotSum(kind, log, t, k, m) + (if Floor(kind, f.time) == t then FlowSum(kind, f, k, m) else 0)
  {
    hide FlowSum, Floor;
    assert (log + [f])[..|log|] == log;
  }

  lemma AcceptCounts(kind: Kind, s: Stash, items: seq<Item>, log: seq<Flow>, x: Input)
    requires SameCounts(kind, items, log)
    ensures SameCounts(kind, CollectorRuns.Recall(kind, s, items, x), Accept(s, log, x))
  {
    hide ItemSum, SlotSum, FlowSum, Floor, Contributions;
    if x.Report? && x.flow.time >= s.start {
      var u, es := Floor(kind, x.flow.time), Contributions(kind, x.flow);
      forall t: nat, k: Key, m: Field
        ensures ItemSum(items + ItemsOf(u, es), t, k, m) == SlotSum(kind, log + [x.flow], t, k, m)
      {
        ItemSumAppend(items, ItemsOf(u, es), t, k, m);
        ItemsOfSum(u, es, t, k, m);
        ContributionsSum(kind, x.flow, k, m);
        SlotSumSnoc(kind, log, x.flow, t, k, m);
      }
    }
  }

  lemma {:induction false} RunCounts(ctx: Context, s: Stash, items: seq<Item>, log: seq<Flow>, xs: seq<Input>)
    requires SameCounts(ctx.kind, items, log)
    ensures SameCounts(ctx.kind, Log(ctx, s, items, xs), Accepted(ctx, s, log, xs))
    decreases |xs|
  {
    hide SameCounts, CollectL4, CollectorRuns.Recall, Accept;
    if xs != [] {
      var r := CollectL4(ctx, s, xs[0]);
      AcceptCounts(ctx.kind, s, items, log, xs[0]);
      if r.Some? {
        RunCounts(ctx, r.value, CollectorRuns.Recall(ctx.kind, s, items, xs[0]), Accept(s, log, xs[0]), xs[1..]);
      }
    }
  }

  /** The documents of slot `t` are what the flows `log` add up to there. */
  ghost predicate DocsAre(kind: Kind, docs: map<Key, Doc>, log: seq<Flow>, t: nat) {
    forall k: Key ::
      && (k in docs <==> SlotSum(kind, log, t, k, Meters) > 0)
      && (k in docs ==>
            && docs[k].meter.sums.packetTx == SlotSum(kind, log, t, k, PacketTx)
            && docs[k].meter.sums.packetRx == SlotSum(kind, log, t, k, PacketRx)
            && docs[k].meter.sums.byteTx == SlotSum(kind, log, t, k, ByteTx)
            && docs[k].meter.sums.byteRx == SlotSum(kind, log, t, k, ByteRx))
  }

  lemma DocsCount(kind: Kind, docs: map<Key, Doc>, items: seq<Item>, log: seq<Flow>, t: nat)
    requires SameCounts(kind, items, log) && forall k :: DocsOk(docs, items, t, k)
    ensures DocsAre(kind, docs, log, t)
  {
    hide ItemSum, SlotSum, TallyOf, KeyOf, WellTagged;
    forall k: Key
      ensures k in docs <==> SlotSum(kind, log, t, k, Meters) > 0
      ensures k in docs ==>
        && docs[k].meter.sums.packetTx == SlotSum(kind, log, t, k, PacketTx)
        && docs[k].meter.sums.packetRx == SlotSum(kind, log, t, k, PacketRx)
        && docs[k].meter.sums.byteTx == SlotSum(kind, log, t, k, ByteTx)
        && docs[k].meter.sums.byteRx == SlotSum(kind, log, t, k, ByteRx)
    {
      assert DocsOk(docs, items, t, k);
      TallyPlain(items, t, k);
      assert Get(TallyOf(items, t, k).sums, PacketTx) == ItemSum(items, t, k, PacketTx);
      assert Get(TallyOf(items, t, k).sums, PacketRx) == ItemSum(items, t, k, PacketRx);
      assert Get(TallyOf(items, t, k).sums, ByteTx) == ItemSum(items, t, k, ByteTx);
      assert Get(TallyOf(items, t, k).sums, ByteRx) == ItemSum(items, t, k, ByteRx);
    }
  }

  // ---------------------------------------------------------------- no accepted flow is left out

  ghost predicate FlowPlaced(kind: Kind, s: Stash, f: Flow) {
    Floor(kind, f.time) == s.start || Sent(s.out, Floor(kind, f.time))
  }

  /** The flows dropped because neither host is active. */
  function InactiveOf(log: seq<Flow>): nat {
    if log == [] then 0 else InactiveOf(log[..|log| - 1]) + (if log[|log| - 1].inactive then 1 else 0)
  }

  ghost predicate FlowsOk(kind: Kind, s: Stash, log: seq<Flow>) {
    && Floor(kind, s.start) == s.start
    && (forall f :: f in log ==> FlowPlaced(kind, s, f))
    && s.inactive == InactiveOf(log)
  }

  lemma MovePlaces(kind: Kind, s: Stash, log: seq<Flow>, t: nat)
    requires FlowsOk(kind, s, log)
    ensures FlowsOk(kind, MoveTo(kind, s, t), log)
    ensures t >= s.start ==> MoveTo(kind, s, t).start == Floor(kind, t)
  {
    hide Floor, InactiveOf;
    FloorLaws(kind, t, s.start);
    var s' := MoveTo(kind, s, t);
    if Floor(kind, t) > s.start {
      assert s'.out[|s.out|].time == s.start;
      forall f | f in log ensures FlowPlaced(kind, s', f) {
        assert FlowPlaced(kind, s, f);
        if Sent(s.out, Floor(kind, f.time)) {
          var j :| 0 <= j < |s.out| && s.out[j].time == Floor(kind, f.time);
          assert s'.out[j].time == Floor(kind, f.time);
        }
      }
    }
  }

  lemma ReportPlaces(kind: Kind, s: Stash, log: seq<Flow>, f: Flow)
    requires FlowsOk(kind, s, log) && f.time >= s.start && ReportL4(kind, s, f).Some?
    ensures FlowsOk(kind, ReportL4(kind, s, f).value, log + [f])
  {
    hide Floor, AddAll, Contributions, MoveTo;
    var m := MoveTo(kind, s, f.time);
    MovePlaces(kind, s, log, f.time);
    AddAllStays(Counted(m, f), Contributions(kind, f));
    assert (log + [f])[..|log|] == log;
    forall x | x in log + [f] ensures FlowPlaced(kind, ReportL4(kind, s, f).value, x) {
      if x in log { assert FlowPlaced(kind, m, x); }
    }
  }

  lemma CollectPlaces(ctx: Context, s: Stash, log: seq<Flow>, x: Input)
    requires FlowsOk(ctx.kind, s, log) && CollectL4(ctx, s, x).Some?
    ensures FlowsOk(ctx.kind, CollectL4(ctx, s, x).value, Accept(s, log, x))
  {
    hide Floor, ReportL4, MoveTo, InactiveOf;
    if x.Report? && x.flow.time >= s.start {
      ReportPlaces(ctx.kind, s, log, x.flow);
    } else if x.Tick? && x.now >= s.start {
      MovePlaces(ctx.kind, s, log, TickTime(ctx, x.now).value);
    } else {
      var s' := s.(late := s.late + 1);
      forall f | f in log ensures FlowPlaced(ctx.kind, s', f) { assert FlowPlaced(ctx.kind, s, f); }
    }
  }

  lemma {:induction false} RunPlaces(ctx: Context, s: Stash, log: seq<Flow>, xs: seq<Input>)
    requires FlowsOk(ctx.kind, s, log) && Run(ctx, s, xs).Some?
    ensures FlowsOk(ctx.kind, Run(ctx, s, xs).value, Accepted(ctx, s, log, xs))
    decreases |xs|
  {
    hide FlowsOk, CollectL4, Accept;
    if xs != [] {
      CollectPlaces(ctx, s, log, xs[0]);
      RunPlaces(ctx, CollectL4(ctx, s, xs[0]).value, Accept(s, log, xs[0]), xs[1..]);
    }
  }

  lemma StartsEqual(kind: Kind, now: nat)
    requires now >= 120
    ensures SameCounts(kind, [], []) && FlowsOk(kind, Fresh(StartTime(now)), [])
  {
  }

  /**
    In every run, with any configured delay: the collector never panics, and for every key and slot the document
    in the stash or in a batch is there exactly when an accepted flow of the slot counts for it, with exactly
    the plain sums over those flows. Every accepted flow is of the current slot or of one that was sent, and the
    flows of inactive hosts are counted.
  */
  lemma EveryRunCountsFlows(kind: Kind, delay: nat, now: nat, xs: seq<Input>)
    requires now >= 120 && forall x :: x in xs ==> InputTagged(x)
    ensures var ctx, s := MetricTypeToTag(kind, delay), Fresh(StartTime(now));
      var r, log := Run(ctx, s, xs), Accepted(ctx, s, [], xs);
      && r.Some?
      && DocsAre(kind, r.value.inner, log, r.value.start)
      && (forall j :: 0 <= j < |r.value.out| ==> DocsAre(kind, r.value.out[j].docs, log, r.value.out[j].time))
      && (forall f :: f in log ==> FlowPlaced(kind, r.value, f))
      && r.value.inactive == InactiveOf(log)
  {
    hide DocsOk, DocsAre, Floor, StartTime, Run, Log, Accepted, SameCounts, InputTagged, MetricTypeToTag;
    var ctx, s := MetricTypeToTag(kind, delay), Fresh(StartTime(now));
    EveryRunGroupsBy(kind, delay, now, xs);
    KindOf(kind, delay);
    StartsEqual(kind, now);
    RunCounts(ctx, s, [], [], xs);
    RunPlaces(ctx, s, [], xs);
    var r, items, log := Run(ctx, s, xs).value, Log(ctx, s, [], xs), Accepted(ctx, s, [], xs);
    DocsCount(kind, r.inner, items, log, r.start);
    forall j | 0 <= j < |r.out| ensures DocsAre(kind, r.out[j].docs, log, r.out[j].time) {
      DocsCount(kind, r.out[j].docs, items, log, r.out[j].time);
    }
  }

  lemma KindOf(kind: Kind, delay: nat)
    ensures MetricTypeToTag(kind, delay).kind == kind
  {
  }
}
