/**
  What every run of the collector keeps: the stash and the batches sent are the group-by, on key
  and slot, of the meters accepted so far.
*/
module CollectorRuns {
  import opened Options
  import Seqs
  import opened StashKey
  import opened Minutes
  import opened Collector

  // ---------------------------------------------------------------- the reference: plain sums over the accepted meters

  /** An accepted meter and the slot of the flow that carried it. */
  datatype Item = Item(time: nat, entry: Entry)

  datatype Tally = Tally(count: nat, sums: Sums)

  predicate Hits(i: Item, t: nat, k: Key) { i.time == t && KeyOf(i.entry.tag, i.entry.ends) == Some(k) }

  function TallyOf(log: seq<Item>, t: nat, k: Key): Tally {
    if log == [] then Tally(0, ZERO)
    else
      var y, i := TallyOf(log[..|log| - 1], t, k), log[|log| - 1];
      if Hits(i, t, k) then Tally(y.count + 1, AddSums(y.sums, i.entry.meter.sums)) else y
  }

  function ItemsOf(t: nat, es: seq<Entry>): seq<Item> {
    if es == [] then [] else [Item(t, es[0])] + ItemsOf(t, es[1..])
  }

  /** The log after one more call. */
  function Recall(kind: Kind, s: Stash, log: seq<Item>, x: Input): seq<Item> {
    if x.Report? && x.flow.time >= s.start
    then log + ItemsOf(Floor(kind, x.flow.time), Contributions(kind, x.flow)) else log
  }

  // ---------------------------------------------------------------- agreement

  predicate DocsOk(docs: map<Key, Doc>, log: seq<Item>, t: nat, k: Key) {
    var y := TallyOf(log, t, k);
    && (k in docs <==> y.count > 0)
    && (k in docs ==>
          && docs[k].meter.sums == y.sums
          && WellTagged(docs[k].tag, docs[k].meter)
          && KeyOf(docs[k].tag, k.ends) == Some(k))
  }

  ghost predicate Sent(out: seq<Batch>, t: nat) { exists j :: 0 <= j < |out| && out[j].time == t }

  ghost predicate Placed(s: Stash, i: Item) { i.time == s.start || (i.time < s.start && Sent(s.out, i.time)) }

  ghost predicate Increasing(out: seq<Batch>) {
    forall i, j :: 0 <= i < j < |out| ==> out[i].time < out[j].time
  }

  ghost predicate Inv(kind: Kind, s: Stash, log: seq<Item>) {
    && Floor(kind, s.start) == s.start
    && (forall k :: DocsOk(s.inner, log, s.start, k))
    && (forall j, k :: 0 <= j < |s.out| ==> DocsOk(s.out[j].docs, log, s.out[j].time, k))
    && (forall j :: 0 <= j < |s.out| ==> s.out[j].time < s.start)
    && Increasing(s.out)
    && (forall i :: i in log ==> Placed(s, i))
  }

  lemma TallySnoc(log: seq<Item>, i: Item, t: nat, k: Key)
    ensures TallyOf(log + [i], t, k) ==
      if Hits(i, t, k) then Tally(TallyOf(log, t, k).count + 1, AddSums(TallyOf(log, t, k).sums, i.entry.meter.sums))
      else TallyOf(log, t, k)
  {
  }

  lemma {:induction false} TallyEmpty(log: seq<Item>, t: nat, k: Key)
    requires forall i :: i in log ==> i.time != t
    ensures TallyOf(log, t, k) == Tally(0, ZERO)
  {
    hide KeyOf;
    if log != [] {
      assert log[|log| - 1] in log;
      TallyEmpty(log[..|log| - 1], t, k);
    }
  }

  lemma {:induction false} TallyNone(log: seq<Item>, t: nat, k: Key, m: Sums)
    requires TallyOf(log, t, k).count == 0
    ensures AddSums(TallyOf(log, t, k).sums, m) == m
  {
    hide Hits;
    if log != [] { TallyNone(log[..|log| - 1], t, k, m); }
  }

  // ---------------------------------------------------------------- one meter

  /** A well tagged meter is never refused, and lands in the document of its key. */
  lemma AddDoc(s: Stash, log: seq<Item>, e: Entry)
    requires forall k :: DocsOk(s.inner, log, s.start, k)
    requires WellTagged(e.tag, e.meter)
    ensures Add(s, e).Some? && Add(s, e).value == s.(inner := Add(s, e).value.inner)
    ensures forall k :: DocsOk(Add(s, e).value.inner, log + [Item(s.start, e)], s.start, k)
  {
    hide KeyOf, WellTagged, TallyOf, Merge, AddSums;
    var i := Item(s.start, e);
    KeyExists(e);
    var key := KeyOf(e.tag, e.ends).value;
    assert DocsOk(s.inner, log, s.start, key);
    if key !in s.inner {
      TallyNone(log, s.start, key, e.meter.sums);
    } else {
      SameKeyMerges(s.inner[key].tag, s.inner[key].meter, e.tag, e.meter, key.ends, e.ends);
      MergedTagged(s.inner[key].tag, s.inner[key].meter, e.meter);
    }
    forall k ensures DocsOk(Add(s, e).value.inner, log + [i], s.start, k) {
      assert DocsOk(s.inner, log, s.start, k);
      TallySnoc(log, i, s.start, k);
    }
  }

  lemma KeyExists(e: Entry)
    requires WellTagged(e.tag, e.meter)
    ensures KeyOf(e.tag, e.ends).Some? && KeyOf(e.tag, e.ends).value.ends == e.ends
  {
    hide FastId;
  }

  lemma MergedTagged(tag: Tagger, m: Meter, m': Meter)
    requires WellTagged(tag, m) && Merge(m, m').Some?
    ensures WellTagged(tag, Merge(m, m').value)
  {
  }

  lemma AddKeeps(kind: Kind, s: Stash, log: seq<Item>, e: Entry)
    requires Inv(kind, s, log) && WellTagged(e.tag, e.meter)
    ensures Add(s, e).Some? && Inv(kind, Add(s, e).value, log + [Item(s.start, e)])
    ensures Add(s, e).value == s.(inner := Add(s, e).value.inner)
  {
    hide WellTagged, KeyOf, Floor;
    AddDoc(s, log, e);
    var s', i := Add(s, e).value, Item(s.start, e);
    hide Add, TallyOf, AddSums;
    forall j, k | 0 <= j < |s'.out| ensures DocsOk(s'.out[j].docs, log + [i], s'.out[j].time, k) {
      assert DocsOk(s.out[j].docs, log, s.out[j].time, k);
      TallySnoc(log, i, s.out[j].time, k);
    }
    hide DocsOk;
    forall x | x in log + [i] ensures Placed(s', x) {
      if x in log { assert Placed(s, x); }
    }
  }

  predicate AllTagged(es: seq<Entry>) { forall i :: 0 <= i < |es| ==> WellTagged(es[i].tag, es[i].meter) }

  lemma {:induction false} AddAllKeeps(kind: Kind, s: Stash, log: seq<Item>, es: seq<Entry>)
    requires Inv(kind, s, log) && AllTagged(es)
    ensures AddAll(s, es).Some? && Inv(kind, AddAll(s, es).value, log + ItemsOf(s.start, es))
    ensures AddAll(s, es).value == s.(inner := AddAll(s, es).value.inner)
    decreases |es|
  {
    if es == [] {
      assert log + ItemsOf(s.start, es) == log;
    } else {
      AddKeeps(kind, s, log, es[0]);
      hide Inv, WellTagged, Add;
      AddAllKeeps(kind, Add(s, es[0]).value, log + [Item(s.start, es[0])], es[1..]);
      Seqs.Assoc(log, [Item(s.start, es[0])], ItemsOf(s.start, es[1..]));
    }
  }

  lemma {:induction false} AddAllStays(s: Stash, es: seq<Entry>)
    ensures AddAll(s, es).Some? ==> AddAll(s, es).value == s.(inner := AddAll(s, es).value.inner)
    decreases |es|
  {
    if es != [] && Add(s, es[0]).Some? { AddAllStays(Add(s, es[0]).value, es[1..]); }
  }

  // ---------------------------------------------------------------- moving on

  lemma MoveKeeps(kind: Kind, s: Stash, log: seq<Item>, t: nat)
    requires Inv(kind, s, log)
    ensures Inv(kind, MoveTo(kind, s, t), log) && s.start <= MoveTo(kind, s, t).start
    ensures t >= s.start ==> MoveTo(kind, s, t).start == Floor(kind, t)
  {
    FloorLaws(kind, t, s.start);
    hide Floor;
    var s' := MoveTo(kind, s, t);
    if Floor(kind, t) > s.start {
      forall k ensures DocsOk(s'.inner, log, s'.start, k) {
        forall i | i in log ensures i.time != s'.start { assert Placed(s, i); }
        TallyEmpty(log, s'.start, k);
      }
      hide DocsOk;
      forall i | i in log ensures Placed(s', i) {
        assert Placed(s, i);
        if i.time == s.start {
          assert s'.out[|s.out|].time == i.time;
        } else {
          var j :| 0 <= j < |s.out| && s.out[j].time == i.time;
          assert s'.out[j].time == i.time;
        }
      }
    }
  }

  lemma CountersKeep(kind: Kind, s: Stash, s': Stash, log: seq<Item>)
    requires Inv(kind, s, log) && s'.start == s.start && s'.inner == s.inner && s'.out == s.out
    ensures Inv(kind, s', log)
  {
  }

  lemma AllContributionsTagged(kind: Kind, f: Flow)
    requires FlowTagged(f)
    ensures AllTagged(Contributions(kind, f))
  {
    var es := Contributions(kind, f);
    hide FlowTagged, WellTagged, Contributions;
    forall i | 0 <= i < |es| ensures WellTagged(es[i].tag, es[i].meter) { ContributionsTagged(kind, f, i); }
  }

  lemma ReportKeeps(kind: Kind, s: Stash, log: seq<Item>, f: Flow)
    requires Inv(kind, s, log) && FlowTagged(f) && f.time >= s.start
    ensures var r := ReportL4(kind, s, f);
      && r.Some? && r.value.start == Floor(kind, f.time)
      && Inv(kind, r.value, log + ItemsOf(Floor(kind, f.time), Contributions(kind, f)))
  {
    var m := MoveTo(kind, s, f.time);
    MoveKeeps(kind, s, log, f.time);
    hide MoveTo, Floor;
    CountersKeep(kind, m, Counted(m, f), log);
    hide Inv, FlowTagged, Contributions, AllTagged, AddAll, ItemsOf;
    AllContributionsTagged(kind, f);
    AddAllKeeps(kind, Counted(m, f), log, Contributions(kind, f));
  }

  /** Whatever arrives, the collector does not panic, and the group-by stands. */
  lemma CollectKeeps(kind: Kind, delay: nat, s: Stash, log: seq<Item>, x: Input)
    requires Inv(kind, s, log) && InputTagged(x)
    ensures var r := CollectL4(MetricTypeToTag(kind, delay), s, x);
      r.Some? && Inv(kind, r.value, Recall(kind, s, log, x)) && s.start <= r.value.start
  {
    var ctx := MetricTypeToTag(kind, delay);
    if x.Report? && x.flow.time >= s.start {
      FloorLaws(kind, x.flow.time, s.start);
      ReportKeeps(kind, s, log, x.flow);
      hide ReportL4, Floor, Contributions;
    } else if x.Tick? && x.now >= s.start {
      TickNeverUnderflows(kind, delay, x.now);
      MoveKeeps(kind, s, log, TickTime(ctx, x.now).value);
    } else {
      CountersKeep(kind, s, s.(late := s.late + 1), log);
    }
  }

  /** How old a flow may be at a tick: the delay, less the minute a minute slot is open. */
  function Allowance(ctx: Context): int { if ctx.kind.Second? then ctx.delay else ctx.delay - 60 }

  /**
    What a tick closes: of the flows that were in time before it, those become late that are older than
    the slot of the tick less the allowance, and no others.
  */
  lemma TickClosesByAge(kind: Kind, delay: nat, s: Stash, now: nat, t: nat)
    requires Floor(kind, s.start) == s.start && s.start <= t
    requires now >= s.start && now >= MetricTypeToTag(kind, delay).delay
    ensures var ctx := MetricTypeToTag(kind, delay);
      && 0 <= Allowance(ctx) <= now && CollectL4(ctx, s, Tick(now)).Some?
      && (t < CollectL4(ctx, s, Tick(now)).value.start <==> t < Floor(kind, now - Allowance(ctx)))
  {
    TickNeverUnderflows(kind, delay, now);
    hide Floor, ResetDelaySeconds;
  }

  // ---------------------------------------------------------------- every run

  function Fresh(start: nat): Stash { Stash(start, map[], [], 0, 0) }

  function Run(ctx: Context, s: Stash, xs: seq<Input>): Option<Stash>
    decreases |xs|
  {
    if xs == [] then Some(s)
    else
      match CollectL4(ctx, s, xs[0])
      case None => None
      case Some(s') => Run(ctx, s', xs[1..])
  }

  function Log(ctx: Context, s: Stash, log: seq<Item>, xs: seq<Input>): seq<Item>
    decreases |xs|
  {
    if xs == [] then log
    else
      match CollectL4(ctx, s, xs[0])
      case None => log
      case Some(s') => Log(ctx, s', Recall(ctx.kind, s, log, xs[0]), xs[1..])
  }

  lemma {:induction false} RunKeeps(kind: Kind, delay: nat, s: Stash, log: seq<Item>, xs: seq<Input>)
    requires Inv(kind, s, log) && forall x :: x in xs ==> InputTagged(x)
    ensures var r := Run(MetricTypeToTag(kind, delay), s, xs);
      r.Some? && Inv(kind, r.value, Log(MetricTypeToTag(kind, delay), s, log, xs)) && s.start <= r.value.start
    decreases |xs|
  {
    if xs != [] {
      var ctx := MetricTypeToTag(kind, delay);
      assert ctx.kind == kind && InputTagged(xs[0]);
      CollectKeeps(kind, delay, s, log, xs[0]);
      hide CollectL4, Recall, Inv, InputTagged, MetricTypeToTag;
      RunKeeps(kind, delay, CollectL4(ctx, s, xs[0]).value, Recall(kind, s, log, xs[0]), xs[1..]);
    }
  }

  /** The constructor's start: two whole minutes before the current one. */
  function StartTime(now: nat): (r: nat)
    requires now >= 120
    ensures r % 60 == 0 && r + 120 <= now < r + 180
  {
    now / 60 * 60 - 120
  }

  lemma FreshKeeps(kind: Kind, now: nat)
    requires now >= 120
    ensures Inv(kind, Fresh(StartTime(now)), [])
  {
    var s := Fresh(StartTime(now));
    assert Floor(kind, s.start) == s.start;
    forall k ensures DocsOk(s.inner, [], s.start, k) { TallyEmpty([], s.start, k); }
  }

  /**
    In every run, with any configured delay, the collector never panics and is a group-by on key and
    slot: a key has a document in the stash or in a batch exactly when meters for it arrived for that
    slot, with exactly their sums; every accepted meter is stashed or sent; no slot is sent twice.
  */
  lemma EveryRunGroupsBy(kind: Kind, delay: nat, now: nat, xs: seq<Input>)
    requires now >= 120 && forall x :: x in xs ==> InputTagged(x)
    ensures var ctx := MetricTypeToTag(kind, delay);
      var r, log := Run(ctx, Fresh(StartTime(now)), xs), Log(ctx, Fresh(StartTime(now)), [], xs);
      && r.Some?
      && Floor(kind, r.value.start) == r.value.start >= StartTime(now)
      && (forall k :: DocsOk(r.value.inner, log, r.value.start, k))
      && (forall j, k :: 0 <= j < |r.value.out| ==> DocsOk(r.value.out[j].docs, log, r.value.out[j].time, k))
      && (forall i :: i in log ==> Placed(r.value, i))
      && Increasing(r.value.out)
  {
    hide StartTime, Run, Log;
    FreshKeeps(kind, now);
    RunKeeps(kind, delay, Fresh(StartTime(now)), [], xs);
  }
}
