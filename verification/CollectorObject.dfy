/** The collector's stash as the object whose fields the agent updates. */
module CollectorObject {
  import opened Basics
  import Seqs
  import opened StashKey
  import opened Collector

  /** A document on its way to the sender. */
  datatype Document = Document(key: Key, doc: Doc, timestamp: nat)

  /** `ds` holds every document of the batch once, in the order of some traversal of the map. */
  ghost predicate Enumerates(ds: seq<Document>, time: nat, docs: map<Key, Doc>)
    decreases |ds|
  {
    if ds == [] then docs == map[]
    else
      var k := ds[0].key;
      k in docs && ds[0] == Document(k, docs[k], time) && Enumerates(ds[1..], time, docs - {k})
  }

  /** What was sent is the batches, one after the other. */
  ghost predicate Lists(sent: seq<Document>, out: seq<Batch>)
    decreases |out|
  {
    if out == [] then sent == []
    else
      exists n | 0 <= n <= |sent| ::
        Lists(sent[..n], out[..|out| - 1]) && Enumerates(sent[n..], out[|out| - 1].time, out[|out| - 1].docs)
  }

  /** Whatever lists the rest, `ds` before it lists `docs`. */
  ghost predicate Leads(ds: seq<Document>, time: nat, docs: map<Key, Doc>, rest: map<Key, Doc>) {
    forall tail :: Enumerates(tail, time, rest) ==> Enumerates(ds + tail, time, docs)
  }

  lemma LeadsStart(time: nat, docs: map<Key, Doc>)
    ensures Leads([], time, docs, docs)
  {
    forall tail | Enumerates(tail, time, docs) ensures Enumerates([] + tail, time, docs) {
      assert [] + tail == tail;
    }
  }

  lemma LeadsOneMore(ds: seq<Document>, time: nat, docs: map<Key, Doc>, rest: map<Key, Doc>, k: Key)
    requires Leads(ds, time, docs, rest) && k in rest
    ensures Leads(ds + [Document(k, rest[k], time)], time, docs, rest - {k})
  {
    var d := Document(k, rest[k], time);
    forall tail | Enumerates(tail, time, rest - {k}) ensures Enumerates(ds + [d] + tail, time, docs) {
      assert ([d] + tail)[1..] == tail;
      assert Enumerates([d] + tail, time, rest);
      Seqs.Assoc(ds, [d], tail);
    }
  }

  lemma LeadsAll(ds: seq<Document>, time: nat, docs: map<Key, Doc>)
    requires Leads(ds, time, docs, map[])
    ensures Enumerates(ds, time, docs)
  {
    assert Enumerates([], time, map[]);
    assert ds + [] == ds;
  }

  lemma ListsOneMore(sent: seq<Document>, out: seq<Batch>, ds: seq<Document>, b: Batch)
    requires Lists(sent, out) && Enumerates(ds, b.time, b.docs)
    ensures Lists(sent + ds, out + [b])
  {
    var n := |sent|;
    assert (sent + ds)[..n] == sent && (sent + ds)[n..] == ds;
    assert (out + [b])[..|out|] == out;
    hide Enumerates;
  }

  class StashTable {
    const ctx: Context
    var startTime: nat
    var inner: map<Key, Doc>
    var sent: seq<Document>
    var dropBeforeWindow: nat
    var dropInactive: nat
    /** The batches behind `sent`. */
    ghost var out: seq<Batch>

    ghost predicate Valid() reads this { Lists(sent, out) }

    ghost function Abs(): Stash reads this { Stash(startTime, inner, out, dropBeforeWindow, dropInactive) }

    constructor (kind: Kind, delay: nat, now: nat)
      requires now >= 120
      ensures Valid() && ctx == MetricTypeToTag(kind, delay)
      ensures Abs() == Stash(now / 60 * 60 - 120, map[], [], 0, 0)
    {
      ctx := MetricTypeToTag(kind, delay);
      startTime := now / 60 * 60 - 2 * 60;
      inner := map[];
      sent := [];
      dropBeforeWindow := 0;
      dropInactive := 0;
      out := [];
    }

    /** Sends every stashed document, in batches, stamped with the current slot. */
    method FlushStats()
      requires Valid()
      modifies this
      ensures Valid() && Abs() == Collector.FlushStats(old(Abs()))
    {
      ghost var docs := inner;
      ghost var before := sent;
      var batch: seq<Document> := [];
      LeadsStart(startTime, docs);
      assert sent[|before|..] + batch == [];
      hide Leads, Lists, Enumerates;
      while inner != map[]
        invariant startTime == old(startTime) && out == old(out)
        invariant dropBeforeWindow == old(dropBeforeWindow) && dropInactive == old(dropInactive)
        invariant before <= sent && Leads(sent[|before|..] + batch, startTime, docs, inner)
        decreases |inner|
      {
        var k :| k in inner;
        if |batch| >= QUEUE_BATCH_SIZE {
          SendSplit(before, sent, batch);
          sent := sent + batch;
          batch := [];
        }
        ghost var ds := sent[|before|..] + batch;
        LeadsOneMore(ds, startTime, docs, inner, k);
        Seqs.Assoc(sent[|before|..], batch, [Document(k, inner[k], startTime)]);
        batch := batch + [Document(k, inner[k], startTime)];
        inner := inner - {k};
      }
      SendSplit(before, sent, batch);
      if |batch| > 0 {
        sent := sent + batch;
      }
      LeadsAll(sent[|before|..], startTime, docs);
      ListsOneMore(before, out, sent[|before|..], Batch(startTime, docs));
      assert before + sent[|before|..] == sent;
      out := out + [Batch(startTime, docs)];
    }

    /** One meter: merged into the document of its key, or the start of one. `ok` is false where the agent panics. */
    method AddMeter(e: Entry) returns (ok: bool)
      requires Valid()
      modifies `inner
      ensures Valid()
      ensures ok == Add(old(Abs()), e).Some?
      ensures ok ==> Abs() == Add(old(Abs()), e).value
    {
      hide FastId;
      var id := FastId(e.tag);
      if id.None? { return false; }
      var k := Key(id.value, e.ends);
      if k in inner {
        var m := Merge(inner[k].meter, e.meter);
        if m.None? { return false; }
        inner := inner[k := inner[k].(meter := m.value)];
      } else {
        inner := inner[k := Doc(e.tag, e.meter)];
      }
      return true;
    }

    method AddMeters(es: seq<Entry>) returns (ok: bool)
      requires Valid()
      modifies `inner
      ensures Valid()
      ensures ok == AddAll(old(Abs()), es).Some?
      ensures ok ==> Abs() == AddAll(old(Abs()), es).value
    {
      var i := 0;
      hide Add;
      while i < |es|
        invariant 0 <= i <= |es| && Valid()
        invariant AddAll(old(Abs()), es) == AddAll(Abs(), es[i..])
      {
        assert es[i..][0] == es[i] && es[i..][1..] == es[i + 1..];
        ok := AddMeter(es[i]);
        if !ok { return; }
        i := i + 1;
      }
      return true;
    }

    /** One flow or tick. */
    method CollectL4(x: Input) returns (ok: bool)
      requires Valid()
      modifies this
      ensures Valid()
      ensures ok == Collector.CollectL4(ctx, old(Abs()), x).Some?
      ensures ok ==> Abs() == Collector.CollectL4(ctx, old(Abs()), x).value
    {
      hide AddAll, Contributions, Lists;
      var time := if x.Tick? then x.now else x.flow.time;
      if time < startTime {
        dropBeforeWindow := dropBeforeWindow + 1;
        return true;
      }
      if x.Tick? && time >= ctx.delay {
        match ctx.kind {
          case Second => time := time - ctx.delay;
          case Minute =>
            if ctx.delay < 60 { return false; }
            time := time - (ctx.delay - 60);
        }
      }
      var slot := Floor(ctx.kind, time);
      hide Floor;
      if slot > startTime {
        FlushStats();
        startTime := slot;
      }
      if x.Tick? { return true; }
      if x.flow.inactive { dropInactive := dropInactive + 1; }
      ok := AddMeters(Contributions(ctx.kind, x.flow));
    }
  }

  lemma SendSplit(before: seq<Document>, sent: seq<Document>, batch: seq<Document>)
    requires before <= sent
    ensures before <= sent + batch && (sent + batch)[|before|..] + [] == sent[|before|..] + batch
    ensures batch == [] ==> sent[|before|..] + batch == sent[|before|..]
    ensures (sent + batch)[|before|..] == sent[|before|..] + batch
  {
  }
}
