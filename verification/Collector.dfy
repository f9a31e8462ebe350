/**
  The collector's stash: meters are grouped by packed key inside the current slot, and the whole
  stash is sent, stamped with the slot, when a later time arrives.
*/
module Collector {
  import opened Options
  import opened StashKey
  import opened Minutes

  datatype Kind = Second | Minute

  datatype Context = Context(kind: Kind, delay: nat)

  function MetricTypeToTag(kind: Kind, delay: nat): Context {
    Context(kind, if kind.Minute? then ResetDelaySeconds(delay) else delay)
  }

  function Interval(kind: Kind): nat { if kind.Second? then 1 else SECONDS_IN_MINUTE }

  function Floor(kind: Kind, t: nat): nat { t / Interval(kind) * Interval(kind) }

  /** The time a tick stands for; `None` where the subtraction would go below zero. */
  function TickTime(ctx: Context, t: nat): Option<nat> {
    if t < ctx.delay then Some(t)
    else if ctx.kind.Second? then Some(t - ctx.delay)
    else if ctx.delay < SECONDS_IN_MINUTE then None
    else Some(t - (ctx.delay - SECONDS_IN_MINUTE))
  }

  /** The clamp on the minute delay is what keeps the subtraction defined. */
  lemma TickNeverUnderflows(kind: Kind, delay: nat, t: nat)
    ensures TickTime(MetricTypeToTag(kind, delay), t).Some? && TickTime(MetricTypeToTag(kind, delay), t).value <= t
    ensures (forall now :: TickTime(Context(kind, delay), now).Some?) <==> kind.Second? || delay >= SECONDS_IN_MINUTE
  {
    if kind.Minute? && delay < SECONDS_IN_MINUTE { assert TickTime(Context(kind, delay), delay).None?; }
  }

  lemma FloorLaws(kind: Kind, t: nat, start: nat)
    requires Floor(kind, start) == start
    ensures Floor(kind, t) <= t && Floor(kind, Floor(kind, t)) == Floor(kind, t)
    ensures t >= start ==> Floor(kind, t) >= start
  {
  }

  // ---------------------------------------------------------------- meters and documents

  datatype Sums = Sums(packetTx: nat, packetRx: nat, byteTx: nat, byteRx: nat)

  const ZERO: Sums := Sums(0, 0, 0, 0)

  function AddSums(a: Sums, b: Sums): Sums {
    Sums(a.packetTx + b.packetTx, a.packetRx + b.packetRx, a.byteTx + b.byteTx, a.byteRx + b.byteRx)
  }

  datatype Meter = FlowMeter(sums: Sums) | UsageMeter(sums: Sums)

  /** Merging meters of different types panics. */
  function Merge(a: Meter, b: Meter): Option<Meter> {
    if a.FlowMeter? && b.FlowMeter? then Some(FlowMeter(AddSums(a.sums, b.sums)))
    else if a.UsageMeter? && b.UsageMeter? then Some(UsageMeter(AddSums(a.sums, b.sums)))
    else None
  }

  /** The whole key; `ends` stands for addresses, process ids, endpoint, business type and time span. */
  datatype Key = Key(fastId: bv128, ends: nat)

  datatype Entry = Entry(tag: Tagger, ends: nat, meter: Meter)

  function KeyOf(tag: Tagger, ends: nat): Option<Key> {
    match FastId(tag)
    case None => None
    case Some(id) => Some(Key(id, ends))
  }

  datatype Doc = Doc(tag: Tagger, meter: Meter)

  datatype Batch = Batch(time: nat, docs: map<Key, Doc>)

  datatype Stash = Stash(start: nat, inner: map<Key, Doc>, out: seq<Batch>, late: nat, inactive: nat)

  // ---------------------------------------------------------------- one call

  /** One meter into the current slot; `None` where the agent panics. */
  function Add(s: Stash, e: Entry): Option<Stash> {
    match KeyOf(e.tag, e.ends)
    case None => None
    case Some(k) =>
      if k !in s.inner then Some(s.(inner := s.inner[k := Doc(e.tag, e.meter)]))
      else
        match Merge(s.inner[k].meter, e.meter)
        case None => None
        case Some(m) => Some(s.(inner := s.inner[k := s.inner[k].(meter := m)]))
  }

  function AddAll(s: Stash, es: seq<Entry>): Option<Stash>
    decreases |es|
  {
    if es == [] then Some(s)
    else
      match Add(s, es[0])
      case None => None
      case Some(s') => AddAll(s', es[1..])
  }

  function FlushStats(s: Stash): Stash { s.(inner := map[], out := s.out + [Batch(s.start, s.inner)]) }

  /** A later slot sends what is stashed and becomes the current one. */
  function MoveTo(kind: Kind, s: Stash, t: nat): Stash {
    if Floor(kind, t) > s.start then FlushStats(s).(start := Floor(kind, t)) else s
  }

  /** A policy group and the tunnel address id it maps to. */
  datatype Acl = Acl(gid: bv16, ipId: bv16)

  /**
    A flow with its traffic. `acls` are the policies of the client and server side, `inactive` says
    that neither host is active and inactive hosts are aggregated, and `entries` are the tags its
    endpoints give rise to, each with the traffic seen from there.
  */
  datatype Flow = Flow(time: nat, packet: bool, sums: Sums, acls0: seq<Acl>, acls1: seq<Acl>, inactive: bool,
                       entries: seq<FlowEntry>)

  datatype FlowEntry = FlowEntry(tag: Tagger, ends: nat, sums: Sums)

  function AclTag(a: Acl): Tagger { Tagger(ACL, 0, 0, 0, 0, a.ipId, 0, 0, 0, a.gid) }

  function AclEntries(acls: seq<Acl>, m: Meter): seq<Entry> {
    seq(|acls|, i requires 0 <= i < |acls| => Entry(AclTag(acls[i]), 0, m))
  }

  function AclPart(kind: Kind, f: Flow): seq<Entry> {
    if kind.Minute? && f.packet then
      AclEntries(f.acls0, UsageMeter(Sums(f.sums.packetTx, 0, f.sums.byteTx, 0)))
      + AclEntries(f.acls1, UsageMeter(Sums(0, f.sums.packetRx, 0, f.sums.byteRx)))
    else []
  }

  function FlowPart(f: Flow): seq<Entry> {
    if f.inactive then []
    else seq(|f.entries|, i requires 0 <= i < |f.entries| =>
               Entry(f.entries[i].tag, f.entries[i].ends, FlowMeter(f.entries[i].sums)))
  }

  /** Every meter a flow contributes: policies are counted even when the hosts are inactive. */
  function Contributions(kind: Kind, f: Flow): seq<Entry> { AclPart(kind, f) + FlowPart(f) }

  datatype Input = Tick(now: nat) | Report(flow: Flow)

  /** The stash once a flow dropped for inactive hosts is counted. */
  function Counted(s: Stash, f: Flow): Stash { if f.inactive then s.(inactive := s.inactive + 1) else s }

  /** A flow that is not late. */
  function ReportL4(kind: Kind, s: Stash, f: Flow): Option<Stash> {
    AddAll(Counted(MoveTo(kind, s, f.time), f), Contributions(kind, f))
  }

  function CollectL4(ctx: Context, s: Stash, x: Input): Option<Stash> {
    var t := if x.Tick? then x.now else x.flow.time;
    if t < s.start then Some(s.(late := s.late + 1))
    else if x.Tick? then
      match TickTime(ctx, t)
      case None => None
      case Some(t') => Some(MoveTo(ctx.kind, s, t'))
    else ReportL4(ctx.kind, s, x.flow)
  }

  // ---------------------------------------------------------------- what the callers promise

  /** A tag that has a layout, and carries the meter type of its code. */
  predicate WellTagged(tag: Tagger, meter: Meter) {
    FastId(tag).Some? && (meter.UsageMeter? <==> tag.code == ACL)
  }

  /** The tags the endpoints of a flow give rise to are single-ended or edge tags. */
  predicate FlowTagged(f: Flow) {
    forall i :: 0 <= i < |f.entries| ==> IsSingle(f.entries[i].tag.code) || IsEdge(f.entries[i].tag.code)
  }

  predicate InputTagged(x: Input) { x.Report? ==> FlowTagged(x.flow) }

  lemma AclTagged(a: Acl, sums: Sums)
    ensures WellTagged(AclTag(a), UsageMeter(sums))
  {
  }

  lemma FlowCodeTagged(tag: Tagger, sums: Sums)
    requires IsSingle(tag.code) || IsEdge(tag.code)
    ensures WellTagged(tag, FlowMeter(sums))
  {
  }

  lemma ContributionsTagged(kind: Kind, f: Flow, i: nat)
    requires FlowTagged(f) && i < |Contributions(kind, f)|
    ensures WellTagged(Contributions(kind, f)[i].tag, Contributions(kind, f)[i].meter)
  {
    var e := Contributions(kind, f)[i];
    var acl := AclPart(kind, f);
    if i < |acl| {
      assert e == acl[i];
      var a :| e.tag == AclTag(a);
      hide WellTagged, AclTag;
      AclTagged(a, e.meter.sums);
    } else {
      assert e == FlowPart(f)[i - |acl|];
      hide WellTagged, IsSingle, IsEdge;
      FlowCodeTagged(e.tag, e.meter.sums);
    }
  }

  /** Two well tagged meters that fall on one key are of one type, so they merge. */
  lemma SameKeyMerges(tag: Tagger, m: Meter, tag': Tagger, m': Meter, ends: nat, ends': nat)
    requires WellTagged(tag, m) && WellTagged(tag', m') && KeyOf(tag, ends) == KeyOf(tag', ends')
    ensures Merge(m, m').Some? && Merge(m, m').value.sums == AddSums(m.sums, m'.sums)
    ensures Merge(m, m').value.UsageMeter? == m.UsageMeter?
  {
    hide FastId;
    KeyTellsPolicy(tag, tag');
  }
}
