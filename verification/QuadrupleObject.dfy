/** The generator as an object: loops over slots, records and connection entries, updated in place. */
module QuadrupleObject {
  import opened Basics
  import opened Options
  import opened Minutes
  import opened QuadrupleGenerator
  import opened QuadrupleRuns

  /** `r` is `next` with the entries of `front` outside `todo` merged in. */
  ghost predicate PartlyMerged(r: Conns, next: Conns, front: Conns, t: nat, todo: set<Key>) {
    && (forall k :: k in r <==> k in next || (k !in todo && Carries(front, k, t)))
    && (forall k :: k in r ==> r[k] == if k in todo then next[k] else MergedEntry(next, front, t, k))
  }

  lemma MergedOneMore(r: Conns, r': Conns, next: Conns, front: Conns, t: nat, todo: set<Key>, k: Key)
    requires PartlyMerged(r, next, front, t, todo) && k in todo && k in front
    requires r' == if !Carries(front, k, t) then r else r[k := MergedEntry(next, front, t, k)]
    ensures PartlyMerged(r', next, front, t, todo - {k})
  {
  }

  lemma MergedStarts(next: Conns, front: Conns, t: nat)
    ensures PartlyMerged(next, next, front, t, front.Keys)
  {
  }

  lemma MergedEnds(r: Conns, next: Conns, front: Conns, t: nat)
    requires PartlyMerged(r, next, front, t, {})
    ensures r == Merged(next, front, t)
  {
  }

  lemma StillUnmerged(r: Conns, next: Conns, front: Conns, t: nat, todo: set<Key>, k: Key)
    requires PartlyMerged(r, next, front, t, todo) && k in todo
    ensures (k in r <==> k in next) && (k in r ==> r[k] == next[k])
  {
  }

  /** The records outside `todo` are finished and have refreshed their entries. */
  ghost predicate PartlySet(records: map<Key, Record>, touched: Option<Conns>, s: Source, stash: Stash,
                            conns: Option<Conns>, todo: set<Key>)
  {
    && records.Keys == stash.Keys - todo
    && (forall k :: k in records ==> records[k] == Finished(s, conns, k, stash[k]))
    && touched.Some? == conns.Some?
    && (conns.Some? ==>
          && touched.value.Keys == conns.value.Keys
          && forall k :: k in conns.value ==>
               touched.value[k] == if k in todo then conns.value[k] else TouchedEntry(s, conns.value[k], stash, k))
  }

  lemma SetOneMore(records: map<Key, Record>, touched: Option<Conns>, records': map<Key, Record>,
                   touched': Option<Conns>, s: Source, stash: Stash, conns: Option<Conns>, todo: set<Key>, k: Key)
    requires PartlySet(records, touched, s, stash, conns, todo) && k in todo && k in stash
    requires records' == records[k := Finished(s, touched, k, stash[k])]
    requires touched' == if touched.Some? && k in touched.value
                         then Some(touched.value[k := TouchedEntry(s, touched.value[k], stash, k)]) else touched
    ensures PartlySet(records', touched', s, stash, conns, todo - {k})
  {
  }

  lemma SetStarts(s: Source, stash: Stash, conns: Option<Conns>)
    ensures PartlySet(map[], conns, s, stash, conns, stash.Keys)
  {
  }

  lemma SetEnds(records: map<Key, Record>, touched: Option<Conns>, s: Source, stash: Stash, conns: Option<Conns>)
    requires PartlySet(records, touched, s, stash, conns, {})
    ensures records == FinishedAll(s, conns, stash)
    ensures touched == if conns.Some? then Some(Touched(s, conns.value, stash)) else None
  {
    assert records.Keys == FinishedAll(s, conns, stash).Keys;
    if conns.Some? { assert touched.value == Touched(s, conns.value, stash); }
  }

  class SubQuadGen {
    const p: Params
    var windowStart: nat
    var stashes: seq<Stash>
    var connections: Option<seq<Conns>>
    var output: seq<Batch>
    var dropBeforeWindow: nat

    /** The window start in slots. */
    ghost var first: nat

    ghost predicate Valid()
      reads this
    {
      windowStart == first * p.interval && WellFormed(p, Abs())
    }

    ghost function Abs(): Gen
      reads this
    {
      Gen(first, stashes, connections, output, dropBeforeWindow)
    }

    constructor (p: Params, minute: nat, counting: bool)
      requires p.Valid() && (p.interval == 1 || p.interval == SECONDS_IN_MINUTE)
      ensures Valid() && this.p == p && windowStart == minute * SECONDS_IN_MINUTE
      ensures Abs() == Fresh(p, minute * SECONDS_IN_MINUTE / p.interval, counting)
    {
      this.p := p;
      windowStart := minute * SECONDS_IN_MINUTE;
      stashes := seq(p.slots, _ => map[]);
      connections := if counting then Some(seq(p.slots, _ => map[])) else None;
      output, dropBeforeWindow := [], 0;
      first := minute * SECONDS_IN_MINUTE / p.interval;
    }

    /** Adds the living connections of a flushed slot to the table of the next one, entry by entry. */
    static method Merge(next: Conns, front: Conns, t: nat) returns (r: Conns)
      ensures r == Merged(next, front, t)
    {
      hide PartlyMerged, Merged;
      r := next;
      var todo := front.Keys;
      MergedStarts(next, front, t);
      while todo != {}
        invariant todo <= front.Keys && PartlyMerged(r, next, front, t, todo)
        decreases |todo|
      {
        var k :| k in todo;
        var v := front[k];
        ghost var before := r;
        StillUnmerged(r, next, front, t, todo, k);
        if t <= v.time + CONCURRENT_TIMEOUT && v.living > 0 {
          if k in r {
            r := r[k := Conn(r[k].sum + v.living, r[k].living + v.living, r[k].time)];
          } else {
            r := r[k := Conn(v.living, v.living, v.time)];
          }
        }
        MergedOneMore(before, r, next, front, t, todo, k);
        todo := todo - {k};
      }
      MergedEnds(r, next, front, t);
    }

    /** Gives every record of a slot its load, refreshing the connection entries it reads. */
    static method SetConnection(s: Source, stash: Stash, conns: Option<Conns>)
      returns (records: map<Key, Record>, touched: Option<Conns>)
      ensures records == FinishedAll(s, conns, stash)
      ensures touched == if conns.Some? then Some(Touched(s, conns.value, stash)) else None
    {
      hide PartlySet, FinishedAll, Touched, Finished, TouchedEntry;
      records, touched := map[], conns;
      var todo := stash.Keys;
      SetStarts(s, stash, conns);
      while todo != {}
        invariant todo <= stash.Keys && PartlySet(records, touched, s, stash, conns, todo)
        decreases |todo|
      {
        var k :| k in todo;
        ghost var r0, t0 := records, touched;
        records := records[k := Finished(s, touched, k, stash[k])];
        if touched.Some? && k in touched.value {
          touched := Some(touched.value[k := TouchedEntry(s, touched.value[k], stash, k)]);
        }
        SetOneMore(r0, t0, records, touched, s, stash, conns, todo, k);
        todo := todo - {k};
      }
      SetEnds(records, touched, s, stash, conns);
    }

    /** Takes slot `i` out of the ring, leaving an empty one, and sends its records. */
    method FlushFlow(i: nat, conns: Option<Conns>) returns (touched: Option<Conns>)
      requires p.Valid() && windowStart == first * p.interval && i < |stashes|
      modifies this`stashes, this`output
      ensures stashes == old(stashes)[i := map[]]
      ensures output == old(output) + [Batch(first + i, FinishedAll(p.source, conns, old(stashes)[i]))]
      ensures touched == if conns.Some? then Some(Touched(p.source, conns.value, old(stashes)[i])) else None
    {
      QuotientUnique(windowStart, first, p.interval);
      var stash := stashes[i];
      stashes := stashes[i := map[]];
      var records;
      records, touched := SetConnection(p.source, stash, conns);
      output := output + [Batch(windowStart / p.interval + i, records)];
    }

    /** The ring read from index `i` on: what it will be once it is rotated. */
    ghost function Rotated(i: nat): Gen
      reads this
      requires i <= |stashes|
    {
      Gen(first + i, stashes[i..] + stashes[..i], connections, output, dropBeforeWindow)
    }

    method FlushOne(i: nat, t: nat)
      requires p.Valid() && windowStart == first * p.interval
      requires i < |stashes| && WellFormed(p, Rotated(i))
      modifies this`stashes, this`connections, this`output
      ensures |stashes| == |old(stashes)| && Rotated(i + 1) == Shift(p, old(Rotated(i)), t)
    {
      ghost var before := stashes;
      assert Rotated(i).stashes[0] == stashes[i];
      if connections.Some? {
        var current := connections.value;
        var front := FlushFlow(i, Some(current[0]));
        var next := Merge(current[1], front.value, t);
        connections := Some([next] + current[2..] + [map[]]);
      } else {
        var _ := FlushFlow(i, None);
      }
      assert stashes[i + 1..] + stashes[..i + 1] == (before[i..] + before[..i])[1..] + [map[]];
    }

    /** Flushes the oldest `n` slots in place, passing living connections from each to the next. */
    method FlushOldest(n: nat, t: nat)
      requires Valid() && n <= p.slots
      modifies this`stashes, this`connections, this`output
      ensures |stashes| == p.slots && Rotated(n) == Shifts(p, old(Abs()), t, n)
    {
      var i := 0;
      ghost var g0 := Abs();
      assert stashes[0..] + stashes[..0] == stashes;
      while i < n
        invariant i <= n && |stashes| == p.slots
        invariant Rotated(i) == Shifts(p, g0, t, i)
      {
        FlushOne(i, t);
        i := i + 1;
      }
    }

    /** The body of the window loop. */
    method MoveOnce(t: nat)
      requires Valid() && t >= windowStart + p.delay
      modifies this
      ensures Valid() && Abs() == Moved(p, old(Abs()), t)
    {
      hide Shifts;
      ghost var g0 := Abs();
      var n := SlotsToShift(p, windowStart, t);
      hide SlotsToShift;
      if n >= p.slots {
        FlushOldest(p.slots, t);
        assert stashes[p.slots..] + stashes[..p.slots] == stashes;
      } else {
        FlushOldest(n, t);
        stashes := stashes[n..] + stashes[..n];
      }
      windowStart := windowStart + p.interval * n;
      first := first + n;
      Distrib(g0.first, n, p.interval);
    }

    /** Moves the window so that `t` fits; false when `t` is before it. */
    method MoveWindow(t: nat) returns (ok: bool)
      requires Valid()
      modifies this
      ensures Valid() && ok == (t >= old(windowStart))
      ensures Abs() == if ok then Moved(p, old(Abs()), t) else old(Abs()).(dropped := old(dropBeforeWindow) + 1)
    {
      if t < windowStart {
        dropBeforeWindow := dropBeforeWindow + 1;
        return false;
      }
      ghost var g0 := Abs();
      MovedWindow(p, g0, t);
      while t >= windowStart + p.delay
        invariant Valid()
        invariant Abs() == if t < windowStart + p.delay then Moved(p, g0, t) else g0
        decreases if t >= windowStart + p.delay then 1 else 0
      {
        MoveOnce(t);
      }
      ok := true;
    }

    method InjectFlow(f: Flow)
      requires Valid() && windowStart <= f.time && IndexOf(p, windowStart, f.time) < p.slots
      modifies this`stashes, this`connections
      ensures Valid() && Abs() == Inject(p, old(Abs()), f)
    {
      var i := (f.time - windowStart) / p.interval;
      assert connections.Some? ==> connections.value[i := connections.value[i]] == connections.value;
      if f.key.tcpOrUdp && p.source.Packet? && connections.Some? {
        var current := connections.value;
        var c := if f.key in current[i] then current[i][f.key] else Conn(0, 0, 0);
        if f.isNew && !f.closed {
          connections := Some(current[i := current[i][f.key := Conn(c.sum + 1, c.living + 1, f.time)]]);
        } else if f.closed {
          connections := Some(current[i := current[i][f.key :=
            if f.isNew then Conn(c.sum + 1, c.living, f.time) else Conn(c.sum, c.living - 1, f.time)]]);
        }
      }
      assert connections == Inject(p, old(Abs()), f).conns;
      stashes := stashes[i := stashes[i][f.key :=
        if f.key in stashes[i] then MergeFlow(p.source, stashes[i][f.key], f) else Record(Meter(f), 0, 0, f.time)]];
    }

    /** One flow report or tick, as the generator handles it. */
    method Accept(x: Input)
      requires Valid()
      modifies this
      ensures Valid() && Abs() == Handle(p, old(Abs()), x)
    {
      if TimeOf(x) >= windowStart { MovedWindow(p, Abs(), TimeOf(x)); }
      var ok := MoveWindow(TimeOf(x));
      if ok && x.Report? { InjectFlow(x.flow); }
    }
  }
}
