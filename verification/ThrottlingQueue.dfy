/** The throttled and the unthrottled path from the flow aggregator to the sender. */
module ThrottlingQueue {
  import opened Basics
  import opened Reservoir

  const THROTTLE_BUCKET: nat := 4
  const MIN_THRESHOLD: nat := 100
  const MAX_THRESHOLD: nat := 1000000
  const CACHE_WITHOUT_THROTTLING_SIZE: nat := 1024

  /** The period a time in seconds falls into. */
  function Bucket(now: nat): nat { now / THROTTLE_BUCKET }

  /** The throttle in force after a flush that reads the configured threshold. */
  function NewThrottle(throttle: nat, threshold: nat): nat {
    if threshold < MIN_THRESHOLD || threshold > MAX_THRESHOLD then throttle else threshold * THROTTLE_BUCKET
  }

  /** The thresholds that count are those from a hundred to a million; the throttle is four times as many flows. */
  lemma ThresholdInForce(throttle: nat, threshold: nat)
    ensures NewThrottle(throttle, threshold) == if 100 <= threshold <= 1000000 then 4 * threshold else throttle
  {
  }

  /** What a queue holds and has forwarded. */
  datatype Caches<T> = Caches(throttle: nat, lastWith: nat, lastWithout: nat, cacheWith: seq<T>, cacheWithout: seq<T>,
                              output: seq<T>)

  function FlushedWith<T>(c: Caches<T>, now: nat, threshold: nat): Caches<T> {
    if Bucket(now) == Bucket(c.lastWith) then c
    else
      var n := NewThrottle(c.throttle, threshold);
      c.(throttle := n, lastWith := now, cacheWith := [], output := c.output + First(n, c.cacheWith))
  }

  function FlushedWithout<T>(c: Caches<T>, now: nat): Caches<T> {
    if |c.cacheWithout| < CACHE_WITHOUT_THROTTLING_SIZE && Bucket(now) == Bucket(c.lastWithout) then c
    else c.(lastWithout := now, cacheWithout := [], output := c.output + c.cacheWithout)
  }

  function Boundary(m: nat): nat { 4 * m }

  function Max(a: nat, b: nat): nat { if a < b then b else a }

  /** A multiple of four seconds lies after the one time and not after the other. */
  ghost predicate PeriodEnds(from: nat, to: nat) { exists m :: from < Boundary(m) <= to }

  lemma BucketsDiffer(a: nat, b: nat)
    requires a <= b
    ensures Bucket(a) != Bucket(b) <==> PeriodEnds(a, b)
    ensures a + 4 <= b ==> PeriodEnds(a, b)
  {
    if Bucket(a) != Bucket(b) { assert a < Boundary(b / 4) <= b; }
    if a + 4 <= b { assert a < Boundary(b / 4) <= b; }
  }

  /**
    A flush forwards the sample exactly when a period has ended since the last, which four seconds always bring;
    then all of it is forwarded that the throttle then in force admits, and the cache is empty.
  */
  lemma FlushIffPeriodEnds<T>(c: Caches<T>, now: nat, threshold: nat)
    ensures var r, n := FlushedWith(c, now, threshold), NewThrottle(c.throttle, threshold);
      if PeriodEnds(Min(c.lastWith, now), Max(c.lastWith, now))
      then r == Caches(n, now, c.lastWithout, [], c.cacheWithout, c.output + First(n, c.cacheWith))
      else r == c
    ensures c.lastWith + 4 <= now ==> FlushedWith(c, now, threshold).cacheWith == []
  {
    BucketsDiffer(Min(c.lastWith, now), Max(c.lastWith, now));
  }

  /** The other cache is forwarded then too, and whenever it has reached 1024 flows. */
  lemma FlushWithoutIff<T>(c: Caches<T>, now: nat)
    ensures var r := FlushedWithout(c, now);
      if |c.cacheWithout| >= 1024 || PeriodEnds(Min(c.lastWithout, now), Max(c.lastWithout, now))
      then r == Caches(c.throttle, c.lastWith, now, c.cacheWith, [], c.output + c.cacheWithout)
      else r == c
  {
    BucketsDiffer(Min(c.lastWithout, now), Max(c.lastWithout, now));
  }

  /** Over the whole life: flows offered, answered `false`, cut off by a lower threshold, and forwarded. */
  datatype Ledger = Ledger(total: nat, refused: nat, cutOff: nat, forwarded: nat)

  lemma EmptyPeriod<T>(n: nat)
    ensures Kept<T>(n, [], []) == [] && IsDraws(n, 0, [])
  {
  }

  class ThrottlingQueue<T> {
    var throttle: nat
    var lastWith: nat
    var lastWithout: nat
    var periodCount: nat
    var cacheWith: seq<T>
    var cacheWithout: seq<T>
    var output: seq<T>

    /** The flows offered in the current period and the draws made for them. */
    ghost var offered: seq<T>
    ghost var draws: seq<nat>

    ghost var ledger: Ledger

    ghost predicate Valid()
      reads this
    {
      && periodCount == |offered|
      && IsDraws(throttle, |offered|, draws)
      && cacheWith == Kept(throttle, offered, draws)
      && ledger.total == ledger.forwarded + |cacheWith| + ledger.refused + ledger.cutOff
    }

    ghost function State(): Caches<T>
      reads this
    {
      Caches(throttle, lastWith, lastWithout, cacheWith, cacheWithout, output)
    }

    constructor (threshold: nat)
      ensures Valid() && throttle == threshold * THROTTLE_BUCKET
      ensures cacheWith == [] && cacheWithout == [] && output == [] && offered == [] && ledger == Ledger(0, 0, 0, 0)
    {
      throttle := threshold * THROTTLE_BUCKET;
      lastWith, lastWithout, periodCount := 0, 0, 0;
      cacheWith, cacheWithout, output, offered, draws := [], [], [], [], [];
      ledger := Ledger(0, 0, 0, 0);
    }

    method UpdateThrottle(threshold: nat)
      modifies this`throttle, this`cacheWith
      ensures throttle == NewThrottle(old(throttle), threshold)
      ensures throttle == old(throttle) ==> cacheWith == old(cacheWith)
      ensures throttle != old(throttle) ==> cacheWith == old(cacheWith)[..Min(|old(cacheWith)|, throttle)]
    {
      if threshold < MIN_THRESHOLD || threshold > MAX_THRESHOLD || throttle == threshold * THROTTLE_BUCKET { return; }
      throttle := threshold * THROTTLE_BUCKET;
      if throttle < |cacheWith| { cacheWith := cacheWith[..throttle]; }
    }

    /**
      A new period forwards the whole sample, unless the threshold was lowered below its size: then
      the sample is cut before it is forwarded.
    */
    method FlushWithThrottling(now: nat, threshold: nat)
      requires Valid()
      modifies this
      ensures Valid() && State() == FlushedWith(old(State()), now, threshold)
      ensures Bucket(now) == Bucket(old(lastWith)) ==> unchanged(this)
      ensures Bucket(now) != Bucket(old(lastWith)) ==>
        var keep := Min(|old(cacheWith)|, throttle);
        && |old(cacheWith)| - keep == CutBy(old(throttle), old(offered), old(draws), throttle)
        && ledger == old(ledger).(cutOff := old(ledger).cutOff + (|old(cacheWith)| - keep),
                                  forwarded := old(ledger).forwarded + keep)
        && offered == []
    {
      hide Kept, IsDraws;
      if Bucket(now) != Bucket(lastWith) {
        KeptSize(throttle, offered, draws);
        EmptyPeriod<T>(NewThrottle(throttle, threshold));
        ghost var before := |cacheWith|;
        UpdateThrottle(threshold);
        ledger := ledger.(cutOff := ledger.cutOff + (before - |cacheWith|),
                          forwarded := ledger.forwarded + |cacheWith|);
        output, cacheWith, lastWith, periodCount, offered, draws := output + cacheWith, [], now, 0, [], [];
      }
    }

    /** Offers a flow; `r` is the random draw below the number of flows of the period so far. */
    method SendWithThrottling(f: T, r: nat) returns (ok: bool)
      requires Valid() && r < periodCount + 1
      modifies this
      ensures Valid() && State() == old(State()).(cacheWith := Offer(throttle, old(cacheWith), f, r))
      ensures ok == (|old(offered)| < throttle) == (|old(cacheWith)| < throttle)
      ensures offered == old(offered) + [f]
      ensures ledger == old(ledger).(total := old(ledger).total + 1,
                                     refused := old(ledger).refused + (if ok then 0 else 1))
    {
      KeptSize(throttle, offered, draws);
      KeptPrefix(throttle, offered, draws, [r]);
      assert (offered + [f])[..|offered|] == offered;
      periodCount := periodCount + 1;
      if |cacheWith| < throttle {
        cacheWith := cacheWith + [f];
        ok := true;
      } else {
        if r < throttle { cacheWith := cacheWith[r := f]; }
        draws := draws + [r];
        ok := false;
      }
      offered := offered + [f];
      ledger := ledger.(total := ledger.total + 1, refused := ledger.refused + (if ok then 0 else 1));
    }

    method FlushWithoutThrottling(now: nat)
      requires Valid()
      modifies this`output, this`cacheWithout, this`lastWithout
      ensures Valid() && State() == FlushedWithout(old(State()), now)
    {
      if |cacheWithout| >= CACHE_WITHOUT_THROTTLING_SIZE || now / THROTTLE_BUCKET != lastWithout / THROTTLE_BUCKET {
        output := output + cacheWithout;
        cacheWithout := [];
        lastWithout := now;
      }
    }

    method SendWithoutThrottling(f: T)
      requires Valid()
      modifies this`cacheWithout
      ensures Valid() && cacheWithout == old(cacheWithout) + [f]
    {
      cacheWithout := cacheWithout + [f];
    }

    /** In every reachable state the cache is as full as the period allows and holds distinct flows of it. */
    lemma CacheIsSample()
      requires Valid()
      ensures |cacheWith| == Min(|offered|, throttle)
      ensures exists s: seq<nat> ::
        && |s| == |cacheWith| && Within(s, |offered|) && cacheWith == Pick(offered, s)
        && forall i, j :: 0 <= i < j < |s| ==> s[i] != s[j]
    {
      SampleShape(throttle, |offered|, draws);
      KeptIsSample(throttle, offered, draws);
    }
  }

  lemma {:induction false} KeptPrefix<T>(n: nat, flows: seq<T>, d: seq<nat>, e: seq<nat>)
    requires |flows| <= n + |d|
    ensures Kept(n, flows, d + e) == Kept(n, flows, d)
    decreases |flows|
  {
    if flows != [] { KeptPrefix(n, flows[..|flows| - 1], d, e); }
  }

  /** How many flows of a period's sample a flush under a new throttle does not forward. */
  function CutBy<T>(throttle: nat, flows: seq<T>, draws: seq<nat>, lowered: nat): nat {
    var sample := Kept(throttle, flows, draws);
    |sample| - Min(|sample|, lowered)
  }

  /** Nothing is cut exactly when the period, or the throttle it was sampled under, fits the new throttle. */
  lemma NothingCutIff<T>(throttle: nat, flows: seq<T>, draws: seq<nat>, lowered: nat)
    requires IsDraws(throttle, |flows|, draws)
    ensures CutBy(throttle, flows, draws, lowered) == 0 <==> |flows| <= lowered || throttle <= lowered
  {
    KeptSize(throttle, flows, draws);
  }

  /** A losing case: the threshold goes from 200 to 100 in a period that fitted the old one but not the new. */
  lemma LoweredThresholdLoses<T>(flows: seq<T>)
    requires 400 < |flows| <= 800
    ensures NewThrottle(NewThrottle(0, 200), 100) == 400 && IsDraws(NewThrottle(0, 200), |flows|, [])
    ensures CutBy(NewThrottle(0, 200), flows, [], 400) == |flows| - 400 > 0
  {
    KeptSize(800, flows, []);
  }

  /** What hands flows over: flows with a packet-capture policy are not throttled. */
  class Sender<T> {
    const queue: ThrottlingQueue<T>
    var out: nat
    var dropInThrottle: nat

    /** How many flows took the unthrottled path. */
    ghost var plain: nat

    ghost predicate Valid()
      reads this, queue
    {
      && queue.Valid()
      && out == queue.ledger.total + plain
      && dropInThrottle == queue.ledger.refused
      && |queue.output| + |queue.cacheWithout| == queue.ledger.forwarded + plain
    }

    constructor (threshold: nat)
      ensures Valid() && fresh(queue) && out == 0 && dropInThrottle == 0
    {
      queue := new ThrottlingQueue(threshold);
      out, dropInThrottle, plain := 0, 0, 0;
    }

    method FlushCaches(now: nat, threshold: nat)
      requires Valid()
      modifies queue
      ensures Valid() && queue.ledger.total == old(queue.ledger.total)
      ensures queue.State() == FlushedWithout(FlushedWith(old(queue.State()), now, threshold), now)
    {
      hide Kept, IsDraws;
      queue.FlushWithThrottling(now, threshold);
      queue.FlushWithoutThrottling(now);
    }

    method SendFlow(f: T, hitPcap: bool, now: nat, threshold: nat)
      requires Valid()
      modifies this, queue
      ensures Valid() && out == old(out) + 1
      ensures var c := FlushedWithout(FlushedWith(old(queue.State()), now, threshold), now);
        if hitPcap then
          && queue.State() == c.(cacheWithout := c.cacheWithout + [f])
          && plain == old(plain) + 1 && dropInThrottle == old(dropInThrottle)
        else
          && (exists r: nat :: r < queue.periodCount &&
                queue.State() == c.(cacheWith := Offer(c.throttle, c.cacheWith, f, r)))
          && plain == old(plain) && queue.ledger.total == old(queue.ledger.total) + 1
          && dropInThrottle == old(dropInThrottle) + (if |c.cacheWith| < c.throttle then 0 else 1)
    {
      hide Kept, IsDraws;
      FlushCaches(now, threshold);
      out := out + 1;
      if hitPcap {
        queue.SendWithoutThrottling(f);
        plain := plain + 1;
      } else {
        var r: nat :| r < queue.periodCount + 1;
        KeptSize(queue.throttle, queue.offered, queue.draws);
        var ok := queue.SendWithThrottling(f, r);
        if !ok { dropInThrottle := dropInThrottle + 1; }
      }
    }

    /** Over the whole life: every flow was sent, waits, was counted as dropped, or was cut off by a lower threshold. */
    lemma EveryFlowAccounted()
      requires Valid()
      ensures out == |queue.output| + |queue.cacheWith| + |queue.cacheWithout| + dropInThrottle + queue.ledger.cutOff
    {
    }
  }
}
