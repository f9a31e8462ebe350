/** Reservoir sampling as the flow-log throttle does it, and why no flow of a period is favoured. */
module Reservoir {

  /** One offer to a reservoir of size `n`; `r` is the draw, used only when the reservoir is full. */
  function Offer<T>(n: nat, cache: seq<T>, f: T, r: nat): seq<T> {
    if |cache| < n then cache + [f]
    else if r < n && r < |cache| then cache[r := f]
    else cache
  }

  /** The draw made for flow `j`: the first `n` flows of a period draw nothing. */
  function DrawFor(n: nat, j: nat, draws: seq<nat>): nat {
    if n <= j && j - n < |draws| then draws[j - n] else 0
  }

  /** The numbers of the flows in the reservoir after the first `k` flows of a period. */
  function Sample(n: nat, k: nat, draws: seq<nat>): seq<nat>
    decreases k
  {
    if k == 0 then [] else Offer(n, Sample(n, k - 1, draws), k - 1, DrawFor(n, k - 1, draws))
  }

  /** The same for the flows themselves. */
  function Kept<T>(n: nat, flows: seq<T>, draws: seq<nat>): seq<T>
    decreases |flows|
  {
    if flows == [] then []
    else
      var k := |flows| - 1;
      Offer(n, Kept(n, flows[..k], draws), flows[k], DrawFor(n, k, draws))
  }

  lemma {:induction false} SampleShape(n: nat, k: nat, draws: seq<nat>)
    ensures |Sample(n, k, draws)| == if k < n then k else n
    ensures forall i :: 0 <= i < |Sample(n, k, draws)| ==> Sample(n, k, draws)[i] < k
    ensures forall i, j :: 0 <= i < j < |Sample(n, k, draws)| ==> Sample(n, k, draws)[i] != Sample(n, k, draws)[j]
    decreases k
  {
    if k > 0 { SampleShape(n, k - 1, draws); }
  }

  ghost predicate Within(numbers: seq<nat>, k: nat) { forall i :: 0 <= i < |numbers| ==> numbers[i] < k }

  /** The flows with the given numbers. */
  function Pick<T>(flows: seq<T>, numbers: seq<nat>): seq<T>
    requires Within(numbers, |flows|)
  {
    seq(|numbers|, i requires 0 <= i < |numbers| => flows[numbers[i]])
  }

  lemma PickPrefix<T>(flows: seq<T>, k: nat, numbers: seq<nat>)
    requires k <= |flows| && Within(numbers, k)
    ensures Pick(flows[..k], numbers) == Pick(flows, numbers)
  {
  }

  lemma {:induction false} OfferPicks<T>(n: nat, flows: seq<T>, numbers: seq<nat>, k: nat, r: nat)
    requires k < |flows| && Within(numbers, k)
    ensures Within(Offer(n, numbers, k, r), |flows|)
    ensures Offer(n, Pick(flows, numbers), flows[k], r) == Pick(flows, Offer(n, numbers, k, r))
  {
  }

  lemma {:induction false} KeptSize<T>(n: nat, flows: seq<T>, draws: seq<nat>)
    ensures |Kept(n, flows, draws)| == if |flows| < n then |flows| else n
    decreases |flows|
  {
    if flows != [] { KeptSize(n, flows[..|flows| - 1], draws); }
  }

  /** What is kept are the flows with the sampled numbers, each of them once. */
  lemma {:induction false} KeptIsSample<T>(n: nat, flows: seq<T>, draws: seq<nat>)
    ensures Within(Sample(n, |flows|, draws), |flows|)
    ensures Kept(n, flows, draws) == Pick(flows, Sample(n, |flows|, draws))
    decreases |flows|
  {
    SampleShape(n, |flows|, draws);
    if flows != [] {
      var k := |flows| - 1;
      SampleShape(n, k, draws);
      var s, r := Sample(n, k, draws), DrawFor(n, k, draws);
      assert Sample(n, |flows|, draws) == Offer(n, s, k, r);
      assert Kept(n, flows, draws) == Offer(n, Kept(n, flows[..k], draws), flows[k], r);
      hide Offer, Sample, Kept;
      KeptIsSample(n, flows[..k], draws);
      PickPrefix(flows, k, s);
      OfferPicks(n, flows, s, k, r);
    }
  }

  // ---------------------------------------------------------------- all draw sequences

  /** Draw `i` belongs to flow `n + i`, the `n + i + 1`-st of the period, and comes from below that count. */
  ghost predicate IsDraws(n: nat, k: nat, d: seq<nat>) {
    && |d| == (if k <= n then 0 else k - n)
    && forall i :: 0 <= i < |d| ==> d[i] < n + i + 1
  }

  function Below(k: nat): set<nat> {
    if k == 0 then {} else Below(k - 1) + {k - 1}
  }

  lemma {:induction false} BelowShape(k: nat)
    ensures |Below(k)| == k
    ensures forall r: nat :: r in Below(k) <==> r < k
  {
    if k > 0 { BelowShape(k - 1); }
  }

  type Rule = (seq<nat>, nat) -> bool

  function AnyDraw(): Rule { (d: seq<nat>, r: nat) => true }

  ghost function Choices(k: nat, rule: Rule, d: seq<nat>): set<nat> {
    set r | r in Below(k) && rule(d, r)
  }

  /** Every `d` in `ds` continued by every draw below `k` that the rule allows. */
  ghost function Extended(ds: set<seq<nat>>, k: nat, rule: Rule): set<seq<nat>> {
    set d, r | d in ds && r in Choices(k, rule, d) :: d + [r]
  }

  ghost function Draws(n: nat, k: nat): set<seq<nat>>
    decreases k
  {
    if k <= n then {[]} else Extended(Draws(n, k - 1), k, AnyDraw())
  }

  /** The members of an extension, taken apart. */
  lemma {:induction false} ExtendedMember(ds: set<seq<nat>>, k: nat, rule: Rule, d: seq<nat>, r: nat)
    ensures d + [r] in Extended(ds, k, rule) <==> d in ds && r < k && rule(d, r)
  {
    BelowShape(k);
    if d + [r] in Extended(ds, k, rule) {
      var e, s :| e in ds && s in Choices(k, rule, e) && d + [r] == e + [s];
      assert e == (e + [s])[..|e|] == d && s == (e + [s])[|e|] == r;
    }
    if d in ds && r < k && rule(d, r) {
      assert r in Choices(k, rule, d);
    }
  }

  lemma {:induction false} ExtendedNonempty(ds: set<seq<nat>>, k: nat, rule: Rule)
    ensures [] !in Extended(ds, k, rule)
  {
  }

  lemma {:induction false} DrawsAreAll(n: nat, k: nat, d: seq<nat>)
    ensures d in Draws(n, k) <==> IsDraws(n, k, d)
    decreases k
  {
    if k > n {
      if d == [] {
        ExtendedNonempty(Draws(n, k - 1), k, AnyDraw());
      } else {
        var front, r := d[..|d| - 1], d[|d| - 1];
        assert d == front + [r];
        ExtendedMember(Draws(n, k - 1), k, AnyDraw(), front, r);
        DrawsAreAll(n, k - 1, front);
      }
    }
  }

  ghost function Tails(d: seq<nat>, rs: set<nat>): set<seq<nat>> { set r | r in rs :: d + [r] }

  lemma {:induction false} CountTails(d: seq<nat>, rs: set<nat>)
    ensures |Tails(d, rs)| == |rs|
    decreases |rs|
  {
    if rs == {} {
      assert Tails(d, rs) == {};
    } else {
      var r :| r in rs;
      CountTails(d, rs - {r});
      assert Tails(d, rs) == Tails(d, rs - {r}) + {d + [r]};
      forall s | s in rs - {r} ensures d + [s] != d + [r] {
        assert (d + [s])[|d|] == s && (d + [r])[|d|] == r;
      }
    }
  }

  lemma {:induction false} ExtendedSplits(ds: set<seq<nat>>, k: nat, rule: Rule, d: seq<nat>)
    requires d in ds
    ensures Extended(ds, k, rule) == Extended(ds - {d}, k, rule) + Tails(d, Choices(k, rule, d))
    ensures Extended(ds - {d}, k, rule) !! Tails(d, Choices(k, rule, d))
  {
    forall x | x in Tails(d, Choices(k, rule, d)) ensures x !in Extended(ds - {d}, k, rule) {
      var r :| r in Choices(k, rule, d) && x == d + [r];
      ExtendedMember(ds - {d}, k, rule, d, r);
    }
  }

  lemma DisjointSum<T>(a: set<T>, b: set<T>)
    requires a !! b
    ensures |a + b| == |a| + |b|
  {
  }

  /** `m * c`, as repeated addition. */
  function Times(m: nat, c: nat): nat { if m == 0 then 0 else Times(m - 1, c) + c }

  lemma {:induction false} TimesIsProduct(m: nat, c: nat)
    ensures Times(m, c) == m * c
  {
    if m > 0 { TimesIsProduct(m - 1, c); }
  }

  lemma {:induction false} CountOneMore(ds: set<seq<nat>>, k: nat, rule: Rule, d: seq<nat>)
    requires d in ds
    ensures |Extended(ds, k, rule)| == |Extended(ds - {d}, k, rule)| + |Choices(k, rule, d)|
  {
    ExtendedSplits(ds, k, rule, d);
    CountTails(d, Choices(k, rule, d));
    DisjointSum(Extended(ds - {d}, k, rule), Tails(d, Choices(k, rule, d)));
  }

  lemma {:induction false} ExtendedEmpty(k: nat, rule: Rule)
    ensures |Extended({}, k, rule)| == 0
  {
  }

  /** Continuing each sequence in exactly `c` ways multiplies their number by `c`. */
  lemma {:induction false} CountExtended(ds: set<seq<nat>>, k: nat, rule: Rule, c: nat)
    requires forall d :: d in ds ==> |Choices(k, rule, d)| == c
    ensures |Extended(ds, k, rule)| == Times(|ds|, c)
    decreases |ds|
  {
    hide Extended, Choices;
    if ds == {} {
      ExtendedEmpty(k, rule);
    } else {
      var d :| d in ds;
      assert |ds - {d}| == |ds| - 1;
      CountExtended(ds - {d}, k, rule, c);
      CountOneMore(ds, k, rule, d);
    }
  }

  // ---------------------------------------------------------------- uniformity

  lemma {:induction false} SamplePrefix(n: nat, k: nat, d: seq<nat>, e: seq<nat>)
    requires k <= n + |d|
    ensures Sample(n, k, d + e) == Sample(n, k, d)
    decreases k
  {
    if k > 0 { SamplePrefix(n, k - 1, d, e); }
  }

  /** What is left of a reservoir that is cut to size `m` from the back. */
  function First<T>(m: nat, s: seq<T>): seq<T> { if |s| <= m then s else s[..m] }

  /** The draw sequences of `k` flows that leave flow `j` in a reservoir of size `n`, then cut to size `m`. */
  ghost function Keeping(n: nat, m: nat, k: nat, j: nat): set<seq<nat>> {
    set d | d in Draws(n, k) && j in First(m, Sample(n, k, d))
  }

  /** Flow `j` is in the front of the reservoir once flow `k` has drawn `r`. */
  function Keeps(n: nat, m: nat, k: nat, j: nat): Rule {
    (d: seq<nat>, r: nat) => j in First(m, Offer(n, Sample(n, k, d), k, r))
  }

  lemma {:induction false} KeepingStep(n: nat, m: nat, k: nat, j: nat, d: seq<nat>, r: nat)
    requires k >= n && d in Draws(n, k)
    ensures d + [r] in Keeping(n, m, k + 1, j) <==> r < k + 1 && Keeps(n, m, k, j)(d, r)
  {
    DrawsAreAll(n, k, d);
    ExtendedMember(Draws(n, k), k + 1, AnyDraw(), d, r);
    SamplePrefix(n, k, d, [r]);
  }

  /** Who keeps flow `j` after one more flow: continuations of `ds`, as long as `ds` covers all that can. */
  lemma {:induction false} KeepingExtends(n: nat, m: nat, k: nat, j: nat, ds: set<seq<nat>>)
    requires k >= n && ds <= Draws(n, k)
    requires forall d, r: nat :: d in Draws(n, k) && d !in ds ==> !Keeps(n, m, k, j)(d, r)
    ensures Keeping(n, m, k + 1, j) == Extended(ds, k + 1, Keeps(n, m, k, j))
  {
    var kept, ext := Keeping(n, m, k + 1, j), Extended(ds, k + 1, Keeps(n, m, k, j));
    forall x ensures x in kept <==> x in ext {
      if x == [] {
        ExtendedNonempty(Draws(n, k), k + 1, AnyDraw());
        ExtendedNonempty(ds, k + 1, Keeps(n, m, k, j));
      } else {
        var d, r := x[..|x| - 1], x[|x| - 1];
        assert x == d + [r];
        ExtendedMember(ds, k + 1, Keeps(n, m, k, j), d, r);
        if d in Draws(n, k) {
          KeepingStep(n, m, k, j, d, r);
        } else {
          ExtendedMember(Draws(n, k), k + 1, AnyDraw(), d, r);
        }
      }
    }
  }

  lemma {:induction false} NewestEnters(n: nat, m: nat, s: seq<nat>, k: nat, r: nat)
    requires m <= n == |s| && k !in s
    ensures k in First(m, Offer(n, s, k, r)) <==> r < m
  {
    if r < m { assert First(m, Offer(n, s, k, r))[r] == k; }
  }

  /** The newest flow enters the front in `m` of its `k + 1` draws. */
  lemma {:induction false} NewestChoices(n: nat, m: nat, k: nat, d: seq<nat>)
    requires m <= n <= k
    ensures |Choices(k + 1, Keeps(n, m, k, k), d)| == m
  {
    SampleShape(n, k, d);
    BelowShape(m);
    BelowShape(k + 1);
    var s := Sample(n, k, d);
    forall r: nat ensures Keeps(n, m, k, k)(d, r) <==> r < m { NewestEnters(n, m, s, k, r); }
    hide Sample, Offer, First, Below;
    assert Choices(k + 1, Keeps(n, m, k, k), d) == Below(m);
  }

  lemma {:induction false} PushedOut(n: nat, m: nat, s: seq<nat>, k: nat, r: nat, i: nat)
    requires |s| == n && i < m <= n && s[i] != k
    requires forall a, b :: 0 <= a < b < |s| ==> s[a] != s[b]
    ensures s[i] in First(m, Offer(n, s, k, r)) <==> r != i
  {
    if r != i { assert First(m, Offer(n, s, k, r))[i] == s[i]; }
  }

  /** An older flow in the front is pushed out by exactly one of the `k + 1` draws. */
  lemma {:induction false} OlderChoices(n: nat, m: nat, k: nat, j: nat, d: seq<nat>)
    requires m <= n <= k && j < k && j in First(m, Sample(n, k, d))
    ensures |Choices(k + 1, Keeps(n, m, k, j), d)| == k
  {
    SampleShape(n, k, d);
    BelowShape(k + 1);
    var s := Sample(n, k, d);
    var i :| 0 <= i < |First(m, s)| && First(m, s)[i] == j;
    forall r: nat ensures Keeps(n, m, k, j)(d, r) <==> r != i {
      PushedOut(n, m, s, k, r, i);
    }
    hide Sample, Offer, First, Below;
    assert Choices(k + 1, Keeps(n, m, k, j), d) == Below(k + 1) - {i};
  }

  lemma {:induction false} OlderStaysOut(n: nat, m: nat, k: nat, j: nat, d: seq<nat>, r: nat)
    requires m <= n <= k && j < k && j !in First(m, Sample(n, k, d))
    ensures !Keeps(n, m, k, j)(d, r)
  {
    SampleShape(n, k, d);
    var s := Sample(n, k, d);
    var o := First(m, Offer(n, s, k, r));
    forall i | 0 <= i < |o| ensures o[i] != j {
      if i != r { assert First(m, s)[i] == s[i] == o[i]; }
    }
  }

  lemma {:induction false} CountDraws(n: nat, k: nat)
    requires k >= n
    ensures |Draws(n, k + 1)| == |Draws(n, k)| * (k + 1)
  {
    var m, ds := k + 1, Draws(n, k);
    BelowShape(m);
    forall d | d in ds ensures |Choices(m, AnyDraw(), d)| == m {
      assert Choices(m, AnyDraw(), d) == Below(m);
    }
    CountExtended(ds, m, AnyDraw(), m);
    TimesIsProduct(|ds|, m);
  }

  lemma {:induction false} CountNewest(n: nat, m: nat, k: nat)
    requires m <= n <= k
    ensures |Keeping(n, m, k + 1, k)| == |Draws(n, k)| * m
  {
    var ds, rule := Draws(n, k), Keeps(n, m, k, k);
    forall d | d in ds ensures |Choices(k + 1, rule, d)| == m { NewestChoices(n, m, k, d); }
    KeepingExtends(n, m, k, k, ds);
    CountExtended(ds, k + 1, rule, m);
    TimesIsProduct(|ds|, m);
  }

  lemma {:induction false} CountOlder(n: nat, m: nat, k: nat, j: nat)
    requires m <= n <= k && j < k
    ensures |Keeping(n, m, k + 1, j)| == |Keeping(n, m, k, j)| * k
  {
    var ds, rule := Keeping(n, m, k, j), Keeps(n, m, k, j);
    forall d | d in ds ensures |Choices(k + 1, rule, d)| == k { OlderChoices(n, m, k, j, d); }
    forall d, r: nat | d in Draws(n, k) && d !in ds ensures !rule(d, r) { OlderStaysOut(n, m, k, j, d, r); }
    KeepingExtends(n, m, k, j, ds);
    CountExtended(ds, k + 1, rule, k);
    TimesIsProduct(|ds|, k);
  }

  /** A flow among the first `n` has the front to itself or never gets there; the others take what is freed. */
  function Share(n: nat, m: nat, j: nat): nat { if j < m then n else if j < n then 0 else m }

  lemma {:induction false} FullPeriod(n: nat, m: nat, j: nat)
    requires m <= n && j < n
    ensures |Keeping(n, m, n, j)| == (if j < m then 1 else 0) && |Draws(n, n)| == 1
  {
    SampleAll(n, n, []);
    var front := First(m, Sample(n, n, []));
    if j < m {
      assert front[j] == j;
      assert Keeping(n, m, n, j) == {[]};
    } else {
      assert forall i :: 0 <= i < |front| ==> front[i] == i;
      assert Keeping(n, m, n, j) == {};
    }
  }

  lemma Scale(a: nat, k: nat, n: nat, d: nat, a': nat, d': nat)
    requires a * k == n * d && a' == a * k && d' == d * (k + 1)
    ensures a' * (k + 1) == n * d'
  {
  }

  lemma ScaleNewest(d: nat, n: nat, k: nat, a': nat, d': nat)
    requires a' == d * n && d' == d * (k + 1)
    ensures a' * (k + 1) == n * d'
  {
  }

  /**
    The shares under a cut: of all equally likely draw sequences of a period with `k >= n` flows, the share
    that leaves flow `j` in a sample of size `n` cut to `m` is `n / k` for the first `m` flows of the period,
    nothing for the next up to `n`, and `m / k` for those after.
  */
  lemma {:induction false} CutShares(n: nat, m: nat, k: nat, j: nat)
    requires m <= n <= k && j < k
    ensures |Keeping(n, m, k, j)| * k == Share(n, m, j) * |Draws(n, k)|
    decreases k
  {
    hide Keeping, Draws;
    if k == n {
      FullPeriod(n, m, j);
    } else {
      var k' := k - 1;
      CountDraws(n, k');
      if j < k' {
        CutShares(n, m, k', j);
        CountOlder(n, m, k', j);
        Scale(|Keeping(n, m, k', j)|, k', Share(n, m, j), |Draws(n, k')|, |Keeping(n, m, k, j)|, |Draws(n, k)|);
      } else {
        CountNewest(n, m, k');
        ScaleNewest(|Draws(n, k')|, m, k', |Keeping(n, m, k, j)|, |Draws(n, k)|);
      }
    }
  }

  /** The draw sequences of `k` flows that leave flow `j` in the reservoir. */
  ghost function Sampling(n: nat, k: nat, j: nat): set<seq<nat>> {
    set d | d in Draws(n, k) && j in Sample(n, k, d)
  }

  lemma WithoutCut(n: nat, k: nat, j: nat)
    ensures Sampling(n, k, j) == Keeping(n, n, k, j)
  {
    forall d | d in Draws(n, k) ensures First(n, Sample(n, k, d)) == Sample(n, k, d) { SampleShape(n, k, d); }
    hide Sample, Draws, First;
  }

  /** Uniformity: without a cut the share is `n / k`, whichever flow `j` is. */
  lemma Uniform(n: nat, k: nat, j: nat)
    requires n <= k && j < k
    ensures |Sampling(n, k, j)| * k == n * |Draws(n, k)|
  {
    hide Keeping, Draws, Sampling;
    WithoutCut(n, k, j);
    CutShares(n, n, k, j);
  }

  /** Whatever is drawn, a cut to `m` forwards none of the flows from number `m` to `n - 1` of the period. */
  lemma CutNeverForwards(n: nat, m: nat, k: nat, j: nat, d: seq<nat>)
    requires m <= j < n <= k && IsDraws(n, k, d)
    ensures j !in First(m, Sample(n, k, d))
  {
    CutShares(n, m, k, j);
    DrawsAreAll(n, k, d);
    assert |Keeping(n, m, k, j)| == 0 by { NoProduct(|Keeping(n, m, k, j)|, k); }
    assert d !in Keeping(n, m, k, j);
  }

  lemma NoProduct(a: nat, k: nat)
    requires a * k == 0 && k > 0
    ensures a == 0
  {
  }

  /** Once draws are made, a cut favours no flow exactly when it cuts nothing or everything. */
  lemma CutFairIff(n: nat, m: nat, k: nat)
    requires m <= n < k
    ensures (forall i, j :: 0 <= i < j < k ==> |Keeping(n, m, k, i)| == |Keeping(n, m, k, j)|) <==> m == n || m == 0
  {
    hide Keeping, Draws;
    forall i | 0 <= i < k ensures |Keeping(n, m, k, i)| * k == Share(n, m, i) * |Draws(n, k)| { CutShares(n, m, k, i); }
    if m == n || m == 0 {
      forall i, j | 0 <= i < j < k ensures |Keeping(n, m, k, i)| == |Keeping(n, m, k, j)| {
        assert Share(n, m, i) == Share(n, m, j);
        SameFactor(|Keeping(n, m, k, i)|, |Keeping(n, m, k, j)|, k);
      }
    } else {
      DrawsExist(n, k);
      if |Keeping(n, m, k, 0)| == |Keeping(n, m, k, m)| {
        Positive(n, |Draws(n, k)|);
        assert false;
      }
    }
  }

  lemma SameFactor(a: nat, b: nat, k: nat)
    requires a * k == b * k && k > 0
    ensures a == b
  {
  }

  lemma Positive(a: nat, b: nat)
    requires a > 0 && b > 0
    ensures a * b > 0
  {
  }

  lemma {:induction false} DrawsExist(n: nat, k: nat)
    requires k >= n
    ensures |Draws(n, k)| > 0
    decreases k
  {
    if k > n {
      DrawsExist(n, k - 1);
      CountDraws(n, k - 1);
      Positive(|Draws(n, k - 1)|, k);
    }
  }

  /** The flows forwarded after a cut are those with the numbers in front of the sample. */
  lemma CutPicks<T>(n: nat, m: nat, flows: seq<T>, draws: seq<nat>)
    ensures Within(First(m, Sample(n, |flows|, draws)), |flows|)
    ensures First(m, Kept(n, flows, draws)) == Pick(flows, First(m, Sample(n, |flows|, draws)))
  {
    KeptIsSample(n, flows, draws);
    hide Kept, Sample;
  }

  /** A period that fits loses nothing. */
  lemma {:induction false} SampleAll(n: nat, k: nat, d: seq<nat>)
    requires k <= n
    ensures |Sample(n, k, d)| == k && forall i :: 0 <= i < k ==> Sample(n, k, d)[i] == i
    ensures forall j: nat :: j < k ==> j in Sample(n, k, d)
    decreases k
  {
    if k > 0 { SampleAll(n, k - 1, d); }
    forall j: nat | j < k ensures j in Sample(n, k, d) { assert Sample(n, k, d)[j] == j; }
  }
}
