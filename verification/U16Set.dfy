/** A set of 16-bit numbers kept as one strictly sorted vector. */
module U16Set {
  type U16 = n: nat | n < 0x1_0000

  predicate Sorted(s: seq<U16>) { forall i, j :: 0 <= i < j < |s| ==> s[i] < s[j] }

  ghost function Elems(s: seq<U16>): set<U16> { set x | x in s }

  /** The simple form of merging two sorted lists, equal heads taken once. */
  function Merged(a: seq<U16>, b: seq<U16>): seq<U16>
    decreases |a| + |b|
  {
    if a == [] then b
    else if b == [] then a
    else if a[0] > b[0] then [b[0]] + Merged(a, b[1..])
    else if a[0] < b[0] then [a[0]] + Merged(a[1..], b)
    else [a[0]] + Merged(a[1..], b[1..])
  }

  lemma {:induction false} MergedHas(a: seq<U16>, b: seq<U16>, x: U16)
    ensures x in Merged(a, b) <==> x in a || x in b
    decreases |a| + |b|
  {
    if a == [] || b == [] {
    } else {
      assert a == [a[0]] + a[1..] && b == [b[0]] + b[1..];
      if a[0] > b[0] {
        MergedHas(a, b[1..], x);
      } else if a[0] < b[0] {
        MergedHas(a[1..], b, x);
      } else {
        MergedHas(a[1..], b[1..], x);
      }
    }
  }

  /** The elements of the merge are those of either list. */
  lemma MergedElems(a: seq<U16>, b: seq<U16>)
    ensures Elems(Merged(a, b)) == Elems(a) + Elems(b)
  {
    forall x: U16 ensures x in Merged(a, b) <==> x in a || x in b { MergedHas(a, b, x); }
    hide Merged;
  }

  predicate Above(x: U16, s: seq<U16>) { forall i :: 0 <= i < |s| ==> x < s[i] }

  lemma SortedCons(x: U16, s: seq<U16>)
    requires Sorted(s) && Above(x, s)
    ensures Sorted([x] + s)
  {
  }

  lemma {:induction false} MergedAbove(x: U16, a: seq<U16>, b: seq<U16>)
    requires Above(x, a) && Above(x, b)
    ensures Above(x, Merged(a, b))
  {
    MergedElems(a, b);
    forall i | 0 <= i < |Merged(a, b)| ensures x < Merged(a, b)[i] {
      assert Merged(a, b)[i] in Elems(Merged(a, b));
    }
  }

  lemma {:induction false} MergedSorted(a: seq<U16>, b: seq<U16>)
    requires Sorted(a) && Sorted(b)
    ensures Sorted(Merged(a, b))
    decreases |a| + |b|
  {
    if a == [] || b == [] {
    } else if a[0] > b[0] {
      assert Sorted(b[1..]) && Above(b[0], a) && Above(b[0], b[1..]);
      hide Sorted, Above;
      MergedSorted(a, b[1..]);
      MergedAbove(b[0], a, b[1..]);
      SortedCons(b[0], Merged(a, b[1..]));
    } else if a[0] < b[0] {
      assert Sorted(a[1..]) && Above(a[0], a[1..]) && Above(a[0], b);
      hide Sorted, Above;
      MergedSorted(a[1..], b);
      MergedAbove(a[0], a[1..], b);
      SortedCons(a[0], Merged(a[1..], b));
    } else {
      assert Sorted(a[1..]) && Sorted(b[1..]) && Above(a[0], a[1..]) && Above(a[0], b[1..]);
      hide Sorted, Above;
      MergedSorted(a[1..], b[1..]);
      MergedAbove(a[0], a[1..], b[1..]);
      SortedCons(a[0], Merged(a[1..], b[1..]));
    }
  }

  /** A strictly sorted list is determined by its elements. */
  lemma {:induction false} SortedUnique(a: seq<U16>, b: seq<U16>)
    requires Sorted(a) && Sorted(b) && Elems(a) == Elems(b)
    ensures a == b
  {
    if a == [] {
      ElemsEmpty(b);
    } else {
      assert a[0] in Elems(b);
      assert b != [];
      assert b[0] in Elems(a);
      assert a[0] == b[0];
      TailElems(a);
      TailElems(b);
      SortedUnique(a[1..], b[1..]);
      assert a == [a[0]] + a[1..] && b == [b[0]] + b[1..];
    }
  }

  lemma ElemsEmpty(s: seq<U16>)
    ensures Elems(s) == {} <==> s == []
  {
    if s != [] { assert s[0] in Elems(s); }
  }

  lemma TailElems(a: seq<U16>)
    requires Sorted(a) && a != []
    ensures Sorted(a[1..]) && Elems(a[1..]) == Elems(a) - {a[0]}
  {
  }

  // ---------------------------------------------------------------- the vector

  /** Moves `buf[from..to]` to `dest`, as if through a copy. */
  method CopyWithin(buf: array<U16>, from: nat, to: nat, dest: nat)
    requires from <= to <= buf.Length && dest + (to - from) <= buf.Length
    modifies buf
    ensures buf[..] == old(buf[..dest]) + old(buf[from..to]) + old(buf[dest + (to - from)..])
  {
    forall x | 0 <= x < to - from {
      buf[dest + x] := buf[from + x];
    }
  }

  /** The outputs so far and what is left give the whole merge. */
  ghost predicate Merging(s: seq<U16>, i: nat, k: nat, b: seq<U16>, all: seq<U16>)
    requires i <= |s| && k <= |s|
  {
    s[..k] + Merged(s[i..], b) == all
  }

  lemma TakeOther(s: seq<U16>, i: nat, k: nat, b: seq<U16>, all: seq<U16>)
    requires k < i < |s| && b != [] && s[i] > b[0] && Merging(s, i, k, b, all)
    ensures Merging(s[k := b[0]], i, k + 1, b[1..], all)
  {
  }

  lemma TakeOwn(s: seq<U16>, i: nat, k: nat, b: seq<U16>, all: seq<U16>)
    requires k <= i < |s| && b != [] && s[i] <= b[0] && Merging(s, i, k, b, all)
    ensures Merging(s[k := s[i]], i + 1, k + 1, if s[i] == b[0] then b[1..] else b, all)
  {
  }

  /**
    The three-cursor loop on one array: `buf[i..]` is what is unread of the first list, `k` is where the
    next element goes. The write cursor never passes the read cursor, so nothing unread is overwritten.
  */
  method MergeLoop(buf: array<U16>, start: nat, other: seq<U16>) returns (i: nat, j: nat, k: nat)
    requires start == |other| <= buf.Length
    modifies buf
    ensures k <= i <= buf.Length && j <= |other| && (i == buf.Length || j == |other|)
    ensures k + (|other| - j) <= i
    ensures buf[..k] + Merged(buf[i..], other[j..]) == Merged(old(buf[start..]), other)
  {
    i, j, k := start, 0, 0;
    ghost var all := Merged(buf[start..], other);
    assert other[0..] == other && buf[..][start..] == buf[start..];
    assert Merging(buf[..], i, k, other[j..], all);
    hide Merging, Merged;
    while i < buf.Length && j < |other|
      invariant k + (|other| - j) <= i <= buf.Length && j <= |other|
      invariant Merging(buf[..], i, k, other[j..], all)
    {
      ghost var s := buf[..];
      assert other[j..][1..] == other[j + 1..];
      if buf[i] > other[j] {
        TakeOther(s, i, k, other[j..], all);
        buf[k] := other[j];
        j := j + 1;
      } else if buf[i] < other[j] {
        TakeOwn(s, i, k, other[j..], all);
        buf[k] := buf[i];
        i := i + 1;
      } else {
        TakeOwn(s, i, k, other[j..], all);
        buf[k] := buf[i];
        i := i + 1;
        j := j + 1;
      }
      assert buf[..] == s[k := buf[k]];
      k := k + 1;
    }
    MergingEnds(buf[..], i, k, other[j..], all);
    assert buf[..][..k] == buf[..k] && buf[..][i..] == buf[i..];
  }

  lemma MergingEnds(s: seq<U16>, i: nat, k: nat, b: seq<U16>, all: seq<U16>)
    requires i <= |s| && k <= |s| && Merging(s, i, k, b, all)
    ensures s[..k] + Merged(s[i..], b) == all
  {
  }

  function Inserted(s: seq<U16>, i: nat, v: U16): seq<U16>
    requires i <= |s|
  {
    s[..i] + [v] + s[i..]
  }

  /** How many leading elements are smaller. */
  function Place(s: seq<U16>, v: U16): (i: nat)
    ensures i <= |s|
  {
    if s == [] || s[0] >= v then 0 else 1 + Place(s[1..], v)
  }

  /** The list with one more element, in its place if it was not there. */
  function Added(s: seq<U16>, v: U16): seq<U16> { if v in s then s else Inserted(s, Place(s, v), v) }

  lemma {:induction false} PlaceUnique(s: seq<U16>, v: U16, i: nat)
    requires i <= |s| && (forall x :: 0 <= x < i ==> s[x] < v) && (forall x :: i <= x < |s| ==> v < s[x])
    ensures Place(s, v) == i
  {
    if i > 0 { PlaceUnique(s[1..], v, i - 1); }
  }

  lemma {:induction false} PlaceSplits(s: seq<U16>, v: U16)
    requires Sorted(s) && v !in s
    ensures forall x :: 0 <= x < Place(s, v) ==> s[x] < v
    ensures forall x :: Place(s, v) <= x < |s| ==> v < s[x]
  {
    if s != [] && s[0] < v {
      assert s == [s[0]] + s[1..];
      PlaceSplits(s[1..], v);
    }
  }

  lemma InsertedIsSet(s: seq<U16>, i: nat, v: U16)
    requires Sorted(s) && i <= |s|
    requires (forall x :: 0 <= x < i ==> s[x] < v) && (forall x :: i <= x < |s| ==> v < s[x])
    ensures Sorted(Inserted(s, i, v)) && Elems(Inserted(s, i, v)) == Elems(s) + {v}
  {
  }

  lemma AddedIsSet(s: seq<U16>, v: U16)
    requires Sorted(s)
    ensures Sorted(Added(s, v)) && Elems(Added(s, v)) == Elems(s) + {v}
  {
    if v !in s {
      PlaceSplits(s, v);
      InsertedIsSet(s, Place(s, v), v);
    }
  }

  // ---------------------------------------------------------------- every run

  /** An operation on a set; the argument of a merge is a set with a run of its own. */
  datatype Op = Add(v: U16) | Merge(other: seq<Op>) | Clear

  /** The list an operation leaves. */
  function Step(s: seq<U16>, op: Op): seq<U16>
    decreases op, 0
  {
    match op
    case Add(v) => Added(s, v)
    case Merge(other) => Merged(s, Run(other))
    case Clear => []
  }

  function Run(ops: seq<Op>): seq<U16>
    decreases ops, 1
  {
    if ops == [] then [] else Step(Run(ops[..|ops| - 1]), ops[|ops| - 1])
  }

  /** The reference: the set of elements added and not cleared. */
  ghost function Reached(ops: seq<Op>): set<U16>
    decreases ops
  {
    if ops == [] then {}
    else
      var before, op := Reached(ops[..|ops| - 1]), ops[|ops| - 1];
      match op
      case Add(v) => before + {v}
      case Merge(other) => before + Reached(other)
      case Clear => {}
  }

  /** After every run the vector is strictly sorted, and has exactly the elements added and not cleared. */
  lemma {:induction false} EveryRunIsSet(ops: seq<Op>)
    ensures Sorted(Run(ops)) && Elems(Run(ops)) == Reached(ops)
    decreases ops
  {
    if ops != [] {
      var s, op := Run(ops[..|ops| - 1]), ops[|ops| - 1];
      EveryRunIsSet(ops[..|ops| - 1]);
      match op
      case Add(v) => AddedIsSet(s, v);
      case Merge(other) =>
        EveryRunIsSet(other);
        MergedSorted(s, Run(other));
        MergedElems(s, Run(other));
      case Clear =>
    }
  }

  /** So two runs that reach the same set leave the same vector. */
  lemma SameSetSameVector(ops: seq<Op>, ops': seq<Op>)
    ensures Reached(ops) == Reached(ops') <==> Run(ops) == Run(ops')
  {
    EveryRunIsSet(ops);
    EveryRunIsSet(ops');
    if Reached(ops) == Reached(ops') { SortedUnique(Run(ops), Run(ops')); }
  }

  class Numbers {
    var items: array<U16>

    ghost predicate Valid() reads this, items { Sorted(items[..]) }

    constructor ()
      ensures Valid() && fresh(items) && items[..] == []
    {
      items := new U16[0];
    }

    /** Where `v` is, or where it belongs. */
    method BinarySearch(v: U16) returns (found: bool, at: nat)
      requires Valid()
      ensures at <= items.Length
      ensures found ==> at < items.Length && items[at] == v
      ensures !found ==>
        (forall x :: 0 <= x < at ==> items[x] < v) && (forall x :: at <= x < items.Length ==> v < items[x])
    {
      var lo, hi := 0, items.Length;
      while lo < hi
        invariant lo <= hi <= items.Length
        invariant forall x :: 0 <= x < lo ==> items[x] < v
        invariant forall x :: hi <= x < items.Length ==> v < items[x]
      {
        var mid := lo + (hi - lo) / 2;
        assert items[mid] == items[..][mid];
        if items[mid] == v {
          return true, mid;
        } else if items[mid] < v {
          assert forall x :: 0 <= x < mid ==> items[..][x] < items[..][mid];
          lo := mid + 1;
        } else {
          assert forall x :: mid < x < items.Length ==> items[..][mid] < items[..][x];
          hi := mid;
        }
      }
      return false, lo;
    }

    /** The vector becomes the sorted list of its elements and `v`. */
    method Add(v: U16)
      requires Valid()
      modifies this
      ensures Valid() && (items == old(items) || fresh(items))
      ensures items[..] == Step(old(items[..]), Op.Add(v))
    {
      AddedIsSet(items[..], v);
      var found, i := BinarySearch(v);
      if !found {
        ghost var s := items[..];
        PlaceUnique(s, v, i);
        var grown := new U16[items.Length + 1];
        forall x | 0 <= x < grown.Length {
          grown[x] := if x < i then items[x] else if x == i then v else items[x - 1];
        }
        hide Sorted, Elems;
        assert grown[..] == Inserted(s, i, v);
        items := grown;
      } else {
        assert items[..][i] == v;
      }
    }

    /** In place: the vector becomes the sorted list of the elements of both. */
    method Merge(other: Numbers)
      requires Valid() && other.Valid() && this != other && items != other.items
      modifies this
      ensures Valid() && (items == old(items) || fresh(items))
      ensures items[..] == Merged(old(items[..]), old(other.items[..]))
      ensures forall ops :: old(other.items[..]) == Run(ops) ==> items[..] == Step(old(items[..]), Op.Merge(ops))
    {
      ghost var a := items[..];
      var b := other.items[..];
      MergedSorted(a, b);
      hide Sorted, Elems;
      if other.items.Length == 0 {
        assert b == [];
        return;
      }
      if items.Length == 0 {
        assert a == [];
        var copy := new U16[other.items.Length];
        forall x | 0 <= x < copy.Length { copy[x] := other.items[x]; }
        assert copy[..] == b;
        items := copy;
        return;
      }
      items := MergedArray(items, b);
    }

    method Clear()
      modifies this
      ensures Valid() && fresh(items) && items[..] == Step(old(items[..]), Op.Clear)
    {
      items := new U16[0];
    }
  }

  lemma Drained(out: seq<U16>, a: seq<U16>, b: seq<U16>)
    requires a == [] || b == []
    ensures out + Merged(a, b) == out + a + b
  {
  }

  /** What is left of one of the two lists is moved behind the output. */
  method Finish(buf: array<U16>, i: nat, j: nat, k: nat, other: seq<U16>) returns (n: nat)
    requires k <= i <= buf.Length && j <= |other| && (i == buf.Length || j == |other|) && k + (|other| - j) <= i
    modifies buf
    ensures n <= buf.Length && buf[..n] == old(buf[..k]) + old(buf[i..]) + other[j..]
  {
    n := k;
    ghost var out, rest := buf[..k], buf[i..];
    if i < buf.Length {
      CopyWithin(buf, i, buf.Length, k);
      n := k + (buf.Length - i);
      assert buf[..n] == out + rest;
    }
    assert buf[..n] == out + rest;
    if j < |other| {
      var left := |other| - j;
      ghost var before := buf[..n];
      forall x | 0 <= x < left { buf[n + x] := other[j + x]; }
      assert buf[..n] == before;
      n := n + left;
      assert buf[..n] == before + other[j..];
    }
  }

  /** The merge of two nonempty vectors: the first moved up to make room, then the loop, then the rest. */
  method MergedArray(items: array<U16>, other: seq<U16>) returns (kept: array<U16>)
    requires items.Length > 0 && other != []
    ensures fresh(kept) && kept[..] == Merged(items[..], other)
  {
    hide Merged;
    var buf := MovedUp(items, |other|);
    var i, j, k := MergeLoop(buf, |other|, other);
    ghost var out, rest := buf[..k], buf[i..];
    Drained(out, rest, other[j..]);
    var n := Finish(buf, i, j, k, other);
    assert buf[..n] == Merged(items[..], other);
    kept := Truncated(buf, n);
  }

  /** The vector grown by `room` and moved to its end. */
  method MovedUp(items: array<U16>, room: nat) returns (buf: array<U16>)
    ensures fresh(buf) && buf.Length == items.Length + room && buf[room..] == items[..]
  {
    buf := new U16[items.Length + room];
    forall x | 0 <= x < items.Length { buf[x] := items[x]; }
    assert buf[..items.Length] == items[..];
    CopyWithin(buf, 0, items.Length, room);
  }

  method Truncated(buf: array<U16>, n: nat) returns (kept: array<U16>)
    requires n <= buf.Length
    ensures fresh(kept) && kept[..] == buf[..n]
  {
    kept := new U16[n];
    forall x | 0 <= x < n { kept[x] := buf[x]; }
  }
}
