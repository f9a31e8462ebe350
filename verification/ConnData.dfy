/**
  How a captured buffer is cut into messages, in the kernel probe and in the session path, and why
  cutting it and reassembling it gives the same frames as not cutting it.
*/
module ConnData {
  import opened Basics
  import opened Seqs
  import opened DataStream
  import opened Reassembly
  import opened StreamRuns

  const LOOP_LIMIT: nat := 10
  const CONN_DATA_MAX_SIZE: nat := 8 * 1024 - 1

  datatype Msg = Msg(index: nat, offset: nat, data: seq<Byte>)

  /** The C conversion of a size to `int`. */
  function AsInt(n: nat): int {
    var low := n % 0x1_0000_0000;
    if low < 0x8000_0000 then low else low - 0x1_0000_0000
  }

  /** `n & CONN_DATA_MAX_SIZE`: the maximum is 13 one-bits. */
  function Mask(n: nat): nat { n % (CONN_DATA_MAX_SIZE + 1) }

  /** The bytes that are sent at all: none when the count does not fit an `int`. */
  function Sendable(count: nat): nat { if AsInt(count) < 0 then 0 else AsInt(count) }

  function Flat(msgs: seq<Msg>): seq<Byte> {
    if msgs == [] then [] else msgs[0].data + Flat(msgs[1..])
  }

  lemma {:induction false} FlatSnoc(msgs: seq<Msg>, m: Msg)
    ensures Flat(msgs + [m]) == Flat(msgs) + m.data
  {
    if msgs == [] {
      assert msgs + [m] == [m] && [m][1..] == [];
    } else {
      assert (msgs + [m])[1..] == msgs[1..] + [m];
      FlatSnoc(msgs[1..], m);
      Assoc(msgs[0].data, Flat(msgs[1..]), m.data);
    }
  }

  /** Piece `i` of the first `total` bytes of a buffer. */
  function Piece(buf: seq<Byte>, total: nat, i: nat): Msg
    requires i * CONN_DATA_MAX_SIZE < total <= |buf|
  {
    Msg(i, if i == LOOP_LIMIT - 1 then total else Min(total, (i + 1) * CONN_DATA_MAX_SIZE),
        buf[i * CONN_DATA_MAX_SIZE..Min(total, (i + 1) * CONN_DATA_MAX_SIZE)])
  }

  /** The first `n` pieces. */
  function Pieces(buf: seq<Byte>, total: nat, n: nat): (msgs: seq<Msg>)
    requires total <= |buf| && (n > 0 ==> (n - 1) * CONN_DATA_MAX_SIZE < total)
    ensures |msgs| == n
  {
    if n == 0 then [] else Pieces(buf, total, n - 1) + [Piece(buf, total, n - 1)]
  }

  lemma {:induction false} PieceAt(buf: seq<Byte>, total: nat, n: nat, i: nat)
    requires total <= |buf| && i < n && (n - 1) * CONN_DATA_MAX_SIZE < total
    ensures Pieces(buf, total, n)[i] == Piece(buf, total, i)
  {
    hide Piece;
    if i < n - 1 { PieceAt(buf, total, n - 1, i); }
  }

  lemma PieceShape(buf: seq<Byte>, total: nat, i: nat)
    requires i * CONN_DATA_MAX_SIZE < total <= |buf|
    ensures Piece(buf, total, i).index == i && Piece(buf, total, i).data != []
  {
  }

  /** The conversion is the one number of 32 bits with a sign that is congruent to the size. */
  lemma AsIntIsCongruent(n: nat)
    ensures -0x8000_0000 <= AsInt(n) < 0x8000_0000 && (n - AsInt(n)) % 0x1_0000_0000 == 0
    ensures n < 0x8000_0000 ==> AsInt(n) == n
    ensures Sendable(n) == if n % 0x1_0000_0000 < 0x8000_0000 then n % 0x1_0000_0000 else 0
  {
  }

  /** Each message is stamped with how many bytes it completes; the tenth is stamped with all that were to be sent. */
  lemma {:induction false} PieceOffsets(buf: seq<Byte>, total: nat, n: nat, i: nat)
    requires total <= |buf| && i < n && (n - 1) * CONN_DATA_MAX_SIZE < total
    ensures i < 9 ==> Pieces(buf, total, n)[i].offset == |Flat(Pieces(buf, total, i + 1))|
    ensures i == 9 ==> Pieces(buf, total, n)[i].offset == total
  {
    hide Pieces, Flat;
    PieceAt(buf, total, n, i);
    PiecesAreThePrefix(buf, total, i + 1);
  }

  /** The pieces are the front of the buffer, each byte once and in order. */
  lemma {:induction false} PiecesAreThePrefix(buf: seq<Byte>, total: nat, n: nat)
    requires total <= |buf| && (n > 0 ==> (n - 1) * CONN_DATA_MAX_SIZE < total)
    ensures Flat(Pieces(buf, total, n)) == buf[..Min(total, n * CONN_DATA_MAX_SIZE)]
  {
    if n > 0 {
      var lo, hi := (n - 1) * CONN_DATA_MAX_SIZE, Min(total, n * CONN_DATA_MAX_SIZE);
      PiecesAreThePrefix(buf, total, n - 1);
      FlatSnoc(Pieces(buf, total, n - 1), Piece(buf, total, n - 1));
      assert buf[..lo] + buf[lo..hi] == buf[..hi];
    }
  }

  /**
    The kernel probe's loop over a contiguous buffer; `slots` is how many message reservations
    succeed before the ring is full. It stops early only when the bytes or the slots run out.
  */
  method SubmitConnData(buf: seq<Byte>, count: nat, slots: nat) returns (msgs: seq<Msg>)
    requires Sendable(count) <= |buf|
    ensures |msgs| <= Min(LOOP_LIMIT, slots)
    ensures |msgs| > 0 ==> (|msgs| - 1) * CONN_DATA_MAX_SIZE < Sendable(count)
    ensures msgs == Pieces(buf, Sendable(count), |msgs|)
    ensures |msgs| == Min(LOOP_LIMIT, slots) || |msgs| * CONN_DATA_MAX_SIZE >= Sendable(count)
  {
    msgs := [];
    var sent: int := 0;
    var i := 0;
    while i < LOOP_LIMIT
      invariant 0 <= i <= LOOP_LIMIT && i <= slots && |msgs| == i
      invariant i < LOOP_LIMIT ==> sent == Min(Sendable(count), i * CONN_DATA_MAX_SIZE)
      invariant i > 0 ==> (i - 1) * CONN_DATA_MAX_SIZE < Sendable(count)
      invariant msgs == Pieces(buf, Sendable(count), i)
    {
      var remaining := AsInt(count) - sent;
      var truncated := if remaining > CONN_DATA_MAX_SIZE && i != LOOP_LIMIT - 1 then CONN_DATA_MAX_SIZE else remaining;
      if truncated <= 0 || i >= slots { return; }
      var copied := if truncated > CONN_DATA_MAX_SIZE then CONN_DATA_MAX_SIZE else truncated;
      var m := Msg(i, truncated + sent, buf[sent..sent + Mask(copied)]);
      assert m == Piece(buf, Sendable(count), i);
      msgs := msgs + [m];
      sent := sent + truncated;
      i := i + 1;
    }
  }

  /** The session path: no limit on the number of messages, and the index is never set. */
  method SubmitConnDataUser(buf: seq<Byte>, count: nat, base: nat) returns (msgs: seq<Msg>, offset: nat)
    requires Sendable(count) <= |buf|
    ensures Flat(msgs) == buf[..Sendable(count)] && offset == base + Sendable(count)
    ensures forall i :: 0 <= i < |msgs| ==>
      && msgs[i].index == 0 && 0 < |msgs[i].data| <= CONN_DATA_MAX_SIZE
      && msgs[i].offset == base + |Flat(msgs[..i])|
  {
    msgs, offset := [], base;
    var sent: int := 0;
    while true
      invariant 0 <= sent <= Sendable(count) && offset == base + sent
      invariant Flat(msgs) == buf[..sent]
      invariant forall i :: 0 <= i < |msgs| ==>
        && msgs[i].index == 0 && 0 < |msgs[i].data| <= CONN_DATA_MAX_SIZE
        && msgs[i].offset == base + |Flat(msgs[..i])|
      decreases Sendable(count) - sent
    {
      var remaining := AsInt(count) - sent;
      var truncated := if remaining > CONN_DATA_MAX_SIZE then CONN_DATA_MAX_SIZE else remaining;
      if truncated <= 0 { return; }
      var m := Msg(0, offset, buf[sent..sent + truncated]);
      FlatSnoc(msgs, m);
      ghost var all := msgs + [m];
      assert forall i :: 0 <= i < |msgs| ==> all[..i] == msgs[..i];
      assert all[..|msgs|] == msgs;
      assert buf[..sent] + buf[sent..sent + truncated] == buf[..sent + truncated];
      msgs := msgs + [m];
      sent := sent + truncated;
      offset := offset + truncated;
    }
  }

  // ---------------------------------------------------------------- cut, queue and reassemble

  ghost predicate JoinAll(msgs: seq<Msg>) {
    |msgs| < 2 || (Joins(msgs[0].index, msgs[1].index) && JoinAll(msgs[1..]))
  }

  ghost predicate Nonempty(msgs: seq<Msg>) { forall i :: 0 <= i < |msgs| ==> msgs[i].data != [] }

  lemma {:induction false} PiecesJoin(msgs: seq<Msg>, k: nat)
    requires forall i :: 0 <= i < |msgs| ==> msgs[i].index == k + i
    ensures JoinAll(msgs)
    decreases |msgs|
  {
    if |msgs| >= 2 { PiecesJoin(msgs[1..], k + 1); }
  }

  function Adds(msgs: seq<Msg>): seq<Op> {
    if msgs == [] then [] else [Add(msgs[0].data, msgs[0].index)] + Adds(msgs[1..])
  }

  /** The next chunk may follow what is queued: it joins, or no frame is open. */
  ghost predicate MayFollow<F(!new)>(d: seq<Byte> -> Decoded<F>, w: World<F>, index: nat)
    requires PrefixStable(d) && QueueOk(w.raw)
  {
    w.raw != [] ==> Joins(w.raw[|w.raw| - 1].index, index) || Greedy(d, Unread(w.raw)).1 == []
  }

  lemma {:induction false} CleanPrefix<F(!new)>(d: seq<Byte> -> Decoded<F>, x: seq<Byte>, y: seq<Byte>)
    requires PrefixStable(d) && Clean(d, x + y)
    ensures Clean(d, x)
  {
    GreedyAppend(d, x, y);
    var rest := Greedy(d, x).1;
    GreedyRest(d, x);
    assert d(rest).Malformed? ==> d(rest + y) == d(rest);
  }

  lemma {:induction false} GreedyRest<F(!new)>(d: seq<Byte> -> Decoded<F>, b: seq<Byte>)
    requires PrefixStable(d)
    ensures !d(Greedy(d, b).1).Complete?
    decreases |b|
  {
    if d(b).Complete? { GreedyRest(d, b[d(b).len..]); }
  }

  /** Queueing the messages of one buffer is a clean run that accepts exactly their bytes. */
  lemma {:induction false} AddsAreClean<F(!new)>(p: Parser<F>, d: seq<Byte> -> Decoded<F>, w: World<F>, msgs: seq<Msg>)
    requires ParserOk(p) && PrefixStable(d) && Reassembled(d, w)
    requires Nonempty(msgs) && JoinAll(msgs) && |w.raw| + |msgs| <= RAW_BUF_SIZE
    requires Clean(d, w.accepted + Flat(msgs)) && (msgs != [] ==> MayFollow(d, w, msgs[0].index))
    ensures CleanRun(p, d, w, Adds(msgs))
    ensures var r := ExecAll(p, w, Adds(msgs)); r.Some? && r.value.accepted == w.accepted + Flat(msgs)
    decreases |msgs|
  {
    hide Clean, Greedy, PrefixStable, Monotone, Advances, Unread;
    if msgs == [] {
      assert w.accepted + [] == w.accepted;
    } else {
      var op := Add(msgs[0].data, msgs[0].index);
      Assoc(w.accepted, msgs[0].data, Flat(msgs[1..]));
      CleanPrefix(d, w.accepted + msgs[0].data, Flat(msgs[1..]));
      AddReassembles(p, d, w, op);
      var next := Exec(p, w, op).value;
      assert next.raw[|next.raw| - 1].index == msgs[0].index;
      AddsAreClean(p, d, next, msgs[1..]);
      assert Adds(msgs)[1..] == Adds(msgs[1..]);
    }
  }

  /**
    Queued in an empty stream by `ops` and parsed, the bytes are read as the protocol reads `b`: the parse
    returns, and with room for the frames they and the unread rest are those of `b`, with nothing skipped.
  */
  ghost predicate ReadsAs<F(!new)>(p: Parser<F>, d: seq<Byte> -> Decoded<F>, ops: seq<Op>, b: seq<Byte>)
    requires Monotone(p) && PrefixStable(d)
  {
    var w := ExecAll(p, Start<F>(), ops);
    && w.Some? && var r := Exec(p, w.value, Parse);
       && r.Some?
       && (|r.value.frames| < FRAME_BUF_SIZE ==>
             (FramesOf(r.value.log), Unread(r.value.raw)) == Greedy(d, b) && NoSkips(r.value.log))
  }

  /**
    Cut, queue, parse: from an empty stream, the messages of a clean buffer give the frames and
    the unread rest of the buffer's delivered prefix, as if it had been queued in one piece.
  */
  lemma {:induction false} SplitThenReassemble<F(!new)>(p: Parser<F>, d: seq<Byte> -> Decoded<F>, msgs: seq<Msg>)
    requires ParserOk(p) && PrefixStable(d) && Implements(p, d)
    requires Nonempty(msgs) && JoinAll(msgs) && |msgs| <= RAW_BUF_SIZE && Clean(d, Flat(msgs))
    ensures ReadsAs(p, d, Adds(msgs), Flat(msgs))
  {
    StartReassembled<F>(d);
    assert [] + Flat(msgs) == Flat(msgs);
    AddsAreClean(p, d, Start<F>(), msgs);
    ReassemblyDependsOnBytesOnly(p, d, Adds(msgs));
  }

  lemma PieceFacts(buf: seq<Byte>, total: nat, n: nat)
    requires total <= |buf| && (n > 0 ==> (n - 1) * CONN_DATA_MAX_SIZE < total)
    ensures Nonempty(Pieces(buf, total, n)) && JoinAll(Pieces(buf, total, n))
  {
    var msgs := Pieces(buf, total, n);
    hide Pieces, Piece, JoinAll;
    forall i | 0 <= i < n ensures msgs[i].index == i && msgs[i].data != [] {
      PieceAt(buf, total, n, i);
      PieceShape(buf, total, i);
    }
    PiecesJoin(msgs, 0);
  }

  /** The same for the kernel's cut: `n` pieces of a buffer read like the bytes they cover. */
  lemma KernelCutReassembles<F(!new)>(p: Parser<F>, d: seq<Byte> -> Decoded<F>, buf: seq<Byte>, total: nat, n: nat)
    requires ParserOk(p) && PrefixStable(d) && Implements(p, d)
    requires total <= |buf| && n <= LOOP_LIMIT && (n > 0 ==> (n - 1) * CONN_DATA_MAX_SIZE < total)
    requires Clean(d, buf[..Min(total, n * CONN_DATA_MAX_SIZE)])
    ensures ReadsAs(p, d, Adds(Pieces(buf, total, n)), buf[..Min(total, n * CONN_DATA_MAX_SIZE)])
  {
    hide Pieces, Nonempty, JoinAll, Adds, Flat, Clean, Greedy, ReadsAs;
    hide ParserOk, PrefixStable, Implements;
    PiecesAreThePrefix(buf, total, n);
    PieceFacts(buf, total, n);
    SplitThenReassemble(p, d, Pieces(buf, total, n));
  }

  lemma {:induction false} ZerosJoin(msgs: seq<Msg>)
    requires forall i :: 0 <= i < |msgs| ==> msgs[i].index == 0
    ensures JoinAll(msgs)
    decreases |msgs|
  {
    if |msgs| >= 2 { ZerosJoin(msgs[1..]); }
  }

  /** And for the session path, whose messages all have index zero. */
  lemma SessionCutReassembles<F(!new)>(p: Parser<F>, d: seq<Byte> -> Decoded<F>, buf: seq<Byte>, msgs: seq<Msg>)
    requires ParserOk(p) && PrefixStable(d) && Implements(p, d)
    requires |msgs| <= RAW_BUF_SIZE && Flat(msgs) == buf && Clean(d, buf)
    requires forall i :: 0 <= i < |msgs| ==> msgs[i].index == 0 && msgs[i].data != []
    ensures ReadsAs(p, d, Adds(msgs), buf)
  {
    hide JoinAll, Adds, Flat, Clean, Greedy, ReadsAs, ParserOk, PrefixStable, Implements;
    ZerosJoin(msgs);
    SplitThenReassemble(p, d, msgs);
  }
}
