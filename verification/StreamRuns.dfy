/** Every interleaving of adding chunks, parsing them and popping matched frames. */
module StreamRuns {
  import opened Basics
  import opened Options
  import opened Seqs
  import opened DataStream
  import opened ParseTermination
  import opened Reassembly

  datatype Op = Add(data: seq<Byte>, index: nat) | Parse | PopFrames(count: nat)

  /** A stream together with what it has accepted and what has been taken off its queue so far. */
  datatype World<+F> = World(raw: seq<Chunk>, frames: seq<F>, accepted: seq<Byte>, log: seq<Event<F>>)

  function Start<F>(): World<F> { World([], [], [], []) }

  ghost predicate ParserOk<F(!new)>(p: Parser<F>) { Monotone(p) && Advances(p) }

  ghost predicate Sound<F>(w: World<F>) { QueueOk(w.raw) && Bytes(w.log) + Unread(w.raw) == w.accepted }

  function Fresh(data: seq<Byte>, index: nat): Chunk { Chunk(data, 0, index, false, false) }

  /** One operation; `None` is a parse that never returns. */
  ghost function Exec<F(!new)>(p: Parser<F>, w: World<F>, op: Op): (r: Option<World<F>>)
    requires Monotone(p) && QueueOk(w.raw)
    ensures r.Some? ==> QueueOk(r.value.raw)
  {
    match op
    case Add(data, index) =>
      if |w.raw| >= RAW_BUF_SIZE then Some(w)
      else Some(w.(raw := w.raw + [Fresh(data, index)], accepted := w.accepted + data))
    case Parse =>
      var c := Config(w.raw, w.frames, Next);
      if !Halts(p, c) then None
      else
        var n := Length(p, c);
        Some(World(Run(p, c, n).raw, Run(p, c, n).frames, w.accepted, w.log + RunLog(p, c, n)))
    case PopFrames(count) =>
      if count <= |w.frames| then Some(w.(frames := w.frames[count..])) else Some(w)
  }

  ghost function ExecAll<F(!new)>(p: Parser<F>, w: World<F>, ops: seq<Op>): (r: Option<World<F>>)
    requires Monotone(p) && QueueOk(w.raw)
    ensures r.Some? ==> QueueOk(r.value.raw)
    decreases |ops|
  {
    if ops == [] then Some(w)
    else if Exec(p, w, ops[0]).None? then None
    else ExecAll(p, Exec(p, w, ops[0]).value, ops[1..])
  }

  lemma {:induction false} UnreadSnoc(raw: seq<Chunk>, c: Chunk)
    requires QueueOk(raw) && c.pos == 0
    ensures QueueOk(raw + [c])
    ensures Unread(raw + [c]) == Unread(raw) + c.data
  {
    if raw == [] {
      assert raw + [c] == [c] && [c][1..] == [];
      assert c.data[0..] == c.data;
    } else {
      assert (raw + [c])[1..] == raw[1..] + [c];
      UnreadSnoc(raw[1..], c);
      Assoc(Head(raw[0]), Unread(raw[1..]), c.data);
    }
  }

  lemma {:induction false} ParseAccounts<F(!new)>(p: Parser<F>, w: World<F>)
    requires Monotone(p) && Sound(w) && Halts(p, Config(w.raw, w.frames, Next))
    ensures Sound(Exec(p, w, Parse).value)
  {
    var c := Config(w.raw, w.frames, Next);
    var n := Length(p, c);
    RunAccounts(p, c, n);
    LogAppend(w.log, RunLog(p, c, n));
    Assoc(Bytes(w.log), Bytes(RunLog(p, c, n)), Unread(Run(p, c, n).raw));
  }

  /**
    Every operation that returns keeps the account: taken off, then unread, is what was accepted. The only
    one that does not return is a parse that meets a stuck queue.
  */
  lemma {:induction false} ExecSound<F(!new)>(p: Parser<F>, w: World<F>, op: Op)
    requires ParserOk(p) && Sound(w)
    ensures Exec(p, w, op).Some? ==> Sound(Exec(p, w, op).value)
    ensures Exec(p, w, op).None? <==> op.Parse? && ReachesStuck(p, Config(w.raw, w.frames, Next))
  {
    HaltsIffNeverStuck(p, Config(w.raw, w.frames, Next));
    match op
    case Add(data, index) =>
      if |w.raw| < RAW_BUF_SIZE {
        UnreadSnoc(w.raw, Fresh(data, index));
        Assoc(Bytes(w.log), Unread(w.raw), data);
      }
    case Parse => if Halts(p, Config(w.raw, w.frames, Next)) { ParseAccounts(p, w); }
    case PopFrames(_) =>
  }

  // ---------------------------------------------------------------- clean streams

  /** What the producer of a clean stream promises about the next chunk. */
  ghost predicate CleanOp<F(!new)>(d: seq<Byte> -> Decoded<F>, w: World<F>, op: Op)
    requires PrefixStable(d) && QueueOk(w.raw)
  {
    op.Add? && |w.raw| < RAW_BUF_SIZE ==>
      && op.data != [] && Clean(d, w.accepted + op.data)
      && (w.raw != [] ==> Joins(w.raw[|w.raw| - 1].index, op.index) || Greedy(d, Unread(w.raw)).1 == [])
  }

  ghost predicate CleanRun<F(!new)>(p: Parser<F>, d: seq<Byte> -> Decoded<F>, w: World<F>, ops: seq<Op>)
    requires Monotone(p) && PrefixStable(d) && QueueOk(w.raw)
    decreases |ops|
  {
    ops == [] ||
    (CleanOp(d, w, ops[0]) &&
     (Exec(p, w, ops[0]).Some? ==> CleanRun(p, d, Exec(p, w, ops[0]).value, ops[1..])))
  }

  /** The frames pushed so far and those still unread are the frames of the accepted bytes. */
  ghost predicate Reassembled<F(!new)>(d: seq<Byte> -> Decoded<F>, w: World<F>)
    requires PrefixStable(d)
  {
    && Sound(w) && Readable(d, w.raw) && NoSkips(w.log)
    && Greedy(d, w.accepted).0 == FramesOf(w.log) + Greedy(d, Unread(w.raw)).0
    && Greedy(d, w.accepted).1 == Greedy(d, Unread(w.raw)).1
  }

  lemma {:induction false} AlignedSnoc<F(!new)>(d: seq<Byte> -> Decoded<F>, carry: seq<Byte>, raw: seq<Chunk>, c: Chunk)
    requires PrefixStable(d) && QueueOk(raw) && QueueOk(raw + [c]) && Aligned(d, carry, raw)
    requires raw != [] ==> Joins(raw[|raw| - 1].index, c.index) || Greedy(d, carry + Unread(raw)).1 == []
    ensures Aligned(d, carry, raw + [c])
    decreases |raw|
  {
    if raw != [] {
      var all, open := raw + [c], Greedy(d, carry + Head(raw[0])).1;
      assert all[1..] == raw[1..] + [c] && all[0] == raw[0];
      if |raw| == 1 {
        assert raw[1..] == [] && Unread(raw) == Head(raw[0]) + [] == Head(raw[0]);
        assert all[1] == c && Aligned(d, open, all[1..]);
      } else {
        assert all[1] == raw[1] && raw[1..][|raw| - 2] == raw[|raw| - 1];
        Assoc(carry, Head(raw[0]), Unread(raw[1..]));
        GreedyAppend(d, carry + Head(raw[0]), Unread(raw[1..]));
        AlignedSnoc(d, open, raw[1..], c);
      }
    }
  }

  lemma {:induction false} GreedyCommonSuffix<F(!new)>(d: seq<Byte> -> Decoded<F>, all: seq<Byte>, left: seq<Byte>,
                                                       frames: seq<F>, data: seq<Byte>)
    requires PrefixStable(d)
    requires Greedy(d, all).0 == frames + Greedy(d, left).0 && Greedy(d, all).1 == Greedy(d, left).1
    ensures Greedy(d, all + data).0 == frames + Greedy(d, left + data).0
    ensures Greedy(d, all + data).1 == Greedy(d, left + data).1
  {
    GreedyAppend(d, all, data);
    GreedyAppend(d, left, data);
    Assoc(frames, Greedy(d, left).0, Greedy(d, Greedy(d, left).1 + data).0);
  }

  lemma {:induction false} AddReadable<F(!new)>(d: seq<Byte> -> Decoded<F>, raw: seq<Chunk>, c: Chunk)
    requires PrefixStable(d) && Readable(d, raw) && c == Fresh(c.data, c.index) && c.data != []
    requires raw != [] ==> Joins(raw[|raw| - 1].index, c.index) || Greedy(d, Unread(raw)).1 == []
    requires Clean(d, Unread(raw) + c.data)
    ensures Readable(d, raw + [c])
  {
    UnreadSnoc(raw, c);
    assert [] + Unread(raw) == Unread(raw);
    AlignedSnoc(d, [], raw, c);
  }

  lemma {:induction false} AddReassembles<F(!new)>(p: Parser<F>, d: seq<Byte> -> Decoded<F>, w: World<F>, op: Op)
    requires ParserOk(p) && PrefixStable(d) && Reassembled(d, w) && op.Add? && CleanOp(d, w, op)
    ensures Reassembled(d, Exec(p, w, op).value)
  {
    ExecSound(p, w, op);
    if |w.raw| < RAW_BUF_SIZE {
      GreedyCommonSuffix(d, w.accepted, Unread(w.raw), FramesOf(w.log), op.data);
      UnreadSnoc(w.raw, Fresh(op.data, op.index));
      AddReadable(d, w.raw, Fresh(op.data, op.index));
    }
  }

  /** A parse of a clean stream returns, and takes off exactly the next frames of the accepted bytes. */
  lemma {:induction false} ParseReassembles<F(!new)>(p: Parser<F>, d: seq<Byte> -> Decoded<F>, w: World<F>)
    requires ParserOk(p) && PrefixStable(d) && Implements(p, d) && Reassembled(d, w)
    ensures Exec(p, w, Parse).Some? && Reassembled(d, Exec(p, w, Parse).value)
    ensures var r := Exec(p, w, Parse).value; |r.frames| < FRAME_BUF_SIZE ==> Greedy(d, Unread(r.raw)).0 == []
  {
    var c := Config(w.raw, w.frames, Next);
    ReadableHalts(p, d, c);
    var n := Length(p, c);
    ParseAccounts(p, w);
    RunGreedy(p, d, c, n);
    LogAppend(w.log, RunLog(p, c, n));
    Assoc(FramesOf(w.log), FramesOf(RunLog(p, c, n)), Greedy(d, Unread(Run(p, c, n).raw)).0);
  }

  lemma {:induction false} RunReassembles<F(!new)>(p: Parser<F>, d: seq<Byte> -> Decoded<F>, w: World<F>, ops: seq<Op>)
    requires ParserOk(p) && PrefixStable(d) && Implements(p, d) && Reassembled(d, w) && CleanRun(p, d, w, ops)
    ensures ExecAll(p, w, ops).Some? && Reassembled(d, ExecAll(p, w, ops).value)
    decreases |ops|
  {
    if ops != [] {
      var op := ops[0];
      match op {
        case Add(_, _) => AddReassembles(p, d, w, op);
        case Parse => ParseReassembles(p, d, w);
        case PopFrames(_) =>
      }
      RunReassembles(p, d, Exec(p, w, op).value, ops[1..]);
    }
  }

  /** The frames pushed and the bytes left unread are those of the accepted bytes alone; none was skipped. */
  ghost predicate Settled<F(!new)>(d: seq<Byte> -> Decoded<F>, w: World<F>)
    requires PrefixStable(d)
  {
    QueueOk(w.raw) && NoSkips(w.log) && (FramesOf(w.log), Unread(w.raw)) == Greedy(d, w.accepted)
  }

  lemma {:induction false} NothingLeftSettles<F(!new)>(d: seq<Byte> -> Decoded<F>, w: World<F>)
    requires PrefixStable(d) && Reassembled(d, w) && Greedy(d, Unread(w.raw)).0 == []
    ensures Settled(d, w)
  {
    assert FramesOf(w.log) + [] == FramesOf(w.log);
  }

  lemma {:induction false} StartReassembled<F(!new)>(d: seq<Byte> -> Decoded<F>)
    requires PrefixStable(d)
    ensures Reassembled(d, Start<F>())
  {
    assert Greedy(d, []) == ([], []);
  }

  /**
    Reassembly does not depend on the cut: take a clean stream from its start, chunked and
    interleaved in any way, and parse once more. Every parse returns, and if the last one had room,
    what was pushed and what is left are a function of the accepted bytes.
  */
  lemma {:induction false} ReassemblyDependsOnBytesOnly<F(!new)>(p: Parser<F>, d: seq<Byte> -> Decoded<F>, ops: seq<Op>)
    requires ParserOk(p) && PrefixStable(d) && Implements(p, d) && CleanRun(p, d, Start<F>(), ops)
    ensures var w := ExecAll(p, Start<F>(), ops);
      && w.Some? && var r := Exec(p, w.value, Parse);
         r.Some? && (|r.value.frames| < FRAME_BUF_SIZE ==> Settled(d, r.value))
  {
    StartReassembled<F>(d);
    RunReassembles(p, d, Start<F>(), ops);
    var w := ExecAll(p, Start<F>(), ops).value;
    ParseReassembles(p, d, w);
    var r := Exec(p, w, Parse).value;
    if |r.frames| < FRAME_BUF_SIZE { NothingLeftSettles(d, r); }
  }
}
