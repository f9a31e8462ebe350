/**
  What the parse loop does with the bytes of a connection: every byte is accounted for once, and
  for a prefix-stable protocol the frames depend only on the bytes, not on how they were cut.
*/
module Reassembly {
  import opened Basics
  import opened Options
  import opened Seqs
  import opened DataStream
  import opened ParseTermination

  // ---------------------------------------------------------------- every byte is accounted for

  datatype Event<+F> = Framed(bytes: seq<Byte>, frame: F) | Skipped(bytes: seq<Byte>)

  function Bytes<F>(log: seq<Event<F>>): seq<Byte> {
    if log == [] then [] else log[0].bytes + Bytes(log[1..])
  }

  function FrameOf<F>(e: Event<F>): seq<F> { if e.Framed? then [e.frame] else [] }

  function FramesOf<F>(log: seq<Event<F>>): seq<F> {
    if log == [] then [] else FrameOf(log[0]) + FramesOf(log[1..])
  }

  lemma {:induction false} LogAppend<F>(a: seq<Event<F>>, b: seq<Event<F>>)
    ensures Bytes(a + b) == Bytes(a) + Bytes(b)
    ensures FramesOf(a + b) == FramesOf(a) + FramesOf(b)
  {
    if a == [] {
      assert a + b == b;
    } else {
      assert (a + b)[1..] == a[1..] + b;
      LogAppend(a[1..], b);
      Assoc(a[0].bytes, Bytes(a[1..]), Bytes(b));
      Assoc(FrameOf(a[0]), FramesOf(a[1..]), FramesOf(b));
    }
  }

  function Head(c: Chunk): seq<Byte>
    requires c.pos <= |c.data|
  {
    c.data[c.pos..]
  }

  /** What a boundary search takes off the front. */
  function BoundaryEvent<F>(front: Chunk, q: Option<nat>): Event<F>
    requires front.pos <= |front.data| && BoundaryFits(front, q)
  {
    match q
    case None => Skipped(Head(front))
    case Some(pos) => Skipped(front.data[front.pos..pos])
  }

  /** What a parse takes off the front, and in which role. */
  function ParseEvent<F>(c: Config<F>, o: Outcome<F>): Event<F>
    requires c.raw != [] && OutcomeFits(c.raw[0], o)
  {
    var front := c.raw[0];
    var passed := front.data[front.pos..o.pos];
    match o.state
    case Success =>
      if o.frame.None? then Skipped(Head(front))
      else if |c.frames| >= FRAME_BUF_SIZE then Skipped([])
      else Framed(passed, o.frame.value)
    case Ignore => Skipped(Head(front))
    case Invalid => Skipped(if front.invalid then Head(front) else passed)
    case NeedsMoreData => Skipped(if |c.raw| < 2 then [] else passed)
    case OtherState => Skipped(Head(front))
  }

  ghost function StepEvent<F(!new)>(p: Parser<F>, c: Config<F>): Event<F>
    requires Monotone(p) && Live(c)
  {
    match c.at
    case Rebound => BoundaryEvent(c.raw[0], p.findBoundary(c.raw[0]))
    case Repeat => ParseEvent(c, p.parseFrame(c.raw[0]))
    case _ => Skipped([])
  }

  /** Moving the front from its position to `c.pos` passes exactly the bytes between them. */
  lemma {:induction false} UnreadMoved(raw: seq<Chunk>, c: Chunk)
    requires QueueOk(raw) && raw != [] && raw[0].pos <= c.pos <= |c.data| && c.data == raw[0].data
    ensures QueueOk(raw[0 := c])
    ensures Unread(raw) == c.data[raw[0].pos..c.pos] + Unread(raw[0 := c])
  {
  }

  lemma {:induction false} OverlayUnread(raw: seq<Chunk>)
    requires QueueOk(raw) && Overlay(raw).Some? && QueueOk(Overlay(raw).value)
    ensures Unread(Overlay(raw).value) == Unread(raw)
  {
  }

  lemma AskAccounts<F>(c: Config<F>, o: Outcome<F>)
    requires Live(c) && c.raw != [] && OutcomeFits(c.raw[0], o) && Live(ParseStep(c, o)) && o.state.NeedsMoreData?
    ensures ParseEvent(c, o).bytes + Unread(ParseStep(c, o).raw) == Unread(c.raw)
    ensures ParseStep(c, o).frames == c.frames + FrameOf(ParseEvent(c, o))
  {
    hide Unread;
    var raw := c.raw[0 := c.raw[0].(pos := o.pos)];
    UnreadMoved(c.raw, c.raw[0].(pos := o.pos));
    if |raw| >= 2 { OverlayUnread(raw); }
  }

  /** Whatever the parser answers: the bytes taken, then those left, are those that were unread. */
  lemma {:induction false} ParseStepAccounts<F>(c: Config<F>, o: Outcome<F>)
    requires Live(c) && c.raw != [] && OutcomeFits(c.raw[0], o) && Live(ParseStep(c, o))
    ensures ParseEvent(c, o).bytes + Unread(ParseStep(c, o).raw) == Unread(c.raw)
    ensures ParseStep(c, o).frames == c.frames + FrameOf(ParseEvent(c, o))
  {
    hide Unread, Overlay;
    var moved := c.raw[0].(pos := o.pos);
    UnreadSplit(c.raw);
    match o.state
    case Success =>
      UnreadMoved(c.raw, moved);
      if o.pos == |moved.data| { assert c.raw[0].data[c.raw[0].pos..o.pos] == Head(c.raw[0]); }
    case Ignore =>
    case Invalid => UnreadMoved(c.raw, moved.(invalid := true));
    case NeedsMoreData => AskAccounts(c, o);
    case OtherState =>
  }

  lemma {:induction false} StepAccounts<F(!new)>(p: Parser<F>, c: Config<F>)
    requires Monotone(p) && Live(c)
    ensures Live(Step(p, c))
    ensures StepEvent(p, c).bytes + Unread(Step(p, c).raw) == Unread(c.raw)
    ensures Step(p, c).frames == c.frames + FrameOf(StepEvent(p, c))
  {
    StepKeeps(p, c);
    if c.at.Rebound? {
      var q := p.findBoundary(c.raw[0]);
      if q.Some? { UnreadMoved(c.raw, c.raw[0].(pos := q.value)); }
    } else if c.at.Repeat? {
      ParseStepAccounts(c, p.parseFrame(c.raw[0]));
    }
  }

  ghost function RunLog<F(!new)>(p: Parser<F>, c: Config<F>, n: nat): seq<Event<F>>
    requires Monotone(p) && Live(c)
    decreases n
  {
    if n == 0 then [] else
      StepKeeps(p, c);
      [StepEvent(p, c)] + RunLog(p, Step(p, c), n - 1)
  }

  lemma {:induction false} Chained<F>(e: Event<F>, log: seq<Event<F>>, u0: seq<Byte>, u1: seq<Byte>, u2: seq<Byte>,
                                      f0: seq<F>, f1: seq<F>, f2: seq<F>)
    requires e.bytes + u1 == u0 && Bytes(log) + u2 == u1
    requires f1 == f0 + FrameOf(e) && f2 == f1 + FramesOf(log)
    ensures Bytes([e] + log) + u2 == u0
    ensures f2 == f0 + FramesOf([e] + log)
  {
  }

  /** After any number of steps, with any parser: nothing lost, doubled or reordered. */
  lemma {:induction false} RunAccounts<F(!new)>(p: Parser<F>, c: Config<F>, n: nat)
    requires Monotone(p) && Live(c)
    ensures Bytes(RunLog(p, c, n)) + Unread(Run(p, c, n).raw) == Unread(c.raw)
    ensures Run(p, c, n).frames == c.frames + FramesOf(RunLog(p, c, n))
    decreases n
  {
    if n > 0 {
      StepAccounts(p, c);
      var d := Step(p, c);
      RunAccounts(p, d, n - 1);
      Chained(StepEvent(p, c), RunLog(p, d, n - 1), Unread(c.raw), Unread(d.raw), Unread(Run(p, d, n - 1).raw),
              c.frames, d.frames, Run(p, d, n - 1).frames);
    }
  }

  /** Under the contract that needs no look at the run, the end is the recursive definition's. */
  lemma {:induction false} ParseAllRuns<F(!new)>(p: Parser<F>, c: Config<F>) returns (n: nat)
    requires Monotone(p) && Advances(p) && AcceptsBroken(p)
    requires Live(c) && NoTwins(c.raw)
    ensures ParseAll(p, c) == Run(p, c, n)
    decreases |c.raw|, NotBroken(c.raw), NotFlagged(c.raw), Left(c.raw), Rank(c.at)
  {
    if c.at.Done? { return 0; }
    StepKeeps(p, c);
    assert Run(p, c, 1) == Run(p, Step(p, c), 0);
    if Step(p, c).at.Done? { return 1; }
    StepShrinks(p, c);
    n := ParseAllRuns(p, Step(p, c));
    n := n + 1;
  }

  lemma EndIsParseAll<F(!new)>(p: Parser<F>, c: Config<F>, r: Config<F>)
    requires Monotone(p) && Advances(p) && AcceptsBroken(p) && Live(c) && NoTwins(c.raw) && EndsIn(p, c, r)
    ensures r == ParseAll(p, c)
  {
    var n := ParseAllRuns(p, c);
    EndIsUnique(p, c, r, ParseAll(p, c));
  }

  /** A number of steps after which the loop has stopped. */
  ghost function Length<F(!new)>(p: Parser<F>, c: Config<F>): (n: nat)
    requires Monotone(p) && Live(c) && Halts(p, c)
    ensures Run(p, c, n).at.Done?
  {
    var n: nat :| Run(p, c, n).at.Done?; n
  }

  // ---------------------------------------------------------------- a protocol on bytes

  datatype Decoded<+F> = Complete(len: nat, frame: F) | Partial | Malformed

  /** Bytes that arrive later never change what an earlier complete or malformed start means. */
  ghost predicate PrefixStable<F(!new)>(d: seq<Byte> -> Decoded<F>) {
    && d([]) == Partial
    && (forall b :: d(b).Complete? ==> 0 < d(b).len <= |b|)
    && (forall b, y :: !d(b).Partial? ==> d(b + y) == d(b))
  }

  /** On a chunk that is not broken and has unread bytes, the parser reads the protocol `d`. */
  ghost predicate Implements<F(!new)>(p: Parser<F>, d: seq<Byte> -> Decoded<F>) {
    forall c: Chunk :: c.pos < |c.data| && !c.broken ==>
      Reads(c, d(Head(c)), p.findBoundary(c), p.parseFrame(c))
  }

  predicate Reads<F(==)>(c: Chunk, m: Decoded<F>, q: Option<nat>, o: Outcome<F>) {
    match m
    case Complete(n, f) => q == Some(c.pos) && o == Outcome(Success, c.pos + n, Some(f))
    case Partial => q == Some(c.pos) && o == Outcome(NeedsMoreData, c.pos, None)
    case Malformed => true
  }

  /** The frames at the front of `b`, and the bytes that do not yet make a frame. */
  ghost function Greedy<F(!new)>(d: seq<Byte> -> Decoded<F>, b: seq<Byte>): (seq<F>, seq<Byte>)
    requires PrefixStable(d)
    decreases |b|
  {
    match d(b)
    case Complete(n, f) => var g := Greedy(d, b[n..]); ([f] + g.0, g.1)
    case Partial => ([], b)
    case Malformed => ([], b)
  }

  ghost predicate Clean<F(!new)>(d: seq<Byte> -> Decoded<F>, b: seq<Byte>)
    requires PrefixStable(d)
  {
    d(Greedy(d, b).1) == Partial
  }

  lemma {:induction false} GreedyAfterFrame<F(!new)>(d: seq<Byte> -> Decoded<F>, u: seq<Byte>, v: seq<Byte>)
    requires PrefixStable(d) && d(u).Complete?
    ensures Greedy(d, u + v).0 == [d(u).frame] + Greedy(d, u[d(u).len..] + v).0
    ensures Greedy(d, u + v).1 == Greedy(d, u[d(u).len..] + v).1
  {
    assert d(u + v) == d(u);
    assert (u + v)[d(u).len..] == u[d(u).len..] + v;
  }

  /** Reading `x` first and its rest together with `y` later gives the same frames. */
  lemma {:induction false} GreedyAppend<F(!new)>(d: seq<Byte> -> Decoded<F>, x: seq<Byte>, y: seq<Byte>)
    requires PrefixStable(d)
    ensures Greedy(d, x + y).0 == Greedy(d, x).0 + Greedy(d, Greedy(d, x).1 + y).0
    ensures Greedy(d, x + y).1 == Greedy(d, Greedy(d, x).1 + y).1
    decreases |x|
  {
    if d(x).Complete? {
      var rest := x[d(x).len..];
      GreedyAfterFrame(d, x, y);
      GreedyAppend(d, rest, y);
      Assoc([d(x).frame], Greedy(d, rest).0, Greedy(d, Greedy(d, rest).1 + y).0);
    } else {
      assert Greedy(d, x) == ([], x);
    }
  }

  // ---------------------------------------------------------------- a queue that can be read

  predicate Joins(a: nat, b: nat) { a < b || a == b == 0 }

  /** `carry` are the bytes of an unfinished frame in front of the queue: it may only run into a chunk that joins. */
  ghost predicate Aligned<F(!new)>(d: seq<Byte> -> Decoded<F>, carry: seq<Byte>, raw: seq<Chunk>)
    requires PrefixStable(d) && QueueOk(raw)
    decreases |raw|
  {
    |raw| < 2 ||
    var open := Greedy(d, carry + Head(raw[0])).1;
    (Joins(raw[0].index, raw[1].index) || open == []) && Aligned(d, open, raw[1..])
  }

  ghost predicate Whole(raw: seq<Chunk>) {
    && QueueOk(raw)
    && (forall i :: 0 <= i < |raw| ==> raw[i].pos < |raw[i].data| && !raw[i].broken)
  }

  ghost predicate Readable<F(!new)>(d: seq<Byte> -> Decoded<F>, raw: seq<Chunk>)
    requires PrefixStable(d)
  {
    Whole(raw) && Aligned(d, [], raw) && Clean(d, Unread(raw))
  }

  /** In a readable queue the front never starts with garbage. */
  lemma FrontNotMalformed<F(!new)>(d: seq<Byte> -> Decoded<F>, raw: seq<Chunk>)
    requires PrefixStable(d) && Readable(d, raw) && raw != []
    ensures !d(Head(raw[0])).Malformed?
  {
  }

  /** The queue once the frame of length `n` at its front is consumed. */
  function Consumed(raw: seq<Chunk>, n: nat): seq<Chunk>
    requires raw != [] && raw[0].pos + n <= |raw[0].data|
  {
    if raw[0].pos + n == |raw[0].data| then raw[1..] else raw[0 := raw[0].(pos := raw[0].pos + n)]
  }

  lemma {:induction false} ConsumedShape(raw: seq<Chunk>, n: nat)
    requires Whole(raw) && raw != [] && 0 < n && raw[0].pos + n <= |raw[0].data|
    ensures Whole(Consumed(raw, n))
    ensures Unread(Consumed(raw, n)) == Head(raw[0])[n..] + Unread(raw[1..])
  {
  }

  lemma {:induction false} ConsumedAligned<F(!new)>(d: seq<Byte> -> Decoded<F>, raw: seq<Chunk>)
    requires PrefixStable(d) && Whole(raw) && Aligned(d, [], raw) && raw != [] && d(Head(raw[0])).Complete?
    requires QueueOk(Consumed(raw, d(Head(raw[0])).len))
    ensures Aligned(d, [], Consumed(raw, d(Head(raw[0])).len))
  {
    var u := Head(raw[0]);
    var n := d(u).len;
    var r := Consumed(raw, n);
    GreedyAfterFrame(d, u, []);
    assert [] + u == u && u + [] == u && u[n..] + [] == u[n..];
    if raw[0].pos + n < |raw[0].data| {
      assert r[1..] == raw[1..];
      assert [] + Head(r[0]) == u[n..];
    } else {
      assert u[n..] == [];
    }
  }

  lemma {:induction false} FrameConsumed<F(!new)>(d: seq<Byte> -> Decoded<F>, raw: seq<Chunk>)
    requires PrefixStable(d) && Readable(d, raw) && raw != [] && d(Head(raw[0])).Complete?
    ensures var r := Consumed(raw, d(Head(raw[0])).len);
      && Readable(d, r)
      && Greedy(d, Unread(raw)).0 == [d(Head(raw[0])).frame] + Greedy(d, Unread(r)).0
      && Greedy(d, Unread(raw)).1 == Greedy(d, Unread(r)).1
  {
    ConsumedShape(raw, d(Head(raw[0])).len);
    ConsumedAligned(d, raw);
    GreedyAfterFrame(d, Head(raw[0]), Unread(raw[1..]));
  }

  lemma {:induction false} PartialAligned<F(!new)>(d: seq<Byte> -> Decoded<F>, raw: seq<Chunk>)
    requires PrefixStable(d) && Whole(raw) && Aligned(d, [], raw) && |raw| >= 2 && d(Head(raw[0])).Partial?
    ensures Joins(raw[0].index, raw[1].index) && Overlay(raw).Some? && Whole(Overlay(raw).value)
    ensures Aligned(d, [], Overlay(raw).value)
  {
    var u := Head(raw[0]);
    assert [] + u == u;
    var r := Overlay(raw).value;
    OverlayKeeps(raw);
    assert r[1..] == raw[1..][1..];
    assert [] + Head(r[0]) == u + Head(raw[1]);
  }

  lemma {:induction false} PartialJoins<F(!new)>(d: seq<Byte> -> Decoded<F>, raw: seq<Chunk>)
    requires PrefixStable(d) && Readable(d, raw) && |raw| >= 2 && d(Head(raw[0])).Partial?
    ensures Overlay(raw).Some? && Readable(d, Overlay(raw).value)
    ensures Unread(Overlay(raw).value) == Unread(raw)
  {
    PartialAligned(d, raw);
    OverlayUnread(raw);
  }

  /** One step on a readable queue: no byte skipped, and the frames still to come are unchanged. */
  ghost predicate Faithful<F(!new)>(d: seq<Byte> -> Decoded<F>, c: Config<F>, e: Event<F>, r: Config<F>)
    requires PrefixStable(d) && QueueOk(c.raw)
  {
    && Live(r) && Readable(d, r.raw)
    && (e.Framed? || e.bytes == [])
    && Greedy(d, Unread(c.raw)).0 == FrameOf(e) + Greedy(d, Unread(r.raw)).0
    && Greedy(d, Unread(c.raw)).1 == Greedy(d, Unread(r.raw)).1
    && (r.at.Done? ==> |r.frames| >= FRAME_BUF_SIZE || Greedy(d, Unread(r.raw)).0 == [])
  }

  lemma {:induction false} CompleteFaithful<F(!new)>(d: seq<Byte> -> Decoded<F>, c: Config<F>, o: Outcome<F>)
    requires PrefixStable(d) && Live(c) && Readable(d, c.raw) && c.raw != [] && d(Head(c.raw[0])).Complete?
    requires o == Outcome(Success, c.raw[0].pos + d(Head(c.raw[0])).len, Some(d(Head(c.raw[0])).frame))
    ensures OutcomeFits(c.raw[0], o) && Faithful(d, c, ParseEvent(c, o), ParseStep(c, o))
  {
    ParseStepKeeps(c, o);
    if |c.frames| < FRAME_BUF_SIZE {
      FrameConsumed(d, c.raw);
      assert ParseStep(c, o).raw == Consumed(c.raw, d(Head(c.raw[0])).len);
    }
  }

  lemma {:induction false} PartialFaithful<F(!new)>(d: seq<Byte> -> Decoded<F>, c: Config<F>, o: Outcome<F>)
    requires PrefixStable(d) && Live(c) && Readable(d, c.raw) && c.raw != [] && d(Head(c.raw[0])).Partial?
    requires o == Outcome(NeedsMoreData, c.raw[0].pos, None)
    ensures OutcomeFits(c.raw[0], o) && Faithful(d, c, ParseEvent(c, o), ParseStep(c, o))
  {
    ParseStepKeeps(c, o);
    assert c.raw[0 := c.raw[0].(pos := o.pos)] == c.raw;
    if |c.raw| >= 2 {
      PartialJoins(d, c.raw);
    } else {
      UnreadSplit(c.raw);
      assert c.raw[1..] == [] && Unread(c.raw) == Head(c.raw[0]);
    }
  }

  lemma {:induction false} StepFaithful<F(!new)>(p: Parser<F>, d: seq<Byte> -> Decoded<F>, c: Config<F>)
    requires PrefixStable(d) && Implements(p, d) && Monotone(p)
    requires Live(c) && Readable(d, c.raw)
    requires c.at.Done? ==> |c.frames| >= FRAME_BUF_SIZE || Greedy(d, Unread(c.raw)).0 == []
    ensures Faithful(d, c, StepEvent(p, c), Step(p, c))
  {
    if c.at.Next? {
      StepKeeps(p, c);
    } else if !c.at.Done? {
      FrontNotMalformed(d, c.raw);
      var front := c.raw[0];
      assert Reads(front, d(Head(front)), p.findBoundary(front), p.parseFrame(front));
      if c.at.Rebound? {
        assert c.raw[0 := front.(pos := front.pos)] == c.raw;
      } else if d(Head(front)).Complete? {
        CompleteFaithful(d, c, p.parseFrame(front));
      } else {
        PartialFaithful(d, c, p.parseFrame(front));
      }
    }
  }

  ghost predicate NoSkips<F>(log: seq<Event<F>>) {
    forall i :: 0 <= i < |log| ==> log[i].Framed? || log[i].bytes == []
  }

  /** `r` and `log` are what a faithful run from `c` may reach. */
  ghost predicate FaithfulRun<F(!new)>(d: seq<Byte> -> Decoded<F>, c: Config<F>, log: seq<Event<F>>, r: Config<F>)
    requires PrefixStable(d) && QueueOk(c.raw)
  {
    && Readable(d, r.raw) && NoSkips(log)
    && Greedy(d, Unread(c.raw)).0 == FramesOf(log) + Greedy(d, Unread(r.raw)).0
    && Greedy(d, Unread(c.raw)).1 == Greedy(d, Unread(r.raw)).1
    && (r.at.Done? && |r.frames| < FRAME_BUF_SIZE ==> Greedy(d, Unread(r.raw)).0 == [])
  }

  lemma {:induction false} FaithfulChained<F(!new)>(d: seq<Byte> -> Decoded<F>, c: Config<F>, e: Event<F>, m: Config<F>,
                                                    log: seq<Event<F>>, r: Config<F>)
    requires PrefixStable(d) && QueueOk(c.raw)
    requires Faithful(d, c, e, m) && FaithfulRun(d, m, log, r)
    ensures FaithfulRun(d, c, [e] + log, r)
  {
    assert ([e] + log)[1..] == log;
    Assoc(FrameOf(e), FramesOf(log), Greedy(d, Unread(r.raw)).0);
  }

  lemma {:induction false} RunGreedy<F(!new)>(p: Parser<F>, d: seq<Byte> -> Decoded<F>, c: Config<F>, n: nat)
    requires PrefixStable(d) && Implements(p, d) && Monotone(p)
    requires Live(c) && Readable(d, c.raw)
    requires c.at.Done? ==> |c.frames| >= FRAME_BUF_SIZE || Greedy(d, Unread(c.raw)).0 == []
    ensures FaithfulRun(d, c, RunLog(p, c, n), Run(p, c, n))
    decreases n
  {
    hide PrefixStable, Implements, Monotone, Greedy, Readable, Step, StepEvent, Unread;
    if n > 0 {
      StepFaithful(p, d, c);
      var m := Step(p, c);
      RunGreedy(p, d, m, n - 1);
      FaithfulChained(d, c, StepEvent(p, c), m, RunLog(p, m, n - 1), Run(p, m, n - 1));
    }
  }

  // ---------------------------------------------------------------- a readable queue is read to its end

  /** In a readable queue a front that asks for more has a successor that joins it. */
  lemma ReadableNotStuck<F(!new)>(p: Parser<F>, d: seq<Byte> -> Decoded<F>, raw: seq<Chunk>)
    requires PrefixStable(d) && Implements(p, d) && Readable(d, raw)
    ensures !Stuck(p, raw)
  {
    if |raw| >= 2 {
      FrontNotMalformed(d, raw);
      assert Reads(raw[0], d(Head(raw[0])), p.findBoundary(raw[0]), p.parseFrame(raw[0]));
      if d(Head(raw[0])).Partial? { PartialAligned(d, raw); }
    }
  }

  /** So the loop stops on it, whatever the parser does with chunks flagged as broken. */
  lemma ReadableHalts<F(!new)>(p: Parser<F>, d: seq<Byte> -> Decoded<F>, c: Config<F>)
    requires PrefixStable(d) && Implements(p, d) && Monotone(p) && Advances(p)
    requires Live(c) && c.at.Next? && Readable(d, c.raw)
    ensures Halts(p, c)
  {
    HaltsIffNeverStuck(p, c);
    forall n: nat ensures !Stuck(p, Run(p, c, n).raw) {
      RunGreedy(p, d, c, n);
      ReadableNotStuck(p, d, Run(p, c, n).raw);
    }
  }
}
