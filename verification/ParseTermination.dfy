/** When the frame-parsing loop stops: a sufficient contract, and the exact condition. */
module ParseTermination {
  import opened Options
  import opened DataStream

  function NotBroken(raw: seq<Chunk>): nat { if raw == [] || raw[0].broken then 0 else 1 }

  function NotFlagged(raw: seq<Chunk>): nat { if raw == [] || raw[0].invalid then 0 else 1 }

  function Left(raw: seq<Chunk>): nat {
    if raw == [] || raw[0].pos > |raw[0].data| then 0 else |raw[0].data| - raw[0].pos
  }

  function Rank(at: Label): nat {
    match at case Next => 3 case Rebound => 2 case Repeat => 1 case Done => 0
  }

  /** The queue got smaller: fewer chunks, or the front newly broken, newly flagged, or shorter. */
  ghost predicate Shrinks(r: seq<Chunk>, raw: seq<Chunk>) {
    |r| < |raw| || (|r| == |raw| && (
      NotBroken(r) < NotBroken(raw) || (NotBroken(r) == NotBroken(raw) && (
        NotFlagged(r) < NotFlagged(raw) || (NotFlagged(r) == NotFlagged(raw) && Left(r) < Left(raw))))))
  }

  /** Joining changes nothing: equal nonzero indices, or a smaller successor of a broken front. */
  predicate Unjoinable(raw: seq<Chunk>) {
    |raw| >= 2 && raw[0].index > 0 &&
    (raw[1].index == raw[0].index || (raw[1].index < raw[0].index && raw[0].broken))
  }

  lemma {:induction false} OverlayShrinks(raw: seq<Chunk>)
    requires QueueOk(raw) && Overlay(raw).Some?
    ensures if Unjoinable(raw) then Overlay(raw).value == raw else Shrinks(Overlay(raw).value, raw)
  {
  }

  /** A parse that does not end the loop shrinks the queue, unless it asks in vain for more data. */
  lemma {:induction false} ParseShrinks<F>(c: Config<F>, o: Outcome<F>)
    requires Live(c) && c.raw != [] && OutcomeFits(c.raw[0], o)
    requires o.state.Success? ==> c.raw[0].pos < o.pos
    requires !ParseStep(c, o).at.Done?
    ensures Shrinks(ParseStep(c, o).raw, c.raw) ||
            (o.state.NeedsMoreData? && o.pos == c.raw[0].pos && Unjoinable(c.raw) && ParseStep(c, o) == c.(at := Next))
  {
  }

  lemma {:induction false} StepShrinks<F(!new)>(p: Parser<F>, c: Config<F>)
    requires Monotone(p) && Advances(p) && Live(c) && !c.at.Done? && !Step(p, c).at.Done?
    ensures Shrinks(Step(p, c).raw, c.raw) || Step(p, c).raw == c.raw
    ensures c.at.Repeat? && !Shrinks(Step(p, c).raw, c.raw) ==>
      && p.parseFrame(c.raw[0]).state.NeedsMoreData? && p.parseFrame(c.raw[0]).pos == c.raw[0].pos
      && Unjoinable(c.raw) && Step(p, c).at.Next?
    ensures c.at.Rebound? && !Shrinks(Step(p, c).raw, c.raw) ==>
      Step(p, c).at.Repeat? && p.findBoundary(c.raw[0]) == Some(c.raw[0].pos)
  {
    if c.at.Repeat? {
      ParseShrinks(c, p.parseFrame(c.raw[0]));
    } else if c.at.Rebound? {
      var q := p.findBoundary(c.raw[0]);
      if q.Some? && q.value == c.raw[0].pos {
        assert c.raw[0 := c.raw[0].(pos := q.value)] == c.raw;
      }
    }
  }

  lemma {:induction false} NoTwinsUnjoinable(raw: seq<Chunk>)
    requires NoTwins(raw) && Unjoinable(raw)
    ensures raw[0].broken
  {
  }

  /** The whole loop, as the configuration it ends in. */
  ghost function ParseAll<F(!new)>(p: Parser<F>, c: Config<F>): (r: Config<F>)
    requires Monotone(p) && Advances(p) && AcceptsBroken(p)
    requires Live(c) && NoTwins(c.raw)
    ensures r.at == Done && QueueOk(r.raw) && NoTwins(r.raw)
    decreases |c.raw|, NotBroken(c.raw), NotFlagged(c.raw), Left(c.raw), Rank(c.at)
  {
    if c.at.Done? then c else
      StepKeeps(p, c);
      if Step(p, c).at.Done? then Step(p, c) else
        StepShrinks(p, c);
        ParseAll(p, Step(p, c))
  }

  lemma {:induction false} ParseAllStep<F(!new)>(p: Parser<F>, c: Config<F>)
    requires Monotone(p) && Advances(p) && AcceptsBroken(p)
    requires Live(c) && NoTwins(c.raw) && !c.at.Done?
    ensures var d := Step(p, c);
      && Live(d) && NoTwins(d.raw) && ParseAll(p, d) == ParseAll(p, c)
      && (d.at.Done? || Shrinks(d.raw, c.raw) || (d.raw == c.raw && Rank(d.at) < Rank(c.at)))
  {
    StepKeeps(p, c);
    if !Step(p, c).at.Done? { StepShrinks(p, c); }
  }

  // ---------------------------------------------------------------- the exact condition

  ghost function Run<F(!new)>(p: Parser<F>, c: Config<F>, n: nat): (r: Config<F>)
    requires Monotone(p) && Live(c)
    ensures Live(r)
    decreases n
  {
    if n == 0 then c else
      StepKeeps(p, c);
      Run(p, Step(p, c), n - 1)
  }

  ghost predicate Halts<F(!new)>(p: Parser<F>, c: Config<F>)
    requires Monotone(p) && Live(c)
  {
    exists n: nat :: Run(p, c, n).at.Done?
  }

  /** The front starts a frame that asks for more without moving, and joining changes nothing. */
  ghost predicate Stuck<F>(p: Parser<F>, raw: seq<Chunk>) {
    && Unjoinable(raw)
    && p.findBoundary(raw[0]) == Some(raw[0].pos)
    && p.parseFrame(raw[0]).state.NeedsMoreData? && p.parseFrame(raw[0]).pos == raw[0].pos
  }

  ghost predicate ReachesStuck<F(!new)>(p: Parser<F>, c: Config<F>)
    requires Monotone(p) && Live(c)
  {
    exists n: nat :: Run(p, c, n).at.Next? && Stuck(p, Run(p, c, n).raw)
  }

  lemma {:induction false} RunSplits<F(!new)>(p: Parser<F>, c: Config<F>, m: nat, n: nat)
    requires Monotone(p) && Live(c)
    ensures Run(p, c, m + n) == Run(p, Run(p, c, m), n)
    decreases m
  {
    if m > 0 {
      StepKeeps(p, c);
      RunSplits(p, Step(p, c), m - 1, n);
    }
  }

  /** A stuck queue comes back to itself after three labels, so no number of steps leaves it. */
  lemma {:induction false} StuckForever<F(!new)>(p: Parser<F>, c: Config<F>, n: nat)
    requires Monotone(p) && Live(c) && c.at.Next? && Stuck(p, c.raw)
    ensures !Run(p, c, n).at.Done?
  {
    var c1, c2 := c.(at := Rebound), c.(at := Repeat);
    assert c.raw[0 := c.raw[0].(pos := c.raw[0].pos)] == c.raw;
    assert Step(p, c) == c1 && Step(p, c1) == c2 && Step(p, c2) == c;
    assert Run(p, c, 1) == c1 && Run(p, c1, 1) == c2 && Run(p, c2, 1) == c;
    RunSplits(p, c, 1, 1);
    RunSplits(p, c, 2, 1);
    if n >= 3 {
      RunSplits(p, c, 3, n - 3);
      StuckForever(p, c, n - 3);
    }
  }

  /** `idle`: nothing has changed since the last visit of the first label. */
  function FineRank(at: Label, idle: bool): nat {
    match at
    case Rebound => if idle then 4 else 7
    case Repeat => if idle then 3 else 6
    case Next => 5
    case Done => 0
  }

  /** What is known about an idle configuration. */
  ghost predicate IdleOk<F>(p: Parser<F>, c: Config<F>, idle: bool) {
    idle ==>
      && (c.at.Repeat? ==> c.raw != [] && p.findBoundary(c.raw[0]) == Some(c.raw[0].pos))
      && (c.at.Rebound? || c.at.Repeat? ==> !Stuck(p, c.raw))
  }

  lemma {:induction false} StuckLater<F(!new)>(p: Parser<F>, c: Config<F>)
    requires Monotone(p) && Live(c)
    ensures Live(Step(p, c))
    ensures ReachesStuck(p, Step(p, c)) ==> ReachesStuck(p, c)
  {
    StepKeeps(p, c);
    var d := Step(p, c);
    if ReachesStuck(p, d) {
      var k: nat :| Run(p, d, k).at.Next? && Stuck(p, Run(p, d, k).raw);
      assert Run(p, c, k + 1) == Run(p, d, k);
    }
  }

  lemma {:induction false} Unstuck<F(!new)>(p: Parser<F>, c: Config<F>, idle: bool) returns (n: nat)
    requires Monotone(p) && Advances(p) && Live(c) && IdleOk(p, c, idle)
    requires !ReachesStuck(p, c)
    ensures Run(p, c, n).at.Done?
    decreases |c.raw|, NotBroken(c.raw), NotFlagged(c.raw), Left(c.raw), FineRank(c.at, idle)
  {
    if c.at.Done? { return 0; }
    assert Run(p, c, 0) == c;
    StuckLater(p, c);
    var d := Step(p, c);
    if d.at.Done? {
      assert Run(p, c, 1) == Run(p, d, 0);
      return 1;
    }
    StepShrinks(p, c);
    n := Unstuck(p, d, c.at.Next? || (c.at.Rebound? && idle && d.raw == c.raw));
    n := n + 1;
  }

  /** The loop stops exactly when it never meets a stuck queue. */
  lemma HaltsIffNeverStuck<F(!new)>(p: Parser<F>, c: Config<F>)
    requires Monotone(p) && Advances(p) && Live(c) && c.at.Next?
    ensures Halts(p, c) <==> !ReachesStuck(p, c)
  {
    if ReachesStuck(p, c) {
      var n: nat :| Run(p, c, n).at.Next? && Stuck(p, Run(p, c, n).raw);
      forall k: nat ensures !Run(p, c, k).at.Done? {
        if k >= n {
          RunSplits(p, c, n, k - n);
          StuckForever(p, Run(p, c, n), k - n);
        } else if Run(p, c, k).at.Done? {
          RunSplits(p, c, k, n - k);
          DoneStays(p, Run(p, c, k), n - k);
        }
      }
    } else {
      var n := Unstuck(p, c, false);
    }
  }

  lemma {:induction false} DoneStays<F(!new)>(p: Parser<F>, c: Config<F>, n: nat)
    requires Monotone(p) && Live(c) && c.at.Done?
    ensures Run(p, c, n) == c
    decreases n
  {
    if n > 0 { DoneStays(p, c, n - 1); }
  }

  lemma {:induction false} NoTwinsKept<F(!new)>(p: Parser<F>, c: Config<F>, n: nat)
    requires Monotone(p) && Live(c) && NoTwins(c.raw)
    ensures NoTwins(Run(p, c, n).raw)
    decreases n
  {
    if n > 0 {
      StepKeeps(p, c);
      NoTwinsKept(p, Step(p, c), n - 1);
    }
  }

  /** Distinct neighbouring indices and a parser that accepts broken chunks are enough. */
  lemma NoTwinsHalts<F(!new)>(p: Parser<F>, c: Config<F>)
    requires Monotone(p) && Advances(p) && AcceptsBroken(p) && Live(c) && c.at.Next? && NoTwins(c.raw)
    ensures Halts(p, c)
  {
    HaltsIffNeverStuck(p, c);
    forall n: nat ensures !Stuck(p, Run(p, c, n).raw) {
      NoTwinsKept(p, c, n);
      if Unjoinable(Run(p, c, n).raw) { NoTwinsUnjoinable(Run(p, c, n).raw); }
    }
  }

  /** The configuration the loop stops in. */
  ghost predicate EndsIn<F(!new)>(p: Parser<F>, c: Config<F>, r: Config<F>)
    requires Monotone(p) && Live(c)
  {
    r.at.Done? && exists n: nat :: Run(p, c, n) == r
  }

  /** There is one such configuration, and under the parser contract it is the whole loop's. */
  lemma EndIsUnique<F(!new)>(p: Parser<F>, c: Config<F>, r: Config<F>, r': Config<F>)
    requires Monotone(p) && Live(c) && EndsIn(p, c, r) && EndsIn(p, c, r')
    ensures r == r'
  {
    var m: nat :| Run(p, c, m) == r;
    var n: nat :| Run(p, c, n) == r';
    RunSplits(p, c, m, n);
    RunSplits(p, c, n, m);
    DoneStays(p, r, n);
    DoneStays(p, r', m);
  }

  // ---------------------------------------------------------------- why the loop stops

  /** The queue is used up, the frame buffer is full, or one chunk is left and its frame goes on beyond it. */
  ghost predicate StopsFor<F>(p: Parser<F>, r: Config<F>) {
    || r.raw == []
    || |r.frames| >= FRAME_BUF_SIZE
    || (|r.raw| == 1 && p.parseFrame(r.raw[0]).state.NeedsMoreData?)
  }

  /** The answers that end the loop whatever is queued behind: no known state, or a success without a frame. */
  predicate GivesUp<F>(o: Outcome<F>) { o.state.OtherState? || (o.state.Success? && o.frame.None?) }

  ghost predicate NeverGivesUp<F(!new)>(p: Parser<F>) { forall c: Chunk :: !GivesUp(p.parseFrame(c)) }

  /** What makes the loop stop at `c`: nothing is queued, or a parse that cannot be followed by another. */
  ghost predicate LastParse<F>(p: Parser<F>, c: Config<F>) {
    || (c.at.Next? && c.raw == [])
    || (c.at.Repeat? && c.raw != [] &&
        var o := p.parseFrame(c.raw[0]);
        || GivesUp(o) || (o.state.Success? && |c.frames| >= FRAME_BUF_SIZE) || (o.state.NeedsMoreData? && |c.raw| == 1))
  }

  /** The loop stops exactly there; a chunk on which it gives up is taken off, any other stays as it was. */
  lemma {:induction false} StopsExactly<F(!new)>(p: Parser<F>, c: Config<F>)
    requires Monotone(p) && Live(c) && !c.at.Done?
    ensures Step(p, c).at.Done? <==> LastParse(p, c)
    ensures LastParse(p, c) ==>
      && Step(p, c).frames == c.frames
      && Step(p, c).raw == if c.raw != [] && GivesUp(p.parseFrame(c.raw[0])) then c.raw[1..] else c.raw
  {
  }

  /**
    However many chunks fail to parse on the way, the loop goes on to the next one: with a parser that never
    gives up it stops only when the queue is used up, the frame buffer is full, or the last chunk asks for more.
  */
  lemma {:induction false} RunStopsFor<F(!new)>(p: Parser<F>, c: Config<F>, n: nat)
    requires Monotone(p) && NeverGivesUp(p) && Live(c) && !c.at.Done? && Run(p, c, n).at.Done?
    ensures StopsFor(p, Run(p, c, n))
    decreases n
  {
    if n > 0 {
      StepKeeps(p, c);
      var d := Step(p, c);
      if d.at.Done? {
        StopsExactly(p, c);
        DoneStays(p, d, n - 1);
      } else {
        hide Step, StopsFor, NeverGivesUp;
        RunStopsFor(p, d, n - 1);
      }
    }
  }

  lemma EndsOnlyFor<F(!new)>(p: Parser<F>, c: Config<F>, r: Config<F>)
    requires Monotone(p) && NeverGivesUp(p) && Live(c) && c.at.Next? && EndsIn(p, c, r)
    ensures StopsFor(p, r)
  {
    var n: nat :| Run(p, c, n) == r;
    RunStopsFor(p, c, n);
  }

  /**
    One chunk at a time: a front chunk whose parse fails twice is taken off and the loop is back at its first
    label, with the rest of the queue and the frames as they were.
  */
  lemma TwiceInvalidIsSkipped<F(!new)>(p: Parser<F>, c: Config<F>, q: nat)
    requires Monotone(p) && Live(c) && c.at.Next? && c.raw != [] && !c.raw[0].invalid
    requires var a := c.raw[0];
      && p.findBoundary(a) == Some(a.pos) && p.parseFrame(a) == Outcome(Invalid, q, None) && q <= |a.data|
      && var b := a.(pos := q, invalid := true);
         p.findBoundary(b) == Some(q) && p.parseFrame(b).state.Invalid?
    ensures Run(p, c, 5) == Config(c.raw[1..], c.frames, Next)
  {
    var a := c.raw[0];
    var b := a.(pos := q, invalid := true);
    var c1, c2 := c.(at := Rebound), c.(at := Repeat);
    var c3, c4 := Config(c.raw[0 := b], c.frames, Rebound), Config(c.raw[0 := b], c.frames, Repeat);
    var c5 := Config(c.raw[1..], c.frames, Next);
    assert c.raw[0 := a.(pos := a.pos)] == c.raw && c.raw[0 := b][0 := b.(pos := q)] == c.raw[0 := b];
    assert c.raw[0 := b][1..] == c.raw[1..];
    StepKeeps(p, c);
    StepKeeps(p, c1);
    StepKeeps(p, c2);
    StepKeeps(p, c3);
    StepKeeps(p, c4);
    assert Step(p, c) == c1 && Step(p, c1) == c2 && Step(p, c2) == c3 && Step(p, c3) == c4 && Step(p, c4) == c5;
    hide Step;
    assert Run(p, c5, 0) == c5;
    assert Run(p, c4, 1) == c5;
    assert Run(p, c3, 2) == c5;
    assert Run(p, c2, 3) == c5;
    assert Run(p, c1, 4) == c5;
  }

  /** Frames that follow each other in a chunk are parsed back to back, without a search in between. */
  lemma BackToBack<F(!new)>(p: Parser<F>, c: Config<F>, a: nat, f: F, b: nat, g: F)
    requires Monotone(p) && Live(c) && c.at.Repeat? && |c.frames| + 2 <= FRAME_BUF_SIZE
    requires p.parseFrame(c.raw[0]) == Outcome(Success, a, Some(f)) && a < |c.raw[0].data|
    requires p.parseFrame(c.raw[0].(pos := a)) == Outcome(Success, b, Some(g))
    ensures Run(p, c, 2).frames == c.frames + [f, g]
  {
    var c1 := Config(c.raw[0 := c.raw[0].(pos := a)], c.frames + [f], Repeat);
    assert Step(p, c) == c1 && Step(p, c1).frames == c.frames + [f] + [g];
    StepKeeps(p, c);
    StepKeeps(p, c1);
    assert Run(p, Step(p, c1), 0) == Step(p, c1);
    assert Run(p, c1, 1) == Step(p, c1);
  }

  /**
    A chunk that has failed once and then asks for more is joined with the next, starts over with the joined
    bytes, and may fail once more before it is taken off.
  */
  lemma JoinedStartsOver<F(!new)>(p: Parser<F>, c: Config<F>, q: nat)
    requires Monotone(p) && Live(c) && c.at.Repeat? && |c.raw| >= 2
    requires c.raw[0].index < c.raw[1].index || c.raw[0].index == c.raw[1].index == 0
    requires p.parseFrame(c.raw[0]) == Outcome(NeedsMoreData, c.raw[0].pos, None)
    requires var j := Chunk(c.raw[0].data + c.raw[1].data, c.raw[0].pos, c.raw[1].index, false, false);
      p.findBoundary(j) == Some(j.pos) && p.parseFrame(j) == Outcome(Invalid, q, None)
    ensures var j := Chunk(c.raw[0].data + c.raw[1].data, c.raw[0].pos, c.raw[1].index, false, false);
      Run(p, c, 4) == Config([j.(pos := q, invalid := true)] + c.raw[2..], c.frames, Rebound)
  {
    var j := Chunk(c.raw[0].data + c.raw[1].data, c.raw[0].pos, c.raw[1].index, false, false);
    var raw := [j] + c.raw[2..];
    var c1, c2, c3 := Config(raw, c.frames, Next), Config(raw, c.frames, Rebound), Config(raw, c.frames, Repeat);
    var c4 := Config([j.(pos := q, invalid := true)] + c.raw[2..], c.frames, Rebound);
    assert c.raw[0 := c.raw[0].(pos := c.raw[0].pos)] == c.raw && raw[0 := j] == raw;
    assert raw[0 := j.(pos := q, invalid := true)] == c4.raw;
    StepKeeps(p, c);
    StepKeeps(p, c1);
    StepKeeps(p, c2);
    StepKeeps(p, c3);
    assert Step(p, c) == c1 && Step(p, c1) == c2 && Step(p, c2) == c3 && Step(p, c3) == c4;
    assert Run(p, c4, 0) == c4;
    assert Run(p, c3, 1) == c4;
    assert Run(p, c2, 2) == c4;
    assert Run(p, c1, 3) == c4;
  }

  /** The frame buffer is never overrun. */
  lemma {:induction false} FramesFit<F(!new)>(p: Parser<F>, c: Config<F>, n: nat)
    requires Monotone(p) && Live(c) && |c.frames| <= FRAME_BUF_SIZE
    ensures |Run(p, c, n).frames| <= FRAME_BUF_SIZE
    decreases n
  {
    if n > 0 {
      StepKeeps(p, c);
      FramesFit(p, Step(p, c), n - 1);
    }
  }
}
