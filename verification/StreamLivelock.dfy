/**
  Which queues and parsers the parse loop can be trusted with. The contracts on parsers and indices
  that make it stop are shown to be needed, for every queue.
*/
module StreamLivelock {
  import opened Options
  import opened DataStream
  import opened ParseTermination
  import opened Reassembly

  /** A parser that keeps its contract: it asks for more until the chunk is flagged as broken. */
  function Hungry<F>(): Parser<F> {
    Parser((c: Chunk) => Some(c.pos), (c: Chunk) => Outcome(if c.broken then Ignore else NeedsMoreData, c.pos, None))
  }

  /** A parser that asks for more even then. */
  function Stubborn<F>(): Parser<F> {
    Parser((c: Chunk) => Some(c.pos), (c: Chunk) => Outcome(NeedsMoreData, c.pos, None))
  }

  ghost predicate WellBehaved<F(!new)>(p: Parser<F>) { Monotone(p) && Advances(p) && AcceptsBroken(p) }

  lemma HungryBehaves<F(!new)>()
    ensures WellBehaved(Hungry<F>())
  {
  }

  lemma StubbornBehaves<F(!new)>()
    ensures Monotone(Stubborn<F>()) && Advances(Stubborn<F>())
  {
  }

  /** As chunks are queued, none is flagged. */
  ghost predicate Unbroken(raw: seq<Chunk>) { forall i :: 0 <= i < |raw| ==> !raw[i].broken }

  lemma LaterStuck<F(!new)>(p: Parser<F>, c: Config<F>, m: nat)
    requires Monotone(p) && Live(c) && ReachesStuck(p, Run(p, c, m))
    ensures ReachesStuck(p, c)
  {
    var n: nat :| Run(p, Run(p, c, m), n).at.Next? && Stuck(p, Run(p, Run(p, c, m), n).raw);
    RunSplits(p, c, m, n);
  }

  /** Three labels: from `Next` through a boundary that does not move to the answer of the parser. */
  lemma ThreeSteps<F(!new)>(p: Parser<F>, c: Config<F>)
    requires Monotone(p) && Live(c) && c.at.Next? && c.raw != [] && p.findBoundary(c.raw[0]) == Some(c.raw[0].pos)
    ensures Run(p, c, 3) == ParseStep(c.(at := Repeat), p.parseFrame(c.raw[0]))
  {
    var c1, c2 := c.(at := Rebound), c.(at := Repeat);
    assert c.raw[0 := c.raw[0].(pos := c.raw[0].pos)] == c.raw;
    assert Step(p, c) == c1 && Step(p, c1) == c2;
    StepKeeps(p, c2);
    hide ParseStep;
    var c3 := Step(p, c2);
    assert Run(p, c3, 0) == c3;
    assert Run(p, c2, 1) == c3;
    assert Run(p, c1, 2) == c3;
  }

  lemma AskForMore<F(!new)>(p: Parser<F>, c: Config<F>, raw: seq<Chunk>)
    requires Monotone(p) && Live(c) && c.at.Next? && c.raw != [] && p.findBoundary(c.raw[0]) == Some(c.raw[0].pos)
    requires p.parseFrame(c.raw[0]).state.NeedsMoreData? && p.parseFrame(c.raw[0]).pos == c.raw[0].pos
    requires Overlay(c.raw) == Some(raw)
    ensures Run(p, c, 3) == Config(raw, c.frames, Next)
  {
  }

  lemma HungryAsks<F>(c: Chunk)
    ensures Hungry<F>().findBoundary(c) == Some(c.pos)
    ensures Hungry<F>().parseFrame(c) == Outcome(if c.broken then Ignore else NeedsMoreData, c.pos, None)
    ensures Stubborn<F>().findBoundary(c) == Some(c.pos)
    ensures Stubborn<F>().parseFrame(c) == Outcome(NeedsMoreData, c.pos, None)
  {
  }

  /** A front with a smaller successor is flagged and then given up. */
  lemma GiveUpFront<F(!new)>(c: Config<F>)
    requires Live(c) && c.at.Next? && |c.raw| >= 2 && !c.raw[0].broken && c.raw[1].index < c.raw[0].index
    ensures Monotone(Hungry<F>()) && Run(Hungry<F>(), c, 6) == Config(c.raw[1..], c.frames, Next)
  {
    var p := Hungry<F>();
    HungryBehaves<F>();
    var flagged := c.raw[0 := c.raw[0].(broken := true)];
    HungryAsks<F>(c.raw[0]);
    HungryAsks<F>(flagged[0]);
    hide Hungry, Run, Monotone, Advances, AcceptsBroken;
    AskForMore(p, c, flagged);
    var d := Config(flagged, c.frames, Next);
    RunSplits(p, c, 3, 3);
    ThreeSteps(p, d);
    assert flagged[1..] == c.raw[1..];
  }

  /** Two neighbours with one nonzero index: the hungry parser gets there and never leaves. */
  lemma {:induction false} TwinsTrap<F(!new)>(c: Config<F>)
    requires Live(c) && c.at.Next? && Unbroken(c.raw) && !NoTwins(c.raw)
    ensures Monotone(Hungry<F>()) && ReachesStuck(Hungry<F>(), c)
    decreases |c.raw|
  {
    var p := Hungry<F>();
    HungryBehaves<F>();
    HungryAsks<F>(c.raw[0]);
    hide Hungry, Monotone, Advances, AcceptsBroken;
    var raw := c.raw;
    if raw[0].index > 0 && raw[1].index == raw[0].index {
      assert Run(p, c, 0) == c;
    } else if raw[1].index < raw[0].index {
      GiveUpFront(c);
      var d := Config(raw[1..], c.frames, Next);
      TwinsTrap(d);
      LaterStuck(p, c, 6);
    } else {
      var joined := [Overlaid(raw[0], raw[1])] + raw[2..];
      OverlayKeeps(raw);
      AskForMore(p, c, joined);
      var d := Config(joined, c.frames, Next);
      JoinedTwins(raw);
      TwinsTrap(d);
      LaterStuck(p, c, 3);
    }
  }

  lemma JoinedTwins(raw: seq<Chunk>)
    requires |raw| >= 2 && !NoTwins(raw[1..])
    ensures !NoTwins([Overlaid(raw[0], raw[1])] + raw[2..])
  {
  }

  /**
    For a queue as it was filled, the loop stops with every parser that keeps its contract exactly when
    no two neighbours share a nonzero index.
  */
  lemma QueueSafeIffNoTwins<F(!new)>(c: Config<F>)
    requires Live(c) && c.at.Next? && Unbroken(c.raw)
    ensures (forall p: Parser<F> :: WellBehaved(p) ==> Halts(p, c)) <==> NoTwins(c.raw)
  {
    if NoTwins(c.raw) {
      forall p: Parser<F> | WellBehaved(p) ensures Halts(p, c) { NoTwinsHalts(p, c); }
    } else {
      TwinsTrap(c);
      HungryBehaves<F>();
      HaltsIffNeverStuck(Hungry<F>(), c);
      assert WellBehaved(Hungry<F>()) && !Halts(Hungry<F>(), c);
    }
  }

  // ---------------------------------------------------------------- parsers that do not look at the flag

  /** Every chunk can be joined to the one before it: larger index, or both zero. */
  ghost predicate AllJoin(raw: seq<Chunk>) {
    |raw| < 2 || (Joins(raw[0].index, raw[1].index) && AllJoin(raw[1..]))
  }

  lemma AllJoinFront(raw: seq<Chunk>, c: Chunk)
    requires raw != [] && c.index == raw[0].index
    ensures AllJoin(raw[0 := c]) == AllJoin(raw)
  {
    assert raw[0 := c][1..] == raw[1..];
  }

  lemma AllJoinOverlay(raw: seq<Chunk>)
    requires |raw| >= 2
    ensures AllJoin([Overlaid(raw[0], raw[1])] + raw[2..]) == AllJoin(raw[1..])
  {
    var joined := [Overlaid(raw[0], raw[1])] + raw[2..];
    assert joined[1..] == raw[2..] && raw[1..][1..] == raw[2..];
  }

  /** Joining chunks keeps all neighbours joinable, whatever the parser answers. */
  lemma ParseKeepsJoins<F>(c: Config<F>, o: Outcome<F>)
    requires c.raw != [] && AllJoin(c.raw)
    ensures AllJoin(ParseStep(c, o).raw)
  {
    var moved := c.raw[0].(pos := o.pos);
    AllJoinFront(c.raw, moved);
    AllJoinFront(c.raw, moved.(invalid := true));
    var raw := c.raw[0 := moved];
    if |raw| >= 2 {
      assert raw[1..] == c.raw[1..];
      AllJoinOverlay(raw);
    }
  }

  lemma {:induction false} RunKeepsJoins<F(!new)>(p: Parser<F>, c: Config<F>, n: nat)
    requires Monotone(p) && Live(c) && AllJoin(c.raw)
    ensures AllJoin(Run(p, c, n).raw)
    decreases n
  {
    if n > 0 {
      StepKeeps(p, c);
      if c.at.Repeat? {
        ParseKeepsJoins(c, p.parseFrame(c.raw[0]));
      } else if c.at.Rebound? && p.findBoundary(c.raw[0]).Some? {
        AllJoinFront(c.raw, c.raw[0].(pos := p.findBoundary(c.raw[0]).value));
      }
      RunKeepsJoins(p, Step(p, c), n - 1);
    }
  }

  /** The stubborn parser is trapped by any two neighbours that do not join, wherever they are in the queue. */
  lemma {:induction false} StubbornTrap<F(!new)>(c: Config<F>)
    requires Live(c) && c.at.Next? && !AllJoin(c.raw)
    ensures Monotone(Stubborn<F>()) && ReachesStuck(Stubborn<F>(), c)
    decreases |c.raw|
  {
    var p := Stubborn<F>();
    StubbornBehaves<F>();
    HungryAsks<F>(c.raw[0]);
    var raw := c.raw;
    var flagged := raw[0 := raw[0].(broken := true)];
    HungryAsks<F>(flagged[0]);
    hide Stubborn, Monotone, Advances;
    if Unjoinable(raw) {
      assert Run(p, c, 0) == c;
    } else if raw[1].index < raw[0].index {
      AskForMore(p, c, flagged);
      var d := Config(flagged, c.frames, Next);
      assert Run(p, d, 0) == d;
      LaterStuck(p, c, 3);
    } else {
      var joined := [Overlaid(raw[0], raw[1])] + raw[2..];
      OverlayKeeps(raw);
      AskForMore(p, c, joined);
      AllJoinOverlay(raw);
      StubbornTrap(Config(joined, c.frames, Next));
      LaterStuck(p, c, 3);
    }
  }

  /**
    For every queue: the loop stops with every parser that only moves forward, and by at least a byte per
    frame, exactly when each chunk can be joined to the one before it. Such a parser need not look at the
    flag of a broken chunk.
  */
  lemma QueueSafeIffAllJoin<F(!new)>(c: Config<F>)
    requires Live(c) && c.at.Next?
    ensures (forall p: Parser<F> :: Monotone(p) && Advances(p) ==> Halts(p, c)) <==> AllJoin(c.raw)
  {
    if AllJoin(c.raw) {
      forall p: Parser<F> | Monotone(p) && Advances(p) ensures Halts(p, c) {
        forall n: nat ensures !Stuck(p, Run(p, c, n).raw) { RunKeepsJoins(p, c, n); }
        HaltsIffNeverStuck(p, c);
      }
    } else {
      StubbornTrap(c);
      StubbornBehaves<F>();
      HaltsIffNeverStuck(Stubborn<F>(), c);
      assert Monotone(Stubborn<F>()) && Advances(Stubborn<F>()) && !Halts(Stubborn<F>(), c);
    }
  }

  /**
    A parser that moves before it asks for more loses what it passed: joining keeps the moved position.
    Nothing is lost exactly when it has not moved.
  */
  lemma MovingBeforeAskingLoses<F>(c: Config<F>, o: Outcome<F>)
    requires Live(c) && |c.raw| >= 2 && OutcomeFits(c.raw[0], o) && o.state.NeedsMoreData?
    ensures Live(ParseStep(c, o))
    ensures Unread(ParseStep(c, o).raw) == Unread(c.raw) <==> o.pos == c.raw[0].pos
    ensures |Unread(c.raw)| - |Unread(ParseStep(c, o).raw)| == o.pos - c.raw[0].pos
  {
    ParseStepKeeps(c, o);
    ParseStepAccounts(c, o);
    hide ParseStep, Unread;
  }
}
