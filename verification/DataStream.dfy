/**
  One direction of a probed connection: queued raw chunks on one side, parsed frames on the
  other, and the label-driven loop that turns the first into the second.

  The protocol parser is a value: `findBoundary` is the frame search, `parseFrame` the frame parse.
  What a concrete protocol must promise is stated by the predicates below.
*/
module DataStream {
  import opened Basics
  import opened Options

  const RAW_BUF_SIZE: nat := 50 * 10 * 5
  const FRAME_BUF_SIZE: nat := 1024 * 10

  /** A raw chunk; `invalid` is the flag bit set by a first failed parse. */
  datatype Chunk = Chunk(data: seq<Byte>, pos: nat, index: nat, invalid: bool, broken: bool)

  datatype ParseState = Success | Invalid | NeedsMoreData | Ignore | OtherState

  /** What a parse leaves behind: its state, the position it moved the chunk to, and its frame. */
  datatype Outcome<+F> = Outcome(state: ParseState, pos: nat, frame: Option<F>)

  datatype Parser<!F> = Parser(findBoundary: Chunk -> Option<nat>, parseFrame: Chunk -> Outcome<F>)

  datatype Label = Next | Rebound | Repeat | Done

  datatype Config<+F> = Config(raw: seq<Chunk>, frames: seq<F>, at: Label)

  // ---------------------------------------------------------------- parser contracts

  predicate BoundaryFits(c: Chunk, q: Option<nat>) { q.Some? ==> c.pos <= q.value <= |c.data| }

  predicate OutcomeFits<F>(c: Chunk, o: Outcome<F>) { c.pos <= o.pos <= |c.data| }

  /** Positions never move back and never leave the chunk. */
  ghost predicate Monotone<F(!new)>(p: Parser<F>) {
    && (forall c: Chunk :: c.pos <= |c.data| ==> BoundaryFits(c, p.findBoundary(c)))
    && (forall c: Chunk :: c.pos <= |c.data| ==> OutcomeFits(c, p.parseFrame(c)))
  }

  /** A frame takes at least one byte. */
  ghost predicate Advances<F(!new)>(p: Parser<F>) {
    forall c: Chunk :: c.pos <= |c.data| && p.parseFrame(c).state.Success? ==> c.pos < p.parseFrame(c).pos
  }

  /** A chunk flagged as broken is never answered with a request for more data. */
  ghost predicate AcceptsBroken<F(!new)>(p: Parser<F>) {
    forall c: Chunk :: c.broken ==> !p.parseFrame(c).state.NeedsMoreData?
  }

  // ---------------------------------------------------------------- queue shape

  /** Only the front chunk has been touched. */
  ghost predicate QueueOk(raw: seq<Chunk>) {
    && (raw != [] ==> raw[0].pos <= |raw[0].data|)
    && (forall i :: 1 <= i < |raw| ==> raw[i].pos == 0)
  }

  /** No two neighbours share a nonzero index. */
  ghost predicate NoTwins(raw: seq<Chunk>) {
    |raw| < 2 || ((raw[0].index == 0 || raw[0].index != raw[1].index) && NoTwins(raw[1..]))
  }

  ghost function Unread(raw: seq<Chunk>): seq<Byte>
    requires QueueOk(raw)
  {
    if raw == [] then [] else raw[0].data[raw[0].pos..] + Unread(raw[1..])
  }

  // ---------------------------------------------------------------- one pass of the loop

  function Overlaid(dst: Chunk, src: Chunk): Chunk {
    Chunk(dst.data + src.data, dst.pos, src.index, false, false)
  }

  /** Joining the two front chunks; `None` when there is nothing to join with. */
  function Overlay(raw: seq<Chunk>): Option<seq<Chunk>> {
    if |raw| < 2 then None
    else if raw[1].index < raw[0].index then Some(raw[0 := raw[0].(broken := true)])
    else if raw[1].index == raw[0].index && raw[0].index > 0 then Some(raw)
    else Some([Overlaid(raw[0], raw[1])] + raw[2..])
  }

  function BoundaryStep<F>(c: Config<F>, q: Option<nat>): Config<F>
    requires c.raw != []
  {
    match q
    case None => Config(c.raw[1..], c.frames, Next)
    case Some(pos) => Config(c.raw[0 := c.raw[0].(pos := pos)], c.frames, Repeat)
  }

  function ParseStep<F>(c: Config<F>, o: Outcome<F>): Config<F>
    requires c.raw != []
  {
    var front := c.raw[0];
    var moved := front.(pos := o.pos);
    match o.state
    case Success =>
      if o.frame.None? then Config(c.raw[1..], c.frames, Done)
      else if |c.frames| >= FRAME_BUF_SIZE then c.(at := Done)
      else if o.pos == |front.data| then Config(c.raw[1..], c.frames + [o.frame.value], Next)
      else Config(c.raw[0 := moved], c.frames + [o.frame.value], Repeat)
    case Ignore => Config(c.raw[1..], c.frames, Next)
    case Invalid =>
      if front.invalid then Config(c.raw[1..], c.frames, Next)
      else Config(c.raw[0 := moved.(invalid := true)], c.frames, Rebound)
    case NeedsMoreData =>
      (match Overlay(c.raw[0 := moved])
       case None => c.(at := Done)
       case Some(raw) => Config(raw, c.frames, Next))
    case OtherState => Config(c.raw[1..], c.frames, Done)
  }

  function Step<F>(p: Parser<F>, c: Config<F>): Config<F>
    requires !c.at.Next? && !c.at.Done? ==> c.raw != []
  {
    match c.at
    case Next => if c.raw == [] then c.(at := Done) else c.(at := Rebound)
    case Rebound => BoundaryStep(c, p.findBoundary(c.raw[0]))
    case Repeat => ParseStep(c, p.parseFrame(c.raw[0]))
    case Done => c
  }

  ghost predicate Live<F>(c: Config<F>) {
    QueueOk(c.raw) && ((c.at.Rebound? || c.at.Repeat?) ==> c.raw != [])
  }

  // ---------------------------------------------------------------- the shape is kept

  lemma {:induction false} UnreadSplit(raw: seq<Chunk>)
    requires QueueOk(raw) && raw != []
    ensures Unread(raw) == raw[0].data[raw[0].pos..] + Unread(raw[1..])
    ensures |raw| >= 2 ==> Unread(raw[1..]) == raw[1].data + Unread(raw[2..])
  {
  }

  lemma {:induction false} NoTwinsSplit(raw: seq<Chunk>)
    requires NoTwins(raw) && raw != []
    ensures NoTwins(raw[1..])
    ensures |raw| >= 2 ==> NoTwins(raw[2..])
    ensures |raw| >= 3 ==> raw[1].index == 0 || raw[1].index != raw[2].index
  {
  }

  lemma {:induction false} SameTail(raw: seq<Chunk>, c: Chunk)
    requires raw != [] && QueueOk(raw) && c.pos <= |c.data| && c.index == raw[0].index
    ensures QueueOk(raw[0 := c])
    ensures NoTwins(raw) ==> NoTwins(raw[0 := c])
  {
  }

  lemma {:induction false} OverlayKeeps(raw: seq<Chunk>)
    requires QueueOk(raw) && Overlay(raw).Some?
    ensures QueueOk(Overlay(raw).value) && Overlay(raw).value != []
    ensures NoTwins(raw) ==> NoTwins(Overlay(raw).value)
  {
    var r := Overlay(raw).value;
    if NoTwins(raw) { NoTwinsSplit(raw); }
    if |r| == |raw| {
      SameTail(raw, r[0]);
    } else {
      assert r[1..] == raw[2..];
    }
  }

  lemma {:induction false} ParseStepKeeps<F>(c: Config<F>, o: Outcome<F>)
    requires Live(c) && c.raw != [] && OutcomeFits(c.raw[0], o)
    ensures Live(ParseStep(c, o))
    ensures NoTwins(c.raw) ==> NoTwins(ParseStep(c, o).raw)
  {
    var moved := c.raw[0].(pos := o.pos);
    match o.state
    case Success => SameTail(c.raw, moved);
    case Ignore =>
    case Invalid => SameTail(c.raw, moved.(invalid := true));
    case NeedsMoreData =>
      SameTail(c.raw, moved);
      if Overlay(c.raw[0 := moved]).Some? { OverlayKeeps(c.raw[0 := moved]); }
    case OtherState =>
  }

  lemma {:induction false} StepKeeps<F(!new)>(p: Parser<F>, c: Config<F>)
    requires Monotone(p) && Live(c)
    ensures Live(Step(p, c))
    ensures NoTwins(c.raw) ==> NoTwins(Step(p, c).raw)
  {
    hide ParseStep;
    if c.at.Rebound? {
      var q := p.findBoundary(c.raw[0]);
      if q.Some? { SameTail(c.raw, c.raw[0].(pos := q.value)); }
    } else if c.at.Repeat? {
      ParseStepKeeps(c, p.parseFrame(c.raw[0]));
    }
  }
}
