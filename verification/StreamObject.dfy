/** The stream as the probe keeps it: two fixed buffers shifted in place, and the parse loop over them. */
module StreamObject {
  import opened Basics
  import opened Options
  import opened DataStream
  import opened ParseTermination
  import opened StreamRuns

  class Stream<F(0,!new)> {
    const rawDatas: array<Chunk>
    var rawSize: nat
    const frames: array<F>
    var frameSize: nat
    var framePos: nat

    ghost predicate Valid()
      reads this
    {
      && rawDatas.Length == RAW_BUF_SIZE && rawSize <= RAW_BUF_SIZE
      && frames.Length == FRAME_BUF_SIZE && framePos <= frameSize <= FRAME_BUF_SIZE
    }

    ghost function Raw(): seq<Chunk>
      reads this, rawDatas
      requires Valid()
    {
      rawDatas[..rawSize]
    }

    ghost function Frames(): seq<F>
      reads this, frames
      requires Valid()
    {
      frames[..frameSize]
    }

    ghost function At(at: Label): Config<F>
      reads this, rawDatas, frames
      requires Valid()
    {
      Config(Raw(), Frames(), at)
    }

    constructor ()
      ensures Valid() && Raw() == [] && Frames() == [] && framePos == 0
      ensures fresh(rawDatas) && fresh(frames)
    {
      rawDatas := new Chunk[RAW_BUF_SIZE];
      frames := new F[FRAME_BUF_SIZE];
      rawSize, frameSize, framePos := 0, 0, 0;
    }

    method AddRawData(data: seq<Byte>, index: nat) returns (ok: bool)
      requires Valid()
      modifies this`rawSize, rawDatas
      ensures Valid() && ok == (|old(Raw())| < RAW_BUF_SIZE)
      ensures Raw() == if ok then old(Raw()) + [Fresh(data, index)] else old(Raw())
    {
      ok := rawSize < RAW_BUF_SIZE;
      if ok {
        rawDatas[rawSize] := Fresh(data, index);
        rawSize := rawSize + 1;
      }
    }

    /** Takes the front chunk off by shifting the others; nothing when the queue is empty. */
    method PopRawData() returns (popped: Option<Chunk>)
      requires Valid()
      modifies this`rawSize, rawDatas
      ensures Valid()
      ensures if |old(Raw())| == 0 then popped == None && Raw() == []
              else popped == Some(old(Raw())[0]) && Raw() == old(Raw())[1..]
    {
      if rawSize == 0 { return None; }
      ghost var was := Raw();
      popped := Some(rawDatas[0]);
      var i := 1;
      while i < rawSize
        invariant 1 <= i <= rawSize
        invariant forall k :: 0 <= k < i - 1 ==> rawDatas[k] == was[1..][k]
        invariant forall k :: i - 1 <= k < rawSize ==> rawDatas[k] == was[k]
        modifies rawDatas
      {
        rawDatas[i - 1] := rawDatas[i];
        i := i + 1;
      }
      rawSize := rawSize - 1;
    }

    /** Drops the frames in front of the match position and moves the others to the start. */
    method PopFrames()
      requires Valid()
      modifies this`frameSize, this`framePos, frames
      ensures Valid() && framePos == 0
      ensures Frames() == old(Frames())[old(framePos)..]
    {
      if framePos == 0 { return; }
      ghost var was := Frames();
      var start, i := 0, framePos;
      while i < frameSize
        invariant framePos <= i <= frameSize && start == i - framePos
        invariant forall k :: 0 <= k < start ==> frames[k] == was[framePos..][k]
        invariant forall k :: i <= k < frameSize ==> frames[k] == was[k]
        modifies frames
      {
        frames[start] := frames[i];
        start, i := start + 1, i + 1;
      }
      frameSize := frameSize - framePos;
      framePos := 0;
    }

    method PushFrame(f: F) returns (ok: bool)
      requires Valid()
      modifies this`frameSize, frames
      ensures Valid() && ok == (|old(Frames())| < FRAME_BUF_SIZE)
      ensures Frames() == if ok then old(Frames()) + [f] else old(Frames())
    {
      ok := frameSize < FRAME_BUF_SIZE;
      if ok {
        frames[frameSize] := f;
        frameSize := frameSize + 1;
      }
    }

    method OverlayRawData() returns (ok: bool)
      requires Valid()
      modifies this`rawSize, rawDatas
      ensures Valid() && ok == Overlay(old(Raw())).Some?
      ensures Raw() == if ok then Overlay(old(Raw())).value else old(Raw())
    {
      if rawSize < 2 { return false; }
      var dst, src := rawDatas[0], rawDatas[1];
      if src.index < dst.index {
        rawDatas[0] := dst.(broken := true);
      } else if src.index != dst.index || src.index == 0 {
        var _ := PopRawData();
        rawDatas[0] := Overlaid(dst, src);
        assert Raw() == [Overlaid(dst, src)] + old(Raw())[2..];
      }
      ok := true;
    }

    /** One parse of the front chunk and what the loop does with its result. */
    method ParseFront(p: Parser<F>) returns (at: Label)
      requires Valid() && rawSize > 0
      modifies this`rawSize, this`frameSize, rawDatas, frames
      ensures Valid()
      ensures At(at) == ParseStep(old(At(Repeat)), p.parseFrame(old(Raw()[0])))
    {
      var front := rawDatas[0];
      var o := p.parseFrame(front);
      rawDatas[0] := front.(pos := o.pos);
      ghost var moved := Raw();
      assert moved == old(Raw())[0 := front.(pos := o.pos)];
      match o.state
      case Success =>
        if o.frame.None? {
          var _ := PopRawData();
          at := Done;
        } else {
          var ok := PushFrame(o.frame.value);
          if !ok {
            rawDatas[0] := front;
            assert Raw() == old(Raw());
            at := Done;
          } else if o.pos == |front.data| {
            var _ := PopRawData();
            at := Next;
          } else {
            at := Repeat;
          }
        }
      case Ignore =>
        var _ := PopRawData();
        at := Next;
      case Invalid =>
        if front.invalid {
          var _ := PopRawData();
          at := Next;
        } else {
          rawDatas[0] := front.(pos := o.pos, invalid := true);
          assert Raw() == old(Raw())[0 := front.(pos := o.pos, invalid := true)];
          at := Rebound;
        }
      case NeedsMoreData =>
        var ok := OverlayRawData();
        if ok {
          at := Next;
        } else {
          rawDatas[0] := front;
          assert Raw() == old(Raw());
          at := Done;
        }
      case OtherState =>
        var _ := PopRawData();
        at := Done;
    }

    method FindFront(p: Parser<F>) returns (at: Label)
      requires Valid() && rawSize > 0
      modifies this`rawSize, rawDatas
      ensures Valid()
      ensures At(at) == BoundaryStep(old(At(Rebound)), p.findBoundary(old(Raw()[0])))
    {
      var front := rawDatas[0];
      match p.findBoundary(front)
      case None =>
        var _ := PopRawData();
        at := Next;
      case Some(q) =>
        rawDatas[0] := front.(pos := q);
        assert Raw() == old(Raw())[0 := front.(pos := q)];
        at := Repeat;
    }

    method Dispatch(p: Parser<F>, at: Label) returns (next: Label)
      requires Valid() && at != Done && (at != Next ==> rawSize > 0)
      modifies this`rawSize, this`frameSize, rawDatas, frames
      ensures Valid() && At(next) == Step(p, old(At(at)))
    {
      match at
      case Next => next := if rawSize == 0 then Done else Rebound;
      case Rebound => next := FindFront(p);
      case Repeat => next := ParseFront(p);
    }

    /** The loop over the labels, for any parser and queue it stops with; it ends where the steps end. */
    method ParseFrames(p: Parser<F>)
      requires Valid() && Monotone(p) && QueueOk(Raw()) && Halts(p, At(Next))
      modifies this`rawSize, this`frameSize, rawDatas, frames
      ensures Valid() && EndsIn(p, old(At(Next)), At(Done))
    {
      ghost var c := At(Next);
      ghost var n: nat :| Run(p, c, n).at.Done?;
      ghost var i := 0;
      assert Run(p, c, 0) == c;
      var at := Next;
      while at != Done
        invariant Valid() && Live(At(at)) && i <= n && At(at) == Run(p, c, i)
        decreases n - i
      {
        StillRunning(p, c, i, n);
        at := Dispatch(p, at);
        i := i + 1;
      }
    }
  }

  /** A run that has not stopped yet stops later, and its next configuration is one step on. */
  lemma StillRunning<F(!new)>(p: Parser<F>, c: Config<F>, i: nat, n: nat)
    requires Monotone(p) && Live(c) && i <= n && Run(p, c, n).at.Done? && !Run(p, c, i).at.Done?
    ensures i < n && Run(p, c, i + 1) == Step(p, Run(p, c, i))
  {
    RunSplits(p, c, i, 1);
    StepKeeps(p, Run(p, c, i));
    assert Run(p, Step(p, Run(p, c, i)), 0) == Step(p, Run(p, c, i));
  }
}
