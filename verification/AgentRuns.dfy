/** Safety and progress of the main loop over every schedule. */
module AgentRuns {
  import opened Options
  import opened AgentState

  lemma StartInv()
    ensures Inv(START)
  {
  }

  // ---------------------------------------------------------------- termination is not lost

  ghost predicate TerminateReturned(w: World) {
    exists i :: i in w.callers && w.callers[i] == Returned(Terminate)
  }

  /**
    Under every schedule of calls, spurious wake-ups and steps of the loop: once some `terminate` has
    returned, the loop is not asleep and not about to sleep; and it never unwraps a missing configuration.
  */
  lemma NeverLeftAsleep(steps: seq<Step>)
    requires Run(START, steps).Some?
    ensures var w := Run(START, steps).value;
      && (TerminateReturned(w) ==> w.shared.told && !w.shared.main.Asleep? && !w.shared.main.Waiting?)
      && !w.shared.main.Panicked?
      && (w.shared.main.Taking? ==> w.shared.config.Some?)
  {
    StartInv();
    RunKeeps(START, steps);
    var w := Run(START, steps).value;
    hide Run;
    if TerminateReturned(w) {
      var i :| i in w.callers && w.callers[i] == Returned(Terminate);
      assert CallerOk(w.shared, i, w.callers[i]);
    }
  }

  /** The most steps the loop can still take once it has been told. */
  function Rank(m: Main): nat {
    match m
    case Woken => 6
    case Dispatching => 5
    case Taking => 4
    case Busy => 3
    case Locking => 2
    case Checking => 1
    case _ => 0
  }

  function MainSteps(steps: seq<Step>): nat {
    if steps == [] then 0 else (if steps[0].MainMoves? then 1 else 0) + MainSteps(steps[1..])
  }

  /** How many of the loop's steps in a schedule handle a wake-up. */
  function Dispatches(w: World, steps: seq<Step>): nat
    decreases |steps|
  {
    if steps == [] || Next(w, steps[0]).None? then 0
    else
      (if steps[0].MainMoves? && w.shared.main.Dispatching? then 1 else 0)
      + Dispatches(Next(w, steps[0]).value, steps[1..])
  }

  predicate Handles(w: World, step: Step) { step.MainMoves? && w.shared.main.Dispatching? }

  lemma ToldMain(s: Shared)
    requires SharedOk(s) && s.told && MainStep(s).Some?
    ensures MainStep(s).value.told && Rank(MainStep(s).value.main) + 1 <= Rank(s.main)
  {
  }

  lemma ToldCaller(s: Shared, i: nat, c: Caller)
    requires SharedOk(s) && s.told && CallStep(s, i, c).Some?
    ensures CallStep(s, i, c).value.0.told && CallStep(s, i, c).value.0.main == s.main
  {
  }

  lemma ToldStep(w: World, step: Step)
    requires Inv(w) && w.shared.told && Next(w, step).Some?
    ensures var w' := Next(w, step).value;
      && w'.shared.told
      && Rank(w'.shared.main) + (if step.MainMoves? then 1 else 0) <= Rank(w.shared.main)
      && (step.MainMoves? || w'.shared.main == w.shared.main)
  {
    assert SharedOk(w.shared);
    assert !w.shared.main.Asleep?;
    hide CallerOk, SomeoneTells, SharedOk, MainStep, CallStep, Rank;
    match step
    case MainMoves => ToldMain(w.shared);
    case CallerMoves(i) => ToldCaller(w.shared, i, w.callers[i]);
    case Call(_, _) =>
    case Spurious =>
  }

  /** Once told, the loop takes at most six more steps and handles at most one more wake-up. */
  lemma {:induction false} ToldEnds(w: World, steps: seq<Step>)
    requires Inv(w) && w.shared.told && Run(w, steps).Some?
    ensures var w' := Run(w, steps).value;
      && w'.shared.told
      && Rank(w'.shared.main) + MainSteps(steps) <= Rank(w.shared.main) <= 6
      && Dispatches(w, steps) <= (if Rank(w.shared.main) >= 5 then 1 else 0)
    decreases |steps|
  {
    if steps != [] {
      ToldStep(w, steps[0]);
      NextKeeps(w, steps[0]);
      hide Inv, Next;
      ToldEnds(Next(w, steps[0]).value, steps[1..]);
    }
  }

  /**
    From the start: let a `terminate` have returned after some schedule. However it goes on, the loop takes at
    most six more steps, handles at most one more wake-up, and is asleep at no point.
  */
  lemma StopsAfterTerminate(before: seq<Step>, after: seq<Step>)
    requires Run(START, before).Some? && TerminateReturned(Run(START, before).value)
    requires Run(Run(START, before).value, after).Some?
    ensures var w := Run(START, before).value; var w' := Run(w, after).value;
      && MainSteps(after) <= 6 && Dispatches(w, after) <= 1
      && !w'.shared.main.Asleep? && !w'.shared.main.Waiting? && !w'.shared.main.Panicked?
  {
    hide Run, Dispatches;
    var w := Run(START, before).value;
    StartInv();
    RunKeeps(START, before);
    NeverLeftAsleep(before);
    ToldEnds(w, after);
    RunKeeps(w, after);
  }

  // ---------------------------------------------------------------- no deadlock

  /** Nothing is left to do: the loop sleeps or has stopped, and every call has returned. */
  ghost predicate AtRest(w: World) {
    && (w.shared.main.Asleep? || w.shared.main.Stopped?)
    && (forall i :: i in w.callers ==> w.callers[i].Returned?)
  }

  ghost predicate CanMove(w: World) {
    || Next(w, MainMoves).Some?
    || (exists i :: i in w.callers && Next(w, CallerMoves(i)).Some?)
  }

  /** The loop and the calls never block each other for good. */
  lemma NoDeadlock(w: World)
    requires Inv(w)
    ensures AtRest(w) || CanMove(w)
  {
  }

  /**
    Stopping the agent ends: if some `terminate` has set the flag and nobody can move any more, the loop
    has stopped and every call has returned.
  */
  lemma StopEnds(steps: seq<Step>)
    requires Run(START, steps).Some? && !CanMove(Run(START, steps).value) && Run(START, steps).value.shared.terminated
    ensures var w := Run(START, steps).value;
      w.shared.main.Stopped? && forall i :: i in w.callers ==> w.callers[i].Returned?
  {
    StartInv();
    RunKeeps(START, steps);
    var w := Run(START, steps).value;
    hide Run, CanMove, Next;
    NoDeadlock(w);
  }

  // ---------------------------------------------------------------- what a call leaves behind

  /** The step in which a call writes the state under the lock. */
  predicate Writes(w: World, step: Step) {
    step.CallerMoves? && step.id in w.callers && w.callers[step.id].Holding?
  }

  predicate NoWrite(w: World, steps: seq<Step>)
    decreases |steps|
  {
    steps == [] || Next(w, steps[0]).None? ||
    (!Writes(w, steps[0]) && NoWrite(Next(w, steps[0]).value, steps[1..]))
  }

  lemma {:induction false} WriteLasts(w: World, steps: seq<Step>)
    requires Run(w, steps).Some? && NoWrite(w, steps)
    ensures var s := Run(w, steps).value.shared; s.enabled == w.shared.enabled && s.meltedDown == w.shared.meltedDown
    decreases |steps|
  {
    hide Next, Writes;
    if steps != [] {
      StepKeepsState(w, steps[0]);
      WriteLasts(Next(w, steps[0]).value, steps[1..]);
    }
  }

  lemma StepKeepsState(w: World, step: Step)
    requires Next(w, step).Some? && !Writes(w, step)
    ensures var s := Next(w, step).value.shared; s.enabled == w.shared.enabled && s.meltedDown == w.shared.meltedDown
  {
  }

  /**
    The state is what the latest call made it: enabling, disabling and a new configuration decide whether it is
    enabled, melting down and recovering whether it is melted down, and it runs when it is the one and not the other.
  */
  lemma LatestCallDecides(w: World, i: nat, op: Op, after: seq<Step>)
    requires i in w.callers && w.callers[i] == Holding(op)
    requires var w1 := Next(w, CallerMoves(i)).value; NoWrite(w1, after) && Run(w1, after).Some?
    ensures var s := Run(Next(w, CallerMoves(i)).value, after).value.shared;
      && (op.Enable? ==> s.enabled) && (op.Disable? ==> !s.enabled)
      && (op.UpdateConfig? ==> s.enabled == op.config.enabled)
      && (op.MeltDown? ==> s.meltedDown) && (op.Recover? ==> !s.meltedDown)
      && (op.MeltDown? || op.Recover? || op.Terminate? ==> s.enabled == w.shared.enabled)
      && (!op.MeltDown? && !op.Recover? ==> s.meltedDown == w.shared.meltedDown)
      && (Running(s) <==> s.enabled && !s.meltedDown)
  {
    hide Run, NoWrite;
    WriteLasts(Next(w, CallerMoves(i)).value, after);
  }

  /** A sleeping loop that a call has to wake: woken, or about to be by that call. */
  predicate BeingWoken(w: World, i: nat, op: Op, handled: bool) {
    || handled || w.shared.main.Woken? || w.shared.main.Dispatching?
    || (w.shared.main.Asleep? && i in w.callers && w.callers[i] == Signalling(op))
  }

  lemma WakingCall(s: Shared, j: nat, d: Caller)
    requires CallStep(s, j, d).Some?
    ensures var s' := CallStep(s, j, d).value.0;
      && (s'.main == s.main || (s.main.Asleep? && s'.main.Woken?)) && (d.Signalling? ==> !s'.main.Asleep?)
  {
  }

  lemma WakingStep(w: World, i: nat, op: Op, handled: bool, step: Step)
    requires BeingWoken(w, i, op, handled) && Next(w, step).Some?
    ensures BeingWoken(Next(w, step).value, i, op, handled || Handles(w, step))
  {
    hide CallStep;
    if step.CallerMoves? { WakingCall(w.shared, step.id, w.callers[step.id]); }
  }

  lemma {:induction false} WakingRun(w: World, i: nat, op: Op, handled: bool, steps: seq<Step>)
    requires BeingWoken(w, i, op, handled) && Run(w, steps).Some?
    ensures BeingWoken(Run(w, steps).value, i, op, handled || Dispatches(w, steps) > 0)
    decreases |steps|
  {
    hide BeingWoken, Next;
    if steps != [] {
      WakingStep(w, i, op, handled, steps[0]);
      WakingRun(Next(w, steps[0]).value, i, op, handled || Handles(w, steps[0]), steps[1..]);
    }
  }

  /**
    A sleeping loop hears of every change: when a call that changed whether the agent runs has returned, the loop
    has handled a wake-up since or is about to. A call that changes nothing wakes nobody, unless it is one of the
    two that always do.
  */
  lemma ChangeIsHeard(w: World, i: nat, op: Op, after: seq<Step>)
    requires w.shared.main.Asleep? && i in w.callers && w.callers[i] == Holding(op)
    requires var w1 := Next(w, CallerMoves(i)).value; Run(w1, after).Some?
    ensures var w1 := Next(w, CallerMoves(i)).value; var w2 := Run(w1, after).value;
      && (Running(w1.shared) != Running(w.shared) && i in w2.callers && w2.callers[i].Returned? ==>
            Dispatches(w1, after) > 0 || w2.shared.main.Woken? || w2.shared.main.Dispatching?)
      && (Running(w1.shared) == Running(w.shared) && !op.Terminate? && !op.UpdateConfig? ==> w1.callers[i].Releasing?)
  {
    hide Run, Dispatches;
    var w1 := Next(w, CallerMoves(i)).value;
    if Running(w1.shared) != Running(w.shared) { WakingRun(w1, i, op, false, after); }
  }

  // ---------------------------------------------------------------- calls after termination

  /** A call that found the agent terminated: it never asks for the lock. */
  predicate StaysOut(c: Caller, op: Op) { c == Entered(op) || c == Nudging(op) || c == Returned(op) }

  lemma OutsideStep(w: World, i: nat, op: Op, step: Step)
    requires w.shared.terminated && i in w.callers && StaysOut(w.callers[i], op) && !op.Terminate?
    requires Next(w, step).Some?
    ensures var w' := Next(w, step).value; w'.shared.terminated && i in w'.callers && StaysOut(w'.callers[i], op)
  {
  }

  /** Once the agent is terminated, a call other than `terminate` returns without ever asking for the lock. */
  lemma {:induction false} NoLockAfterTermination(w: World, i: nat, op: Op, steps: seq<Step>)
    requires w.shared.terminated && i in w.callers && StaysOut(w.callers[i], op) && !op.Terminate?
    requires Run(w, steps).Some?
    ensures var w' := Run(w, steps).value; i in w'.callers && StaysOut(w'.callers[i], op)
    decreases |steps|
  {
    hide Next, StaysOut;
    if steps != [] {
      OutsideStep(w, i, op, steps[0]);
      NoLockAfterTermination(Next(w, steps[0]).value, i, op, steps[1..]);
    }
  }

  /** A sleeping loop that such a call has to wake. */
  predicate BeingNudged(w: World, i: nat, op: Op, handled: bool) {
    || handled || w.shared.main.Woken? || w.shared.main.Dispatching?
    || (w.shared.main.Asleep? && i in w.callers && (w.callers[i] == Entered(op) || w.callers[i] == Nudging(op)))
  }

  lemma NudgingCall(s: Shared, j: nat, d: Caller)
    requires CallStep(s, j, d).Some?
    ensures var s' := CallStep(s, j, d).value.0;
      && (s'.main == s.main || (s.main.Asleep? && s'.main.Woken?)) && (d.Nudging? ==> !s'.main.Asleep?)
  {
  }

  lemma NudgingStep(w: World, i: nat, op: Op, handled: bool, step: Step)
    requires BeingNudged(w, i, op, handled) && w.shared.terminated && !op.Terminate? && Next(w, step).Some?
    ensures BeingNudged(Next(w, step).value, i, op, handled || Handles(w, step))
    ensures Next(w, step).value.shared.terminated
  {
    if step.CallerMoves? { NudgingCall(w.shared, step.id, w.callers[step.id]); }
  }

  lemma {:induction false} NudgingRun(w: World, i: nat, op: Op, handled: bool, steps: seq<Step>)
    requires BeingNudged(w, i, op, handled) && w.shared.terminated && !op.Terminate? && Run(w, steps).Some?
    ensures BeingNudged(Run(w, steps).value, i, op, handled || Dispatches(w, steps) > 0)
    decreases |steps|
  {
    hide BeingNudged, Next;
    if steps != [] {
      NudgingStep(w, i, op, handled, steps[0]);
      NudgingRun(Next(w, steps[0]).value, i, op, handled || Handles(w, steps[0]), steps[1..]);
    }
  }

  /** It still wakes the loop, so that the loop sees the flag and exits. */
  lemma LateCallStillWakes(w: World, i: nat, op: Op, steps: seq<Step>)
    requires w.shared.terminated && w.shared.main.Asleep?
    requires i in w.callers && w.callers[i] == Entered(op) && !op.Terminate?
    requires Run(w, steps).Some? && i in Run(w, steps).value.callers && Run(w, steps).value.callers[i].Returned?
    ensures var w' := Run(w, steps).value;
      Dispatches(w, steps) > 0 || w'.shared.main.Woken? || w'.shared.main.Dispatching?
  {
    hide Run, Dispatches;
    NudgingRun(w, i, op, false, steps);
  }

  // ---------------------------------------------------------------- a configuration can be left waiting

  /** The step in which a call of `update_config` writes its configuration. */
  predicate Stores(w: World, step: Step) {
    && step.CallerMoves? && step.id in w.callers
    && w.callers[step.id].Holding? && w.callers[step.id].op.UpdateConfig?
  }

  predicate NoStore(w: World, steps: seq<Step>)
    decreases |steps|
  {
    steps == [] || Next(w, steps[0]).None? ||
    (!Stores(w, steps[0]) && NoStore(Next(w, steps[0]).value, steps[1..]))
  }

  predicate OnTheWayToWait(m: Main) { m.Locking? || m.Busy? }

  /**
    What is known after call `i` has stored `c`: before a wake-up is handled the configuration is there and,
    unless the loop was on its way to wait, a wake-up is coming; afterwards it is taken or about to be.
  */
  predicate Tracked(w: World, i: nat, c: Config, early: bool, handled: bool) {
    if handled then w.shared.config.None? || w.shared.main.Taking?
    else
      && w.shared.config == Some(c) && !w.shared.main.Taking?
      && (early || w.shared.main.Woken? || w.shared.main.Dispatching? || w.shared.main.Stopped? ||
          (w.shared.main.Asleep? && i in w.callers && w.callers[i] == Signalling(UpdateConfig(c))))
  }

  lemma TrackedMain(w: World, i: nat, c: Config, early: bool, handled: bool)
    requires Tracked(w, i, c, early, handled) && MainStep(w.shared).Some?
    ensures Tracked(World(MainStep(w.shared).value, w.callers), i, c, early, handled || w.shared.main.Dispatching?)
  {
  }

  lemma TrackedCall(s: Shared, j: nat, d: Caller)
    requires CallStep(s, j, d).Some? && !(d.Holding? && d.op.UpdateConfig?)
    ensures var (s', d') := CallStep(s, j, d).value;
      && s'.config == s.config
      && (s'.main == s.main || (s.main.Asleep? && s'.main.Woken?))
      && (d.Signalling? ==> !s'.main.Asleep?)
  {
  }

  lemma TrackedStep(w: World, i: nat, c: Config, early: bool, handled: bool, step: Step)
    requires Tracked(w, i, c, early, handled) && Next(w, step).Some? && !Stores(w, step)
    ensures Tracked(Next(w, step).value, i, c, early, handled || Handles(w, step))
  {
    hide MainStep, CallStep;
    match step
    case MainMoves => TrackedMain(w, i, c, early, handled);
    case CallerMoves(j) => TrackedCall(w.shared, j, w.callers[j]);
    case Call(_, _) =>
    case Spurious =>
  }

  lemma {:induction false} TrackedRun(w: World, i: nat, c: Config, early: bool, handled: bool, steps: seq<Step>)
    requires Tracked(w, i, c, early, handled) && Run(w, steps).Some? && NoStore(w, steps)
    ensures Tracked(Run(w, steps).value, i, c, early, handled || Dispatches(w, steps) > 0)
    decreases |steps|
  {
    if steps != [] {
      TrackedStep(w, i, c, early, handled, steps[0]);
      hide Tracked, Next;
      TrackedRun(Next(w, steps[0]).value, i, c, early, handled || Handles(w, steps[0]), steps[1..]);
    }
  }

  /**
    Let the latest update store its configuration in any reachable world. If the loop is later asleep and the
    lock free, it sleeps on that configuration exactly when it was on its way to wait at the store and has
    handled no wake-up since.
  */
  lemma AsleepOnConfigIff(before: seq<Step>, i: nat, c: Config, after: seq<Step>)
    requires Run(START, before).Some?
    requires var w := Run(START, before).value; i in w.callers && w.callers[i] == Holding(UpdateConfig(c))
    requires var w1 := Next(Run(START, before).value, CallerMoves(i)).value;
      && NoStore(w1, after) && Run(w1, after).Some?
      && Run(w1, after).value.shared.main.Asleep? && Run(w1, after).value.shared.owner.Free?
    ensures var w := Run(START, before).value; var w1 := Next(w, CallerMoves(i)).value;
      Run(w1, after).value.shared.config.Some? <==> OnTheWayToWait(w.shared.main) && Dispatches(w1, after) == 0
  {
    var w := Run(START, before).value;
    StartInv();
    RunKeeps(START, before);
    assert CallerOk(w.shared, i, w.callers[i]);
    var w1 := Next(w, CallerMoves(i)).value;
    var early := OnTheWayToWait(w.shared.main);
    assert Tracked(w1, i, c, early, false);
    NextKeeps(w, CallerMoves(i));
    hide Run, NoStore, Dispatches, Next;
    TrackedRun(w1, i, c, early, false, after);
    RunKeeps(w1, after);
    var w2 := Run(w1, after).value;
    if i in w2.callers { assert CallerOk(w2.shared, i, w2.callers[i]); }
  }

  lemma RunCons(w: World, step: Step, rest: seq<Step>)
    requires Next(w, step).Some?
    ensures Run(w, [step] + rest) == Run(Next(w, step).value, rest)
  {
  }

  /** A world in which the loop is between a dispatch and the next wait, and nobody holds the lock. */
  predicate Between(w: World) { OnTheWayToWait(w.shared.main) && w.shared.owner.Free? && !w.shared.terminated }

  function AfterUpdate(s: Shared, c: Config): Shared { s.(enabled := c.enabled, config := Some(c)) }

  function UpdateEnters(i: nat, c: Config, rest: seq<Step>): seq<Step> {
    [Call(i, UpdateConfig(c))] + ([CallerMoves(i)] + ([CallerMoves(i)] + rest))
  }

  function UpdateLeaves(i: nat, rest: seq<Step>): seq<Step> {
    [CallerMoves(i)] + ([CallerMoves(i)] + ([CallerMoves(i)] + rest))
  }

  function LoopSleeps(m: Main, rest: seq<Step>): seq<Step> {
    var steps := [MainMoves] + ([MainMoves] + ([MainMoves] + rest));
    if m.Busy? then [MainMoves] + steps else steps
  }

  lemma UpdateEntersRun(w: World, i: nat, c: Config, rest: seq<Step>)
    requires Between(w) && i !in w.callers
    ensures Run(w, UpdateEnters(i, c, rest)) ==
      Run(World(w.shared.(owner := By(i)), w.callers[i := Holding(UpdateConfig(c))]), rest)
  {
    var op, s := UpdateConfig(c), w.shared;
    var w1, w2 := World(s, w.callers[i := Entered(op)]), World(s, w.callers[i := Blocked(op)]);
    RunCons(w, Call(i, op), [CallerMoves(i)] + ([CallerMoves(i)] + rest));
    assert w1.callers[i := Blocked(op)] == w2.callers;
    RunCons(w1, CallerMoves(i), [CallerMoves(i)] + rest);
    assert w2.callers[i := Holding(op)] == w.callers[i := Holding(op)];
    RunCons(w2, CallerMoves(i), rest);
    hide Run;
  }

  /** One step of call `i`, in a world that is known up to it. */
  lemma CallMoves(s: Shared, callers: map<nat, Caller>, i: nat, c: Caller, s': Shared, c': Caller, rest: seq<Step>)
    requires CallStep(s, i, c) == Some((s', c'))
    ensures Run(World(s, callers[i := c]), [CallerMoves(i)] + rest) == Run(World(s', callers[i := c']), rest)
  {
    hide CallStep;
    assert callers[i := c][i := c'] == callers[i := c'];
    RunCons(World(s, callers[i := c]), CallerMoves(i), rest);
  }

  lemma UpdateLeavesRun(s: Shared, callers: map<nat, Caller>, i: nat, c: Config, rest: seq<Step>)
    requires OnTheWayToWait(s.main) && s.owner == By(i)
    ensures Run(World(s, callers[i := Holding(UpdateConfig(c))]), UpdateLeaves(i, rest))
         == Run(World(AfterUpdate(s, c).(owner := Free), callers[i := Returned(UpdateConfig(c))]), rest)
  {
    hide Run;
    var op, s' := UpdateConfig(c), AfterUpdate(s, c);
    CallMoves(s, callers, i, Holding(op), s', Signalling(op), [CallerMoves(i)] + ([CallerMoves(i)] + rest));
    CallMoves(s', callers, i, Signalling(op), s', Releasing(op), [CallerMoves(i)] + rest);
    CallMoves(s', callers, i, Releasing(op), s'.(owner := Free), Returned(op), rest);
  }

  lemma LoopWaits(w: World, rest: seq<Step>)
    requires w.shared.main.Locking? && w.shared.owner.Free? && !w.shared.terminated
    ensures Run(w, LoopSleeps(Locking, rest)) == Run(World(w.shared.(main := Asleep), w.callers), rest)
  {
    RunCons(w, MainMoves, [MainMoves] + ([MainMoves] + rest));
    RunCons(World(w.shared.(main := Checking, owner := ByMain), w.callers), MainMoves, [MainMoves] + rest);
    RunCons(World(w.shared.(main := Waiting, owner := ByMain), w.callers), MainMoves, rest);
    hide Run;
  }

  lemma LoopSleepsRun(w: World, rest: seq<Step>)
    requires Between(w)
    ensures Run(w, LoopSleeps(w.shared.main, rest)) == Run(World(w.shared.(main := Asleep), w.callers), rest)
  {
    hide Run;
    if w.shared.main.Busy? {
      RunCons(w, MainMoves, LoopSleeps(Locking, rest));
      LoopWaits(World(w.shared.(main := Locking), w.callers), rest);
    } else {
      LoopWaits(w, rest);
    }
  }

  /** From every such world an update can return in full and the loop still fall asleep on it. */
  lemma UpdateCanBeMissed(w: World, i: nat, c: Config)
    requires Between(w) && i !in w.callers
    ensures Run(w, UpdateEnters(i, c, UpdateLeaves(i, LoopSleeps(w.shared.main, []))))
         == Some(World(AfterUpdate(w.shared, c).(main := Asleep), w.callers[i := Returned(UpdateConfig(c))]))
  {
    hide Run, UpdateEnters, UpdateLeaves, LoopSleeps;
    var s := w.shared.(owner := By(i));
    UpdateEntersRun(w, i, c, UpdateLeaves(i, LoopSleeps(w.shared.main, [])));
    UpdateLeavesRun(s, w.callers, i, c, LoopSleeps(w.shared.main, []));
    var w' := World(AfterUpdate(s, c).(owner := Free), w.callers[i := Returned(UpdateConfig(c))]);
    LoopSleepsRun(w', []);
    RunNothing(World(w'.shared.(main := Asleep), w'.callers));
  }

  lemma RunNothing(w: World)
    ensures Run(w, []) == Some(w)
  {
  }
}
