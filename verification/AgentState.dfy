/**
  The agent's state and its main loop: one flag outside a mutex, a state and a pending configuration
  inside it, and a condition variable. Any number of callers run against the loop, and every load,
  store, lock, notification and unlock is a step of its own.
*/
module AgentState {
  import opened Options

  datatype Config = Config(id: nat, enabled: bool)

  datatype Op = Enable | Disable | MeltDown | Recover | Terminate | UpdateConfig(config: Config)

  /** Where the main loop is; `Panicked` is an unwrap of nothing. */
  datatype Main = Locking | Checking | Waiting | Asleep | Woken | Dispatching | Taking | Busy | Stopped | Panicked

  /** Where a call is; `Nudging` is the notification without the lock that a call makes after termination. */
  datatype Caller =
    | Entered(op: Op) | Blocked(op: Op) | Holding(op: Op) | Signalling(op: Op)
    | Releasing(op: Op) | Nudging(op: Op) | Returned(op: Op)

  datatype Owner = Free | ByMain | By(id: nat)

  /** What the loop and the calls share, with the place of the loop. `told` records that a `terminate` has notified. */
  datatype Shared = Shared(terminated: bool, enabled: bool, meltedDown: bool, config: Option<Config>,
                           owner: Owner, main: Main, told: bool)

  datatype World = World(shared: Shared, callers: map<nat, Caller>)

  const START: World := World(Shared(false, false, true, None, Free, Locking, false), map[])

  predicate Running(s: Shared) { s.enabled && !s.meltedDown }

  // ---------------------------------------------------------------- steps

  /** A notification reaches the loop only if it is asleep. */
  function Notify(s: Shared): Shared { if s.main.Asleep? then s.(main := Woken) else s }

  /** The loop lets go of the lock with the configuration taken out. */
  function Taken(s: Shared): Shared { s.(main := Busy, owner := Free, config := None) }

  function MainStep(s: Shared): Option<Shared> {
    match s.main
    case Locking => if s.owner.Free? then Some(s.(main := Checking, owner := ByMain)) else None
    case Checking => Some(if s.terminated then s.(main := Stopped, owner := Free) else s.(main := Waiting))
    case Waiting => Some(s.(main := Asleep, owner := Free))
    case Asleep => None
    case Woken => if s.owner.Free? then Some(s.(main := Dispatching, owner := ByMain)) else None
    case Dispatching =>
      if Running(s) && s.config.None? then Some(s.(main := Busy, owner := Free))
      else if !Running(s) then Some(Taken(s))
      else Some(s.(main := Taking))
    case Taking => Some(if s.config.None? then s.(main := Panicked) else Taken(s))
    case Busy => Some(s.(main := Locking))
    case Stopped => None
    case Panicked => None
  }

  /** What a call writes under the lock. */
  function Updated(s: Shared, op: Op): Shared {
    match op
    case Enable => s.(enabled := true)
    case Disable => s.(enabled := false)
    case MeltDown => s.(meltedDown := true)
    case Recover => s.(meltedDown := false)
    case Terminate => s
    case UpdateConfig(c) => s.(enabled := c.enabled, config := Some(c))
  }

  /** Whether a call notifies: always for `terminate` and `update_config`, else when the state changed. */
  predicate Signals(s: Shared, op: Op) {
    op.Terminate? || op.UpdateConfig? || Running(s) != Running(Updated(s, op))
  }

  /** The next step of call `i`, at place `c`. */
  function CallStep(s: Shared, i: nat, c: Caller): Option<(Shared, Caller)> {
    match c
    case Entered(op) =>
      if op.Terminate? then Some((s.(terminated := true), Blocked(op)))
      else Some((s, if s.terminated then Nudging(op) else Blocked(op)))
    case Blocked(op) => if s.owner.Free? then Some((s.(owner := By(i)), Holding(op))) else None
    case Holding(op) => Some((Updated(s, op), if Signals(s, op) then Signalling(op) else Releasing(op)))
    case Signalling(op) => Some((if op.Terminate? then Notify(s).(told := true) else Notify(s), Releasing(op)))
    case Releasing(op) => Some((s.(owner := Free), Returned(op)))
    case Nudging(op) => Some((Notify(s), Returned(op)))
    case Returned(_) => None
  }

  datatype Step = MainMoves | CallerMoves(id: nat) | Call(id: nat, op: Op) | Spurious

  function Next(w: World, step: Step): Option<World> {
    match step
    case MainMoves =>
      (match MainStep(w.shared)
       case None => None
       case Some(s) => Some(World(s, w.callers)))
    case CallerMoves(i) =>
      if i !in w.callers then None
      else
        (match CallStep(w.shared, i, w.callers[i])
         case None => None
         case Some(r) => Some(World(r.0, w.callers[i := r.1])))
    case Call(i, op) => if i in w.callers then None else Some(World(w.shared, w.callers[i := Entered(op)]))
    case Spurious => if w.shared.main.Asleep? then Some(World(w.shared.(main := Woken), w.callers)) else None
  }

  /** A schedule; `None` if it asks for a step that is not possible. */
  function Run(w: World, steps: seq<Step>): Option<World>
    decreases |steps|
  {
    if steps == [] then Some(w)
    else
      match Next(w, steps[0])
      case None => None
      case Some(w') => Run(w', steps[1..])
  }

  // ---------------------------------------------------------------- what every step keeps

  predicate MainHolds(m: Main) { m.Checking? || m.Waiting? || m.Dispatching? || m.Taking? }

  predicate CallerHolds(c: Caller) { c.Holding? || c.Signalling? || c.Releasing? }

  predicate SharedOk(s: Shared) {
    && (s.owner.ByMain? <==> MainHolds(s.main))
    && (s.told ==> s.terminated && !s.main.Waiting? && !s.main.Asleep?)
    && (s.main.Taking? ==> s.config.Some?)
    && !s.main.Panicked?
  }

  /** The mutex excludes, and a `terminate` past its store has set the flag, past its signal has told. */
  predicate CallerOk(s: Shared, i: nat, c: Caller) {
    && (CallerHolds(c) <==> s.owner == By(i))
    && (c.op.Terminate? ==>
          && !c.Nudging?
          && (!c.Entered? ==> s.terminated)
          && (c.Releasing? || c.Returned? ==> s.told))
  }

  /** A `terminate` that has set the flag and not yet notified. */
  predicate Telling(c: Caller) { c.op.Terminate? && (c.Blocked? || c.Holding? || c.Signalling?) }

  ghost predicate SomeoneTells(callers: map<nat, Caller>) { exists i :: i in callers && Telling(callers[i]) }

  ghost predicate Inv(w: World) {
    && SharedOk(w.shared)
    && (w.shared.owner.By? ==> w.shared.owner.id in w.callers)
    && (forall i :: i in w.callers ==> CallerOk(w.shared, i, w.callers[i]))
    && (w.shared.terminated && !w.shared.told ==> SomeoneTells(w.callers))
  }

  lemma MainShared(s: Shared)
    requires SharedOk(s) && MainStep(s).Some?
    ensures var s' := MainStep(s).value; SharedOk(s') && s'.terminated == s.terminated && s'.told == s.told
  {
    match s.main {
      case Locking => case Checking => case Waiting => case Asleep => case Woken =>
      case Dispatching => case Taking => case Busy => case Stopped => case Panicked =>
    }
  }

  lemma MainOthers(s: Shared, i: nat, c: Caller)
    requires SharedOk(s) && CallerOk(s, i, c) && MainStep(s).Some?
    ensures CallerOk(MainStep(s).value, i, c)
  {
  }

  lemma MainOwner(s: Shared)
    requires SharedOk(s) && MainStep(s).Some?
    ensures var s' := MainStep(s).value; if s.owner.By? then s'.owner == s.owner else !s'.owner.By?
  {
  }

  /** A store under the lock touches neither it nor the loop. */
  lemma UpdatedShared(s: Shared, op: Op)
    requires SharedOk(s)
    ensures var s' := Updated(s, op);
      SharedOk(s') && s'.owner == s.owner && s'.main == s.main && s'.told == s.told && s'.terminated == s.terminated
  {
  }

  lemma NotifyShared(s: Shared)
    requires SharedOk(s)
    ensures var s' := Notify(s);
      && SharedOk(s') && s'.owner == s.owner && s'.told == s.told && s'.terminated == s.terminated
      && !s'.main.Asleep? && (s'.main.Waiting? <==> s.main.Waiting?)
  {
  }

  lemma CallShared(s: Shared, i: nat, c: Caller)
    requires SharedOk(s) && CallerOk(s, i, c) && CallStep(s, i, c).Some?
    ensures var (s', c') := CallStep(s, i, c).value; SharedOk(s') && CallerOk(s', i, c')
  {
    hide Updated, Notify;
    UpdatedShared(s, c.op);
    NotifyShared(s);
  }

  lemma CallOthers(s: Shared, i: nat, c: Caller, j: nat, d: Caller)
    requires SharedOk(s) && CallerOk(s, i, c) && CallerOk(s, j, d) && i != j && CallStep(s, i, c).Some?
    ensures CallerOk(CallStep(s, i, c).value.0, j, d)
  {
  }

  lemma CallOwner(s: Shared, i: nat, c: Caller)
    requires SharedOk(s) && CallerOk(s, i, c) && CallStep(s, i, c).Some?
    ensures var s' := CallStep(s, i, c).value.0;
      s'.owner == By(i) || s'.owner == s.owner || (s.owner == By(i) && s'.owner == Free)
  {
  }

  /** Whoever had to tell still has to, or has told. */
  lemma CallTelling(s: Shared, i: nat, c: Caller)
    requires CallerOk(s, i, c) && CallStep(s, i, c).Some?
    ensures var (s', c') := CallStep(s, i, c).value;
      && (Telling(c) && !s'.told ==> Telling(c'))
      && (s'.terminated && !s.terminated ==> Telling(c'))
      && (s.told ==> s'.told)
  {
  }

  lemma MainKeeps(w: World)
    requires Inv(w) && MainStep(w.shared).Some?
    ensures Inv(World(MainStep(w.shared).value, w.callers))
  {
    var s := w.shared;
    MainShared(s);
    MainOwner(s);
    forall i | i in w.callers ensures CallerOk(MainStep(s).value, i, w.callers[i]) { MainOthers(s, i, w.callers[i]); }
    hide MainStep, SharedOk, CallerOk, SomeoneTells;
  }

  lemma CallerKeeps(w: World, i: nat)
    requires Inv(w) && i in w.callers && CallStep(w.shared, i, w.callers[i]).Some?
    ensures var r := CallStep(w.shared, i, w.callers[i]).value; Inv(World(r.0, w.callers[i := r.1]))
  {
    var s, c := w.shared, w.callers[i];
    var (s', c') := CallStep(s, i, c).value;
    var callers' := w.callers[i := c'];
    CallShared(s, i, c);
    CallOwner(s, i, c);
    CallTelling(s, i, c);
    forall j | j in callers' ensures CallerOk(s', j, callers'[j]) {
      if j != i { CallOthers(s, i, c, j, w.callers[j]); }
    }
    hide CallStep, SharedOk, CallerOk, Telling;
    if s'.terminated && !s'.told {
      if s.terminated && !Telling(c) {
        var j :| j in w.callers && Telling(w.callers[j]);
        assert Telling(callers'[j]);
      } else {
        assert Telling(callers'[i]);
      }
    }
  }

  lemma CallEnters(w: World, i: nat, op: Op)
    requires Inv(w) && i !in w.callers
    ensures Inv(World(w.shared, w.callers[i := Entered(op)]))
  {
    var w' := World(w.shared, w.callers[i := Entered(op)]);
    if SomeoneTells(w.callers) {
      var j :| j in w.callers && Telling(w.callers[j]);
      assert Telling(w'.callers[j]);
    }
  }

  lemma NextKeeps(w: World, step: Step)
    requires Inv(w) && Next(w, step).Some?
    ensures Inv(Next(w, step).value)
  {
    match step
    case MainMoves => MainKeeps(w);
    case CallerMoves(i) => CallerKeeps(w, i);
    case Call(i, op) => CallEnters(w, i, op);
    case Spurious =>
      forall i | i in w.callers ensures CallerOk(Next(w, step).value.shared, i, w.callers[i]) { }
  }

  lemma {:induction false} RunKeeps(w: World, steps: seq<Step>)
    requires Inv(w) && Run(w, steps).Some?
    ensures Inv(Run(w, steps).value)
    decreases |steps|
  {
    if steps != [] {
      NextKeeps(w, steps[0]);
      hide Inv, Next;
      RunKeeps(Next(w, steps[0]).value, steps[1..]);
    }
  }
}
