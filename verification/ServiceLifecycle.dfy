/**
 * The daemon's service lifecycle (daemon/started_service.go: `StartOrReloadService`, `CloseService`,
 * `interruptStart`, `SetError`, `Close`) under every interleaving of its callers.
 *
 * `lifecycleAccess` is the phase of whoever holds it; each critical section of `serviceAccess`, and each
 * call made between two of them, is one step.
 */
module ServiceLifecycle {
  import opened Wrappers

  datatype Status = Idle | Stopping | Starting | Started | Fatal

  /** Where the holder of `lifecycleAccess` is. Instances are numbered as they are created. */
  datatype Phase =
    | Free
    | StartLocked
    | ClosingOld(prior: nat)
    | Resetting
    | Creating
    | CreateFailed
    | Created(id: nat)
    | Running(id: nat)
    | Returned(id: nat, ok: bool)
    | Discarding(id: nat)
    | CloseLocked
    | Draining(left: Option<nat>)
    | Drained

  datatype State = State(
    status: Status,
    instance: Option<nat>,
    startInterrupted: bool,
    closed: bool,
    phase: Phase,
    startsWaiting: nat,
    closesWaiting: nat,
    // what has happened so far
    live: set<nat>,
    next: nat,
    interrupted: set<nat>,
    announced: set<nat>)

  /** `Advance` is the holder's next step; `ok` is the result of the call it makes, if it makes one. */
  datatype Event = EnterStart | EnterClose | LockStart | LockClose | Advance(ok: bool) | SetError | CloseAll

  function Initial(): State { State(Idle, None, false, false, Free, 0, 0, {}, 0, {}, {}) }

  /** `interruptStart`. */
  function Interrupt(s: State): State {
    if s.status == Starting && s.instance.Some? then
      s.(startInterrupted := true, interrupted := s.interrupted + {s.instance.value})
    else s
  }

  function Reset(s: State): State { s.(startInterrupted := false, status := Starting, phase := Creating) }

  function AfterReturn(s: State, id: nat, ok: bool): State {
    if s.startInterrupted then s.(startInterrupted := false, instance := None, phase := Discarding(id))
    else if !ok then s.(instance := None, status := Fatal, phase := Discarding(id))
    else s.(status := Started, announced := s.announced + {id}, phase := Free)
  }

  function AdvanceHolder(s: State, ok: bool): State
    requires s.phase != Free
  {
    match s.phase
    case StartLocked =>
      if s.closed then s.(phase := Free)
      else if s.instance.Some? then s.(instance := None, status := Stopping, phase := ClosingOld(s.instance.value))
      else Reset(s)
    case ClosingOld(prior) => s.(live := s.live - {prior}, phase := Resetting)
    case Resetting => Reset(s)
    case Creating =>
      if ok then s.(live := s.live + {s.next}, next := s.next + 1, phase := Created(s.next))
      else s.(phase := CreateFailed)
    case CreateFailed => s.(status := Fatal, phase := Free)
    case Created(id) => s.(instance := Some(id), phase := Running(id))
    case Running(id) => s.(phase := Returned(id, ok))
    case Returned(id, ok') => AfterReturn(s, id, ok')
    case Discarding(id) => s.(live := s.live - {id}, phase := Free)
    case CloseLocked =>
      if s.instance.None? && s.status != Starting && s.status != Started then s.(phase := Free)
      else s.(instance := None, status := Stopping, phase := Draining(s.instance))
    case Draining(left) => s.(live := if left.Some? then s.live - {left.value} else s.live, phase := Drained)
    case Drained => s.(status := Idle, phase := Free)
  }

  predicate Enabled(s: State, e: Event) {
    match e
    case LockStart => s.phase == Free && s.startsWaiting > 0
    case LockClose => s.phase == Free && s.closesWaiting > 0
    case Advance(_) => s.phase != Free
    case _ => true
  }

  function Step(s: State, e: Event): State
    requires Enabled(s, e)
  {
    match e
    case EnterStart => Interrupt(s).(startsWaiting := s.startsWaiting + 1)
    case EnterClose => Interrupt(s).(closesWaiting := s.closesWaiting + 1)
    case LockStart => s.(phase := StartLocked, startsWaiting := s.startsWaiting - 1)
    case LockClose => s.(phase := CloseLocked, closesWaiting := s.closesWaiting - 1)
    case Advance(ok) => AdvanceHolder(s, ok)
    case SetError => s.(status := Fatal)
    case CloseAll => s.(closed := true)
  }

  ghost predicate Runs(s: State, events: seq<Event>, t: State)
    decreases |events|
  {
    if events == [] then s == t else Enabled(s, events[0]) && Runs(Step(s, events[0]), events[1..], t)
  }

  ghost predicate Reachable(s: State) { exists events :: Runs(Initial(), events, s) }

  // ------------------------------------------------------------------- the invariant

  function Holding(o: Option<nat>): set<nat> { if o.Some? then {o.value} else {} }

  predicate Between(p: Phase) { p.Free? || p.StartLocked? || p.CloseLocked? }

  predicate StartOf(p: Phase, id: nat) { p == Running(id) || p == Returned(id, true) || p == Returned(id, false) }

  /** Which instance is live, and which is published, in each phase. */
  predicate InstanceOk(s: State) {
    match s.phase
    case Free => s.live == Holding(s.instance)
    case StartLocked => s.live == Holding(s.instance)
    case CloseLocked => s.live == Holding(s.instance)
    case ClosingOld(prior) => s.instance.None? && s.live == {prior}
    case Resetting => s.instance.None? && s.live == {}
    case Creating => s.instance.None? && s.live == {}
    case CreateFailed => s.instance.None? && s.live == {}
    case Created(id) => s.instance.None? && s.live == {id} && id !in s.announced + s.interrupted
    case Running(id) => s.instance == Some(id) && s.live == {id} && id !in s.announced
    case Returned(id, _) => s.instance == Some(id) && s.live == {id} && id !in s.announced
    case Discarding(id) => s.instance.None? && s.live == {id} && id !in s.announced
    case Draining(left) => s.instance.None? && s.live == Holding(left)
    case Drained => s.instance.None? && s.live == {}
  }

  ghost predicate StatusOk(s: State) {
    && (s.status == Started ==> s.instance.Some? && Between(s.phase))
    && (s.status == Starting && s.instance.Some? ==> StartOf(s.phase, s.instance.value))
    && (Between(s.phase) && s.instance.Some? ==> s.instance.value in s.announced)
    && (s.startInterrupted ==>
      s.instance.Some? && StartOf(s.phase, s.instance.value) && s.instance.value in s.interrupted)
  }

  /** A start that was interrupted is still running with the flag up, or being discarded, or its instance is closed. */
  ghost predicate InterruptedOk(s: State) {
    && s.interrupted !! s.announced
    && (forall id :: id in s.interrupted && id in s.live ==>
      s.phase == Discarding(id) || (s.startInterrupted && StartOf(s.phase, id)))
  }

  ghost predicate NumbersOk(s: State) {
    forall id :: id in s.live || id in s.announced || id in s.interrupted ==> id < s.next
  }

  ghost predicate StateOk(s: State) { InstanceOk(s) && StatusOk(s) && InterruptedOk(s) && NumbersOk(s) }

  lemma {:induction false} AdvanceKeepsInstance(s: State, ok: bool)
    requires InstanceOk(s) && NumbersOk(s) && s.phase != Free
    ensures InstanceOk(AdvanceHolder(s, ok))
  {
    assert s.next !in s.live && s.next !in s.announced && s.next !in s.interrupted;
  }

  lemma {:induction false} AdvanceKeepsStatus(s: State, ok: bool)
    requires InstanceOk(s) && StatusOk(s) && s.phase != Free
    ensures StatusOk(AdvanceHolder(s, ok))
  {
  }

  lemma {:induction false} AdvanceKeepsInterrupted(s: State, ok: bool)
    requires InstanceOk(s) && InterruptedOk(s) && NumbersOk(s) && s.phase != Free
    ensures InterruptedOk(AdvanceHolder(s, ok))
  {
    assert s.next !in s.interrupted;
  }

  lemma {:induction false} AdvanceKeepsNumbers(s: State, ok: bool)
    requires InstanceOk(s) && NumbersOk(s) && s.phase != Free
    ensures NumbersOk(AdvanceHolder(s, ok))
  {
  }

  lemma {:induction false} StepKeepsOk(s: State, e: Event)
    requires StateOk(s) && Enabled(s, e)
    ensures StateOk(Step(s, e))
  {
    if e.Advance? {
      AdvanceKeepsInstance(s, e.ok);
      AdvanceKeepsStatus(s, e.ok);
      AdvanceKeepsInterrupted(s, e.ok);
      AdvanceKeepsNumbers(s, e.ok);
    }
  }

  lemma {:induction false} RunKeepsOk(s: State, events: seq<Event>, t: State)
    requires StateOk(s) && Runs(s, events, t)
    ensures StateOk(t)
    decreases |events|
  {
    if events != [] {
      StepKeepsOk(s, events[0]);
      RunKeepsOk(Step(s, events[0]), events[1..], t);
    }
  }

  /**
   * In every reachable state: at most one instance is live; STARTED means an instance is published and
   * live, and was never interrupted; `startInterrupted` is up only while a start holds the lifecycle
   * lock with its instance published; an interrupted start is never announced as STARTED, and once the
   * lock is free its instance is closed.
   */
  lemma {:induction false} ReachableIsSafe(s: State)
    requires Reachable(s)
    ensures |s.live| <= 1
    ensures s.status == Started ==>
      s.instance.Some? && s.live == {s.instance.value} && s.instance.value !in s.interrupted
    ensures s.startInterrupted ==>
      s.instance.Some? && StartOf(s.phase, s.instance.value) && s.live == {s.instance.value}
    ensures s.interrupted !! s.announced
    ensures s.phase == Free ==> s.live == Holding(s.instance) && s.live <= s.announced && s.live !! s.interrupted
    ensures s.phase == Free && s.status == Starting ==> s.instance.None? && s.live == {}
  {
    var events :| Runs(Initial(), events, s);
    RunKeepsOk(Initial(), events, s);
  }

  // ------------------------------------------------------------ progress of a call

  /** Steps a holder may still take before it lets go of the lock. */
  function StepsLeft(p: Phase): nat {
    match p
    case Free => 0
    case StartLocked => 8
    case ClosingOld(_) => 7
    case Resetting => 6
    case Creating => 5
    case CreateFailed => 1
    case Created(_) => 4
    case Running(_) => 3
    case Returned(_, _) => 2
    case Discarding(_) => 1
    case CloseLocked => 3
    case Draining(_) => 2
    case Drained => 1
  }

  /**
   * A lifecycle call always ends: the holder is never blocked, each of its steps brings it closer, and
   * nobody else moves it.
   */
  lemma {:induction false} HolderFinishes(s: State, e: Event)
    requires Enabled(s, e) && s.phase != Free
    ensures Enabled(s, Advance(true)) && Enabled(s, Advance(false))
    ensures if e.Advance? then StepsLeft(Step(s, e).phase) < StepsLeft(s.phase) else Step(s, e).phase == s.phase
  {
  }

  lemma {:induction false} InterruptedStays(s: State, events: seq<Event>, t: State)
    requires Runs(s, events, t)
    ensures s.interrupted <= t.interrupted
    decreases |events|
  {
    if events != [] {
      InterruptedStays(Step(s, events[0]), events[1..], t);
    }
  }

  /** An interrupted start, whatever its result and whoever else acts, closes its instance without announcing it. */
  lemma {:induction false} InterruptedIsDiscarded(s: State, id: nat, events: seq<Event>, t: State)
    requires Reachable(s) && s.startInterrupted && s.instance == Some(id)
    requires Runs(s, events, t) && t.phase == Free
    ensures id !in t.live && id !in t.announced
  {
    var before :| Runs(Initial(), before, s);
    RunKeepsOk(Initial(), before, s);
    RunKeepsOk(s, events, t);
    InterruptedStays(s, events, t);
  }

  // ------------------------------------------------------------------ after `Close`

  /** A start that has read `closed` as false and not yet created its instance. */
  predicate AboutToCreate(p: Phase) { p.ClosingOld? || p.Resetting? || p.Creating? }

  /** On a closed service no instance is created any more, but for a start already past its check. */
  lemma {:induction false} ClosedNeverCreates(s: State, events: seq<Event>, t: State)
    requires Runs(s, events, t) && s.closed && !AboutToCreate(s.phase)
    ensures t.closed && t.next == s.next && !AboutToCreate(t.phase)
    decreases |events|
  {
    if events != [] {
      ClosedNeverCreates(Step(s, events[0]), events[1..], t);
    }
  }

  lemma {:induction false} RunsAppend(s: State, events: seq<Event>, t: State, e: Event)
    requires Runs(s, events, t) && Enabled(t, e)
    ensures Runs(s, events + [e], Step(t, e))
    decreases |events|
  {
    var longer := events + [e];
    if events == [] {
      assert longer[1..] == [];
    } else {
      assert longer[1..] == events[1..] + [e];
      RunsAppend(Step(s, events[0]), events[1..], t, e);
    }
  }

  lemma {:induction false} Reach(s: State, e: Event)
    requires Reachable(s) && Enabled(s, e)
    ensures Reachable(Step(s, e))
  {
    var events :| Runs(Initial(), events, s);
    RunsAppend(Initial(), events, s, e);
  }

  /** A start at work on the first instance. */
  function FirstStart(): State { State(Starting, Some(0), false, false, Running(0), 0, 0, {0}, 1, {}, {}) }

  lemma {:induction false} FirstStartReached()
    ensures Reachable(FirstStart())
  {
    assert Runs(Initial(), [], Initial());
    var s0 := State(Idle, None, false, false, Free, 1, 0, {}, 0, {}, {});
    Reach(Initial(), EnterStart);
    Reach(s0, LockStart);
    Reach(s0.(phase := StartLocked, startsWaiting := 0), Advance(true));
    Reach(s0.(phase := Creating, startsWaiting := 0, status := Starting), Advance(true));
    assert s0.live + {0} == {0};
    Reach(s0.(phase := Created(0), startsWaiting := 0, status := Starting, live := {0}, next := 1), Advance(true));
  }

  /**
   * The interrupted path leaves the status alone. So a start interrupted by a start that then finds the
   * service closed leaves STARTING behind, with the lock free, no instance and nobody waiting.
   */
  lemma {:induction false} StartingIsStranded()
    ensures Reachable(State(Starting, None, false, true, Free, 0, 0, {}, 1, {0}, {}))
  {
    FirstStartReached();
    var s := FirstStart();
    Reach(s, CloseAll);
    Reach(s.(closed := true), EnterStart);
    var i := s.(closed := true, startsWaiting := 1, startInterrupted := true, interrupted := {0});
    assert s.interrupted + {0} == {0};
    Reach(i, Advance(true));
    Reach(i.(phase := Returned(0, true)), Advance(true));
    var d := State(Starting, None, false, true, Discarding(0), 1, 0, {0}, 1, {0}, {});
    Reach(d, Advance(true));
    assert d.live - {0} == {};
    Reach(d.(phase := Free, live := {}), LockStart);
    Reach(d.(phase := StartLocked, live := {}, startsWaiting := 0), Advance(true));
  }

  // ------------------------------------------------- exactly when STARTING is stranded

  /** Whoever interrupted a start is still waiting for the lock, until the lock is free on a closed service. */
  predicate InterrupterWaits(s: State) {
    s.startInterrupted || (s.status == Starting && (s.phase.Discarding? || (s.phase == Free && !s.closed))) ==>
      s.startsWaiting + s.closesWaiting > 0
  }

  lemma {:induction false} StepKeepsInterrupter(s: State, e: Event)
    requires StateOk(s) && InterrupterWaits(s) && Enabled(s, e)
    ensures InterrupterWaits(Step(s, e))
  {
  }

  lemma {:induction false} RunKeepsInterrupter(s: State, events: seq<Event>, t: State)
    requires StateOk(s) && InterrupterWaits(s) && Runs(s, events, t)
    ensures StateOk(t) && InterrupterWaits(t)
    decreases |events|
  {
    if events != [] {
      StepKeepsOk(s, events[0]);
      StepKeepsInterrupter(s, events[0]);
      RunKeepsInterrupter(Step(s, events[0]), events[1..], t);
    }
  }

  /** STARTING with the lock free and nobody waiting is left behind on closed services only. */
  lemma {:induction false} StrandedOnlyWhenClosed(s: State)
    requires Reachable(s) && s.phase == Free && s.status == Starting && s.startsWaiting == s.closesWaiting == 0
    ensures s.closed
  {
    var events :| Runs(Initial(), events, s);
    RunKeepsInterrupter(Initial(), events, s);
  }

  /** The events by which those already waiting take their turns; nobody new arrives. */
  predicate TakesTurns(e: Event) { e.LockStart? || e.LockClose? || e.Advance? }

  ghost predicate TurnsOnly(events: seq<Event>) { forall i :: 0 <= i < |events| ==> TakesTurns(events[i]) }

  /** On a closed service whose status is STARTING, with starts alone to come. */
  predicate Stuck(s: State) {
    s.closed && s.closesWaiting == 0 && s.status == Starting && s.instance.None? &&
      (s.phase.Free? || s.phase.StartLocked?)
  }

  /** On a closed service, with a close to come or already past. */
  predicate Resolving(s: State) {
    && s.closed && s.instance.None?
    && (s.status == Starting && (s.phase.Free? || s.phase.StartLocked?) ==> s.closesWaiting > 0)
    && (Between(s.phase) || s.phase.Draining? || s.phase.Drained?)
  }

  /** On an open service without an interruption, past the moment the lock was free under STARTING. */
  predicate Undisturbed(s: State) {
    !s.closed && !s.startInterrupted && (s.phase.Free? || s.phase.Discarding? ==> s.status != Starting)
  }

  lemma {:induction false} TurnKeeps(s: State, e: Event)
    requires Enabled(s, e) && TakesTurns(e)
    ensures Stuck(s) ==> Stuck(Step(s, e))
    ensures Resolving(s) ==> Resolving(Step(s, e))
    ensures Undisturbed(s) ==> Undisturbed(Step(s, e))
  {
  }

  lemma {:induction false} TurnsKeep(s: State, events: seq<Event>, t: State)
    requires Runs(s, events, t) && TurnsOnly(events)
    ensures Stuck(s) ==> Stuck(t)
    ensures Resolving(s) ==> Resolving(t)
    ensures Undisturbed(s) ==> Undisturbed(t)
    decreases |events|
  {
    if events != [] {
      TurnKeeps(s, events[0]);
      TurnsKeep(Step(s, events[0]), events[1..], t);
    }
  }

  /**
   * Exactly when STARTING stays behind: from any reachable state with the lock free under STARTING, once
   * everybody waiting has had a turn, the status is still STARTING if and only if the service was closed
   * and no close was among those waiting.
   */
  lemma {:induction false} StrandedIff(s: State, events: seq<Event>, t: State)
    requires Reachable(s) && s.phase == Free && s.status == Starting
    requires Runs(s, events, t) && TurnsOnly(events)
    requires t.phase == Free && t.startsWaiting == t.closesWaiting == 0
    ensures t.status == Starting <==> s.closed && s.closesWaiting == 0
  {
    ReachableIsSafe(s);
    var before :| Runs(Initial(), before, s);
    RunKeepsInterrupter(Initial(), before, s);
    if s.closed {
      TurnsKeep(s, events, t);
    } else {
      assert events != [];
      assert Undisturbed(Step(s, events[0]));
      TurnsKeep(Step(s, events[0]), events[1..], t);
    }
  }
}
