/** The invariant of the driver state machine and what it says about whole runs. */
module RuleInvariant {
  import opened Wrappers
  import opened QueryOptions
  import opened RuleEngine
  import opened RuleSweep
  import opened RuleRun
  import opened RuleSafety

  /** What a suspension handed to the driver promises about the state it comes with. */
  ghost predicate SuspensionOk(s: Walk, why: Suspension) {
    match why
    case Await(f) => Known(s.futures, f)
    case Drain => s.armed != []
    case PendingOn(p) => s.armed == [] && (p.Speculated? ==> Known(s.futures, p.future))
  }

  /** The armed rule `a` waits on a launched future outside `observed`. */
  ghost predicate WaitsBeyond(futures: seq<Future>, a: Armed, observed: set<nat>) {
    exists f :: f in a.waits && Known(futures, f) && f.id !in observed
  }

  /** Whatever completed after the driver's last look has left, or will leave, a token. */
  ghost predicate NoLostWakeUp(c: Config) {
    forall k :: k in c.done && k !in c.observed ==> c.token || k in c.unsent
  }

  ghost predicate BlockedOk(c: Config, why: Suspension) {
    && !why.PendingOn?
    && (why.Await? ==> why.future.id !in c.observed)
    && (forall a :: a in c.s.armed ==> WaitsBeyond(c.s.futures, a, c.observed))
    && NoLostWakeUp(c)
  }

  /** Only a race rule may decide while race rules are armed; any other rule, and the default, is held back. */
  ghost predicate HeldBack(e: Engine, s: Walk, rule: nat) {
    (rule < |e.rules| && e.rules[rule].Racing()) || s.armed == []
  }

  ghost predicate PhaseOk(e: Engine, c: Config) {
    match c.phase
    case Walking => Behind(c.s)
    case Driving(why) => Behind(c.s) && SuspensionOk(c.s, why)
    case Blocked(why) => Behind(c.s) && SuspensionOk(c.s, why) && BlockedOk(c, why)
    case Finishing(p) =>
      && (p.Speculated? ==> Known(c.s.futures, p.future))
      && HeldBack(e, c.s, p.rule)
      && Ids(c.s) - (if p.Speculated? then {p.future.id} else {}) <= c.cancelled
    case Finished(rule, result) => c.cancelled == Ids(c.s) && (result.Cancelled? || HeldBack(e, c.s, rule))
  }

  ghost predicate ConfigOk(e: Engine, c: Config) {
    && WalkOk(e, c.s)
    && c.done.Keys <= Ids(c.s)
    && c.unsent <= c.done.Keys
    && c.observed <= c.done.Keys
    && c.cancelled <= Ids(c.s)
    && PhaseOk(e, c)
  }

  /** A step that suspends does so soundly, and waits only for what has not completed. */
  ghost predicate StepSuspends(done: map<nat, Reply>, step: Step) {
    step.Suspend? ==> SuspensionOk(step.state, step.why) && (step.why.Await? ==> !step.why.future.Resolved(done))
  }

  lemma {:induction false} RouteSuspends(e: Engine, s: Walk, done: map<nat, Reply>, server: string, speculative: bool,
                                         o: ActionOptions)
    requires s.terminal.Some? ==> Known(s.futures, s.terminal.value)
    ensures StepSuspends(done, ActRoute(e, s, server, speculative, o))
  {
  }

  lemma {:induction false} RespondSuspends(s: Walk, rule: Rule, done: map<nat, Reply>)
    requires s.anon.Some? ==> Known(s.futures, s.anon.value)
    ensures StepSuspends(done, ActRespond(s, rule, done))
  {
  }

  lemma {:induction false} ActSuspends(e: Engine, s: Walk, done: map<nat, Reply>)
    requires WalkOk(e, s) && s.index < |e.rules|
    ensures StepSuspends(done, Act(e, s, done))
  {
    match e.rules[s.index].action
    case Route(server, speculative, o) => RouteSuspends(e, s, done, server, speculative, o);
    case Respond => RespondSuspends(s, e.rules[s.index], done);
    case _ =>
  }

  lemma {:induction false} VisitSuspends(e: Engine, s: Walk, done: map<nat, Reply>, seen: set<nat>)
    requires WalkOk(e, s)
    ensures StepSuspends(done, Visit(e, s, done, seen))
  {
    if s.index < |e.rules| {
      var rule := e.rules[s.index];
      if rule.HasBindings() {
        SettleKeepsOk(e, s, done, seen);
        var s1 := Settle(s, done, seen);
        WaitsKnown(rule, s1, done);
        if !rule.race && Waits(rule, s1, done) == [] {
          ActSuspends(e, s1, done);
        }
      } else {
        ActSuspends(e, s, done);
      }
    }
  }

  /** A bound on the driver work left in a walk state; visits never raise it. */
  function Effort(e: Engine, s: Walk): int {
    11 * (|e.rules| - s.index) + (if s.terminal.None? then 9 else 0) + 8 * |s.futures| + 2 * |s.armed|
  }

  /** A step from `s` only adds futures, and going on to the next rule lowers the effort. */
  ghost predicate Spends(e: Engine, s: Walk, step: Step) {
    && s.futures <= step.state.futures
    && Effort(e, step.state) + (if step.Next? then 1 else 0) <= Effort(e, s) + (if step.Return? then 2 else 0)
  }

  lemma {:induction false} AdvanceSpends(e: Engine, s: Walk, s': Walk)
    requires s.index < |e.rules| && s'.index == s.index && s'.armed == s.armed && s'.terminal == s.terminal
    requires s'.futures == s.futures || exists f :: s'.futures == s.futures + [f]
    ensures Spends(e, s, Next(Advance(s')))
  {
  }

  lemma {:induction false} EvaluateSpends(e: Engine, s: Walk, server: string, tag: string, speculative: bool,
                                          o: ActionOptions)
    requires s.index < |e.rules|
    ensures Spends(e, s, ActEvaluate(e, s, server, tag, speculative, o))
  {
    var f := Future(|s.futures|, tag, s.index, server, Finalize(Apply(s.options, o), e.defaultStrategy), false);
    AdvanceSpends(e, s, Bind(Launch(s, f), f));
    AdvanceSpends(e, s, if tag == "" then s.(anon := None) else s);
  }

  lemma {:induction false} RouteSpends(e: Engine, s: Walk, server: string, speculative: bool, o: ActionOptions)
    requires s.index < |e.rules|
    ensures Spends(e, s, ActRoute(e, s, server, speculative, o))
  {
    AdvanceSpends(e, s, s);
  }

  lemma {:induction false} ActSpends(e: Engine, s: Walk, done: map<nat, Reply>)
    requires s.index < |e.rules|
    ensures Spends(e, s, Act(e, s, done))
  {
    AdvanceSpends(e, s, s);
    match e.rules[s.index].action
    case SetOptions(o) => AdvanceSpends(e, s, s.(options := Apply(s.options, o)));
    case Evaluate(server, tag, speculative, o) => EvaluateSpends(e, s, server, tag, speculative, o);
    case Route(server, speculative, o) => RouteSpends(e, s, server, speculative, o);
    case _ =>
  }

  /** Acting on a rule leaves the recorded responses alone, only adds futures, and goes on rule by rule. */
  ghost predicate Tame(s: Walk, step: Step) {
    && step.state.responses == s.responses && step.state.settled == s.settled && s.futures <= step.state.futures
    && (step.Next? ==> step.state.index == s.index + 1)
  }

  lemma {:induction false} EvaluateIsTame(e: Engine, s: Walk, server: string, tag: string, speculative: bool,
                                          o: ActionOptions)
    ensures Tame(s, ActEvaluate(e, s, server, tag, speculative, o))
  {
  }

  lemma {:induction false} RouteIsTame(e: Engine, s: Walk, server: string, speculative: bool, o: ActionOptions)
    ensures Tame(s, ActRoute(e, s, server, speculative, o))
  {
  }

  lemma {:induction false} RespondIsTame(s: Walk, rule: Rule, done: map<nat, Reply>)
    ensures Tame(s, ActRespond(s, rule, done))
  {
  }

  lemma {:induction false} OptionsAreTame(s: Walk, options: Options)
    ensures Tame(s, Next(Advance(s.(options := options))))
  {
  }

  lemma {:induction false} ActIsTame(e: Engine, s: Walk, done: map<nat, Reply>)
    requires s.index < |e.rules|
    ensures Tame(s, Act(e, s, done))
  {
    match e.rules[s.index].action
    case SetOptions(o) => OptionsAreTame(s, Apply(s.options, o));
    case Evaluate(server, tag, speculative, o) => EvaluateIsTame(e, s, server, tag, speculative, o);
    case Route(server, speculative, o) => RouteIsTame(e, s, server, speculative, o);
    case Respond => RespondIsTame(s, e.rules[s.index], done);
    case _ =>
  }

  lemma {:induction false} SweptSpends(e: Engine, s: Walk, swept: Swept)
    requires s.index < |e.rules| && |swept.state.armed| <= |s.armed| + 1
    requires swept.state == s.(armed := swept.state.armed)
    ensures Spends(e, s, AfterSweep(swept))
  {
  }

  lemma {:induction false} ArmSpends(e: Engine, s: Walk, done: map<nat, Reply>)
    requires WalkOk(e, s) && Behind(s) && s.index < |e.rules| && e.rules[s.index].Racing()
    ensures Spends(e, s, Arm(e, s, done))
  {
    var a := ArmedEntry(e, s, done);
    WaitsKnown(e.rules[s.index], s, done);
    ArmingKeepsOk(e, s, a);
    var s1 := s.(armed := s.armed + [a]);
    SweepKeepsOrder(e, s1, done);
    var swept := Sweep(e, s1, done);
    assert swept.state == s.(armed := swept.state.armed);
    SweptSpends(e, s, swept);
  }

  lemma {:induction false} VisitSpends(e: Engine, s: Walk, done: map<nat, Reply>, seen: set<nat>)
    requires WalkOk(e, s) && Behind(s)
    ensures Spends(e, s, Visit(e, s, done, seen))
  {
    if s.index < |e.rules| {
      var rule := e.rules[s.index];
      if rule.HasBindings() {
        SettleKeepsOk(e, s, done, seen);
        var s1 := Settle(s, done, seen);
        if rule.race {
          ArmSpends(e, s1, done);
        } else if Waits(rule, s1, done) == [] {
          ActSpends(e, s1, done);
        }
      } else {
        ActSpends(e, s, done);
      }
    }
  }

  lemma {:induction false} AfterSweepHolds(e: Engine, swept: Swept)
    requires swept.Committed? && !swept.verdict.Pass? && swept.rule < |e.rules| && e.rules[swept.rule].Racing()
    ensures AfterSweep(swept).Return? ==> HeldBack(e, AfterSweep(swept).state, AfterSweep(swept).rule)
  {
  }

  lemma {:induction false} ArmHolds(e: Engine, s: Walk, done: map<nat, Reply>)
    requires WalkOk(e, s) && Behind(s) && s.index < |e.rules| && e.rules[s.index].Racing() && Arm(e, s, done).Return?
    ensures HeldBack(e, Arm(e, s, done).state, Arm(e, s, done).rule)
  {
    var a := ArmedEntry(e, s, done);
    WaitsKnown(e.rules[s.index], s, done);
    ArmingKeepsOk(e, s, a);
    var s1 := s.(armed := s.armed + [a]);
    var swept := Sweep(e, s1, done);
    var winner := SweepPicksLowestRule(e, s1, done);
    assert ArmedOk(e, s1.index, s1.futures, winner);
    AfterSweepHolds(e, swept);
  }

  lemma {:induction false} ActHolds(e: Engine, s: Walk, done: map<nat, Reply>)
    requires s.index < |e.rules| && Act(e, s, done).Return?
    ensures Act(e, s, done).state == s && s.armed == []
  {
  }

  /** A visit that ends the walk was decided by a race rule, or nothing is armed. */
  lemma {:induction false} VisitHolds(e: Engine, s: Walk, done: map<nat, Reply>, seen: set<nat>)
    requires WalkOk(e, s) && Behind(s) && Visit(e, s, done, seen).Return?
    ensures HeldBack(e, Visit(e, s, done, seen).state, Visit(e, s, done, seen).rule)
  {
    var rule := e.rules[s.index];
    if !rule.HasBindings() {
      ActHolds(e, s, done);
      return;
    }
    SettleKeepsOk(e, s, done, seen);
    var s1 := Settle(s, done, seen);
    if rule.race {
      ArmHolds(e, s1, done);
    } else {
      ActHolds(e, s1, done);
    }
  }

  lemma {:induction false} VisitRuleKeepsOk(e: Engine, c: Config, seen: set<nat>)
    requires ConfigOk(e, c) && Enabled(c, VisitRule(seen))
    ensures ConfigOk(e, Fire(e, c, VisitRule(seen)))
  {
    var step := Visit(e, c.s, c.done, seen);
    VisitKeepsOk(e, c.s, c.done, seen);
    VisitSpends(e, c.s, c.done, seen);
    if step.Suspend? {
      VisitSuspends(e, c.s, c.done, seen);
    } else if step.Return? {
      VisitHolds(e, c.s, c.done, seen);
    }
  }

  /** After a sweep that commits nothing, every rule still armed waits on a launched, unresolved future. */
  lemma {:induction false} UnsweptWaits(e: Engine, s: Walk, done: map<nat, Reply>)
    requires WalkOk(e, s) && Sweep(e, s, done).Unswept?
    ensures var s' := Sweep(e, s, done).state;
      && s' == s.(armed := s'.armed)
      && forall a :: a in s'.armed ==> WaitsBeyond(s'.futures, a, done.Keys)
  {
    var _ := SweepArbitrates(e, s, done);
    var s' := Sweep(e, s, done).state;
    forall a | a in s'.armed ensures WaitsBeyond(s'.futures, a, done.Keys) {
      assert a in s.armed && !a.Ready(done);
      assert ArmedOk(e, s.index, s.futures, a);
      var f :| f in a.waits && !f.Resolved(done);
      assert Known(s'.futures, f);
    }
  }

  /** What the driver may rely on once its settle and sweep are over. */
  ghost predicate SweptOk(e: Engine, c: Config, swept: Swept) {
    && WalkOk(e, swept.state)
    && Behind(swept.state)
    && swept.state.futures == c.s.futures
    && |swept.state.armed| <= |c.s.armed|
    && (swept.Committed? ==> !swept.verdict.Pass? && swept.rule < |e.rules| && e.rules[swept.rule].Racing())
    && (swept.Unswept? ==> forall a :: a in swept.state.armed ==> WaitsBeyond(c.s.futures, a, c.done.Keys))
  }

  lemma {:induction false} DriverSweeps(e: Engine, c: Config, seen: set<nat>)
    requires WalkOk(e, c.s) && Behind(c.s)
    ensures SweptOk(e, c, Sweep(e, Settle(c.s, c.done, seen), c.done))
  {
    var s1 := Settle(c.s, c.done, seen);
    SettleKeepsOk(e, c.s, c.done, seen);
    SweepKeepsOk(e, s1, c.done);
    SweepKeepsOrder(e, s1, c.done);
    if Sweep(e, s1, c.done).Committed? {
      var winner := SweepPicksLowestRule(e, s1, c.done);
      assert ArmedOk(e, s1.index, s1.futures, winner);
    } else {
      UnsweptWaits(e, s1, c.done);
    }
  }

  lemma {:induction false} BeginFinishKeepsOk(e: Engine, c: Config, p: Pending)
    requires ConfigOk(e, c.(phase := Walking)) && HeldBack(e, c.s, p.rule)
    requires p.Speculated? ==> Known(c.s.futures, p.future)
    ensures ConfigOk(e, BeginFinish(c, p))
  {
  }

  lemma {:induction false} CommitKeepsOk(e: Engine, c: Config, rule: nat, verdict: Verdict)
    requires ConfigOk(e, c.(phase := Walking)) && HeldBack(e, c.s, rule) && !verdict.Pass?
    ensures ConfigOk(e, Commit(c, rule, verdict))
  {
    if verdict.Ask? {
      BeginFinishKeepsOk(e, c, PendingOf(rule, verdict));
    }
  }

  lemma {:induction false} AfterPassKeepsOk(e: Engine, c: Config, swept: Swept)
    requires ConfigOk(e, c) && c.phase.Driving? && SweptOk(e, c, swept)
    ensures ConfigOk(e, AfterPass(c, c.phase.why, swept))
  {
    var why := c.phase.why;
    var c1 := c.(s := swept.state, observed := c.done.Keys);
    assert ConfigOk(e, c1.(phase := Walking));
    if swept.Committed? {
      CommitKeepsOk(e, c1, swept.rule, swept.verdict);
      return;
    }
    if why.PendingOn? {
      assert swept.state.armed == [];
      BeginFinishKeepsOk(e, c1, why.pending);
    }
  }

  lemma {:induction false} DriveKeepsOk(e: Engine, c: Config, seen: set<nat>)
    requires ConfigOk(e, c) && Enabled(c, Drive(seen))
    ensures ConfigOk(e, DriveOnce(e, c, seen))
  {
    DriverSweeps(e, c, seen);
    AfterPassKeepsOk(e, c, Sweep(e, Settle(c.s, c.done, seen), c.done));
  }

  /** Every event keeps the invariant. */
  lemma {:induction false} FireKeepsOk(e: Engine, c: Config, ev: Event)
    requires ConfigOk(e, c) && Enabled(c, ev)
    ensures ConfigOk(e, Fire(e, c, ev))
  {
    match ev
    case VisitRule(seen) => VisitRuleKeepsOk(e, c, seen);
    case Drive(seen) => DriveKeepsOk(e, c, seen);
    case Complete(k, _) =>
    case Signal(_) =>
    case CancelContext =>
    case Wake =>
    case Abort =>
    case Exchange(_) =>
    case Collect =>
  }

  lemma {:induction false} RunKeepsOk(e: Engine, c: Config, events: seq<Event>, c': Config)
    requires ConfigOk(e, c) && Runs(e, c, events, c')
    ensures ConfigOk(e, c')
    decreases |events|
  {
    if events != [] {
      FireKeepsOk(e, c, events[0]);
      RunKeepsOk(e, Fire(e, c, events[0]), events[1..], c');
    }
  }

  lemma {:induction false} ReachableOk(e: Engine, options: Options, c: Config)
    requires Reachable(e, options, c)
    ensures ConfigOk(e, c)
  {
    var events :| Runs(e, InitialConfig(options), events, c);
    RunKeepsOk(e, InitialConfig(options), events, c);
  }
}
