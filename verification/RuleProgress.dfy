/**
 * Whole runs of the rule engine: they are bounded, they never deadlock or lose a wake-up, and when
 * one ends every launched future is accounted for and cancelled.
 */
module RuleProgress {
  import opened QueryOptions
  import opened RuleEngine
  import opened RuleSweep
  import opened RuleRun
  import opened RuleSafety
  import opened RuleInvariant

  function Rank(c: Config): nat {
    match c.phase
    case Walking => 3
    case Driving(why) => if why.Await? && why.future.Resolved(c.done) then 4 else 2
    case Blocked(_) => 1
    case Finishing(_) => 1
    case Finished(_, _) => 0
  }

  function Measure(e: Engine, c: Config): int {
    Effort(e, c.s) - 8 * |c.done| + 5 * |c.unsent| + (if c.token then 4 else 0) + (if c.ctxDone then 0 else 1) + Rank(c)
  }

  /** A visit lowers the effort by more than the rank can rise. */
  lemma {:induction false} StepLowers(e: Engine, c: Config, step: Step)
    requires c.phase.Walking?
    requires Spends(e, c.s, step)
    requires step.Suspend? && step.why.Await? ==> !step.why.future.Resolved(c.done)
    ensures Measure(e, AfterVisit(c, step)) < Measure(e, c)
  {
  }

  lemma {:induction false} VisitLowers(e: Engine, c: Config, seen: set<nat>)
    requires ConfigOk(e, c) && Enabled(c, VisitRule(seen))
    ensures Measure(e, Fire(e, c, VisitRule(seen))) < Measure(e, c)
  {
    var step := Visit(e, c.s, c.done, seen);
    VisitSpends(e, c.s, c.done, seen);
    if step.Suspend? {
      VisitSuspends(e, c.s, c.done, seen);
    }
    StepLowers(e, c, step);
  }

  lemma {:induction false} CommitLowers(e: Engine, c: Config, rule: nat, verdict: Verdict)
    requires c.phase.Driving? && !verdict.Pass?
    ensures Measure(e, Commit(c, rule, verdict)) < Measure(e, c)
  {
  }

  lemma {:induction false} PhaseChangeLowers(e: Engine, c: Config, c': Config)
    requires c' == c.(phase := c'.phase, cancelled := c'.cancelled) && Rank(c') < Rank(c)
    ensures Measure(e, c') < Measure(e, c)
  {
  }

  lemma {:induction false} DriveLowers(e: Engine, c: Config, swept: Swept)
    requires ConfigOk(e, c) && c.phase.Driving? && SweptOk(e, c, swept)
    requires swept.state == c.s.(armed := swept.state.armed, settled := swept.state.settled,
                                 responses := swept.state.responses, sources := swept.state.sources)
    ensures Measure(e, AfterPass(c, c.phase.why, swept)) < Measure(e, c)
  {
    var c1 := c.(s := swept.state, observed := c.done.Keys);
    var c' := AfterPass(c, c.phase.why, swept);
    assert Measure(e, c1) <= Measure(e, c);
    if swept.Committed? {
      CommitLowers(e, c1, swept.rule, swept.verdict);
    } else if c.phase.why.Drain? && c'.phase.Walking? {
      assert |c.s.armed| >= 1 && |swept.state.armed| == 0;
    } else {
      PhaseChangeLowers(e, c1, c');
    }
  }

  lemma {:induction false} DriverLowers(e: Engine, c: Config, seen: set<nat>)
    requires ConfigOk(e, c) && Enabled(c, Drive(seen))
    ensures Measure(e, DriveOnce(e, c, seen)) < Measure(e, c)
  {
    var s1 := Settle(c.s, c.done, seen);
    DriverSweeps(e, c, seen);
    SettleKeepsOk(e, c.s, c.done, seen);
    SweepKeepsOrder(e, s1, c.done);
    DriveLowers(e, c, Sweep(e, s1, c.done));
  }

  lemma {:induction false} CompletionLowers(e: Engine, c: Config, k: nat, reply: Reply)
    requires ConfigOk(e, c) && k < |c.s.futures| && k !in c.done
    ensures Measure(e, c.(done := c.done[k := reply], unsent := c.unsent + {k})) < Measure(e, c)
  {
    assert |c.done[k := reply]| == |c.done| + 1;
    assert k !in c.unsent;
  }

  lemma {:induction false} SignalLowers(e: Engine, c: Config, k: nat)
    requires k in c.unsent
    ensures Measure(e, c.(unsent := c.unsent - {k}, token := true)) < Measure(e, c)
  {
    assert |c.unsent - {k}| == |c.unsent| - 1;
  }

  /** The events that only change the phase. */
  lemma {:induction false} PhaseLowers(e: Engine, c: Config, ev: Event)
    requires Enabled(c, ev) && (ev.CancelContext? || ev.Wake? || ev.Abort? || ev.Exchange? || ev.Collect?)
    ensures Measure(e, Fire(e, c, ev)) < Measure(e, c)
  {
  }

  /** Every event, of the driver and of its surroundings, uses up some of a fixed budget. */
  lemma {:induction false} FireLowers(e: Engine, c: Config, ev: Event)
    requires ConfigOk(e, c) && Enabled(c, ev)
    ensures Measure(e, Fire(e, c, ev)) < Measure(e, c)
  {
    match ev
    case VisitRule(seen) => VisitLowers(e, c, seen);
    case Drive(seen) => DriverLowers(e, c, seen);
    case Complete(k, reply) => CompletionLowers(e, c, k, reply);
    case Signal(k) => SignalLowers(e, c, k);
    case _ => PhaseLowers(e, c, ev);
  }

  lemma {:induction false} SubsetCard(a: set<nat>, b: set<nat>)
    requires a <= b
    ensures |a| <= |b|
  {
    assert b == a + (b - a);
  }

  lemma {:induction false} MeasureNonnegative(e: Engine, c: Config)
    requires ConfigOk(e, c)
    ensures 0 <= Measure(e, c)
  {
    SubsetCard(c.done.Keys, Ids(c.s));
    assert |c.done| == |c.done.Keys|;
  }

  lemma {:induction false} RunSpends(e: Engine, c: Config, events: seq<Event>, c': Config)
    requires ConfigOk(e, c) && Runs(e, c, events, c')
    ensures ConfigOk(e, c') && |events| + Measure(e, c') <= Measure(e, c)
    decreases |events|
  {
    if events != [] {
      FireKeepsOk(e, c, events[0]);
      FireLowers(e, c, events[0]);
      RunSpends(e, Fire(e, c, events[0]), events[1..], c');
    }
  }

  /** Termination: no run, whatever completes in whatever order, has more than 11 events a rule plus 13. */
  lemma {:induction false} RunsAreBounded(e: Engine, options: Options, events: seq<Event>, c: Config)
    requires Runs(e, InitialConfig(options), events, c)
    ensures |events| <= 11 * |e.rules| + 13
  {
    RunSpends(e, InitialConfig(options), events, c);
    MeasureNonnegative(e, c);
  }

  /** No deadlock: as long as no result is delivered, something other than cancellation can still happen. */
  lemma {:induction false} NeverStuck(e: Engine, options: Options, c: Config) returns (ev: Event)
    requires Reachable(e, options, c) && !c.phase.Finished?
    ensures Enabled(c, ev) && !ev.CancelContext?
    ensures c.done.Keys == Ids(c.s) && c.unsent == {} ==> !ev.Complete? && !ev.Signal?
  {
    ReachableOk(e, options, c);
    if k :| k in Ids(c.s) && k !in c.done {
      ev := Complete(k, Failed(0));
    } else if k :| k in c.unsent {
      ev := Signal(k);
    } else {
      match c.phase
      case Walking => ev := VisitRule({});
      case Driving(_) => ev := Drive({});
      case Blocked(why) =>
        ev := Wake;
        WakesUp(c, why);
      case Finishing(p) => ev := if p.Query? then Exchange(Failed(0)) else Collect;
    }
  }

  /** Once every launched future has completed and signalled, a blocked driver has a token waiting. */
  lemma {:induction false} WakesUp(c: Config, why: Suspension)
    requires c.phase == Blocked(why) && SuspensionOk(c.s, why) && BlockedOk(c, why)
    requires Ids(c.s) <= c.done.Keys && c.unsent == {}
    ensures c.token
  {
    if why.Await? {
      assert why.future.id in c.done && why.future.id !in c.observed;
    } else {
      var a := c.s.armed[0];
      assert WaitsBeyond(c.s.futures, a, c.observed);
      var f :| f in a.waits && Known(c.s.futures, f) && f.id !in c.observed;
      assert f.id in c.done;
    }
  }

  /** The safety of every reachable configuration, spelled out. */
  lemma {:induction false} ReachableIsSafe(e: Engine, options: Options, c: Config)
    requires Reachable(e, options, c)
    // each rule index launches at most one future
    ensures OnePerRule(c.s.futures)
    // the armed list is sorted by rule index, and only holds race rules
    ensures Sorted(c.s.armed) && forall a :: a in c.s.armed ==> a.rule < |e.rules| && e.rules[a.rule].Racing()
    // a pending exchange leaves nothing armed
    ensures c.phase.Driving? && c.phase.why.PendingOn? ==> c.s.armed == []
    // when the result is returned every launched future has been cancelled
    ensures c.phase.Finished? ==> c.cancelled == Ids(c.s)
    // and it was decided by a race rule unless nothing was armed any more
    ensures c.phase.Finished? && !c.phase.result.Cancelled? ==> HeldBack(e, c.s, c.phase.rule)
    // a blocked driver cannot miss a completion
    ensures c.phase.Blocked? ==> NoLostWakeUp(c)
    ensures c.phase.Blocked? ==> forall a :: a in c.s.armed ==> WaitsBeyond(c.s.futures, a, c.observed)
  {
    ReachableOk(e, options, c);
    forall a | a in c.s.armed ensures a.rule < |e.rules| && e.rules[a.rule].Racing() {
      assert ArmedOk(e, c.s.index, c.s.futures, a);
    }
  }

  /**
   * `exchangeWithRulesAsync` answers a suspension that is a plain pending query at once. The driver,
   * given the same suspension, asks the same transport with the same options and nothing else.
   */
  lemma {:induction false} AsyncPathAgrees(e: Engine, options: Options, c: Config, seen: set<nat>, reply: Reply)
    requires Reachable(e, options, c) && c.phase.Driving? && c.phase.why.PendingOn? && c.phase.why.pending.Query?
    requires seen <= c.done.Keys
    ensures var p := c.phase.why.pending;
      var c1 := Fire(e, c, Drive(seen));
      && Enabled(c1, Exchange(reply))
      && Fire(e, c1, Exchange(reply)).phase ==
        Finished(p.rule, Exchanged(p.transport, Finalize(p.options, e.defaultStrategy), reply))
  {
    ReachableOk(e, options, c);
    var _ := SweepArbitrates(e, Settle(c.s, c.done, seen), c.done);
  }
}
