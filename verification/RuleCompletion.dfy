/** Total correctness of the rule engine: a fair run can always be completed, and then it delivers a result. */
module RuleCompletion {
  import opened QueryOptions
  import opened RuleEngine
  import opened RuleRun
  import opened RuleInvariant
  import opened RuleProgress
  import opened Sequential
  import opened RuleOutcome

  /** Until a result is delivered, some event other than cancellation can happen with the answers as given. */
  lemma {:induction false} FairStep(e: Engine, answer: Answers, c: Config) returns (ev: Event)
    requires ConfigOk(e, c) && !c.phase.Finished?
    ensures Enabled(c, ev) && Fair(e, answer, c, ev) && !ev.CancelContext?
  {
    if k :| k in Ids(c.s) && k !in c.done {
      return Complete(k, answer(OriginOf(c.s.futures[k])));
    }
    if k :| k in c.unsent {
      return Signal(k);
    }
    match c.phase
    case Walking => ev := VisitRule(c.done.Keys);
    case Driving(_) => ev := Drive(c.done.Keys);
    case Blocked(why) =>
      ev := Wake;
      WakesUp(c, why);
    case Finishing(p) => ev := if p.Query? then Exchange(answer(OriginOfPending(e, p))) else Collect;
  }

  lemma {:induction false} FairPrepend(e: Engine, answer: Answers, c: Config, ev: Event, events: seq<Event>, c': Config)
    requires Enabled(c, ev) && Fair(e, answer, c, ev) && FairRun(e, answer, Fire(e, c, ev), events, c')
    ensures FairRun(e, answer, c, [ev] + events, c')
  {
    assert ([ev] + events)[1..] == events;
  }

  /** Whatever has happened so far, the run can be completed fairly. */
  lemma {:induction false} FairRunCompletes(e: Engine, answer: Answers, c: Config)
    returns (events: seq<Event>, c': Config)
    requires ConfigOk(e, c)
    ensures FairRun(e, answer, c, events, c') && c'.phase.Finished?
    decreases Measure(e, c)
  {
    if c.phase.Finished? {
      return [], c;
    }
    var ev := FairStep(e, answer, c);
    FireKeepsOk(e, c, ev);
    FireLowers(e, c, ev);
    MeasureNonnegative(e, Fire(e, c, ev));
    var rest;
    rest, c' := FairRunCompletes(e, answer, Fire(e, c, ev));
    FairPrepend(e, answer, c, ev, rest, c');
    events := [ev] + rest;
  }

  /** For every validated list there is a fair run, and without race rules it ends with the sequential result. */
  lemma {:induction false} EveryQueryIsAnswered(e: Engine, answer: Answers, options: Options)
    returns (events: seq<Event>, c: Config)
    requires Validated(e) && ReadsDeclared(e)
    ensures FairRun(e, answer, InitialConfig(options), events, c) && c.phase.Finished? && !c.phase.result.Cancelled?
    ensures (forall i :: 0 <= i < |e.rules| ==> !e.rules[i].race) ==>
      var (first, result) := Interpret(e, answer, 0, InitialSigma(options));
      c.phase == Finished(first, result)
  {
    events, c := FairRunCompletes(e, answer, InitialConfig(options));
    OutcomeIsEntitled(e, answer, options, events, c);
    if forall i :: 0 <= i < |e.rules| ==> !e.rules[i].race {
      ScheduleIndependence(e, answer, options, events, c);
    }
  }
}
