/**
 * What a completion between settling and testing costs: exactly when it goes unseen, and that it can change
 * a result.
 */
module RuleGap {
  import opened Wrappers
  import opened Netip
  import opened QueryOptions
  import opened RuleEngine
  import opened RuleSweep
  import opened RuleRun
  import opened RuleSafety
  import opened RuleInvariant
  import opened Sequential
  import opened RuleOutcome

  // ------------------------------------------- what every answered run keeps, gaps or not

  /** Exchanges reply as `answer` says; settle passes may have seen anything, and the caller may give up. */
  ghost predicate Answering(answer: Answers, c: Config, ev: Event) {
    ev.Complete? ==> ev.id < |c.s.futures| && ev.reply == answer(OriginOf(c.s.futures[ev.id]))
  }

  ghost predicate AnsweredRun(e: Engine, answer: Answers, c: Config, events: seq<Event>, c': Config)
    decreases |events|
  {
    if events == [] then c' == c
    else
      && Enabled(c, events[0]) && Answering(answer, c, events[0])
      && AnsweredRun(e, answer, Fire(e, c, events[0]), events[1..], c')
  }

  ghost predicate StepData(answer: Answers, done: map<nat, Reply>, step: Step) { DataOk(answer, step.state, done) }

  lemma {:induction false} EvaluateData(e: Engine, answer: Answers, s: Walk, done: map<nat, Reply>, server: string,
                                        tag: string, speculative: bool, o: ActionOptions)
    requires Validated(e) && WalkOk(e, s) && DataOk(answer, s, done) && done.Keys <= Ids(s)
    requires s.index < |e.rules| && e.rules[s.index].action == Evaluate(server, tag, speculative, o)
    ensures StepData(answer, done, ActEvaluate(e, s, server, tag, speculative, o))
  {
    if server in e.transports && (speculative || s.armed == []) {
      var f := Future(|s.futures|, tag, s.index, server, Finalize(Apply(s.options, o), e.defaultStrategy), false);
      if tag != "" {
        assert DefinesTag(e, s.index);
        TagIsFresh(e, s, s.index);
      } else {
        assert tag !in s.named;
      }
      BindData(answer, s, done, f);
    }
  }

  lemma {:induction false} RouteData(e: Engine, answer: Answers, s: Walk, done: map<nat, Reply>, server: string,
                                     speculative: bool, o: ActionOptions)
    requires WalkOk(e, s) && DataOk(answer, s, done) && done.Keys <= Ids(s)
    ensures StepData(answer, done, ActRoute(e, s, server, speculative, o))
  {
    var q := ResolveRoute(e, s.options, server, o);
    if q.Some? && s.armed != [] && speculative && s.terminal.None? {
      var f := Future(|s.futures|, "", s.index, server, Finalize(q.value, e.defaultStrategy), true);
      LaunchData(answer, s, done, f);
      assert NamesOk(s.futures + [f], s.named);
    }
  }

  lemma {:induction false} DataAlike(answer: Answers, s: Walk, s': Walk, done: map<nat, Reply>)
    requires DataOk(answer, s, done) && s'.futures == s.futures && s'.named == s.named && s'.settled == s.settled
    requires s'.responses == s.responses && s'.sources == s.sources
    ensures DataOk(answer, s', done)
  {
  }

  lemma {:induction false} RespondData(answer: Answers, s: Walk, rule: Rule, done: map<nat, Reply>)
    requires DataOk(answer, s, done)
    ensures StepData(answer, done, ActRespond(s, rule, done))
  {
  }

  lemma {:induction false} PlainActData(e: Engine, answer: Answers, s: Walk, done: map<nat, Reply>)
    requires DataOk(answer, s, done) && s.index < |e.rules|
    requires var action := e.rules[s.index].action; !action.Evaluate? && !action.Respond? && !action.Route?
    ensures StepData(answer, done, Act(e, s, done))
  {
    var s' := Act(e, s, done).state;
    assert s' == s.(index := s'.index, options := s'.options);
    DataAlike(answer, s, s', done);
  }

  lemma {:induction false} SkippedData(answer: Answers, s: Walk, done: map<nat, Reply>)
    requires DataOk(answer, s, done)
    ensures StepData(answer, done, Next(Advance(s)))
  {
    DataAlike(answer, s, Advance(s), done);
  }

  lemma {:induction false} ActData(e: Engine, answer: Answers, s: Walk, done: map<nat, Reply>)
    requires Validated(e) && WalkOk(e, s) && DataOk(answer, s, done) && done.Keys <= Ids(s) && s.index < |e.rules|
    ensures StepData(answer, done, Act(e, s, done))
  {
    SkippedData(answer, s, done);
    match e.rules[s.index].action
    case Evaluate(server, tag, speculative, o) => EvaluateData(e, answer, s, done, server, tag, speculative, o);
    case Respond => RespondData(answer, s, e.rules[s.index], done);
    case Route(server, speculative, o) => RouteData(e, answer, s, done, server, speculative, o);
    case _ => PlainActData(e, answer, s, done);
  }

  lemma {:induction false} SweepData(e: Engine, answer: Answers, s: Walk, done: map<nat, Reply>)
    requires DataOk(answer, s, done)
    ensures DataOk(answer, Sweep(e, s, done).state, done)
  {
    var _ := SweepArbitrates(e, s, done);
  }

  lemma {:induction false} ArmData(e: Engine, answer: Answers, s: Walk, done: map<nat, Reply>)
    requires DataOk(answer, s, done) && s.index < |e.rules|
    ensures StepData(answer, done, Arm(e, s, done))
  {
    var s1 := s.(armed := s.armed + [ArmedEntry(e, s, done)]);
    SweepData(e, answer, s1, done);
    var swept := Sweep(e, s1, done);
    assert AfterSweep(swept).state.futures == swept.state.futures;
  }

  lemma {:induction false} VisitData(e: Engine, answer: Answers, s: Walk, done: map<nat, Reply>, seen: set<nat>)
    requires Validated(e) && WalkOk(e, s) && DataOk(answer, s, done) && done.Keys <= Ids(s)
    ensures StepData(answer, done, Visit(e, s, done, seen))
  {
    if s.index < |e.rules| {
      var rule := e.rules[s.index];
      if !rule.HasBindings() {
        ActData(e, answer, s, done);
        return;
      }
      SettlePrefixData(e, answer, s, done, seen, |s.futures|);
      SettleKeepsOk(e, s, done, seen);
      var s1 := Settle(s, done, seen);
      if rule.race {
        ArmData(e, answer, s1, done);
      } else if Waits(rule, s1, done) == [] {
        ActData(e, answer, s1, done);
      }
    }
  }

  lemma {:induction false} AfterPassState(c: Config, why: Suspension, swept: Swept)
    ensures AfterPass(c, why, swept).s == swept.state && AfterPass(c, why, swept).done == c.done
  {
  }

  lemma {:induction false} DriveData(e: Engine, answer: Answers, c: Config, seen: set<nat>)
    requires WalkOk(e, c.s) && DataOk(answer, c.s, c.done) && c.phase.Driving?
    ensures DataOk(answer, DriveOnce(e, c, seen).s, DriveOnce(e, c, seen).done)
  {
    AfterPassState(c, c.phase.why, Sweep(e, Settle(c.s, c.done, seen), c.done));
    SettlePrefixData(e, answer, c.s, c.done, seen, |c.s.futures|);
    SweepData(e, answer, Settle(c.s, c.done, seen), c.done);
  }

  lemma {:induction false} VisitingData(e: Engine, answer: Answers, c: Config, seen: set<nat>)
    requires Validated(e) && ConfigOk(e, c) && DataOk(answer, c.s, c.done)
    ensures
      var c' := AfterVisit(c, Visit(e, c.s, c.done, seen));
      DataOk(answer, c'.s, c'.done)
  {
    VisitData(e, answer, c.s, c.done, seen);
  }

  lemma {:induction false} CompletingData(answer: Answers, c: Config, k: nat, reply: Reply)
    requires DataOk(answer, c.s, c.done) && k < |c.s.futures| && reply == answer(OriginOf(c.s.futures[k]))
    ensures DataOk(answer, c.s, c.done[k := reply])
  {
    assert Faithful(answer, c.s.futures, c.done[k := reply]);
  }

  lemma {:induction false} OtherEventsKeep(e: Engine, c: Config, ev: Event)
    requires Enabled(c, ev) && !ev.VisitRule? && !ev.Drive? && !ev.Complete?
    ensures Fire(e, c, ev).s == c.s && Fire(e, c, ev).done == c.done
  {
  }

  lemma {:induction false} AnsweringKeepsData(e: Engine, answer: Answers, c: Config, ev: Event)
    requires Validated(e) && ConfigOk(e, c) && DataOk(answer, c.s, c.done) && Enabled(c, ev) && Answering(answer, c, ev)
    ensures DataOk(answer, Fire(e, c, ev).s, Fire(e, c, ev).done)
  {
    match ev
    case VisitRule(seen) => VisitingData(e, answer, c, seen);
    case Drive(seen) => DriveData(e, answer, c, seen);
    case Complete(k, reply) => CompletingData(answer, c, k, reply);
    case _ => OtherEventsKeep(e, c, ev);
  }

  /** In every answered run of a validated list, whatever its gaps, the recorded responses are the right ones. */
  lemma {:induction false} AnsweredRunKeepsData(e: Engine, answer: Answers, c: Config, events: seq<Event>, c': Config)
    requires Validated(e) && ConfigOk(e, c) && DataOk(answer, c.s, c.done) && AnsweredRun(e, answer, c, events, c')
    ensures ConfigOk(e, c') && DataOk(answer, c'.s, c'.done)
    decreases |events|
  {
    if events != [] {
      AnsweringKeepsData(e, answer, c, events[0]);
      FireKeepsOk(e, c, events[0]);
      AnsweredRunKeepsData(e, answer, Fire(e, c, events[0]), events[1..], c');
    }
  }

  /**
   * Exactly when a rule sees a completed named response, in every answered run of a validated list: the
   * settle pass before the test saw the completion, an earlier one did, or there is no message to see.
   */
  lemma {:induction false} SeesResponseIff(e: Engine, answer: Answers, options: Options, events: seq<Event>, c: Config,
                                           seen: set<nat>, tag: string)
    requires Validated(e) && AnsweredRun(e, answer, InitialConfig(options), events, c)
    requires tag in c.s.named && c.s.named[tag].Resolved(c.done)
    ensures var f := c.s.named[tag];
      (Look(Settle(c.s, c.done, seen).responses, tag) == answer(OriginOf(f)).View()) <==>
      (f.id in seen || f.id in c.s.settled || answer(OriginOf(f)).View().None?)
  {
    AnsweredRunKeepsData(e, answer, InitialConfig(options), events, c);
    SettlePrefixData(e, answer, c.s, c.done, seen, |c.s.futures|);
    SettlePrefixCovers(c.s, c.done, seen, |c.s.futures|);
    var s' := Settle(c.s, c.done, seen);
    assert s'.named == c.s.named;
  }

  /** So what fairness asks of a judged rule is exactly that it sees every completed response it names. */
  lemma {:induction false} NoticedIff(e: Engine, answer: Answers, options: Options, events: seq<Event>, c: Config,
                                      seen: set<nat>, tags: seq<string>)
    requires Validated(e) && AnsweredRun(e, answer, InitialConfig(options), events, c)
    ensures Noticed(answer, c.s, c.done, seen, tags) <==>
      forall t :: t in tags && t in c.s.named && c.s.named[t].Resolved(c.done) ==>
        Look(Settle(c.s, c.done, seen).responses, t) == answer(OriginOf(c.s.named[t])).View()
  {
    forall t | t in tags && t in c.s.named && c.s.named[t].Resolved(c.done)
      ensures Look(Settle(c.s, c.done, seen).responses, t) == answer(OriginOf(c.s.named[t])).View() <==>
        c.s.named[t].id in seen || c.s.named[t].id in c.s.settled || answer(OriginOf(c.s.named[t])).View().None?
    {
      SeesResponseIff(e, answer, options, events, c, seen, t);
    }
  }

  // ------------------------------------------------------- the gap, concretely

  function PlainOptions(): Options { Options(AsIs, false, false, None, 0, NO_PREFIX, false) }

  function PlainAction(): ActionOptions { ActionOptions(AsIs, false, false, None, 0, NO_PREFIX, false) }

  /** Evaluate on server x as tag a; route to server y when a's response is present; default server z. */
  function GapEngine(): Engine {
    Engine(
      [Rule("", [], false, false, Evaluate("x", "a", false, PlainAction())),
       Rule("a", ["a"], false, false, Route("y", false, PlainAction()))],
      (i, v: View) => i == 0 || Look(v.named, "a").Some?,
      map["x" := false, "y" := false, "z" := false], "z", AsIs, true)
  }

  function Yes(): Reply { Answered(Some(Message(1))) }

  function AlwaysYes(): Answers { _ => Yes() }

  function GapFuture(): Future { Future(0, "a", 0, "x", PlainOptions(), false) }

  /** The walk after rule 0, and after rule 1 was passed without seeing the response. */
  function GapWalk(index: nat): Walk {
    InitialWalk(PlainOptions()).(index := index, futures := [GapFuture()], named := map["a" := GapFuture()])
  }

  /** The response completes after the settle pass of rule 1 (which sees nothing) and before its test. */
  function GapTail(n: nat): seq<Event>
    requires n <= 6
    decreases 6 - n
  {
    if n == 6 then [] else [GapEvent(n)] + GapTail(n + 1)
  }

  function GapEvent(n: nat): Event
    requires n < 6
  {
    if n == 0 then VisitRule({})
    else if n == 1 then Complete(0, Yes())
    else if n == 2 then VisitRule({})
    else if n == 3 then VisitRule({0})
    else if n == 4 then Drive({})
    else Exchange(Yes())
  }

  /** The configuration after the first `n` of those events. */
  function GapConfig(n: nat): Config
    requires n <= 6
  {
    var c0 := InitialConfig(PlainOptions());
    var c1 := c0.(s := GapWalk(1));
    var c2 := c1.(done := map[0 := Yes()], unsent := {0});
    var c3 := c2.(s := GapWalk(2));
    var p := Query(2, "z", PlainOptions());
    var c4 := c3.(phase := Driving(PendingOn(p)));
    var c5 := c4.(phase := Finishing(p), observed := {0}, cancelled := {0});
    var c6 := c5.(phase := Finished(2, Exchanged("z", PlainOptions(), Yes())));
    [c0, c1, c2, c3, c4, c5, c6][n]
  }

  lemma {:induction false} GapValidated()
    ensures Validated(GapEngine()) && ReadsDeclared(GapEngine())
  {
    var e := GapEngine();
    assert DefinesTag(e, 0);
    assert DefinedBefore(e, 1, "a");
  }

  lemma {:induction false} GapMeaning()
    ensures Interpret(GapEngine(), AlwaysYes(), 0, InitialSigma(PlainOptions())) ==
      (1, Exchanged("y", PlainOptions(), Yes()))
  {
    var e := GapEngine();
    var s0 := InitialSigma(PlainOptions());
    var s1 := Sigma(PlainOptions(), None, map["a" := Origin(0, "x", PlainOptions())]);
    assert Decide(e, AlwaysYes(), 0, s0) == None;
    assert PassOver(e, AlwaysYes(), 0, s0) == s1;
    assert Look(SigmaView(AlwaysYes(), s1).named, "a") == Some(Message(1));
    assert Decide(e, AlwaysYes(), 1, s1) == Some(Exchanged("y", PlainOptions(), Yes()));
  }

  lemma {:induction false} GapFirstStep()
    ensures Fire(GapEngine(), GapConfig(0), VisitRule({})) == GapConfig(1)
  {
  }

  lemma {:induction false} GapSecondStep()
    ensures Enabled(GapConfig(1), Complete(0, Yes())) &&
      Fire(GapEngine(), GapConfig(1), Complete(0, Yes())) == GapConfig(2)
  {
  }

  lemma {:induction false} GapFourthStep()
    ensures Enabled(GapConfig(3), VisitRule({0})) && Fire(GapEngine(), GapConfig(3), VisitRule({0})) == GapConfig(4)
  {
  }

  lemma {:induction false} GapSixthStep()
    ensures Enabled(GapConfig(5), Exchange(Yes())) && Fire(GapEngine(), GapConfig(5), Exchange(Yes())) == GapConfig(6)
  {
  }

  lemma {:induction false} GapThirdStep()
    ensures Fire(GapEngine(), GapConfig(2), VisitRule({})) == GapConfig(3)
  {
    var e := GapEngine();
    var done := map[0 := Yes()];
    assert SettlePrefix(GapWalk(1), done, {}, 1) == GapWalk(1);
    assert Unresolved(["a"], map["a" := GapFuture()], done) == [];
    assert Waits(e.rules[1], GapWalk(1), done) == [];
    assert Look(CurrentView(GapWalk(1), done).named, "a") == None;
    assert Act(e, GapWalk(1), done) == Next(GapWalk(2));
  }

  lemma {:induction false} GapFifthStep()
    ensures Fire(GapEngine(), GapConfig(4), Drive({})) == GapConfig(5)
  {
    assert SettlePrefix(GapWalk(2), map[0 := Yes()], {}, 1) == GapWalk(2);
  }

  lemma {:induction false} GapFromFifth()
    ensures Runs(GapEngine(), GapConfig(5), GapTail(5), GapConfig(6))
  {
    GapSixthStep();
    Prepend(GapEngine(), GapConfig(5), Exchange(Yes()), [], GapConfig(6));
  }

  lemma {:induction false} GapFromFourth()
    ensures Runs(GapEngine(), GapConfig(4), GapTail(4), GapConfig(6))
  {
    GapFromFifth();
    GapFifthStep();
    Prepend(GapEngine(), GapConfig(4), Drive({}), GapTail(5), GapConfig(6));
  }

  lemma {:induction false} GapFromThird()
    ensures Runs(GapEngine(), GapConfig(3), GapTail(3), GapConfig(6))
  {
    GapFromFourth();
    GapFourthStep();
    Prepend(GapEngine(), GapConfig(3), VisitRule({0}), GapTail(4), GapConfig(6));
  }

  lemma {:induction false} GapFromSecond()
    ensures Runs(GapEngine(), GapConfig(2), GapTail(2), GapConfig(6))
  {
    GapFromThird();
    GapThirdStep();
    Prepend(GapEngine(), GapConfig(2), VisitRule({}), GapTail(3), GapConfig(6));
  }

  lemma {:induction false} GapFromFirst()
    ensures Runs(GapEngine(), GapConfig(1), GapTail(1), GapConfig(6))
  {
    GapFromSecond();
    GapSecondStep();
    Prepend(GapEngine(), GapConfig(1), Complete(0, Yes()), GapTail(2), GapConfig(6));
  }

  lemma {:induction false} GapRun()
    ensures Runs(GapEngine(), GapConfig(0), GapTail(0), GapConfig(6))
  {
    GapFromFirst();
    GapFirstStep();
    Prepend(GapEngine(), GapConfig(0), VisitRule({}), GapTail(1), GapConfig(6));
  }

  /**
   * A response missed in the gap can change the result: in this answered run of a validated list
   * the default transport answers, although the interpreter lets rule 1 decide.
   */
  lemma {:induction false} GapChangesOutcome()
    ensures Validated(GapEngine()) && ReadsDeclared(GapEngine())
    ensures Runs(GapEngine(), InitialConfig(PlainOptions()), GapTail(0), GapConfig(6))
    ensures GapConfig(6).phase == Finished(2, Exchanged("z", PlainOptions(), Yes()))
    ensures Interpret(GapEngine(), AlwaysYes(), 0, InitialSigma(PlainOptions())) ==
      (1, Exchanged("y", PlainOptions(), Yes()))
  {
    GapValidated();
    GapRun();
    GapMeaning();
  }
}
