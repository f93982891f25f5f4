/**
 * What every reachable configuration of the rule engine keeps, for every rule list, every order
 * of completions, and every gap between settling and testing.
 */
module RuleSafety {
  import opened Wrappers
  import opened QueryOptions
  import opened RuleEngine
  import opened RuleSweep

  ghost predicate Known(futures: seq<Future>, f: Future) {
    f.id < |futures| && futures[f.id] == f
  }

  /** A future belongs to the rule that launched it: an evaluate rule already passed, or the one speculative route. */
  ghost predicate Accounted(e: Engine, index: nat, terminal: Option<Future>, f: Future) {
    && f.rule < |e.rules|
    && (if f.terminal then e.rules[f.rule].action.Route? && f.tag == "" && terminal == Some(f)
        else f.rule < index && e.rules[f.rule].action.Evaluate? && f.tag == e.rules[f.rule].action.tag)
  }

  /** No rule index has launched more than one future. */
  ghost predicate OnePerRule(futures: seq<Future>) {
    forall i, j :: 0 <= i < j < |futures| ==> futures[i].rule != futures[j].rule
  }

  ghost predicate FuturesOk(e: Engine, index: nat, terminal: Option<Future>, futures: seq<Future>) {
    && (forall i :: 0 <= i < |futures| ==> futures[i].id == i && Accounted(e, index, terminal, futures[i]))
    && OnePerRule(futures)
    && (terminal.Some? ==> Known(futures, terminal.value) && terminal.value.terminal)
  }

  ghost predicate BindingsOk(futures: seq<Future>, anon: Option<Future>, named: map<string, Future>) {
    && (anon.Some? ==> Known(futures, anon.value) && !anon.value.terminal)
    && (forall t :: t in named ==> Known(futures, named[t]) && named[t].tag == t && t != "" && !named[t].terminal)
  }

  ghost predicate ArmedOk(e: Engine, index: nat, futures: seq<Future>, a: Armed) {
    && a.rule < |e.rules|
    && a.rule <= index
    && a.body == e.rules[a.rule]
    && a.body.Racing()
    && (forall f :: f in a.waits ==> Known(futures, f))
    && (a.anon.Some? ==> Known(futures, a.anon.value) && a.bindsAnonymous)
  }

  ghost predicate RaceOk(e: Engine, index: nat, futures: seq<Future>, armed: seq<Armed>) {
    Sorted(armed) && forall a :: a in armed ==> ArmedOk(e, index, futures, a)
  }

  ghost predicate WalkOk(e: Engine, s: Walk) {
    && s.index <= |e.rules|
    && FuturesOk(e, s.index, s.terminal, s.futures)
    && BindingsOk(s.futures, s.anon, s.named)
    && RaceOk(e, s.index, s.futures, s.armed)
  }

  /** Between visits the armed rules all lie strictly before the rule index. */
  ghost predicate Behind(s: Walk) {
    forall a :: a in s.armed ==> a.rule < s.index
  }

  // ------------------------------------------------------ one visit keeps it

  lemma {:induction false} SettleKeepsOk(e: Engine, s: Walk, done: map<nat, Reply>, seen: set<nat>)
    requires WalkOk(e, s)
    ensures WalkOk(e, Settle(s, done, seen))
  {
    var s' := Settle(s, done, seen);
    assert s' == s.(settled := s'.settled, responses := s'.responses, sources := s'.sources);
  }

  lemma {:induction false} SweepKeepsOk(e: Engine, s: Walk, done: map<nat, Reply>)
    requires WalkOk(e, s)
    ensures WalkOk(e, Sweep(e, s, done).state)
    ensures Behind(s) ==> Behind(Sweep(e, s, done).state)
  {
    SweepKeepsOrder(e, s, done);
    var s' := Sweep(e, s, done).state;
    assert s' == s.(armed := s'.armed);
    forall a | a in s'.armed ensures ArmedOk(e, s'.index, s'.futures, a) {
      assert ArmedOk(e, s.index, s.futures, a);
    }
  }

  lemma {:induction false} UnresolvedKnown(tags: seq<string>, s: Walk, done: map<nat, Reply>)
    requires BindingsOk(s.futures, s.anon, s.named)
    ensures forall f :: f in Unresolved(tags, s.named, done) ==> Known(s.futures, f) && !f.Resolved(done)
  {
    if tags != [] {
      UnresolvedKnown(tags[1..], s, done);
    }
  }

  lemma {:induction false} WaitsKnown(rule: Rule, s: Walk, done: map<nat, Reply>)
    requires BindingsOk(s.futures, s.anon, s.named)
    ensures forall f :: f in Waits(rule, s, done) ==> Known(s.futures, f) && !f.Resolved(done)
  {
    UnresolvedKnown(rule.tags, s, done);
  }

  lemma {:induction false} AdvanceKeepsOk(e: Engine, s: Walk)
    requires s.index < |e.rules| && WalkOk(e, s)
    ensures WalkOk(e, Advance(s)) && Behind(Advance(s))
  {
    var s' := Advance(s);
    forall i | 0 <= i < |s.futures| ensures Accounted(e, s'.index, s'.terminal, s.futures[i]) {
      assert Accounted(e, s.index, s.terminal, s.futures[i]);
    }
    forall a | a in s.armed ensures ArmedOk(e, s'.index, s'.futures, a) && a.rule < s'.index {
      assert ArmedOk(e, s.index, s.futures, a);
    }
  }

  lemma {:induction false} ArmingKeepsOk(e: Engine, s: Walk, a: Armed)
    requires WalkOk(e, s) && Behind(s) && s.index < |e.rules| && a.rule == s.index && ArmedOk(e, s.index, s.futures, a)
    ensures WalkOk(e, s.(armed := s.armed + [a]))
  {
    var s' := s.(armed := s.armed + [a]);
    forall b | b in s'.armed ensures ArmedOk(e, s'.index, s'.futures, b) {
      if b in s.armed { assert ArmedOk(e, s.index, s.futures, b); } else { assert b == a; }
    }
  }

  /** What a step leaves behind: a sound state, and a strictly older armed list unless it ends the walk. */
  ghost predicate StepOk(e: Engine, step: Step) {
    WalkOk(e, step.state) && (!step.Return? ==> Behind(step.state))
  }

  lemma {:induction false} AfterSweepKeepsOk(e: Engine, swept: Swept)
    requires WalkOk(e, swept.state) && swept.state.index < |e.rules|
    ensures StepOk(e, AfterSweep(swept))
  {
    AdvanceKeepsOk(e, swept.state);
    assert WalkOk(e, swept.state.(armed := []));
  }

  lemma {:induction false} ArmKeepsOk(e: Engine, s: Walk, done: map<nat, Reply>)
    requires WalkOk(e, s) && Behind(s) && s.index < |e.rules| && e.rules[s.index].Racing()
    ensures StepOk(e, Arm(e, s, done))
  {
    var a := ArmedEntry(e, s, done);
    WaitsKnown(e.rules[s.index], s, done);
    ArmingKeepsOk(e, s, a);
    var s1 := s.(armed := s.armed + [a]);
    AdvanceKeepsOk(e, s1);
    SweepKeepsOk(e, s1, done);
    SweepKeepsOrder(e, s1, done);
    AfterSweepKeepsOk(e, Sweep(e, s1, done));
  }

  /** Launching the future `f` for the current rule, which has launched none yet. */
  lemma {:induction false} LaunchKeepsOk(e: Engine, s: Walk, f: Future, terminal: Option<Future>)
    requires WalkOk(e, s) && s.index < |e.rules| && f.id == |s.futures| && f.rule == s.index
    requires if f.terminal then s.terminal.None? && terminal == Some(f) && f.tag == "" && e.rules[s.index].action.Route?
             else terminal == s.terminal && e.rules[s.index].action.Evaluate? && f.tag == e.rules[s.index].action.tag
    ensures var s' := Launch(s, f).(terminal := terminal, index := if f.terminal then s.index else s.index + 1);
      WalkOk(e, s') && Known(s'.futures, f) && forall g :: Known(s.futures, g) ==> Known(s'.futures, g)
    ensures Behind(s) ==>
      Behind(Launch(s, f).(terminal := terminal, index := if f.terminal then s.index else s.index + 1))
  {
    var s' := Launch(s, f).(terminal := terminal, index := if f.terminal then s.index else s.index + 1);
    forall i | 0 <= i < |s'.futures|
      ensures s'.futures[i].id == i && Accounted(e, s'.index, s'.terminal, s'.futures[i])
    {
      if i < |s.futures| { assert Accounted(e, s.index, s.terminal, s.futures[i]); }
    }
    forall i | 0 <= i < |s.futures| ensures s.futures[i].rule != f.rule {
      assert Accounted(e, s.index, s.terminal, s.futures[i]);
    }
    forall a | a in s.armed ensures ArmedOk(e, s'.index, s'.futures, a) {
      assert ArmedOk(e, s.index, s.futures, a);
    }
  }

  lemma {:induction false} BindKeepsOk(e: Engine, s: Walk, f: Future)
    requires WalkOk(e, s) && Behind(s) && Known(s.futures, f) && !f.terminal
    ensures WalkOk(e, Bind(s, f)) && Behind(Bind(s, f))
  {
  }

  lemma {:induction false} EvaluateKeepsOk(e: Engine, s: Walk, server: string, tag: string, speculative: bool,
                                           o: ActionOptions)
    requires WalkOk(e, s) && Behind(s) && s.index < |e.rules|
    requires e.rules[s.index].action.Evaluate? && e.rules[s.index].action.tag == tag
    ensures StepOk(e, ActEvaluate(e, s, server, tag, speculative, o))
  {
    if server !in e.transports {
      AdvanceKeepsOk(e, s);
      AdvanceKeepsOk(e, s.(anon := None));
      return;
    }
    var f := Future(|s.futures|, tag, s.index, server, Finalize(Apply(s.options, o), e.defaultStrategy), false);
    LaunchKeepsOk(e, s, f, s.terminal);
    BindKeepsOk(e, Advance(Launch(s, f)), f);
    assert Advance(Bind(Launch(s, f), f)) == Bind(Advance(Launch(s, f)), f);
  }

  lemma {:induction false} RouteKeepsOk(e: Engine, s: Walk, server: string, speculative: bool, o: ActionOptions)
    requires WalkOk(e, s) && Behind(s) && s.index < |e.rules| && e.rules[s.index].action.Route?
    ensures StepOk(e, ActRoute(e, s, server, speculative, o))
  {
    AdvanceKeepsOk(e, s);
    var q := ResolveRoute(e, s.options, server, o);
    if q.Some? && s.terminal.None? {
      var f := Future(|s.futures|, "", s.index, server, Finalize(q.value, e.defaultStrategy), true);
      LaunchKeepsOk(e, s, f, Some(f));
    }
  }

  lemma {:induction false} ActKeepsOk(e: Engine, s: Walk, done: map<nat, Reply>)
    requires WalkOk(e, s) && Behind(s) && s.index < |e.rules|
    ensures StepOk(e, Act(e, s, done))
  {
    var action := e.rules[s.index].action;
    if action.Evaluate? {
      AdvanceKeepsOk(e, s);
      EvaluateKeepsOk(e, s, action.server, action.tag, action.speculative, action.options);
    } else if action.Route? {
      AdvanceKeepsOk(e, s);
      RouteKeepsOk(e, s, action.server, action.speculative, action.options);
    } else {
      AdvanceKeepsOk(e, s);
      if action.SetOptions? {
        AdvanceKeepsOk(e, s.(options := Apply(s.options, action.options)));
      }
    }
  }

  lemma {:induction false} VisitKeepsOk(e: Engine, s: Walk, done: map<nat, Reply>, seen: set<nat>)
    requires WalkOk(e, s) && Behind(s)
    ensures StepOk(e, Visit(e, s, done, seen))
  {
    if s.index < |e.rules| {
      var rule := e.rules[s.index];
      if rule.HasBindings() {
        SettleKeepsOk(e, s, done, seen);
        var s1 := Settle(s, done, seen);
        if rule.race {
          ArmKeepsOk(e, s1, done);
        } else if Waits(rule, s1, done) == [] {
          ActKeepsOk(e, s1, done);
        }
      } else {
        ActKeepsOk(e, s, done);
      }
    }
  }
}
