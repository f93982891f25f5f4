/** Evaluate tags at run time: on a validated list they never collide, in any interleaving. */
module RuleNames {
  import opened Wrappers
  import opened QueryOptions
  import opened RuleEngine
  import opened RuleSweep
  import opened RuleRun
  import opened RuleSafety
  import opened RuleInvariant
  import opened RuleOutcome

  /** On a validated list no run, however interleaved, launches a tag twice or too late for a reader of it. */
  lemma {:induction false} TagsLaunchOnce(e: Engine, options: Options, c: Config)
    requires Validated(e) && Reachable(e, options, c)
    ensures forall i, j :: 0 <= i < j < |c.s.futures| && c.s.futures[i].tag != "" ==>
      c.s.futures[i].tag != c.s.futures[j].tag
    ensures forall j, t :: 0 <= j < |e.rules| && t in e.rules[j].tags && t in c.s.named ==> c.s.named[t].rule < j
  {
    ReachableOk(e, options, c);
    forall i, j | 0 <= i < j < |c.s.futures| && c.s.futures[i].tag != ""
      ensures c.s.futures[i].tag != c.s.futures[j].tag
    {
      assert Accounted(e, c.s.index, c.s.terminal, c.s.futures[i]);
      assert Accounted(e, c.s.index, c.s.terminal, c.s.futures[j]);
      if c.s.futures[j].tag != "" {
        assert DefinesTag(e, c.s.futures[i].rule) && DefinesTag(e, c.s.futures[j].rule);
      }
    }
    forall j, t | 0 <= j < |e.rules| && t in e.rules[j].tags && t in c.s.named
      ensures c.s.named[t].rule < j
    {
      var f := c.s.named[t];
      assert Accounted(e, c.s.index, c.s.terminal, c.s.futures[f.id]);
      assert DefinesTag(e, f.rule);
      assert DefinedBefore(e, j, t);
      var i :| 0 <= i < j && DefinesTag(e, i) && e.rules[i].action.tag == t;
    }
  }

  ghost predicate TagsDistinct(futures: seq<Future>) {
    forall i, j :: 0 <= i < j < |futures| && futures[i].tag != "" ==> futures[i].tag != futures[j].tag
  }

  /** Every recorded response comes from a settled future of that tag. */
  ghost predicate Backed(futures: seq<Future>, settled: set<nat>, responses: map<string, Option<Message>>) {
    forall t :: t in responses ==> t != "" && exists i :: 0 <= i < |futures| && i in settled && futures[i].tag == t
  }

  ghost predicate Extends(old': map<string, Option<Message>>, new': map<string, Option<Message>>) {
    forall t :: t in old' ==> t in new' && new'[t] == old'[t]
  }

  lemma {:induction false} SettleOneExtends(s: Walk, f: Future, done: map<nat, Reply>, seen: set<nat>)
    requires TagsDistinct(s.futures) && Backed(s.futures, s.settled, s.responses) && Known(s.futures, f)
    ensures var s' := SettleOne(s, f, done, seen);
      Backed(s.futures, s'.settled, s'.responses) && Extends(s.responses, s'.responses)
  {
    var s' := SettleOne(s, f, done, seen);
    if s' == s {
      return;
    }
    forall t | t in s.responses
      ensures t != f.tag && exists i :: 0 <= i < |s.futures| && i in s'.settled && s.futures[i].tag == t
    {
      var i :| 0 <= i < |s.futures| && i in s.settled && s.futures[i].tag == t;
      assert i != f.id && i in s'.settled;
    }
    assert f.id in s'.settled && s.futures[f.id].tag == f.tag;
  }

  lemma {:induction false} SettlePrefixExtends(s: Walk, done: map<nat, Reply>, seen: set<nat>, n: nat)
    requires n <= |s.futures| && TagsDistinct(s.futures) && Backed(s.futures, s.settled, s.responses)
    requires forall i :: 0 <= i < |s.futures| ==> s.futures[i].id == i
    ensures var s' := SettlePrefix(s, done, seen, n);
      Backed(s.futures, s'.settled, s'.responses) && Extends(s.responses, s'.responses)
  {
    if n > 0 {
      SettlePrefixExtends(s, done, seen, n - 1);
      var p := SettlePrefix(s, done, seen, n - 1);
      assert p.futures == s.futures;
      SettleOneExtends(p, s.futures[n - 1], done, seen);
    }
  }

  lemma {:induction false} BackedGrows(futures: seq<Future>, futures': seq<Future>, settled: set<nat>,
                                       responses: map<string, Option<Message>>)
    requires Backed(futures, settled, responses) && futures <= futures'
    ensures Backed(futures', settled, responses)
  {
    forall t | t in responses
      ensures t != "" && exists i :: 0 <= i < |futures'| && i in settled && futures'[i].tag == t
    {
      var i :| 0 <= i < |futures| && i in settled && futures[i].tag == t;
      assert futures'[i].tag == t;
    }
  }

  lemma {:induction false} ArmKeepsResponses(e: Engine, s: Walk, done: map<nat, Reply>)
    requires s.index < |e.rules|
    ensures
      var s' := Arm(e, s, done).state;
      s'.responses == s.responses && s'.settled == s.settled && s.futures == s'.futures
  {
    var s1 := s.(armed := s.armed + [ArmedEntry(e, s, done)]);
    var _ := SweepArbitrates(e, s1, done);
  }

  lemma {:induction false} VisitExtends(e: Engine, s: Walk, done: map<nat, Reply>, seen: set<nat>)
    requires WalkOk(e, s) && TagsDistinct(s.futures) && Backed(s.futures, s.settled, s.responses)
    ensures var s' := Visit(e, s, done, seen).state;
      Backed(s'.futures, s'.settled, s'.responses) && Extends(s.responses, s'.responses)
  {
    if s.index < |e.rules| {
      var rule := e.rules[s.index];
      if !rule.HasBindings() {
        ActIsTame(e, s, done);
        BackedGrows(s.futures, Act(e, s, done).state.futures, s.settled, s.responses);
        return;
      }
      SettlePrefixExtends(s, done, seen, |s.futures|);
      var s1 := Settle(s, done, seen);
      if rule.race {
        ArmKeepsResponses(e, s1, done);
      } else if Waits(rule, s1, done) == [] {
        ActIsTame(e, s1, done);
        BackedGrows(s1.futures, Act(e, s1, done).state.futures, s1.settled, s1.responses);
      }
    }
  }

  lemma {:induction false} AfterPassState(c: Config, why: Suspension, swept: Swept)
    ensures AfterPass(c, why, swept).s == swept.state
  {
  }

  lemma {:induction false} DriveExtends(e: Engine, c: Config, seen: set<nat>)
    requires WalkOk(e, c.s) && TagsDistinct(c.s.futures) && Backed(c.s.futures, c.s.settled, c.s.responses) &&
      c.phase.Driving?
    ensures var s' := DriveOnce(e, c, seen).s;
      Backed(s'.futures, s'.settled, s'.responses) && Extends(c.s.responses, s'.responses)
  {
    SettlePrefixExtends(c.s, c.done, seen, |c.s.futures|);
    var s1 := Settle(c.s, c.done, seen);
    SettleKeepsOk(e, c.s, c.done, seen);
    SweepKeepsOrder(e, s1, c.done);
    AfterPassState(c, c.phase.why, Sweep(e, s1, c.done));
  }

  lemma {:induction false} FireExtends(e: Engine, options: Options, c: Config, ev: Event)
    requires Validated(e) && Reachable(e, options, c) && Enabled(c, ev) &&
      Backed(c.s.futures, c.s.settled, c.s.responses)
    ensures var s' := Fire(e, c, ev).s;
      Backed(s'.futures, s'.settled, s'.responses) && Extends(c.s.responses, s'.responses)
  {
    ReachableOk(e, options, c);
    TagsLaunchOnce(e, options, c);
    match ev
    case VisitRule(seen) => VisitExtends(e, c.s, c.done, seen);
    case Drive(seen) => DriveExtends(e, c, seen);
    case _ =>
  }

  lemma {:induction false} RunsThenOne(e: Engine, c: Config, events: seq<Event>, c1: Config, ev: Event)
    requires Runs(e, c, events, c1) && Enabled(c1, ev)
    ensures Runs(e, c, events + [ev], Fire(e, c1, ev))
    decreases |events|
  {
    if events == [] {
      assert [ev][1..] == [];
    } else {
      RunsThenOne(e, Fire(e, c, events[0]), events[1..], c1, ev);
      assert (events + [ev])[1..] == events[1..] + [ev];
    }
  }

  lemma {:induction false} RunExtends(e: Engine, options: Options, before: seq<Event>, c: Config, events: seq<Event>,
                                      c': Config)
    requires Validated(e) && Runs(e, InitialConfig(options), before, c) && Runs(e, c, events, c')
    requires Backed(c.s.futures, c.s.settled, c.s.responses)
    ensures Extends(c.s.responses, c'.s.responses) && Backed(c'.s.futures, c'.s.settled, c'.s.responses)
    decreases |events|
  {
    if events != [] {
      FireExtends(e, options, c, events[0]);
      RunsThenOne(e, InitialConfig(options), before, c, events[0]);
      RunExtends(e, options, before + [events[0]], Fire(e, c, events[0]), events[1..], c');
    }
  }

  /** A named response, once recorded, is never overwritten in the rest of the run. */
  lemma {:induction false} NamedResponsesStay(e: Engine, options: Options, before: seq<Event>, c: Config,
                                              after: seq<Event>, c': Config)
    requires Validated(e) && Runs(e, InitialConfig(options), before, c) && Runs(e, c, after, c')
    ensures Extends(c.s.responses, c'.s.responses)
  {
    RunExtends(e, options, [], InitialConfig(options), before, c);
    RunExtends(e, options, before, c, after, c');
  }
}
