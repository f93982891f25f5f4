/**
 * From configured rules to running ones (route/rule/rule_dns.go), and why a list that validation
 * accepts satisfies everything the rule engine relies on.
 */
module RuleCompile {
  import opened Wrappers
  import opened RuleConfig
  import RuleEngine
  import RuleOutcome
  import RuleRun
  import QueryOptions
  import Sequential

  /** The value parsing leaves behind: a tag only ever comes with `match_response` enabled. */
  ghost predicate Parsed(r: RawRule)
    decreases r
  {
    match r
    case Default(d) => d.matchResponse.tag != "" ==> d.matchResponse.enabled
    case Logical(rules, _) => forall i :: 0 <= i < |rules| ==> Parsed(rules[i])
    case Unknown => true
  }

  /** A top-level rule that can be built: of a known type and with an action. */
  ghost predicate Buildable(r: RawRule) {
    match r
    case Default(d) => !d.action.kind.Unset?
    case Logical(_, a) => !a.kind.Unset?
    case Unknown => false
  }

  function CompileAction(a: RawAction): RuleEngine.Action
    requires !a.kind.Unset?
  {
    match a.kind
    case RouteKind => RuleEngine.Route(a.route.server, a.route.speculative, a.route.options)
    case EvaluateKind => RuleEngine.Evaluate(a.evaluate.server, a.evaluate.tag, a.evaluate.speculative,
                                             a.evaluate.options)
    case RespondKind => RuleEngine.Respond
    case RouteOptionsKind => RuleEngine.SetOptions(a.routeOptions)
    case RejectKind => RuleEngine.Reject(a.reject)
    case PredefinedKind => RuleEngine.Predefined(a.predefined)
  }

  /** First occurrences only (`common.Uniq`). */
  function Uniq(s: seq<string>): (r: seq<string>)
    ensures forall t :: t in r <==> t in s
    ensures s == [] ==> r == []
  {
    if s == [] then []
    else
      var front := Uniq(s[..|s| - 1]);
      var last := s[|s| - 1];
      assert s == s[..|s| - 1] + [last];
      if last in front then front else front + [last]
  }

  /** The response tags a built rule binds. */
  function Tags(r: RawRule): seq<string>
    decreases r, 1
  {
    match r
    case Default(d) => if d.matchResponse.tag == "" then [] else [d.matchResponse.tag]
    case Logical(rules, _) => Uniq(TagsOf(rules))
    case Unknown => []
  }

  function TagsOf(rules: seq<RawRule>): seq<string>
    decreases rules, 0
  {
    if rules == [] then [] else Tags(rules[0]) + TagsOf(rules[1..])
  }

  predicate BindsAnonymous(r: RawRule)
    decreases r, 1
  {
    match r
    case Default(d) => d.matchResponse.enabled && d.matchResponse.tag == ""
    case Logical(rules, _) => AnyBindsAnonymous(rules)
    case Unknown => false
  }

  predicate AnyBindsAnonymous(rules: seq<RawRule>)
    decreases rules, 0
  {
    rules != [] && (BindsAnonymous(rules[0]) || AnyBindsAnonymous(rules[1..]))
  }

  /** Some rule of the tree answers with the anonymous response, whether or not it matches on one. */
  predicate RepliesAnonymously(r: RawRule)
    decreases r, 1
  {
    match r
    case Default(d) => d.action.kind.RespondKind? && d.matchResponse.tag == ""
    case Logical(rules, a) => a.kind.RespondKind? || AnyRepliesAnonymously(rules)
    case Unknown => false
  }

  predicate AnyRepliesAnonymously(rules: seq<RawRule>)
    decreases rules, 0
  {
    rules != [] && (RepliesAnonymously(rules[0]) || AnyRepliesAnonymously(rules[1..]))
  }

  function Compile(r: RawRule): RuleEngine.Rule
    requires Buildable(r)
  {
    match r
    case Default(d) => RuleEngine.Rule(d.matchResponse.tag, Tags(r), BindsAnonymous(r), d.action.race,
                                       CompileAction(d.action))
    case Logical(_, a) => RuleEngine.Rule("", Tags(r), BindsAnonymous(r), a.race, CompileAction(a))
  }

  /**
   * What validation sees a rule read is exactly what the built rule binds, and the anonymous response
   * also where one of its actions replies with it.
   */
  lemma {:induction false} UseCoversBindings(env: Env, r: RawRule)
    requires Parsed(r) && RuleUse(env, r).Ok?
    ensures var use := RuleUse(env, r).value;
      && (forall t :: t in Tags(r) <==> t in use.tags)
      && (use.tags == [] ==> Tags(r) == [])
      && (use.needsAnonymous <==> BindsAnonymous(r) || RepliesAnonymously(r))
    decreases r, 1
  {
    if r.Logical? {
      UsesCoverBindings(env, r.rules);
    }
  }

  lemma {:induction false} UsesCoverBindings(env: Env, rules: seq<RawRule>)
    requires (forall i :: 0 <= i < |rules| ==> Parsed(rules[i])) && RulesUse(env, rules).Ok?
    ensures var use := RulesUse(env, rules).value;
      && (forall t :: t in TagsOf(rules) <==> t in use.tags)
      && (use.tags == [] ==> TagsOf(rules) == [])
      && (use.needsAnonymous <==> AnyBindsAnonymous(rules) || AnyRepliesAnonymously(rules))
    decreases rules, 0
  {
    if rules != [] {
      UseCoversBindings(env, rules[0]);
      UsesCoverBindings(env, rules[1..]);
    }
  }

  /** A built rule that matches on the anonymous response, or answers with it. */
  predicate ReadsAnonymous(r: RuleEngine.Rule) { r.anonymous || (r.action.Respond? && r.matchTag == "") }

  /** `e` runs the rules built from `rules`. */
  ghost predicate Runs(e: RuleEngine.Engine, rules: seq<RawRule>) {
    && |e.rules| == |rules|
    && forall i :: 0 <= i < |rules| ==> Parsed(rules[i]) && Buildable(rules[i]) && e.rules[i] == Compile(rules[i])
  }

  lemma {:induction false} EvaluatesAlike(e: RuleEngine.Engine, rules: seq<RawRule>, i: nat)
    requires Runs(e, rules) && i < |rules|
    ensures e.rules[i].action.Evaluate? <==> EvaluateTag(rules[i]).Some?
    ensures e.rules[i].action.Evaluate? ==> e.rules[i].action.tag == EvaluateTag(rules[i]).value
    ensures RuleOutcome.DefinesTag(e, i) <==> EvaluateTag(rules[i]).Some? && EvaluateTag(rules[i]).value != ""
  {
  }

  lemma {:induction false} RespondsAlike(env: Env, e: RuleEngine.Engine, rules: seq<RawRule>, i: nat)
    requires Runs(e, rules) && i < |rules| && RuleUse(env, rules[i]).Ok?
    ensures RuleOutcome.RespondOk(e.rules[i])
    ensures ReadsAnonymous(e.rules[i]) ==>
      RuleUse(env, rules[i]).value.needsAnonymous
  {
    UseCoversBindings(env, rules[i]);
    if rules[i].Logical? && rules[i].action.kind.RespondKind? {
      UsesCoverBindings(env, rules[i].rules);
    }
  }

  lemma {:induction false} DefinedAlike(e: RuleEngine.Engine, rules: seq<RawRule>, j: nat, t: string)
    requires Runs(e, rules) && j < |rules| && t != "" && EvaluatedBefore(rules, j, t)
    ensures RuleOutcome.DefinedBefore(e, j, t)
  {
    var i :| 0 <= i < j && EvaluateTag(rules[i]) == Some(t);
    EvaluatesAlike(e, rules, i);
  }

  /** A reader of the anonymous response at index `j` has an anonymous evaluate rule before it. */
  ghost predicate AnonymousEvaluatedBefore(e: RuleEngine.Engine, j: nat) {
    exists i :: 0 <= i < j && i < |e.rules| && e.rules[i].action.Evaluate? && e.rules[i].action.tag == ""
  }

  /**
   * Validation is sound for the engine: an accepted list gives each evaluate tag one rule, binds tags
   * only after the rule that defines them, and reads the anonymous response only after one is evaluated.
   */
  lemma {:induction false} ValidationIsSound(env: Env, rules: seq<RawRule>, e: RuleEngine.Engine)
    requires Accepted(env, rules) && Runs(e, rules)
    ensures RuleOutcome.Validated(e)
    ensures forall j :: 0 <= j < |e.rules| && ReadsAnonymous(e.rules[j]) ==>
              AnonymousEvaluatedBefore(e, j)
  {
    forall i, j | 0 <= i < j < |e.rules| && RuleOutcome.DefinesTag(e, i) && RuleOutcome.DefinesTag(e, j)
      ensures e.rules[i].action.tag != e.rules[j].action.tag
    {
      EvaluatesAlike(e, rules, i);
      EvaluatesAlike(e, rules, j);
      assert RuleAccepted(env, rules, j);
      assert EvaluateTag(rules[i]) == Some(e.rules[i].action.tag);
    }
    forall j, t | 0 <= j < |e.rules| && t in e.rules[j].tags ensures RuleOutcome.DefinedBefore(e, j, t) {
      assert RuleAccepted(env, rules, j);
      UseCoversBindings(env, rules[j]);
      DefinedAlike(e, rules, j, t);
    }
    forall j | 0 <= j < |e.rules| ensures RuleOutcome.RespondOk(e.rules[j]) {
      assert RuleAccepted(env, rules, j);
      RespondsAlike(env, e, rules, j);
    }
    forall j | 0 <= j < |e.rules| && (e.rules[j].anonymous || (e.rules[j].action.Respond? && e.rules[j].matchTag == ""))
      ensures AnonymousEvaluatedBefore(e, j)
    {
      assert RuleAccepted(env, rules, j);
      RespondsAlike(env, e, rules, j);
      var i :| 0 <= i < j && EvaluateTag(rules[i]) == Some("");
      EvaluatesAlike(e, rules, i);
    }
  }

  /**
   * End to end: for every accepted configuration, every fair schedule ends with the sequential result,
   * or with a race rule that overtook an earlier race rule.
   */
  lemma {:induction false} AcceptedListOutcome(env: Env, rules: seq<RawRule>, e: RuleEngine.Engine,
                                               answer: Sequential.Answers,
                                               options: QueryOptions.Options, events: seq<RuleRun.Event>,
                                                 c: RuleRun.Config)
    requires Accepted(env, rules) && Runs(e, rules) && RuleOutcome.ReadsDeclared(e)
    requires RuleOutcome.FairRun(e, answer, RuleRun.InitialConfig(options), events, c) && c.phase.Finished?
    ensures var (first, result) := Sequential.Interpret(e, answer, 0, Sequential.InitialSigma(options));
      || c.phase == RuleRun.Finished(first, result)
      || (first < c.phase.rule < |rules| && e.rules[first].race && e.rules[c.phase.rule].race)
  {
    ValidationIsSound(env, rules, e);
    RuleOutcome.OutcomeIsSequentialUpToRaces(e, answer, options, events, c);
  }
}
