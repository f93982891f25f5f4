/** What mode resolution establishes about every action in a configuration, and how updates keep it. */
module RuleMode {
  import opened Wrappers
  import opened QueryOptions
  import opened RuleConfig

  /** Every rule of a tree, itself included. */
  function Nodes(r: RawRule): (s: seq<RawRule>)
    ensures r in s
    decreases r, 1
  {
    match r
    case Logical(rules, _) => [r] + NodesOf(rules)
    case _ => [r]
  }

  function NodesOf(rules: seq<RawRule>): seq<RawRule>
    decreases rules, 0
  {
    if rules == [] then [] else Nodes(rules[0]) + NodesOf(rules[1..])
  }

  function ActionOf(r: RawRule): Option<RawAction> {
    match r
    case Default(d) => Some(d.action)
    case Logical(_, a) => Some(a)
    case Unknown => None
  }

  // ------------------------------------------------- what each node contributes

  ghost predicate SetHas(env: Env, tags: seq<string>, p: Metadata -> bool) {
    exists t :: t in tags && env.Lookup(t).Some? && p(env.Lookup(t).value)
  }

  ghost predicate NodeDisables(env: Env, r: RawRule) {
    match r
    case Default(d) => DefaultDisablesLegacy(d) || ActionDisablesLegacy(d.action) ||
      SetHas(env, d.ruleSet, (m: Metadata) => m.queryType)
    case Logical(_, a) => a.kind.EvaluateKind? || a.kind.RespondKind? || ActionDisablesLegacy(a)
    case Unknown => false
  }

  ghost predicate NodeNeeds(env: Env, r: RawRule) {
    match r
    case Default(d) =>
      || NeedsLegacyFromAddressFilter(d)
      || ActionHasStrategy(d.action)
      || (!d.ruleSetMatchSource && SetHas(env, d.ruleSet, (m: Metadata) => m.ipCidr))
    case Logical(_, a) => ActionHasStrategy(a)
    case Unknown => false
  }

  ghost predicate NodeHasStrategy(r: RawRule) {
    ActionOf(r).Some? && ActionHasStrategy(ActionOf(r).value)
  }

  /** The flags say exactly whether some node of the tree contributes to them. */
  ghost predicate Exact(env: Env, flags: Flags, nodes: seq<RawRule>) {
    && (flags.disabled <==> exists n :: n in nodes && NodeDisables(env, n))
    && (flags.needed <==> exists n :: n in nodes && NodeNeeds(env, n))
    && (flags.neededFromStrategy <==> exists n :: n in nodes && NodeHasStrategy(n))
  }

  lemma {:induction false} MergeExact(env: Env, f: Flags, g: Flags, a: seq<RawRule>, b: seq<RawRule>)
    requires Exact(env, f, a) && Exact(env, g, b)
    ensures Exact(env, f.Merge(g), a + b)
  {
    assert forall n :: n in a + b <==> n in a || n in b;
  }

  lemma {:induction false} RuleSetFlagsExact(env: Env, d: DefaultRule, tags: seq<string>)
    requires RuleSetFlags(env, d, tags).Ok?
    ensures var f := RuleSetFlags(env, d, tags).value;
      && (f.disabled <==> SetHas(env, tags, (m: Metadata) => m.queryType))
      && (f.needed <==> !d.ruleSetMatchSource && SetHas(env, tags, (m: Metadata) => m.ipCidr))
      && !f.neededFromStrategy
  {
    if tags != [] {
      RuleSetFlagsExact(env, d, tags[1..]);
      assert forall t :: t in tags <==> t == tags[0] || t in tags[1..];
    }
  }

  lemma {:induction false} DefaultFlagsExact(env: Env, d: DefaultRule)
    requires DefaultFlags(env, d).Ok?
    ensures Exact(env, DefaultFlags(env, d).value, [Default(d)])
  {
    if d.ruleSet != [] {
      RuleSetFlagsExact(env, d, d.ruleSet);
    }
    assert Default(d) in [Default(d)];
  }

  lemma {:induction false} RuleFlagsExact(env: Env, r: RawRule)
    requires RuleFlags(env, r).Ok?
    ensures Exact(env, RuleFlags(env, r).value, Nodes(r))
    decreases r, 1
  {
    match r
    case Default(d) => DefaultFlagsExact(env, d);
    case Logical(rules, action) =>
      RulesFlagsExact(env, rules);
      assert r in [r];
      assert Exact(env, LogicalOwnFlags(action), [r]);
      MergeExact(env, LogicalOwnFlags(action), RulesFlags(env, rules).value, [r], NodesOf(rules));
    case Unknown =>
  }

  lemma {:induction false} RulesFlagsExact(env: Env, rules: seq<RawRule>)
    requires RulesFlags(env, rules).Ok?
    ensures Exact(env, RulesFlags(env, rules).value, NodesOf(rules))
    decreases rules, 0
  {
    if rules != [] {
      RuleFlagsExact(env, rules[0]);
      RulesFlagsExact(env, rules[1..]);
      MergeExact(env, RuleFlags(env, rules[0]).value, RulesFlags(env, rules[1..]).value, Nodes(rules[0]),
                 NodesOf(rules[1..]));
    }
  }

  // ----------------------------------------------------- both mergers are enough

  /** Actions the legacy matcher never has to understand. */
  ghost predicate NewStyle(a: RawAction) {
    a.race || Speculative(a) || a.kind.EvaluateKind? || a.kind.RespondKind? ||
      (OptionsOf(a).Some? && OptionsOf(a).value.disableOptimistic)
  }

  /** Each mode meets, at any depth of any rule tree, only the actions its matcher and merger handle. */
  lemma {:induction false} ModeSeparatesActions(env: Env, rules: seq<RawRule>, node: RawRule, a: RawAction)
    requires ResolveMode(env, rules).Ok? && node in NodesOf(rules) && ActionOf(node) == Some(a)
    ensures !ResolveMode(env, rules).value.legacy ==> !ActionHasStrategy(a)
    ensures ResolveMode(env, rules).value.legacy ==> !NewStyle(a)
  {
    RulesFlagsExact(env, rules);
    assert NodeHasStrategy(node) ==> NodeNeeds(env, node);
    if NewStyle(a) {
      assert NodeDisables(env, node);
    }
  }

  /** In either mode the merger in use is the one that lets every field take effect. */
  lemma {:induction false} MergersLoseNothing(env: Env, rules: seq<RawRule>, node: RawRule, a: RawAction, o: Options)
    requires ResolveMode(env, rules).Ok? && node in NodesOf(rules) && ActionOf(node) == Some(a) && OptionsOf(a).Some?
    ensures var legacy := ResolveMode(env, rules).value.legacy;
      (if legacy then ApplyLegacy(o, OptionsOf(a).value) else Apply(o, OptionsOf(a).value)) ==
        ApplyEverything(o, OptionsOf(a).value)
  {
    ModeSeparatesActions(env, rules, node, a);
  }

  /**
   * The flags pin the mode down: an error exactly when strategies are mixed with what disables legacy
   * mode, and otherwise legacy exactly when something needs it and nothing disables it.
   */
  lemma {:induction false} ModeIsExact(env: Env, rules: seq<RawRule>)
    requires RulesFlags(env, rules).Ok?
    ensures var disables := exists n :: n in NodesOf(rules) && NodeDisables(env, n);
      var needs := exists n :: n in NodesOf(rules) && NodeNeeds(env, n);
      var strategy := exists n :: n in NodesOf(rules) && NodeHasStrategy(n);
      && (ResolveMode(env, rules).Err? <==> disables && strategy)
      && (ResolveMode(env, rules).Ok? ==> (ResolveMode(env, rules).value.legacy <==> needs && !disables))
  {
    RulesFlagsExact(env, rules);
  }

  // -------------------------------------------------------------- the update gate

  /** `ValidateRuleSetMetadataUpdate` once the router has started and is not closing. */
  ghost predicate UpdateAllowed(rules: seq<RawRule>, sets: map<string, Metadata>, legacy: bool, tag: string,
                                metadata: Metadata) {
    var env := Env(Some(sets), map[tag := metadata]);
    var mode := ResolveMode(env, rules);
    || rules == []
    || (mode.Ok? && if legacy then mode.value.legacy || !mode.value.flags.disabled
                    else !mode.value.legacy && Accepted(env, rules))
  }

  /** The method form, with its early returns; None means the update may be applied. */
  method ValidateUpdate(rules: seq<RawRule>, sets: map<string, Metadata>, started: bool, closing: bool, legacy: bool,
                        tag: string, metadata: Metadata)
    returns (error: Option<Error>)
    ensures closing && rules != [] ==> error.None?
    ensures started && !closing ==> (error.None? <==> UpdateAllowed(rules, sets, legacy, tag, metadata))
    ensures !started && !closing && rules != [] ==>
      var env := Env(Some(sets), map[tag := metadata]);
      var mode := ResolveMode(env, rules);
      error.None? <==> mode.Ok? && (mode.value.legacy || Accepted(env, rules))
  {
    if rules == [] {
      return None;
    }
    if closing {
      return None;
    }
    var env := Env(Some(sets), map[tag := metadata]);
    var mode := ResolveMode(env, rules);
    if mode.Err? {
      return Some(mode.error);
    }
    if !started {
      if !mode.value.legacy {
        error := Validate(env, rules);
        return;
      }
      return None;
    }
    if legacy {
      if !mode.value.legacy && mode.value.flags.disabled {
        error := Validate(env, rules);
        if error.None? {
          error := Some(LegacyAddressFilter);
        }
        return;
      }
      return None;
    }
    if mode.value.legacy {
      return Some(LegacyAddressFilter);
    }
    error := Validate(env, rules);
  }

  ghost predicate SameLookups(a: Env, b: Env) {
    a.router.Some? == b.router.Some? && forall t :: a.Lookup(t) == b.Lookup(t)
  }

  lemma {:induction false} SameRuleSetFlags(a: Env, b: Env, d: DefaultRule, tags: seq<string>)
    requires SameLookups(a, b)
    ensures RuleSetFlags(a, d, tags) == RuleSetFlags(b, d, tags) && PureIPError(a, tags) == PureIPError(b, tags)
  {
    if tags != [] {
      SameRuleSetFlags(a, b, d, tags[1..]);
    }
  }

  lemma {:induction false} SameRule(a: Env, b: Env, r: RawRule)
    requires SameLookups(a, b)
    ensures RuleFlags(a, r) == RuleFlags(b, r) && RuleUse(a, r) == RuleUse(b, r)
    decreases r, 1
  {
    match r
    case Default(d) => SameRuleSetFlags(a, b, d, d.ruleSet);
    case Logical(rules, _) => SameRules(a, b, rules);
    case Unknown =>
  }

  lemma {:induction false} SameRules(a: Env, b: Env, rules: seq<RawRule>)
    requires SameLookups(a, b)
    ensures RulesFlags(a, rules) == RulesFlags(b, rules) && RulesUse(a, rules) == RulesUse(b, rules)
    decreases rules, 0
  {
    if rules != [] {
      SameRule(a, b, rules[0]);
      SameRules(a, b, rules[1..]);
    }
  }

  lemma {:induction false} SameAccepted(a: Env, b: Env, rules: seq<RawRule>)
    requires SameLookups(a, b)
    ensures Accepted(a, rules) <==> Accepted(b, rules)
  {
    forall i | 0 <= i < |rules| ensures RuleAccepted(a, rules, i) <==> RuleAccepted(b, rules, i) {
      SameRule(a, b, rules[i]);
    }
  }

  /** What a started router relies on about its rules and the current rule-sets. */
  ghost predicate ModeHolds(rules: seq<RawRule>, sets: map<string, Metadata>, legacy: bool) {
    var env := Env(Some(sets), map[]);
    var mode := ResolveMode(env, rules);
    && mode.Ok?
    && (if legacy then !mode.value.flags.disabled else !mode.value.legacy && Accepted(env, rules))
  }

  datatype Update = Update(tag: string, metadata: Metadata)

  /** The rule-sets after each update in turn was allowed and applied. */
  ghost predicate AllowedUpdates(rules: seq<RawRule>, sets: map<string, Metadata>, legacy: bool, updates: seq<Update>,
                                 after: map<string, Metadata>)
    decreases |updates|
  {
    if updates == [] then after == sets
    else
      && UpdateAllowed(rules, sets, legacy, updates[0].tag, updates[0].metadata)
      && AllowedUpdates(rules, sets[updates[0].tag := updates[0].metadata], legacy, updates[1..], after)
  }

  lemma {:induction false} UpdateKeepsMode(rules: seq<RawRule>, sets: map<string, Metadata>, legacy: bool, u: Update)
    requires ModeHolds(rules, sets, legacy) && UpdateAllowed(rules, sets, legacy, u.tag, u.metadata)
    ensures ModeHolds(rules, sets[u.tag := u.metadata], legacy)
  {
    var proposed := Env(Some(sets), map[u.tag := u.metadata]);
    var applied := Env(Some(sets[u.tag := u.metadata]), map[]);
    SameRules(proposed, applied, rules);
    SameAccepted(proposed, applied, rules);
  }

  lemma {:induction false} UpdatesKeepMode(rules: seq<RawRule>, sets: map<string, Metadata>, legacy: bool,
                                           updates: seq<Update>, after: map<string, Metadata>)
    requires ModeHolds(rules, sets, legacy) && AllowedUpdates(rules, sets, legacy, updates, after)
    ensures ModeHolds(rules, after, legacy)
    decreases |updates|
  {
    if updates != [] {
      UpdateKeepsMode(rules, sets, legacy, updates[0]);
      UpdatesKeepMode(rules, sets[updates[0].tag := updates[0].metadata], legacy, updates[1..], after);
    }
  }

  /**
   * However many updates are allowed and applied after a successful start (`buildRules`), a legacy
   * router never meets a rule that disables legacy mode, and a non-legacy one keeps resolving to
   * non-legacy with rules that still validate.
   */
  lemma {:induction false} GateKeepsMode(rules: seq<RawRule>, sets: map<string, Metadata>, updates: seq<Update>,
                                         after: map<string, Metadata>)
    requires var start := ResolveMode(Env(Some(sets), map[]), rules);
      && start.Ok?
      && (!start.value.legacy ==> Accepted(Env(Some(sets), map[]), rules))
      && AllowedUpdates(rules, sets, start.value.legacy, updates, after)
    ensures var start := ResolveMode(Env(Some(sets), map[]), rules).value;
      var now := ResolveMode(Env(Some(after), map[]), rules);
      && now.Ok?
      && (start.legacy ==> !now.value.flags.disabled)
      && (!start.legacy ==> !now.value.legacy && Accepted(Env(Some(after), map[]), rules))
  {
    UpdatesKeepMode(rules, sets, ResolveMode(Env(Some(sets), map[]), rules).value.legacy, updates, after);
  }
}
