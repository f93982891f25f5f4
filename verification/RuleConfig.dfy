/**
 * Configured DNS rules (dns/router.go): which mode they need, whether they are accepted outside legacy
 * mode, and what the accepted ones become at run time.
 */
module RuleConfig {
  import opened Wrappers
  import opened QueryOptions
  import RuleEngine

  datatype Kind = Unset | RouteKind | EvaluateKind | RespondKind | RouteOptionsKind | RejectKind | PredefinedKind

  datatype RawRoute = RawRoute(server: string, speculative: bool, options: ActionOptions)

  datatype RawEvaluate = RawEvaluate(server: string, tag: string, speculative: bool, options: ActionOptions)

  /** A configured action carries every option block; its kind says which one counts. */
  datatype RawAction = RawAction(
    kind: Kind,
    race: bool,
    route: RawRoute,
    evaluate: RawEvaluate,
    routeOptions: ActionOptions,
    reject: RuleEngine.RejectMethod,
    predefined: RuleEngine.Message)

  /** A tag is only ever given together with `enabled` (option/rule_dns.go, `UnmarshalJSON`). */
  datatype MatchResponse = MatchResponse(enabled: bool, tag: string)

  datatype DefaultRule = DefaultRule(
    matchResponse: MatchResponse,
    ruleSet: seq<string>,
    ruleSetMatchSource: bool,
    ruleSetAcceptEmpty: bool,
    ipCidr: bool,
    ipIsPrivate: bool,
    ipAcceptAny: bool,
    responseRcode: bool,
    responseAnswer: bool,
    responseNs: bool,
    responseExtra: bool,
    ipVersion: nat,
    queryType: bool,
    action: RawAction)

  datatype RawRule = Default(rule: DefaultRule) | Logical(rules: seq<RawRule>, action: RawAction) | Unknown

  datatype Metadata = Metadata(ipCidr: bool, nonIpCidr: bool, queryType: bool)

  /** The router's rule-sets, if there is a router, under the overrides of a proposed update. */
  datatype Env = Env(router: Option<map<string, Metadata>>, overrides: map<string, Metadata>) {
    function Lookup(tag: string): Option<Metadata> {
      if tag in overrides then Some(overrides[tag])
      else if router.Some? && tag in router.value then Some(router.value[tag])
      else None
    }
  }

  datatype Error =
    | NoRouter
    | RuleSetNotFound(tag: string)
    | StrategyWithoutLegacy
    | ResponseFieldsNeedMatchResponse
    | PureIPRuleSet
    | AcceptEmptyRemoved
    | LogicalRespondBindsTag
    | NoAnonymousEvaluate(rule: nat)
    | UndefinedTag(rule: nat, tag: string)
    | DuplicateTag(rule: nat, tag: string)
    | LegacyAddressFilter

  datatype Result<+T> = Ok(value: T) | Err(error: Error)

  // ------------------------------------------------------------------- actions

  /** The merged option block of an action, for the kinds that have one. */
  function OptionsOf(a: RawAction): Option<ActionOptions> {
    match a.kind
    case Unset => Some(a.route.options)
    case RouteKind => Some(a.route.options)
    case EvaluateKind => Some(a.evaluate.options)
    case RouteOptionsKind => Some(a.routeOptions)
    case _ => None
  }

  predicate Speculative(a: RawAction) {
    match a.kind
    case Unset => a.route.speculative
    case RouteKind => a.route.speculative
    case EvaluateKind => a.evaluate.speculative
    case _ => false
  }

  predicate ActionDisablesLegacy(a: RawAction) {
    if a.race then true
    else
      match a.kind
      case Unset => a.route.options.disableOptimistic || a.route.speculative
      case RouteKind => a.route.options.disableOptimistic || a.route.speculative
      case EvaluateKind => a.evaluate.options.disableOptimistic || a.evaluate.speculative
      case RouteOptionsKind => a.routeOptions.disableOptimistic
      case _ => false
  }

  predicate ActionHasStrategy(a: RawAction) {
    match a.kind
    case Unset => a.route.options.strategy != AsIs
    case RouteKind => a.route.options.strategy != AsIs
    case EvaluateKind => a.evaluate.options.strategy != AsIs
    case RouteOptionsKind => a.routeOptions.strategy != AsIs
    case _ => false
  }

  // ----------------------------------------------------------- mode resolution

  datatype Flags = Flags(disabled: bool, needed: bool, neededFromStrategy: bool) {
    function Merge(other: Flags): Flags {
      Flags(disabled || other.disabled, needed || other.needed, neededFromStrategy || other.neededFromStrategy)
    }
  }

  const NO_FLAGS := Flags(false, false, false)

  predicate NeedsLegacyFromAddressFilter(d: DefaultRule) {
    d.ruleSetAcceptEmpty || (!d.matchResponse.enabled && (d.ipAcceptAny || d.ipCidr || d.ipIsPrivate))
  }

  predicate HasResponseFields(d: DefaultRule) {
    d.responseRcode || d.responseAnswer || d.responseNs || d.responseExtra
  }

  predicate DefaultDisablesLegacy(d: DefaultRule) {
    || d.matchResponse.enabled
    || HasResponseFields(d)
    || d.action.kind.EvaluateKind?
    || d.action.kind.RespondKind?
    || d.ipVersion > 0
    || d.queryType
  }

  /** The contribution of the rule-sets a default rule names. */
  function RuleSetFlags(env: Env, d: DefaultRule, tags: seq<string>): Result<Flags> {
    if tags == [] then Ok(NO_FLAGS)
    else
      var metadata := env.Lookup(tags[0]);
      if metadata.None? then Err(RuleSetNotFound(tags[0]))
      else
        var rest := RuleSetFlags(env, d, tags[1..]);
        if rest.Err? then rest
        else
          var needed := !d.ruleSetMatchSource && metadata.value.ipCidr;
          Ok(Flags(metadata.value.queryType, needed, false).Merge(rest.value))
  }

  function DefaultFlags(env: Env, d: DefaultRule): Result<Flags> {
    var strategy := ActionHasStrategy(d.action);
    var flags := Flags(
      DefaultDisablesLegacy(d) || ActionDisablesLegacy(d.action),
      NeedsLegacyFromAddressFilter(d) || strategy,
      strategy);
    if d.ruleSet == [] then Ok(flags)
    else if env.router.None? then Err(NoRouter)
    else
      var sets := RuleSetFlags(env, d, d.ruleSet);
      if sets.Err? then sets else Ok(flags.Merge(sets.value))
  }

  function LogicalOwnFlags(a: RawAction): Flags {
    Flags(
      a.kind.EvaluateKind? || a.kind.RespondKind? || ActionDisablesLegacy(a),
      ActionHasStrategy(a),
      ActionHasStrategy(a))
  }

  function RuleFlags(env: Env, r: RawRule): Result<Flags>
    decreases r, 1
  {
    match r
    case Default(d) => DefaultFlags(env, d)
    case Logical(rules, action) =>
      var sub := RulesFlags(env, rules);
      if sub.Err? then sub else Ok(LogicalOwnFlags(action).Merge(sub.value))
    case Unknown => Ok(NO_FLAGS)
  }

  /** `dnsRuleModeRequirements`, also used for the sub rules of a logical rule. */
  function RulesFlags(env: Env, rules: seq<RawRule>): Result<Flags>
    decreases rules, 0
  {
    if rules == [] then Ok(NO_FLAGS)
    else
      var first := RuleFlags(env, rules[0]);
      if first.Err? then first
      else
        var rest := RulesFlags(env, rules[1..]);
        if rest.Err? then rest else Ok(first.value.Merge(rest.value))
  }

  datatype Mode = Mode(legacy: bool, flags: Flags)

  function ResolveMode(env: Env, rules: seq<RawRule>): Result<Mode> {
    var flags := RulesFlags(env, rules);
    if flags.Err? then Err(flags.error)
    else if flags.value.disabled && flags.value.neededFromStrategy then Err(StrategyWithoutLegacy)
    else if flags.value.disabled then Ok(Mode(false, flags.value))
    else Ok(Mode(flags.value.needed, flags.value))
  }

  // ---------------------------------------------------------------- validation

  /** The responses a rule tree reads. */
  datatype Use = Use(needsAnonymous: bool, tags: seq<string>)

  function PureIPError(env: Env, tags: seq<string>): Option<Error> {
    if tags == [] then None
    else
      var metadata := env.Lookup(tags[0]);
      if metadata.None? then Some(RuleSetNotFound(tags[0]))
      else if metadata.value.ipCidr && !metadata.value.nonIpCidr then Some(PureIPRuleSet)
      else PureIPError(env, tags[1..])
  }

  function DefaultUse(env: Env, d: DefaultRule): Result<Use> {
    var m := d.matchResponse;
    if !m.enabled && (HasResponseFields(d) || d.ipCidr || d.ipIsPrivate || d.ipAcceptAny) then
      Err(ResponseFieldsNeedMatchResponse)
    else if !m.enabled && PureIPError(env, d.ruleSet).Some? then Err(PureIPError(env, d.ruleSet).value)
    else if d.ruleSetAcceptEmpty then Err(AcceptEmptyRemoved)
    else
      var tags := if m.enabled && m.tag != "" then [m.tag] else [];
      Ok(Use((m.enabled && m.tag == "") || (d.action.kind.RespondKind? && m.tag == ""), tags))
  }

  function RuleUse(env: Env, r: RawRule): Result<Use>
    decreases r, 1
  {
    match r
    case Default(d) => DefaultUse(env, d)
    case Logical(rules, action) =>
      var use := RulesUse(env, rules);
      if use.Err? || !action.kind.RespondKind? then use
      else if use.value.tags != [] then Err(LogicalRespondBindsTag)
      else Ok(Use(true, []))
    case Unknown => Ok(Use(false, []))
  }

  function RulesUse(env: Env, rules: seq<RawRule>): Result<Use>
    decreases rules, 0
  {
    if rules == [] then Ok(Use(false, []))
    else
      var first := RuleUse(env, rules[0]);
      if first.Err? then first
      else
        var rest := RulesUse(env, rules[1..]);
        if rest.Err? then rest
        else Ok(Use(first.value.needsAnonymous || rest.value.needsAnonymous, first.value.tags + rest.value.tags))
  }

  /** The evaluate tag a rule's own action defines; "" is the anonymous response. */
  function EvaluateTag(r: RawRule): Option<string> {
    match r
    case Default(d) => if d.action.kind.EvaluateKind? then Some(d.action.evaluate.tag) else None
    case Logical(_, a) => if a.kind.EvaluateKind? then Some(a.evaluate.tag) else None
    case Unknown => None
  }

  /** A rule before `i` evaluates under `tag`. */
  ghost predicate EvaluatedBefore(rules: seq<RawRule>, i: nat, tag: string) {
    exists j :: 0 <= j < i && j < |rules| && EvaluateTag(rules[j]) == Some(tag)
  }

  ghost predicate RuleAccepted(env: Env, rules: seq<RawRule>, i: nat)
    requires i < |rules|
  {
    var use := RuleUse(env, rules[i]);
    && use.Ok?
    && (use.value.needsAnonymous ==> EvaluatedBefore(rules, i, ""))
    && (forall t :: t in use.value.tags ==> t != "" && EvaluatedBefore(rules, i, t))
    && (EvaluateTag(rules[i]).Some? && EvaluateTag(rules[i]).value != "" ==>
      !EvaluatedBefore(rules, i, EvaluateTag(rules[i]).value))
  }

  ghost predicate Accepted(env: Env, rules: seq<RawRule>) {
    forall i :: 0 <= i < |rules| ==> RuleAccepted(env, rules, i)
  }

  lemma {:induction false} UseTagsNonempty(env: Env, r: RawRule)
    ensures var use := RuleUse(env, r); use.Ok? ==> "" !in use.value.tags
    decreases r, 1
  {
    if r.Logical? {
      UsesTagsNonempty(env, r.rules);
    }
  }

  lemma {:induction false} UsesTagsNonempty(env: Env, rules: seq<RawRule>)
    ensures var use := RulesUse(env, rules); use.Ok? ==> "" !in use.value.tags
    decreases rules, 0
  {
    if rules != [] {
      UseTagsNonempty(env, rules[0]);
      UsesTagsNonempty(env, rules[1..]);
    }
  }

  /** `validateLegacyDNSModeDisabledRules` rejects a list exactly when one of its rules is not acceptable. */
  method Validate(env: Env, rules: seq<RawRule>) returns (error: Option<Error>)
    ensures error.None? <==> Accepted(env, rules)
  {
    var seenAnonymous := false;
    var defined: set<string> := {};
    for i := 0 to |rules|
      invariant seenAnonymous <==> EvaluatedBefore(rules, i, "")
      invariant forall t :: t in defined <==> t != "" && EvaluatedBefore(rules, i, t)
      invariant forall k :: 0 <= k < i ==> RuleAccepted(env, rules, k)
    {
      var use := RuleUse(env, rules[i]);
      if use.Err? {
        assert !RuleAccepted(env, rules, i);
        return Some(use.error);
      }
      UseTagsNonempty(env, rules[i]);
      if use.value.needsAnonymous && !seenAnonymous {
        assert !RuleAccepted(env, rules, i);
        return Some(NoAnonymousEvaluate(i));
      }
      for k := 0 to |use.value.tags|
        invariant forall t :: t in use.value.tags[..k] ==> t in defined
      {
        assert use.value.tags[..k + 1] == use.value.tags[..k] + [use.value.tags[k]];
        if use.value.tags[k] !in defined {
          assert use.value.tags[k] in use.value.tags && !RuleAccepted(env, rules, i);
          return Some(UndefinedTag(i, use.value.tags[k]));
        }
      }
      assert use.value.tags[..|use.value.tags|] == use.value.tags;
      var tag := EvaluateTag(rules[i]);
      if tag.Some? && tag.value in defined {
        assert !RuleAccepted(env, rules, i);
        return Some(DuplicateTag(i, tag.value));
      }
      assert RuleAccepted(env, rules, i);
      BeforeNext(rules, i);
      if tag == Some("") {
        seenAnonymous := true;
      } else if tag.Some? {
        defined := defined + {tag.value};
      }
    }
    error := None;
  }

  lemma {:induction false} BeforeNext(rules: seq<RawRule>, i: nat)
    requires i < |rules|
    ensures forall t :: EvaluatedBefore(rules, i + 1, t) <==>
      EvaluatedBefore(rules, i, t) || EvaluateTag(rules[i]) == Some(t)
  {
    forall t
      ensures EvaluatedBefore(rules, i + 1, t) <==> EvaluatedBefore(rules, i, t) || EvaluateTag(rules[i]) == Some(t)
    {
      if EvaluatedBefore(rules, i + 1, t) && EvaluateTag(rules[i]) != Some(t) {
        var j :| 0 <= j < i + 1 && EvaluateTag(rules[j]) == Some(t);
        assert j < i;
      }
    }
  }
}
