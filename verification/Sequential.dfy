/**
 * The reference meaning of a DNS rule list: an interpreter that waits for every evaluate exchange
 * before it looks at the next rule, and judges a race rule on the spot.
 */
module Sequential {
  import opened Wrappers
  import opened QueryOptions
  import opened RuleEngine

  /** One exchange, named by the rule that asks for it; `answer` fixes the reply to each. */
  datatype Origin = Origin(rule: nat, transport: string, options: Options)

  type Answers = Origin -> Reply

  datatype Sigma = Sigma(options: Options, anon: Option<Origin>, named: map<string, Origin>)

  function InitialSigma(options: Options): Sigma { Sigma(options, None, map[]) }

  function OriginView(answer: Answers, o: Option<Origin>): Option<Message> {
    if o.Some? then answer(o.value).View() else None
  }

  function Named(s: Sigma, tag: string): Option<Origin> {
    if tag in s.named then Some(s.named[tag]) else None
  }

  function SigmaView(answer: Answers, s: Sigma): View {
    View(OriginView(answer, s.anon), map t | t in s.named :: answer(s.named[t]).View())
  }

  function Reading(answer: Answers, o: Option<Origin>): Result {
    if o.None? then MissingResponse else RespondWith(answer(o.value).View(), o.value.transport)
  }

  function Exchanging(e: Engine, answer: Answers, rule: nat, transport: string, options: Options): Result {
    var o := Finalize(options, e.defaultStrategy);
    Exchanged(transport, o, answer(Origin(rule, transport, o)))
  }

  /** What the final action of rule `i` delivers; None for the other actions and for skipped routes. */
  function FinalAction(e: Engine, answer: Answers, i: nat, s: Sigma): Option<Result>
    requires i < |e.rules|
  {
    var rule := e.rules[i];
    match rule.action
    case Respond => Some(Reading(answer, if rule.matchTag != "" then Named(s, rule.matchTag) else s.anon))
    case Route(server, _, o) =>
      var q := ResolveRoute(e, s.options, server, o);
      if q.None? then None else Some(Exchanging(e, answer, i, server, q.value))
    case Reject(m) =>
      (match m
       case RejectDefault => Some(Refused)
       case RejectDrop => Some(Dropped)
       case RejectReply => None)
    case Predefined(msg) => Some(Fixed(msg))
    case SetOptions(_) => None
    case Evaluate(_, _, _, _) => None
  }

  /** The effect of the other actions, when the rule is not a race rule. */
  function Effect(e: Engine, i: nat, s: Sigma): Sigma
    requires i < |e.rules|
  {
    match e.rules[i].action
    case SetOptions(o) => s.(options := Apply(s.options, o))
    case Evaluate(server, tag, _, o) =>
      if server !in e.transports then if tag == "" then s.(anon := None) else s
      else
        var origin := Origin(i, server, Finalize(Apply(s.options, o), e.defaultStrategy));
        if tag == "" then s.(anon := Some(origin)) else s.(named := s.named[tag := origin])
    case _ => s
  }

  function Decide(e: Engine, answer: Answers, i: nat, s: Sigma): Option<Result>
    requires i < |e.rules|
  {
    if e.matches(i, SigmaView(answer, s)) then FinalAction(e, answer, i, s) else None
  }

  function PassOver(e: Engine, answer: Answers, i: nat, s: Sigma): Sigma
    requires i < |e.rules|
  {
    if e.rules[i].Racing() || !e.matches(i, SigmaView(answer, s)) then s else Effect(e, i, s)
  }

  function DefaultExchange(e: Engine, answer: Answers, s: Sigma): Result {
    Exchanging(e, answer, |e.rules|, e.defaultTransport, s.options)
  }

  /** The interpreter: the deciding rule, or the number of rules for the default transport, and the result. */
  function Interpret(e: Engine, answer: Answers, i: nat, s: Sigma): (nat, Result)
    requires i <= |e.rules|
    decreases |e.rules| - i
  {
    if i == |e.rules| then (i, DefaultExchange(e, answer, s))
    else
      var d := Decide(e, answer, i, s);
      if d.Some? then (i, d.value) else Interpret(e, answer, i + 1, PassOver(e, answer, i, s))
  }

  /** The state before rule `i` as long as no rule before it decides, race rules aside. */
  function StateAt(e: Engine, answer: Answers, options: Options, i: nat): Option<Sigma>
    requires i <= |e.rules|
  {
    if i == 0 then Some(InitialSigma(options))
    else
      var before := StateAt(e, answer, options, i - 1);
      if before.None? then None
      else if !e.rules[i - 1].Racing() && Decide(e, answer, i - 1, before.value).Some? then None
      else Some(PassOver(e, answer, i - 1, before.value))
  }

  /** Rule `m` would decide, were it judged on the responses it binds. */
  ghost predicate Decides(e: Engine, answer: Answers, options: Options, m: nat) {
    m < |e.rules| && StateAt(e, answer, options, m).Some? &&
      Decide(e, answer, m, StateAt(e, answer, options, m).value).Some?
  }

  /**
   * Rule `m` (or the default) is entitled to decide with `result`: no ordinary rule before it decides,
   * and unless it is a race rule no race rule before it does either.
   */
  ghost predicate Entitled(e: Engine, answer: Answers, options: Options, m: nat, result: Result) {
    && m <= |e.rules|
    && StateAt(e, answer, options, m).Some?
    && (if m < |e.rules| then Decide(e, answer, m, StateAt(e, answer, options, m).value) == Some(result)
        else result == DefaultExchange(e, answer, StateAt(e, answer, options, m).value))
    && ((m < |e.rules| && e.rules[m].Racing()) || forall k :: 0 <= k < m ==> !Decides(e, answer, options, k))
  }

  /** With no decision before rule `i`, the interpreter arrives at rule `i` in the state `StateAt` gives. */
  lemma {:induction false} InterpretFrom(e: Engine, answer: Answers, options: Options, i: nat)
    requires i <= |e.rules| && StateAt(e, answer, options, i).Some?
    requires forall k :: 0 <= k < i ==> !Decides(e, answer, options, k)
    ensures Interpret(e, answer, 0, InitialSigma(options)) ==
      Interpret(e, answer, i, StateAt(e, answer, options, i).value)
    decreases i
  {
    if i > 0 {
      InterpretFrom(e, answer, options, i - 1);
      assert !Decides(e, answer, options, i - 1);
    }
  }

  lemma {:induction false} StateBefore(e: Engine, answer: Answers, options: Options, k: nat, m: nat)
    requires k <= m <= |e.rules| && StateAt(e, answer, options, m).Some?
    ensures StateAt(e, answer, options, k).Some?
    ensures k < m && !e.rules[k].Racing() ==> !Decides(e, answer, options, k)
    decreases m - k
  {
    if k < m {
      StateBefore(e, answer, options, k + 1, m);
    }
  }

  /** The first rule that decides, at or before one that does. */
  lemma {:induction false} FirstDecision(e: Engine, answer: Answers, options: Options, m: nat) returns (first: nat)
    requires Decides(e, answer, options, m)
    ensures first <= m && Decides(e, answer, options, first)
    ensures forall k :: 0 <= k < first ==> !Decides(e, answer, options, k)
  {
    if k :| 0 <= k < m && Decides(e, answer, options, k) {
      first := FirstDecision(e, answer, options, k);
    } else {
      first := m;
    }
  }

  /**
   * An entitled result is the interpreter's own, unless a race rule takes it from an earlier race rule:
   * the result may differ from the sequential one only among race rules.
   */
  lemma {:induction false} EntitledIsSequential(e: Engine, answer: Answers, options: Options, m: nat, result: Result)
    requires Entitled(e, answer, options, m, result)
    ensures var (first, r) := Interpret(e, answer, 0, InitialSigma(options));
      || (first == m && r == result)
      || (first < m < |e.rules| && e.rules[first].Racing() && e.rules[m].Racing())
  {
    if forall k :: 0 <= k < m ==> !Decides(e, answer, options, k) {
      InterpretFrom(e, answer, options, m);
    } else {
      assert Decides(e, answer, options, m);
      var first := FirstDecision(e, answer, options, m);
      InterpretFrom(e, answer, options, first);
      StateBefore(e, answer, options, first, m);
    }
  }
}
