/**
 * The DNS rule engine (dns/router.go): one visit to a rule, one settle pass over the launched
 * futures and one sweep over the armed race rules, as functions on the walk state.
 *
 * `done` holds the reply of every future that has completed when the futures are tested.
 * A settle pass works on an earlier reading of the same flags, so it only sees the
 * futures in `seen`; the two readings are equal when nothing completes in between.
 */
module RuleEngine {
  import opened Wrappers
  import opened QueryOptions

  datatype Message = Message(id: nat)

  datatype Reply = Answered(msg: Option<Message>) | Failed(error: nat) {
    function View(): Option<Message> { if Answered? then msg else None }
  }

  datatype RejectMethod = RejectDefault | RejectDrop | RejectReply

  datatype Action =
    | SetOptions(options: ActionOptions)
    | Evaluate(server: string, tag: string, speculative: bool, options: ActionOptions)
    | Respond
    | Route(server: string, speculative: bool, options: ActionOptions)
    | Reject(how: RejectMethod)
    | Predefined(msg: Message)

  datatype Rule = Rule(matchTag: string, tags: seq<string>, anonymous: bool, race: bool, action: Action) {
    predicate HasBindings() { tags != [] || anonymous }
    predicate Racing() { race && HasBindings() }
  }

  /** The responses a rule's `Match` may look at. */
  datatype View = View(anonymous: Option<Message>, named: map<string, Option<Message>>)

  function Look(named: map<string, Option<Message>>, tag: string): Option<Message> {
    if tag in named then named[tag] else None
  }

  /** The fixed surroundings of one exchange: rules, their `Match`, and the transport manager. */
  datatype Engine = Engine(
    rules: seq<Rule>,
    matches: (nat, View) -> bool,
    transports: map<string, bool>, // tag to "is fakeip"
    defaultTransport: string,
    defaultStrategy: Strategy,
    allowFakeIP: bool)

  /** A launched exchange; `rule` is the index of the rule that launched it. */
  datatype Future = Future(id: nat, tag: string, rule: nat, transport: string, options: Options, terminal: bool) {
    predicate Resolved(done: map<nat, Reply>) { id in done }
    function View(done: map<nat, Reply>): Option<Message> { if id in done then done[id].View() else None }
  }

  /** A race rule waiting for its responses; `body` is the rule at index `rule`. */
  datatype Armed = Armed(rule: nat, body: Rule, waits: seq<Future>, anon: Option<Future>, bindsAnonymous: bool,
                         options: Options) {
    predicate Ready(done: map<nat, Reply>) { forall f :: f in waits ==> f.Resolved(done) }
  }

  datatype Walk = Walk(
    index: nat,
    options: Options,
    anon: Option<Future>,
    named: map<string, Future>,
    futures: seq<Future>,
    settled: set<nat>,
    responses: map<string, Option<Message>>,
    sources: map<string, string>,
    armed: seq<Armed>,
    terminal: Option<Future>)

  function InitialWalk(options: Options): Walk {
    Walk(0, options, None, map[], [], {}, map[], map[], [], None)
  }

  datatype Result =
    | Responded(msg: Message, transport: string)
    | MissingResponse
    | Refused
    | Dropped
    | Fixed(msg: Message)
    | Exchanged(transport: string, options: Options, reply: Reply)
    | Cancelled

  /** What a matched final action asks for: nothing, a result, or a query to a transport. */
  datatype Verdict = Pass | Deliver(result: Result) | Ask(transport: string, options: Options)

  /** A decided exchange that still has to be carried out; `rule` is the deciding rule's index. */
  datatype Pending = Query(rule: nat, transport: string, options: Options) | Speculated(rule: nat, future: Future)

  datatype Suspension = Await(future: Future) | Drain | PendingOn(pending: Pending)

  datatype Step =
    | Next(state: Walk)
    | Suspend(state: Walk, why: Suspension)
    | Return(state: Walk, rule: nat, result: Result)

  datatype Swept = Unswept(state: Walk) | Committed(state: Walk, rule: nat, verdict: Verdict)

  // ---------------------------------------------------------------- settling

  function SettleOne(s: Walk, f: Future, done: map<nat, Reply>, seen: set<nat>): Walk {
    if f.id in s.settled || f.id !in seen || f.id !in done then s
    else
      var s1 := s.(settled := s.settled + {f.id});
      if f.tag == "" then s1
      else s1.(responses := s.responses[f.tag := f.View(done)], sources := s.sources[f.tag := f.transport])
  }

  /** The state after the settle loop has passed the first `n` futures. */
  function SettlePrefix(s: Walk, done: map<nat, Reply>, seen: set<nat>, n: nat): (r: Walk)
    requires n <= |s.futures|
    ensures r == s.(settled := r.settled, responses := r.responses, sources := r.sources)
  {
    if n == 0 then s else SettleOne(SettlePrefix(s, done, seen, n - 1), s.futures[n - 1], done, seen)
  }

  function Settle(s: Walk, done: map<nat, Reply>, seen: set<nat>): Walk {
    SettlePrefix(s, done, seen, |s.futures|)
  }

  // ------------------------------------------------------------ final actions

  /** `resolveDNSRoute`: a missing server, or a fakeip one that is not allowed, is skipped. */
  function ResolveRoute(e: Engine, o: Options, server: string, a: ActionOptions): Option<Options> {
    if server !in e.transports then None
    else if e.transports[server] && !e.allowFakeIP then None
    else
      var o' := Apply(o, a);
      Some(if e.transports[server] then o'.(disableCache := true) else o')
  }

  function RejectVerdict(m: RejectMethod): Verdict {
    match m
    case RejectDefault => Deliver(Refused)
    case RejectDrop => Deliver(Dropped)
    case RejectReply => Pass
  }

  function RespondWith(response: Option<Message>, transport: string): Result {
    if response.None? then MissingResponse else Responded(response.value, transport)
  }

  function Source(sources: map<string, string>, tag: string): string {
    if tag in sources then sources[tag] else ""
  }

  // ----------------------------------------------------------------- sweeping

  function ArmedView(s: Walk, a: Armed, done: map<nat, Reply>): View {
    var source := if a.bindsAnonymous then a.anon else s.anon;
    View(if source.Some? then source.value.View(done) else None, s.responses)
  }

  /** What sweeping the ready armed rule `a` decides. */
  function Judge(e: Engine, s: Walk, a: Armed, done: map<nat, Reply>): Verdict {
    var rule := a.body;
    if !e.matches(a.rule, ArmedView(s, a, done)) then Pass
    else
      match rule.action
      case Respond =>
        Deliver(
          if rule.matchTag != "" then RespondWith(Look(s.responses, rule.matchTag), Source(s.sources, rule.matchTag))
          else if a.anon.Some? then RespondWith(a.anon.value.View(done), a.anon.value.transport)
          else if s.anon.Some? then RespondWith(s.anon.value.View(done), s.anon.value.transport)
          else MissingResponse)
      case Route(server, _, o) =>
        var q := ResolveRoute(e, a.options, server, o);
        if q.None? then Pass else Ask(server, q.value)
      case Reject(m) => RejectVerdict(m)
      case Predefined(msg) => Deliver(Fixed(msg))
      case SetOptions(_) => Pass
      case Evaluate(_, _, _, _) => Pass
  }

  /** What every armed rule would decide in walk state `s`; the armed list itself is not consulted. */
  function Judgement(e: Engine, s: Walk, done: map<nat, Reply>): (judge: Armed -> Verdict)
    ensures forall a :: judge(a) == Judge(e, s, a, done)
  {
    a => Judge(e, s, a, done)
  }

  /** `sweepArmedDNSRules` from position `i` of the armed list on. */
  function SweepFrom(judge: Armed -> Verdict, s: Walk, done: map<nat, Reply>, i: nat): Swept
    requires i <= |s.armed|
    decreases |s.armed| - i
  {
    if i == |s.armed| then Unswept(s)
    else if !s.armed[i].Ready(done) then SweepFrom(judge, s, done, i + 1)
    else
      var a := s.armed[i];
      var s' := s.(armed := s.armed[..i] + s.armed[i + 1..]);
      if judge(a).Pass? then SweepFrom(judge, s', done, i) else Committed(s', a.rule, judge(a))
  }

  function Sweep(e: Engine, s: Walk, done: map<nat, Reply>): Swept {
    SweepFrom(Judgement(e, s, done), s, done, 0)
  }

  function PendingOf(rule: nat, verdict: Verdict): Pending
    requires verdict.Ask?
  {
    Query(rule, verdict.transport, verdict.options)
  }

  // ------------------------------------------------------------ visiting a rule

  /** The bound futures of `tags` that have not resolved, in tag order. */
  function Unresolved(tags: seq<string>, named: map<string, Future>, done: map<nat, Reply>): seq<Future> {
    if tags == [] then []
    else
      var rest := Unresolved(tags[1..], named, done);
      if tags[0] in named && !named[tags[0]].Resolved(done) then [named[tags[0]]] + rest else rest
  }

  /** Everything `rule` still has to wait for: its tags in order, then the anonymous response. */
  function Waits(rule: Rule, s: Walk, done: map<nat, Reply>): seq<Future> {
    Unresolved(rule.tags, s.named, done) +
    if rule.anonymous && s.anon.Some? && !s.anon.value.Resolved(done) then [s.anon.value] else []
  }

  function Advance(s: Walk): Walk { s.(index := s.index + 1) }

  function Launch(s: Walk, f: Future): Walk { s.(futures := s.futures + [f]) }

  /** Makes a launched evaluate future the one later rules read. */
  function Bind(s: Walk, f: Future): Walk {
    if f.tag == "" then s.(anon := Some(f)) else s.(named := s.named[f.tag := f])
  }

  function CurrentView(s: Walk, done: map<nat, Reply>): View {
    View(if s.anon.Some? then s.anon.value.View(done) else None, s.responses)
  }

  /** The armed entry recorded for the race rule at the current index. */
  function ArmedEntry(e: Engine, s: Walk, done: map<nat, Reply>): Armed
    requires s.index < |e.rules|
  {
    var rule := e.rules[s.index];
    Armed(s.index, rule, Waits(rule, s, done), if rule.anonymous then s.anon else None, rule.anonymous, s.options)
  }

  /** How a sweep made inside the walk continues it; a committed query drops the other armed rules. */
  function AfterSweep(swept: Swept): Step {
    match swept
    case Unswept(s) => Next(Advance(s))
    case Committed(s, winner, verdict) =>
      if verdict.Ask? then Suspend(s.(armed := []), PendingOn(PendingOf(winner, verdict)))
      else if verdict.Deliver? then Return(s, winner, verdict.result)
      else Next(Advance(s))
  }

  function Arm(e: Engine, s: Walk, done: map<nat, Reply>): Step
    requires s.index < |e.rules|
  {
    var a := ArmedEntry(e, s, done);
    var s1 := s.(armed := s.armed + [a]);
    if a.waits != [] then Next(Advance(s1)) else AfterSweep(Sweep(e, s1, done))
  }

  /** A matched evaluate action. A missing server still clears the anonymous response. */
  function ActEvaluate(e: Engine, s: Walk, server: string, tag: string, speculative: bool, o: ActionOptions): Step {
    if server !in e.transports then Next(Advance(if tag == "" then s.(anon := None) else s))
    else if !speculative && s.armed != [] then Suspend(s, Drain)
    else
      var f := Future(|s.futures|, tag, s.index, server, Finalize(Apply(s.options, o), e.defaultStrategy), false);
      Next(Advance(Bind(Launch(s, f), f)))
  }

  /** A matched respond action of `rule`. */
  function ActRespond(s: Walk, rule: Rule, done: map<nat, Reply>): Step {
    if s.armed != [] then Suspend(s, Drain)
    else if rule.matchTag != "" then
      Return(s, s.index, RespondWith(Look(s.responses, rule.matchTag), Source(s.sources, rule.matchTag)))
    else if !rule.HasBindings() && s.anon.Some? && !s.anon.value.Resolved(done) then Suspend(s, Await(s.anon.value))
    else if s.anon.None? then Return(s, s.index, MissingResponse)
    else Return(s, s.index, RespondWith(s.anon.value.View(done), s.anon.value.transport))
  }

  /** A matched route action; a speculative one is started while race rules are still armed. */
  function ActRoute(e: Engine, s: Walk, server: string, speculative: bool, o: ActionOptions): Step {
    var q := ResolveRoute(e, s.options, server, o);
    if q.None? then Next(Advance(s))
    else if s.armed != [] then
      if speculative && s.terminal.None? then
        var f := Future(|s.futures|, "", s.index, server, Finalize(q.value, e.defaultStrategy), true);
        Suspend(Launch(s, f).(terminal := Some(f)), Drain)
      else Suspend(s, Drain)
    else if s.terminal.Some? && s.terminal.value.rule == s.index then
      Suspend(s, PendingOn(Speculated(s.index, s.terminal.value)))
    else Suspend(s, PendingOn(Query(s.index, server, q.value)))
  }

  /** The part of a visit after every bound response is available. */
  function Act(e: Engine, s: Walk, done: map<nat, Reply>): Step
    requires s.index < |e.rules|
  {
    var rule := e.rules[s.index];
    if !e.matches(s.index, CurrentView(s, done)) then Next(Advance(s))
    else
      match rule.action
      case SetOptions(o) => Next(Advance(s.(options := Apply(s.options, o))))
      case Evaluate(server, tag, speculative, o) => ActEvaluate(e, s, server, tag, speculative, o)
      case Respond => ActRespond(s, rule, done)
      case Route(server, speculative, o) => ActRoute(e, s, server, speculative, o)
      case Reject(m) =>
        if s.armed != [] then Suspend(s, Drain)
        else if m.RejectReply? then Next(Advance(s))
        else Return(s, s.index, RejectVerdict(m).result)
      case Predefined(msg) =>
        if s.armed != [] then Suspend(s, Drain) else Return(s, s.index, Fixed(msg))
  }

  /** One iteration of the loop of `walkDNSRules`, or its exit once every rule has been passed. */
  function Visit(e: Engine, s: Walk, done: map<nat, Reply>, seen: set<nat>): Step {
    if s.index >= |e.rules| then
      if s.armed != [] then Suspend(s, Drain)
      else Suspend(s, PendingOn(Query(|e.rules|, e.defaultTransport, s.options)))
    else
      var rule := e.rules[s.index];
      if !rule.HasBindings() then Act(e, s, done)
      else
        var s1 := Settle(s, done, seen);
        if rule.race then Arm(e, s1, done)
        else
          var waits := Waits(rule, s1, done);
          if waits != [] then Suspend(s1, Await(waits[0])) else Act(e, s1, done)
  }
}
