/**
 * Every run of the concurrent rule engine on a validated rule list delivers what the sequential
 * interpreter entitles some rule to deliver.
 */
module RuleOutcome {
  import opened Wrappers
  import opened QueryOptions
  import opened RuleEngine
  import opened RuleSweep
  import opened RuleRun
  import opened RuleSafety
  import opened RuleInvariant
  import opened Sequential

  // -------------------------------------------------------------- hypotheses

  /** What validation guarantees about the rule list (see `RuleCompile.ValidationIsSound`). */
  ghost predicate Validated(e: Engine) {
    && (forall i, j :: 0 <= i < j < |e.rules| && DefinesTag(e, i) && DefinesTag(e, j) ==>
      e.rules[i].action.tag != e.rules[j].action.tag)
    && (forall j, t :: 0 <= j < |e.rules| && t in e.rules[j].tags ==> DefinedBefore(e, j, t))
    && (forall j :: 0 <= j < |e.rules| ==> RespondOk(e.rules[j]))
  }

  ghost predicate DefinesTag(e: Engine, i: nat) {
    i < |e.rules| && e.rules[i].action.Evaluate? && e.rules[i].action.tag != ""
  }

  ghost predicate DefinedBefore(e: Engine, j: nat, t: string) {
    exists i :: 0 <= i < j && DefinesTag(e, i) && e.rules[i].action.tag == t
  }

  ghost predicate RespondOk(rule: Rule) {
    && (rule.matchTag != "" ==> rule.matchTag in rule.tags)
    && (rule.action.Respond? && rule.matchTag == "" && rule.HasBindings() ==> rule.anonymous && rule.tags == [])
  }

  /** The two views show the same to `rule`. */
  ghost predicate SameFor(rule: Rule, v: View, w: View) {
    && (rule.anonymous ==> v.anonymous == w.anonymous)
    && forall t :: t in rule.tags ==> Look(v.named, t) == Look(w.named, t)
  }

  /** `Match` looks only at the responses a rule declares. */
  ghost predicate ReadsDeclared(e: Engine) {
    forall i: nat, v, w :: i < |e.rules| && SameFor(e.rules[i], v, w) ==> e.matches(i, v) == e.matches(i, w)
  }

  function OriginOf(f: Future): Origin { Origin(f.rule, f.transport, f.options) }

  function OriginOfPending(e: Engine, p: Pending): Origin {
    match p
    case Query(rule, transport, options) => Origin(rule, transport, Finalize(options, e.defaultStrategy))
    case Speculated(_, f) => OriginOf(f)
  }

  /** Of the completed responses `tags` name, each is in `seen`, was settled before, or has no message. */
  ghost predicate Noticed(answer: Answers, s: Walk, done: map<nat, Reply>, seen: set<nat>, tags: seq<string>) {
    forall t :: t in tags && t in s.named && s.named[t].Resolved(done) ==>
      s.named[t].id in seen || s.named[t].id in s.settled || answer(OriginOf(s.named[t])).View().None?
  }

  ghost predicate SweepNoticed(answer: Answers, s: Walk, done: map<nat, Reply>, seen: set<nat>) {
    forall a :: a in s.armed && a.Ready(done) ==> Noticed(answer, s, done, seen, a.body.tags)
  }

  /**
   * An event is fair to `answer` when exchanges reply as it says, the caller does not give up, and no
   * rule is judged with a response missing that completed between settling and testing. A visit judges
   * its rule once that has nothing to wait for, and with a race rule every armed rule that is ready; a
   * driver pass judges the latter. Completions in the gap that no judged rule reads are harmless.
   */
  ghost predicate Fair(e: Engine, answer: Answers, c: Config, ev: Event) {
    match ev
    case Complete(k, reply) => k < |c.s.futures| && reply == answer(OriginOf(c.s.futures[k]))
    case VisitRule(seen) =>
      c.s.index < |e.rules| && Waits(e.rules[c.s.index], c.s, c.done) == [] ==>
        && Noticed(answer, c.s, c.done, seen, e.rules[c.s.index].tags)
        && (e.rules[c.s.index].Racing() ==> SweepNoticed(answer, c.s, c.done, seen))
    case Drive(seen) => SweepNoticed(answer, c.s, c.done, seen)
    case Exchange(reply) => c.phase.Finishing? && reply == answer(OriginOfPending(e, c.phase.pending))
    case Abort => false
    case _ => true
  }

  ghost predicate FairRun(e: Engine, answer: Answers, c: Config, events: seq<Event>, c': Config)
    decreases |events|
  {
    if events == [] then c' == c
    else
      && Enabled(c, events[0]) && Fair(e, answer, c, events[0])
      && FairRun(e, answer, Fire(e, c, events[0]), events[1..], c')
  }

  // -------------------------------------------------------------- simulation

  function OriginOption(f: Option<Future>): Option<Origin> {
    if f.Some? then Some(OriginOf(f.value)) else None
  }

  /** What the walk state stands for in the sequential interpreter. */
  function Abs(s: Walk): Sigma {
    Sigma(s.options, OriginOption(s.anon), map t | t in s.named :: OriginOf(s.named[t]))
  }

  ghost predicate Faithful(answer: Answers, futures: seq<Future>, done: map<nat, Reply>) {
    forall f :: Known(futures, f) && f.id in done ==> done[f.id] == answer(OriginOf(f))
  }

  /** Every tagged evaluate future is the one its tag names: no tag is launched twice. */
  ghost predicate NamesOk(futures: seq<Future>, named: map<string, Future>) {
    forall f :: Known(futures, f) && !f.terminal && f.tag != "" ==> f.tag in named && named[f.tag] == f
  }

  /** The settled named responses are exactly the answers to the exchanges their tags name. */
  ghost predicate ResponsesOk(answer: Answers, named: map<string, Future>, settled: set<nat>,
                              responses: map<string, Option<Message>>, sources: map<string, string>) {
    && (forall t :: t in responses <==> t in named && named[t].id in settled)
    && (forall t :: t in responses ==> responses[t] == answer(OriginOf(named[t])).View())
    && (forall t :: t in responses ==> t in sources && sources[t] == named[t].transport)
  }

  ghost predicate DataOk(answer: Answers, s: Walk, done: map<nat, Reply>) {
    && Faithful(answer, s.futures, done)
    && (forall k :: k in s.settled ==> k < |s.futures|)
    && NamesOk(s.futures, s.named)
    && ResponsesOk(answer, s.named, s.settled, s.responses, s.sources)
  }

  // ----------------------------------------------------------------- settling

  lemma {:induction false} SettleOneData(answer: Answers, s: Walk, f: Future, done: map<nat, Reply>, seen: set<nat>)
    requires BindingsOk(s.futures, s.anon, s.named) && DataOk(answer, s, done)
    requires Known(s.futures, f) && (f.terminal ==> f.tag == "")
    ensures DataOk(answer, SettleOne(s, f, done, seen), done)
  {
    forall t | t in s.named && s.named[t].id == f.id
      ensures s.named[t] == f && t == f.tag
    {
    }
  }

  lemma {:induction false} SettleSomeData(answer: Answers, s: Walk, done: map<nat, Reply>, seen: set<nat>, n: nat)
    requires BindingsOk(s.futures, s.anon, s.named) && DataOk(answer, s, done) && n <= |s.futures|
    requires forall f :: f in s.futures ==> Known(s.futures, f) && (f.terminal ==> f.tag == "")
    ensures DataOk(answer, SettlePrefix(s, done, seen, n), done)
  {
    if n > 0 {
      SettleSomeData(answer, s, done, seen, n - 1);
      var p := SettlePrefix(s, done, seen, n - 1);
      assert p == s.(settled := p.settled, responses := p.responses, sources := p.sources);
      SettleOneData(answer, p, s.futures[n - 1], done, seen);
    }
  }

  lemma {:induction false} SettlePrefixData(e: Engine, answer: Answers, s: Walk, done: map<nat, Reply>, seen: set<nat>,
                                            n: nat)
    requires WalkOk(e, s) && DataOk(answer, s, done) && n <= |s.futures|
    ensures DataOk(answer, SettlePrefix(s, done, seen, n), done)
  {
    forall f | f in s.futures ensures Known(s.futures, f) && (f.terminal ==> f.tag == "") {
      assert Accounted(e, s.index, s.terminal, f);
    }
    SettleSomeData(answer, s, done, seen, n);
  }

  /** A settle pass settles exactly the completed futures it sees. */
  lemma {:induction false} SettlePrefixCovers(s: Walk, done: map<nat, Reply>, seen: set<nat>, n: nat)
    requires n <= |s.futures| && forall i :: 0 <= i < |s.futures| ==> s.futures[i].id == i
    ensures forall k :: k in SettlePrefix(s, done, seen, n).settled <==>
      k in s.settled || (0 <= k < n && k in done && k in seen)
  {
    if n > 0 {
      SettlePrefixCovers(s, done, seen, n - 1);
    }
  }

  /** Of the completed responses `tags` name, each is settled or has no message. */
  ghost predicate Readable(answer: Answers, s: Walk, done: map<nat, Reply>, tags: seq<string>) {
    forall t :: t in tags && t in s.named && s.named[t].Resolved(done) ==>
      s.named[t].id in s.settled || answer(OriginOf(s.named[t])).View().None?
  }

  ghost predicate SweepReadable(answer: Answers, s: Walk, done: map<nat, Reply>) {
    forall a :: a in s.armed && a.Ready(done) ==> Readable(answer, s, done, a.body.tags)
  }

  /** What a settle pass notices is readable afterwards. */
  lemma {:induction false} SettleReads(e: Engine, answer: Answers, s: Walk, done: map<nat, Reply>, seen: set<nat>,
                                       tags: seq<string>)
    requires WalkOk(e, s) && Noticed(answer, s, done, seen, tags)
    ensures Readable(answer, Settle(s, done, seen), done, tags)
  {
    SettlePrefixCovers(s, done, seen, |s.futures|);
  }

  lemma {:induction false} SettleReadsSwept(e: Engine, answer: Answers, s: Walk, done: map<nat, Reply>, seen: set<nat>)
    requires WalkOk(e, s) && SweepNoticed(answer, s, done, seen)
    ensures SweepReadable(answer, Settle(s, done, seen), done)
  {
    forall a | a in s.armed && a.Ready(done) ensures Readable(answer, Settle(s, done, seen), done, a.body.tags) {
      SettleReads(e, answer, s, done, seen, a.body.tags);
    }
  }

  // ------------------------------------------------------ what a rule gets to see

  /** The exchange that `tag` names in the walk. */
  function NamedOrigin(named: map<string, Future>, tag: string): Option<Origin> {
    if tag in named then Some(OriginOf(named[tag])) else None
  }

  lemma {:induction false} NothingUnresolved(tags: seq<string>, named: map<string, Future>, done: map<nat, Reply>)
    requires Unresolved(tags, named, done) == []
    ensures forall t :: t in tags && t in named ==> named[t].Resolved(done)
  {
    if tags != [] {
      NothingUnresolved(tags[1..], named, done);
      forall t | t in tags && t in named ensures named[t].Resolved(done) {
        assert t == tags[0] || t in tags[1..];
      }
    }
  }

  /** A resolved named response reads as the answer to the exchange its tag names. */
  lemma {:induction false} NamedReads(answer: Answers, s: Walk, done: map<nat, Reply>, sigma: Sigma, tag: string)
    requires BindingsOk(s.futures, s.anon, s.named) && DataOk(answer, s, done)
    requires tag in s.named ==>
      s.named[tag].Resolved(done) && (s.named[tag].id in s.settled || answer(OriginOf(s.named[tag])).View().None?)
    requires Named(sigma, tag) == NamedOrigin(s.named, tag)
    ensures Look(s.responses, tag) == Look(SigmaView(answer, sigma).named, tag) == OriginView(answer, Named(sigma, tag))
    ensures RespondWith(Look(s.responses, tag), Source(s.sources, tag)) == Reading(answer, Named(sigma, tag))
  {
  }

  lemma {:induction false} AnonymousReads(answer: Answers, futures: seq<Future>, f: Option<Future>,
                                          done: map<nat, Reply>)
    requires Faithful(answer, futures, done)
    requires f.Some? ==> Known(futures, f.value) && f.value.Resolved(done)
    ensures (if f.Some? then f.value.View(done) else None) == OriginView(answer, OriginOption(f))
    ensures Reading(answer, OriginOption(f)) ==
      (if f.Some? then RespondWith(f.value.View(done), f.value.transport) else MissingResponse)
  {
  }

  /** A rule with nothing left to wait for sees what the sequential interpreter shows it. */
  lemma {:induction false} CurrentViewAgrees(answer: Answers, s: Walk, done: map<nat, Reply>, rule: Rule)
    requires BindingsOk(s.futures, s.anon, s.named) && DataOk(answer, s, done)
    requires rule.HasBindings() ==> Readable(answer, s, done, rule.tags) && Waits(rule, s, done) == []
    ensures SameFor(rule, CurrentView(s, done), SigmaView(answer, Abs(s)))
  {
    if rule.HasBindings() {
      NothingUnresolved(rule.tags, s.named, done);
      forall t | t in rule.tags ensures Look(s.responses, t) == Look(SigmaView(answer, Abs(s)).named, t) {
        NamedReads(answer, s, done, Abs(s), t);
      }
      if rule.anonymous {
        AnonymousReads(answer, s.futures, s.anon, done);
      }
    }
  }

  // ------------------------------------------------------------- armed rules

  /** An armed entry remembers what its rule binds in the sequential state `sigma`. */
  ghost predicate Captures(s: Walk, done: map<nat, Reply>, sigma: Sigma, a: Armed) {
    && a.options == sigma.options
    && a.bindsAnonymous == a.body.anonymous
    && (a.body.anonymous ==> OriginOption(a.anon) == sigma.anon)
    && (a.anon.Some? ==> a.anon.value in a.waits || a.anon.value.Resolved(done))
    && (a.waits == [] && a.body.anonymous ==> a.anon == s.anon)
    && (a.waits == [] || a.anon.Some? || a.body.tags != [])
    && (forall t :: t in a.body.tags ==> Named(sigma, t) == NamedOrigin(s.named, t))
    && (forall t :: t in a.body.tags && t in s.named ==> s.named[t] in a.waits || s.named[t].Resolved(done))
  }

  ghost predicate ArmedTracks(e: Engine, answer: Answers, options: Options, s: Walk, done: map<nat, Reply>, a: Armed) {
    && a.rule < |e.rules|
    && StateAt(e, answer, options, a.rule).Some?
    && Captures(s, done, StateAt(e, answer, options, a.rule).value, a)
  }

  function VerdictResult(e: Engine, answer: Answers, rule: nat, v: Verdict): Option<Result> {
    match v
    case Pass => None
    case Deliver(r) => Some(r)
    case Ask(transport, options) => Some(Exchanging(e, answer, rule, transport, options))
  }

  lemma {:induction false} ArmedViewAgrees(answer: Answers, s: Walk, done: map<nat, Reply>, sigma: Sigma, a: Armed)
    requires BindingsOk(s.futures, s.anon, s.named) && DataOk(answer, s, done) && Readable(answer, s, done, a.body.tags)
    requires Captures(s, done, sigma, a) && a.Ready(done) && (a.anon.Some? ==> Known(s.futures, a.anon.value))
    ensures SameFor(a.body, ArmedView(s, a, done), SigmaView(answer, sigma))
  {
    forall t | t in a.body.tags ensures Look(s.responses, t) == Look(SigmaView(answer, sigma).named, t) {
      NamedReads(answer, s, done, sigma, t);
    }
    if a.body.anonymous {
      AnonymousReads(answer, s.futures, a.anon, done);
    }
  }

  lemma {:induction false} ArmedRespondAgrees(answer: Answers, s: Walk, done: map<nat, Reply>, sigma: Sigma, a: Armed)
    requires BindingsOk(s.futures, s.anon, s.named) && DataOk(answer, s, done) && Readable(answer, s, done, a.body.tags)
    requires Captures(s, done, sigma, a) && a.Ready(done) && (a.anon.Some? ==> Known(s.futures, a.anon.value))
    requires a.body.action.Respond? && RespondOk(a.body) && a.body.HasBindings()
    requires a.waits == [] || a.anon.Some? || a.body.matchTag != ""
    ensures
      var tag := a.body.matchTag;
      (if tag != "" then RespondWith(Look(s.responses, tag), Source(s.sources, tag))
       else if a.anon.Some? then RespondWith(a.anon.value.View(done), a.anon.value.transport)
       else if s.anon.Some? then RespondWith(s.anon.value.View(done), s.anon.value.transport)
       else MissingResponse) == Reading(answer, if tag != "" then Named(sigma, tag) else sigma.anon)
  {
    if a.body.matchTag != "" {
      NamedReads(answer, s, done, sigma, a.body.matchTag);
    } else {
      AnonymousReads(answer, s.futures, a.anon, done);
    }
  }

  /** Judging without a respond action reads no response beyond the match. */
  lemma {:induction false} PlainJudgeAgrees(e: Engine, answer: Answers, s: Walk, done: map<nat, Reply>, sigma: Sigma,
                                            a: Armed)
    requires a.rule < |e.rules| && a.body == e.rules[a.rule] && a.options == sigma.options && !a.body.action.Respond?
    requires e.matches(a.rule, ArmedView(s, a, done)) == e.matches(a.rule, SigmaView(answer, sigma))
    ensures VerdictResult(e, answer, a.rule, Judge(e, s, a, done)) == Decide(e, answer, a.rule, sigma)
  {
  }

  lemma {:induction false} RespondJudgeAgrees(e: Engine, answer: Answers, s: Walk, done: map<nat, Reply>, sigma: Sigma,
                                              a: Armed)
    requires BindingsOk(s.futures, s.anon, s.named) && DataOk(answer, s, done) && Readable(answer, s, done, a.body.tags)
    requires Captures(s, done, sigma, a) && a.Ready(done) && (a.anon.Some? ==> Known(s.futures, a.anon.value))
    requires a.body.action.Respond? && RespondOk(a.body) && a.body.HasBindings()
    requires a.waits == [] || a.anon.Some? || a.body.matchTag != ""
    requires a.rule < |e.rules| && a.body == e.rules[a.rule]
    requires e.matches(a.rule, ArmedView(s, a, done)) == e.matches(a.rule, SigmaView(answer, sigma))
    ensures VerdictResult(e, answer, a.rule, Judge(e, s, a, done)) == Decide(e, answer, a.rule, sigma)
  {
    ArmedRespondAgrees(answer, s, done, sigma, a);
  }

  /** Judging a ready armed rule gives what the sequential interpreter decides at that rule. */
  lemma {:induction false} JudgeAgrees(e: Engine, answer: Answers, s: Walk, done: map<nat, Reply>, sigma: Sigma,
                                       a: Armed)
    requires Validated(e) && ReadsDeclared(e) && WalkOk(e, s) && ArmedOk(e, s.index, s.futures, a)
    requires DataOk(answer, s, done) && Readable(answer, s, done, a.body.tags)
    requires Captures(s, done, sigma, a) && a.Ready(done)
    ensures VerdictResult(e, answer, a.rule, Judge(e, s, a, done)) == Decide(e, answer, a.rule, sigma)
  {
    ArmedViewAgrees(answer, s, done, sigma, a);
    assert e.matches(a.rule, ArmedView(s, a, done)) == e.matches(a.rule, SigmaView(answer, sigma));
    if !a.body.action.Respond? {
      PlainJudgeAgrees(e, answer, s, done, sigma, a);
      return;
    }
    assert RespondOk(a.body);
    RespondJudgeAgrees(e, answer, s, done, sigma, a);
  }

  // ------------------------------------------------------------ the simulation

  /** Every race rule passed so far is still armed, or would not decide. */
  ghost predicate RaceTracks(e: Engine, answer: Answers, options: Options, index: nat, armed: seq<Armed>) {
    forall m :: 0 <= m < index && Decides(e, answer, options, m) ==> exists a :: a in armed && a.rule == m
  }

  /** A speculative route asks exactly what its rule decides. */
  ghost predicate TerminalTracks(e: Engine, answer: Answers, options: Options, terminal: Option<Future>) {
    terminal.Some? ==>
      var f := terminal.value;
      && Decides(e, answer, options, f.rule)
      && Decide(e, answer, f.rule, StateAt(e, answer, options, f.rule).value) ==
        Some(Exchanged(f.transport, f.options, answer(OriginOf(f))))
  }

  /** The walk state follows the sequential interpreter, race rules being judged late. */
  ghost predicate Tracks(e: Engine, answer: Answers, options: Options, s: Walk, done: map<nat, Reply>) {
    && s.index <= |e.rules|
    && StateAt(e, answer, options, s.index) == Some(Abs(s))
    && DataOk(answer, s, done)
    && (forall a :: a in s.armed ==> ArmedTracks(e, answer, options, s, done, a))
    && RaceTracks(e, answer, options, s.index, s.armed)
    && TerminalTracks(e, answer, options, s.terminal)
  }

  /** Between visits every armed rule has something to wait for. */
  ghost predicate Waiting(armed: seq<Armed>) {
    forall a :: a in armed ==> a.waits != []
  }

  lemma {:induction false} SettleTracks(e: Engine, answer: Answers, options: Options, s: Walk, done: map<nat, Reply>,
                                        seen: set<nat>)
    requires WalkOk(e, s) && Tracks(e, answer, options, s, done)
    ensures Tracks(e, answer, options, Settle(s, done, seen), done)
  {
    SettlePrefixData(e, answer, s, done, seen, |s.futures|);
    var s' := Settle(s, done, seen);
    assert s' == s.(settled := s'.settled, responses := s'.responses, sources := s'.sources);
    forall a | a in s'.armed ensures ArmedTracks(e, answer, options, s', done, a) {
      assert ArmedTracks(e, answer, options, s, done, a);
    }
  }

  /** Armed rules that a sweep drops without committing would not decide. */
  lemma {:induction false} DroppedPass(e: Engine, answer: Answers, options: Options, s: Walk, done: map<nat, Reply>,
                                       a: Armed)
    requires Validated(e) && ReadsDeclared(e) && WalkOk(e, s)
    requires Tracks(e, answer, options, s, done)
    requires a in s.armed && a.Ready(done) && Readable(answer, s, done, a.body.tags)
    ensures StateAt(e, answer, options, a.rule).Some?
    ensures VerdictResult(e, answer, a.rule, Judge(e, s, a, done)) ==
      Decide(e, answer, a.rule, StateAt(e, answer, options, a.rule).value)
  {
    assert ArmedTracks(e, answer, options, s, done, a);
    assert ArmedOk(e, s.index, s.futures, a);
    JudgeAgrees(e, answer, s, done, StateAt(e, answer, options, a.rule).value, a);
  }

  lemma {:induction false} UnsweptTracks(e: Engine, answer: Answers, options: Options, s: Walk, done: map<nat, Reply>)
    requires Validated(e) && ReadsDeclared(e) && WalkOk(e, s)
    requires Tracks(e, answer, options, s, done) && SweepReadable(answer, s, done)
    requires Sweep(e, s, done).Unswept?
    ensures Tracks(e, answer, options, Sweep(e, s, done).state, done)
    ensures forall a :: a in Sweep(e, s, done).state.armed ==> a in s.armed && a.waits != []
  {
    var _ := SweepArbitrates(e, s, done);
    var s' := Sweep(e, s, done).state;
    assert s' == s.(armed := StillWaiting(s.armed, done));
    forall a | a in s'.armed ensures ArmedTracks(e, answer, options, s', done, a) {
      assert ArmedTracks(e, answer, options, s, done, a);
    }
    forall m | 0 <= m < s.index && Decides(e, answer, options, m) ensures exists a :: a in s'.armed && a.rule == m {
      var a :| a in s.armed && a.rule == m;
      if a.Ready(done) {
        DroppedPass(e, answer, options, s, done, a);
        assert false;
      }
      assert a in s'.armed;
    }
  }

  /** A sweep that commits does so with a result its race rule is entitled to. */
  lemma {:induction false} CommitEntitled(e: Engine, answer: Answers, options: Options, s: Walk, done: map<nat, Reply>)
    requires Validated(e) && ReadsDeclared(e) && WalkOk(e, s)
    requires Tracks(e, answer, options, s, done) && SweepReadable(answer, s, done)
    requires Sweep(e, s, done).Committed?
    ensures var r := Sweep(e, s, done);
      var result := VerdictResult(e, answer, r.rule, r.verdict);
      result.Some? && Entitled(e, answer, options, r.rule, result.value)
  {
    var winner := SweepPicksLowestRule(e, s, done);
    DroppedPass(e, answer, options, s, done, winner);
    assert ArmedOk(e, s.index, s.futures, winner);
  }

  function PendingResult(e: Engine, answer: Answers, p: Pending): Result {
    match p
    case Query(rule, transport, options) => Exchanging(e, answer, rule, transport, options)
    case Speculated(_, f) => Exchanged(f.transport, f.options, answer(OriginOf(f)))
  }

  /** With nothing armed, an ordinary rule that decides is entitled to. */
  lemma {:induction false} OrdinaryEntitled(e: Engine, answer: Answers, options: Options, s: Walk,
                                            done: map<nat, Reply>, result: Result)
    requires Tracks(e, answer, options, s, done) && s.armed == []
    requires if s.index < |e.rules| then Decide(e, answer, s.index, Abs(s)) == Some(result)
      else result == DefaultExchange(e, answer, Abs(s))
    ensures Entitled(e, answer, options, s.index, result)
  {
  }

  /** What a step of the walk must leave for the outcome to be right. */
  ghost predicate StepTracks(e: Engine, answer: Answers, options: Options, done: map<nat, Reply>, step: Step) {
    match step
    case Next(s) => Tracks(e, answer, options, s, done) && Waiting(s.armed)
    case Suspend(s, why) =>
      if why.PendingOn? then Entitled(e, answer, options, why.pending.rule, PendingResult(e, answer, why.pending))
      else Tracks(e, answer, options, s, done) && Waiting(s.armed)
    case Return(_, rule, result) => Entitled(e, answer, options, rule, result)
  }

  // ---------------------------------------------------------- visiting one rule

  lemma {:induction false} StateSteps(e: Engine, answer: Answers, options: Options, i: nat, sigma: Sigma)
    requires i < |e.rules| && StateAt(e, answer, options, i) == Some(sigma)
    requires !e.rules[i].Racing() && Decide(e, answer, i, sigma).None?
    ensures StateAt(e, answer, options, i + 1) == Some(PassOver(e, answer, i, sigma)) && !Decides(e, answer, options, i)
  {
  }

  lemma {:induction false} RaceTracksStep(e: Engine, answer: Answers, options: Options, i: nat, armed: seq<Armed>)
    requires RaceTracks(e, answer, options, i, armed) && !Decides(e, answer, options, i)
    ensures RaceTracks(e, answer, options, i + 1, armed)
  {
  }

  lemma {:induction false} AdvanceAbs(s: Walk)
    ensures Abs(Advance(s)) == Abs(s)
  {
  }

  lemma {:induction false} AdvanceData(answer: Answers, s: Walk, done: map<nat, Reply>)
    requires DataOk(answer, s, done)
    ensures DataOk(answer, Advance(s), done)
  {
  }

  lemma {:induction false} AdvanceKeepsArmed(e: Engine, answer: Answers, options: Options, s: Walk,
                                             done: map<nat, Reply>)
    requires forall a :: a in s.armed ==> ArmedTracks(e, answer, options, s, done, a)
    ensures forall a :: a in Advance(s).armed ==> ArmedTracks(e, answer, options, Advance(s), done, a)
  {
    forall a | a in s.armed ensures ArmedTracks(e, answer, options, Advance(s), done, a) {
      assert ArmedTracks(e, answer, options, s, done, a);
    }
  }

  lemma {:induction false} NextTracks(e: Engine, answer: Answers, options: Options, s: Walk, done: map<nat, Reply>)
    requires s.index < |e.rules| && StateAt(e, answer, options, s.index + 1) == Some(Abs(s)) && DataOk(answer, s, done)
    requires forall a :: a in s.armed ==> ArmedTracks(e, answer, options, s, done, a)
    requires RaceTracks(e, answer, options, s.index, s.armed) && !Decides(e, answer, options, s.index)
    requires TerminalTracks(e, answer, options, s.terminal)
    ensures Tracks(e, answer, options, Advance(s), done)
  {
    AdvanceAbs(s);
    AdvanceData(answer, s, done);
    AdvanceKeepsArmed(e, answer, options, s, done);
    RaceTracksStep(e, answer, options, s.index, s.armed);
  }

  /** Going on to the next rule after `s'` took the effect of the current, ordinary rule. */
  lemma {:induction false} AdvanceTracks(e: Engine, answer: Answers, options: Options, s: Walk, s': Walk,
                                         done: map<nat, Reply>)
    requires Tracks(e, answer, options, s, done) && s.index < |e.rules| && !e.rules[s.index].Racing()
    requires Decide(e, answer, s.index, Abs(s)).None? && Abs(s') == PassOver(e, answer, s.index, Abs(s))
    requires s'.index == s.index && s'.armed == s.armed && s'.terminal == s.terminal && DataOk(answer, s', done)
    requires forall a :: a in s.armed ==> ArmedTracks(e, answer, options, s', done, a)
    ensures Tracks(e, answer, options, Advance(s'), done)
  {
    StateSteps(e, answer, options, s.index, Abs(s));
    NextTracks(e, answer, options, s', done);
  }

  /** A change that leaves the named futures alone keeps what armed rules captured. */
  lemma {:induction false} ArmedUnaffected(e: Engine, answer: Answers, options: Options, s: Walk, s': Walk,
                                           done: map<nat, Reply>)
    requires forall a :: a in s.armed ==> ArmedTracks(e, answer, options, s, done, a)
    requires s'.named == s.named && (s'.anon == s.anon || Waiting(s.armed))
    ensures forall a :: a in s.armed ==> ArmedTracks(e, answer, options, s', done, a)
  {
    forall a | a in s.armed ensures ArmedTracks(e, answer, options, s', done, a) {
      assert ArmedTracks(e, answer, options, s, done, a);
    }
  }

  /** On a validated list the tag an evaluate rule is about to bind has not been bound, nor read by an armed rule. */
  lemma {:induction false} TagIsFresh(e: Engine, s: Walk, i: nat)
    requires Validated(e) && WalkOk(e, s) && i == s.index < |e.rules| && DefinesTag(e, i)
    ensures e.rules[i].action.tag !in s.named
    ensures forall j :: 0 <= j <= i ==> e.rules[i].action.tag !in e.rules[j].tags
  {
    var tag := e.rules[i].action.tag;
    forall t | t in s.named ensures t != tag {
      var f := s.named[t];
      assert Accounted(e, s.index, s.terminal, s.futures[f.id]);
      assert DefinesTag(e, f.rule);
    }
    forall j | 0 <= j <= i ensures tag !in e.rules[j].tags {
      assert tag in e.rules[j].tags ==> DefinedBefore(e, j, tag);
    }
  }

  /** Launching and binding the evaluate future `f` is the interpreter's effect of the rule. */
  lemma {:induction false} BindAbs(s: Walk, f: Future)
    ensures var sigma := Abs(s);
      Abs(Bind(Launch(s, f), f)) ==
        if f.tag == "" then sigma.(anon := Some(OriginOf(f))) else sigma.(named := sigma.named[f.tag := OriginOf(f)])
  {
  }

  lemma {:induction false} LaunchData(answer: Answers, s: Walk, done: map<nat, Reply>, f: Future)
    requires Faithful(answer, s.futures, done) && done.Keys <= Ids(s) && f.id == |s.futures|
    ensures Faithful(answer, s.futures + [f], done)
    ensures forall g :: Known(s.futures + [f], g) && g != f ==> Known(s.futures, g)
  {
  }

  lemma {:induction false} BindData(answer: Answers, s: Walk, done: map<nat, Reply>, f: Future)
    requires BindingsOk(s.futures, s.anon, s.named) && DataOk(answer, s, done) && done.Keys <= Ids(s)
    requires f.id == |s.futures| && f.tag !in s.named
    ensures DataOk(answer, Bind(Launch(s, f), f), done)
  {
    LaunchData(answer, s, done, f);
    var s' := Bind(Launch(s, f), f);
    assert NamesOk(s'.futures, s'.named);
    forall t | t in s.named ensures s.named[t].id != f.id {
      assert Known(s.futures, s.named[t]);
    }
    assert f.id !in s.settled;
    assert ResponsesOk(answer, s'.named, s'.settled, s'.responses, s'.sources);
  }

  lemma {:induction false} LaunchKeepsArmed(e: Engine, answer: Answers, options: Options, s: Walk,
                                            done: map<nat, Reply>, f: Future)
    requires WalkOk(e, s) && Tracks(e, answer, options, s, done) && Waiting(s.armed)
    requires f.tag != "" ==> f.tag !in s.named && forall j :: 0 <= j <= s.index && j < |e.rules| ==>
      f.tag !in e.rules[j].tags
    ensures forall a :: a in s.armed ==> ArmedTracks(e, answer, options, Bind(Launch(s, f), f), done, a)
  {
    forall a | a in s.armed ensures ArmedTracks(e, answer, options, Bind(Launch(s, f), f), done, a) {
      assert ArmedTracks(e, answer, options, s, done, a);
      assert ArmedOk(e, s.index, s.futures, a);
    }
  }

  lemma {:induction false} LaunchTracks(e: Engine, answer: Answers, options: Options, s: Walk, done: map<nat, Reply>,
                                        f: Future)
    requires Validated(e) && WalkOk(e, s) && Tracks(e, answer, options, s, done) && Waiting(s.armed) &&
      done.Keys <= Ids(s)
    requires s.index < |e.rules| && !e.rules[s.index].Racing() && e.rules[s.index].action.Evaluate?
    requires Decide(e, answer, s.index, Abs(s)).None?
    requires f.id == |s.futures| && f.tag == e.rules[s.index].action.tag
    requires Abs(Bind(Launch(s, f), f)) == PassOver(e, answer, s.index, Abs(s))
    ensures Tracks(e, answer, options, Advance(Bind(Launch(s, f), f)), done)
  {
    var s' := Bind(Launch(s, f), f);
    if f.tag != "" {
      assert DefinesTag(e, s.index);
      TagIsFresh(e, s, s.index);
    } else {
      assert f.tag !in s.named;
    }
    BindData(answer, s, done, f);
    LaunchKeepsArmed(e, answer, options, s, done, f);
    AdvanceTracks(e, answer, options, s, s', done);
  }

  lemma {:induction false} EvaluateTracks(e: Engine, answer: Answers, options: Options, s: Walk, done: map<nat, Reply>,
                                          server: string, tag: string, speculative: bool, o: ActionOptions)
    requires Validated(e) && WalkOk(e, s) && Tracks(e, answer, options, s, done) && Waiting(s.armed) &&
      done.Keys <= Ids(s)
    requires s.index < |e.rules| && !e.rules[s.index].Racing() &&
      e.rules[s.index].action == Evaluate(server, tag, speculative, o)
    requires e.matches(s.index, SigmaView(answer, Abs(s)))
    ensures StepTracks(e, answer, options, done, ActEvaluate(e, s, server, tag, speculative, o))
  {
    if server !in e.transports {
      var s' := if tag == "" then s.(anon := None) else s;
      ArmedUnaffected(e, answer, options, s, s', done);
      AdvanceTracks(e, answer, options, s, s', done);
    } else {
      var f := Future(|s.futures|, tag, s.index, server, Finalize(Apply(s.options, o), e.defaultStrategy), false);
      BindAbs(s, f);
      LaunchTracks(e, answer, options, s, done, f);
    }
  }

  /** The rule at the index is an ordinary one and sees everything it binds. */
  ghost predicate AtOrdinaryRule(e: Engine, answer: Answers, options: Options, s: Walk, done: map<nat, Reply>) {
    && WalkOk(e, s) && Tracks(e, answer, options, s, done) && Waiting(s.armed) && done.Keys <= Ids(s)
    && s.index < |e.rules| && !e.rules[s.index].Racing()
    && (e.rules[s.index].HasBindings() ==>
      Readable(answer, s, done, e.rules[s.index].tags) && Waits(e.rules[s.index], s, done) == [])
  }

  lemma {:induction false} RespondTracks(e: Engine, answer: Answers, options: Options, s: Walk, done: map<nat, Reply>)
    requires Validated(e) && AtOrdinaryRule(e, answer, options, s, done)
    requires e.rules[s.index].action.Respond? && e.matches(s.index, SigmaView(answer, Abs(s)))
    ensures StepTracks(e, answer, options, done, ActRespond(s, e.rules[s.index], done))
  {
    var rule := e.rules[s.index];
    assert RespondOk(rule);
    if s.armed == [] {
      var o := if rule.matchTag != "" then Named(Abs(s), rule.matchTag) else Abs(s).anon;
      assert Decide(e, answer, s.index, Abs(s)) == Some(Reading(answer, o));
      OrdinaryEntitled(e, answer, options, s, done, Reading(answer, o));
      if rule.matchTag != "" {
        NothingUnresolved(rule.tags, s.named, done);
        NamedReads(answer, s, done, Abs(s), rule.matchTag);
      } else if s.anon.None? || s.anon.value.Resolved(done) {
        AnonymousReads(answer, s.futures, s.anon, done);
      }
    }
  }

  /** Starting a speculative route early changes nothing the interpreter can see. */
  lemma {:induction false} SpeculateTracks(e: Engine, answer: Answers, options: Options, s: Walk, done: map<nat, Reply>,
                                           f: Future)
    requires WalkOk(e, s) && Tracks(e, answer, options, s, done) && s.index < |e.rules| && done.Keys <= Ids(s)
    requires f.id == |s.futures| && f.terminal && f.rule == s.index
    requires Decide(e, answer, s.index, Abs(s)) == Some(Exchanged(f.transport, f.options, answer(OriginOf(f))))
    ensures Tracks(e, answer, options, Launch(s, f).(terminal := Some(f)), done)
  {
    var s' := Launch(s, f).(terminal := Some(f));
    LaunchData(answer, s, done, f);
    assert NamesOk(s'.futures, s'.named);
    assert Abs(s') == Abs(s);
    forall a | a in s'.armed ensures ArmedTracks(e, answer, options, s', done, a) {
      assert ArmedTracks(e, answer, options, s, done, a);
    }
  }

  lemma {:induction false} RouteTracks(e: Engine, answer: Answers, options: Options, s: Walk, done: map<nat, Reply>,
                                       server: string, speculative: bool, o: ActionOptions)
    requires AtOrdinaryRule(e, answer, options, s, done)
    requires e.rules[s.index].action == Route(server, speculative, o) && e.matches(s.index, SigmaView(answer, Abs(s)))
    ensures StepTracks(e, answer, options, done, ActRoute(e, s, server, speculative, o))
  {
    var q := ResolveRoute(e, s.options, server, o);
    if q.None? {
      ArmedUnaffected(e, answer, options, s, s, done);
      AdvanceTracks(e, answer, options, s, s, done);
      return;
    }
    var result := Exchanging(e, answer, s.index, server, q.value);
    assert Decide(e, answer, s.index, Abs(s)) == Some(result);
    if s.armed == [] {
      OrdinaryEntitled(e, answer, options, s, done, result);
    } else if speculative && s.terminal.None? {
      var f := Future(|s.futures|, "", s.index, server, Finalize(q.value, e.defaultStrategy), true);
      SpeculateTracks(e, answer, options, s, done, f);
    }
  }

  lemma {:induction false} SetOptionsTracks(e: Engine, answer: Answers, options: Options, s: Walk,
                                            done: map<nat, Reply>, o: ActionOptions)
    requires AtOrdinaryRule(e, answer, options, s, done)
    requires e.rules[s.index].action == SetOptions(o) && e.matches(s.index, SigmaView(answer, Abs(s)))
    ensures Tracks(e, answer, options, Advance(s.(options := Apply(s.options, o))), done)
  {
    var s' := s.(options := Apply(s.options, o));
    ArmedUnaffected(e, answer, options, s, s', done);
    AdvanceTracks(e, answer, options, s, s', done);
  }

  /** A rule that does not match, or whose action has no effect, is passed. */
  lemma {:induction false} SkipTracks(e: Engine, answer: Answers, options: Options, s: Walk, done: map<nat, Reply>)
    requires AtOrdinaryRule(e, answer, options, s, done)
    requires Decide(e, answer, s.index, Abs(s)).None? && PassOver(e, answer, s.index, Abs(s)) == Abs(s)
    ensures Tracks(e, answer, options, Advance(s), done)
  {
    ArmedUnaffected(e, answer, options, s, s, done);
    AdvanceTracks(e, answer, options, s, s, done);
  }

  lemma {:induction false} RejectTracks(e: Engine, answer: Answers, options: Options, s: Walk, done: map<nat, Reply>)
    requires AtOrdinaryRule(e, answer, options, s, done)
    requires e.rules[s.index].action.Reject? || e.rules[s.index].action.Predefined?
    requires e.matches(s.index, SigmaView(answer, Abs(s))) && e.matches(s.index, CurrentView(s, done))
    ensures StepTracks(e, answer, options, done, Act(e, s, done))
  {
    var action := e.rules[s.index].action;
    if action == Reject(RejectReply) {
      SkipTracks(e, answer, options, s, done);
    } else if s.armed == [] {
      var result := if action.Reject? then RejectVerdict(action.how).result else Fixed(action.msg);
      OrdinaryEntitled(e, answer, options, s, done, result);
    }
  }

  lemma {:induction false} ActTracks(e: Engine, answer: Answers, options: Options, s: Walk, done: map<nat, Reply>)
    requires Validated(e) && ReadsDeclared(e) && AtOrdinaryRule(e, answer, options, s, done)
    ensures StepTracks(e, answer, options, done, Act(e, s, done))
  {
    var rule := e.rules[s.index];
    CurrentViewAgrees(answer, s, done, rule);
    assert e.matches(s.index, CurrentView(s, done)) == e.matches(s.index, SigmaView(answer, Abs(s)));
    if !e.matches(s.index, SigmaView(answer, Abs(s))) {
      SkipTracks(e, answer, options, s, done);
      return;
    }
    match rule.action {
      case SetOptions(o) => SetOptionsTracks(e, answer, options, s, done, o); return;
      case Evaluate(server, tag, speculative, o) =>
        EvaluateTracks(e, answer, options, s, done, server, tag, speculative, o);
        return;
      case Respond => RespondTracks(e, answer, options, s, done); return;
      case Route(server, speculative, o) => RouteTracks(e, answer, options, s, done, server, speculative, o); return;
      case Reject(_) => RejectTracks(e, answer, options, s, done); return;
      case Predefined(_) => RejectTracks(e, answer, options, s, done); return;
    }
  }

  // --------------------------------------------------------------- race rules

  lemma {:induction false} UnresolvedComplete(tags: seq<string>, named: map<string, Future>, done: map<nat, Reply>)
    ensures forall t :: t in tags && t in named ==> named[t] in Unresolved(tags, named, done) || named[t].Resolved(done)
  {
    if tags != [] {
      UnresolvedComplete(tags[1..], named, done);
      forall t | t in tags && t in named ensures named[t] in Unresolved(tags, named, done) || named[t].Resolved(done) {
        assert t == tags[0] || t in tags[1..];
      }
    }
  }

  lemma {:induction false} NoTagsNoneUnresolved(named: map<string, Future>, done: map<nat, Reply>)
    ensures Unresolved([], named, done) == []
  {
  }

  /** The entry armed for a race rule captures what the rule binds. */
  lemma {:induction false} EntryCaptures(e: Engine, s: Walk, done: map<nat, Reply>)
    requires s.index < |e.rules|
    ensures Captures(s, done, Abs(s), ArmedEntry(e, s, done))
  {
    var rule := e.rules[s.index];
    UnresolvedComplete(rule.tags, s.named, done);
    NoTagsNoneUnresolved(s.named, done);
  }

  lemma {:induction false} ArmingTracks(e: Engine, answer: Answers, options: Options, s: Walk, done: map<nat, Reply>)
    requires Tracks(e, answer, options, s, done) && s.index < |e.rules|
    ensures Tracks(e, answer, options, s.(armed := s.armed + [ArmedEntry(e, s, done)]), done)
  {
    var entry := ArmedEntry(e, s, done);
    var s' := s.(armed := s.armed + [entry]);
    EntryCaptures(e, s, done);
    assert Abs(s') == Abs(s);
    forall a | a in s'.armed ensures ArmedTracks(e, answer, options, s', done, a) {
      if a in s.armed { assert ArmedTracks(e, answer, options, s, done, a); } else { assert a == entry; }
    }
    forall m | 0 <= m < s.index && Decides(e, answer, options, m) ensures exists a :: a in s'.armed && a.rule == m {
      var a :| a in s.armed && a.rule == m;
      assert a in s'.armed;
    }
  }

  /** Passing a race rule that is armed, or that does not decide. */
  lemma {:induction false} RaceAdvanceTracks(e: Engine, answer: Answers, options: Options, s: Walk,
                                             done: map<nat, Reply>)
    requires Tracks(e, answer, options, s, done) && s.index < |e.rules| && e.rules[s.index].Racing()
    requires Decides(e, answer, options, s.index) ==> exists a :: a in s.armed && a.rule == s.index
    ensures Tracks(e, answer, options, Advance(s), done)
  {
    var n := Advance(s);
    assert Abs(n) == Abs(s);
    forall a | a in n.armed ensures ArmedTracks(e, answer, options, n, done, a) {
      assert ArmedTracks(e, answer, options, s, done, a);
    }
  }

  /** A sweep that commits nothing after arming `entry`, which was ready: `entry` itself passed. */
  lemma {:induction false} ArmUnsweptTracks(e: Engine, answer: Answers, options: Options, s: Walk,
                                            done: map<nat, Reply>, entry: Armed)
    requires Validated(e) && ReadsDeclared(e) && WalkOk(e, s)
    requires Tracks(e, answer, options, s, done) && SweepReadable(answer, s, done) && Sweep(e, s, done).Unswept?
    requires s.index < |e.rules| && e.rules[s.index].Racing()
    requires entry in s.armed && entry.rule == s.index && entry.Ready(done)
    ensures Tracks(e, answer, options, Advance(Sweep(e, s, done).state), done) && Waiting(Sweep(e, s, done).state.armed)
  {
    UnsweptTracks(e, answer, options, s, done);
    NobodyDecides(e, s, done, entry);
    DroppedPass(e, answer, options, s, done, entry);
    SweepKeepsOrder(e, s, done);
    RaceAdvanceTracks(e, answer, options, Sweep(e, s, done).state, done);
  }

  /** Arming a rule whose responses are all there: the sweep that follows settles it. */
  lemma {:induction false} ArmReadyTracks(e: Engine, answer: Answers, options: Options, s: Walk, done: map<nat, Reply>,
                                          entry: Armed)
    requires Validated(e) && ReadsDeclared(e) && WalkOk(e, s)
    requires Tracks(e, answer, options, s, done) && SweepReadable(answer, s, done)
    requires s.index < |e.rules| && e.rules[s.index].Racing()
    requires entry in s.armed && entry.rule == s.index && entry.Ready(done)
    ensures StepTracks(e, answer, options, done, AfterSweep(Sweep(e, s, done)))
  {
    if Sweep(e, s, done).Committed? {
      CommitEntitled(e, answer, options, s, done);
    } else {
      ArmUnsweptTracks(e, answer, options, s, done, entry);
    }
  }

  lemma {:induction false} ArmTracks(e: Engine, answer: Answers, options: Options, s: Walk, done: map<nat, Reply>)
    requires Validated(e) && ReadsDeclared(e) && WalkOk(e, s) && Behind(s)
    requires Tracks(e, answer, options, s, done) && Waiting(s.armed)
    requires s.index < |e.rules| && e.rules[s.index].Racing()
    requires Waits(e.rules[s.index], s, done) == [] ==>
      Readable(answer, s, done, e.rules[s.index].tags) && SweepReadable(answer, s, done)
    ensures StepTracks(e, answer, options, done, Arm(e, s, done))
  {
    var entry := ArmedEntry(e, s, done);
    var s1 := s.(armed := s.armed + [entry]);
    ArmingTracks(e, answer, options, s, done);
    assert entry in s1.armed;
    if entry.waits != [] {
      RaceAdvanceTracks(e, answer, options, s1, done);
      return;
    }
    WaitsKnown(e.rules[s.index], s, done);
    ArmingKeepsOk(e, s, entry);
    ArmReadyTracks(e, answer, options, s1, done, entry);
  }

  lemma {:induction false} NobodyDecides(e: Engine, s: Walk, done: map<nat, Reply>, a: Armed)
    requires Sweep(e, s, done).Unswept? && a in s.armed && a.Ready(done)
    ensures Judge(e, s, a, done).Pass?
  {
    var _ := SweepArbitrates(e, s, done);
  }

  /** What the settle pass of a visit leaves for the rule with bindings at the index. */
  lemma {:induction false} SettledVisit(e: Engine, answer: Answers, options: Options, s: Walk, done: map<nat, Reply>,
                                        seen: set<nat>)
    requires WalkOk(e, s) && Behind(s) && Tracks(e, answer, options, s, done) && s.index < |e.rules| &&
      e.rules[s.index].HasBindings()
    requires Waits(e.rules[s.index], s, done) == [] ==>
      Noticed(answer, s, done, seen, e.rules[s.index].tags) &&
        (e.rules[s.index].Racing() ==> SweepNoticed(answer, s, done, seen))
    ensures
      var s1, rule := Settle(s, done, seen), e.rules[s.index];
      && WalkOk(e, s1) && Behind(s1) && Tracks(e, answer, options, s1, done) && s1.armed == s.armed &&
        s1.futures == s.futures
      && (Waits(rule, s1, done) == [] ==>
            Readable(answer, s1, done, rule.tags) && (rule.Racing() ==> SweepReadable(answer, s1, done)))
  {
    SettleTracks(e, answer, options, s, done, seen);
    SettleKeepsOk(e, s, done, seen);
    if Waits(e.rules[s.index], s, done) == [] {
      SettleReads(e, answer, s, done, seen, e.rules[s.index].tags);
      if e.rules[s.index].Racing() {
        SettleReadsSwept(e, answer, s, done, seen);
      }
    }
  }

  lemma {:induction false} VisitTracks(e: Engine, answer: Answers, options: Options, s: Walk, done: map<nat, Reply>,
                                       seen: set<nat>)
    requires Validated(e) && ReadsDeclared(e) && WalkOk(e, s) && Behind(s) && done.Keys <= Ids(s)
    requires Tracks(e, answer, options, s, done) && Waiting(s.armed)
    requires s.index < |e.rules| && Waits(e.rules[s.index], s, done) == [] ==>
      Noticed(answer, s, done, seen, e.rules[s.index].tags) &&
        (e.rules[s.index].Racing() ==> SweepNoticed(answer, s, done, seen))
    ensures StepTracks(e, answer, options, done, Visit(e, s, done, seen))
  {
    if s.index == |e.rules| {
      if s.armed == [] {
        OrdinaryEntitled(e, answer, options, s, done, DefaultExchange(e, answer, Abs(s)));
      }
      return;
    }
    var rule := e.rules[s.index];
    if !rule.HasBindings() {
      ActTracks(e, answer, options, s, done);
      return;
    }
    SettledVisit(e, answer, options, s, done, seen);
    var s1 := Settle(s, done, seen);
    if rule.race {
      ArmTracks(e, answer, options, s1, done);
      return;
    }
    if Waits(rule, s1, done) == [] {
      ActTracks(e, answer, options, s1, done);
    }
  }

  // ---------------------------------------------------------------- whole runs

  ghost predicate ConfigTracks(e: Engine, answer: Answers, options: Options, c: Config) {
    && Faithful(answer, c.s.futures, c.done)
    && (match c.phase
        case Walking => Tracks(e, answer, options, c.s, c.done) && Waiting(c.s.armed)
        case Driving(why) =>
          if why.PendingOn? then Entitled(e, answer, options, why.pending.rule, PendingResult(e, answer, why.pending))
          else Tracks(e, answer, options, c.s, c.done) && Waiting(c.s.armed)
        case Blocked(why) => Tracks(e, answer, options, c.s, c.done) && Waiting(c.s.armed)
        case Finishing(p) => Entitled(e, answer, options, p.rule, PendingResult(e, answer, p))
        case Finished(rule, result) => Entitled(e, answer, options, rule, result))
  }

  lemma {:induction false} FaithfulGrows(answer: Answers, futures: seq<Future>, futures': seq<Future>,
                                         done: map<nat, Reply>)
    requires Faithful(answer, futures, done) && futures <= futures' && done.Keys <= UpTo(|futures|)
    ensures Faithful(answer, futures', done)
  {
    forall f | Known(futures', f) && f.id in done ensures done[f.id] == answer(OriginOf(f)) {
      assert Known(futures, f);
    }
  }

  lemma {:induction false} CompletionTracks(e: Engine, answer: Answers, options: Options, s: Walk,
                                            done: map<nat, Reply>, done': map<nat, Reply>)
    requires Tracks(e, answer, options, s, done)
    requires done.Keys <= done'.Keys && Faithful(answer, s.futures, done')
    ensures Tracks(e, answer, options, s, done')
  {
    forall a | a in s.armed ensures ArmedTracks(e, answer, options, s, done', a) {
      assert ArmedTracks(e, answer, options, s, done, a);
    }
  }

  lemma {:induction false} VisitRuleKeepsTracks(e: Engine, answer: Answers, options: Options, c: Config, seen: set<nat>)
    requires Validated(e) && ReadsDeclared(e) && ConfigOk(e, c) && ConfigTracks(e, answer, options, c)
    requires c.phase.Walking? && Fair(e, answer, c, VisitRule(seen))
    ensures ConfigTracks(e, answer, options, AfterVisit(c, Visit(e, c.s, c.done, seen)))
  {
    VisitTracks(e, answer, options, c.s, c.done, seen);
    VisitSpends(e, c.s, c.done, seen);
    FaithfulGrows(answer, c.s.futures, Visit(e, c.s, c.done, seen).state.futures, c.done);
  }

  lemma {:induction false} AfterPassTracks(e: Engine, answer: Answers, options: Options, c: Config, why: Suspension,
                                           swept: Swept)
    requires Faithful(answer, c.s.futures, c.done) && swept.state.futures == c.s.futures
    requires swept.Committed? ==>
      var result := VerdictResult(e, answer, swept.rule, swept.verdict);
      result.Some? && Entitled(e, answer, options, swept.rule, result.value)
    requires swept.Unswept? && why.PendingOn? ==>
      Entitled(e, answer, options, why.pending.rule, PendingResult(e, answer, why.pending))
    requires swept.Unswept? && !why.PendingOn? ==>
      Tracks(e, answer, options, swept.state, c.done) && Waiting(swept.state.armed)
    ensures ConfigTracks(e, answer, options, AfterPass(c, why, swept))
  {
  }

  lemma {:induction false} DriveKeepsTracks(e: Engine, answer: Answers, options: Options, c: Config, seen: set<nat>)
    requires Validated(e) && ReadsDeclared(e) && ConfigOk(e, c) && ConfigTracks(e, answer, options, c)
    requires c.phase.Driving? && Fair(e, answer, c, Drive(seen))
    ensures ConfigTracks(e, answer, options, DriveOnce(e, c, seen))
  {
    var why := c.phase.why;
    var s1 := Settle(c.s, c.done, seen);
    var swept := Sweep(e, s1, c.done);
    SettleKeepsOk(e, c.s, c.done, seen);
    SweepKeepsOrder(e, s1, c.done);
    if why.PendingOn? {
      var _ := SweepArbitrates(e, s1, c.done);
      AfterPassTracks(e, answer, options, c, why, swept);
      return;
    }
    SettleTracks(e, answer, options, c.s, c.done, seen);
    SettleReadsSwept(e, answer, c.s, c.done, seen);
    if swept.Committed? {
      CommitEntitled(e, answer, options, s1, c.done);
    } else {
      UnsweptTracks(e, answer, options, s1, c.done);
    }
    AfterPassTracks(e, answer, options, c, why, swept);
  }

  lemma {:induction false} FairKeepsTracks(e: Engine, answer: Answers, options: Options, c: Config, ev: Event)
    requires Validated(e) && ReadsDeclared(e) && ConfigOk(e, c) && ConfigTracks(e, answer, options, c)
    requires Enabled(c, ev) && Fair(e, answer, c, ev)
    ensures ConfigTracks(e, answer, options, Fire(e, c, ev))
  {
    match ev
    case VisitRule(seen) => VisitRuleKeepsTracks(e, answer, options, c, seen);
    case Drive(seen) => DriveKeepsTracks(e, answer, options, c, seen);
    case Complete(k, reply) =>
      var done' := c.done[k := reply];
      assert Faithful(answer, c.s.futures, done');
      if c.phase.Walking? || c.phase.Blocked? || (c.phase.Driving? && !c.phase.why.PendingOn?) {
        CompletionTracks(e, answer, options, c.s, c.done, done');
      }
    case Signal(_) =>
    case CancelContext =>
    case Wake =>
    case Exchange(_) =>
    case Collect =>
  }

  lemma {:induction false} FairRunKeepsTracks(e: Engine, answer: Answers, options: Options, c: Config,
                                              events: seq<Event>, c': Config)
    requires Validated(e) && ReadsDeclared(e) && ConfigOk(e, c) && ConfigTracks(e, answer, options, c)
    requires FairRun(e, answer, c, events, c')
    ensures ConfigTracks(e, answer, options, c')
    decreases |events|
  {
    if events != [] {
      FairKeepsTracks(e, answer, options, c, events[0]);
      FireKeepsOk(e, c, events[0]);
      FairRunKeepsTracks(e, answer, options, Fire(e, c, events[0]), events[1..], c');
    }
  }

  /**
   * The outcome theorem: whatever order the exchanges complete in, a validated rule list delivers a
   * result its deciding rule is entitled to.
   */
  lemma {:induction false} OutcomeIsEntitled(e: Engine, answer: Answers, options: Options, events: seq<Event>,
                                             c: Config)
    requires Validated(e) && ReadsDeclared(e)
    requires FairRun(e, answer, InitialConfig(options), events, c) && c.phase.Finished?
    ensures Entitled(e, answer, options, c.phase.rule, c.phase.result)
  {
    assert Abs(InitialWalk(options)) == InitialSigma(options);
    FairRunKeepsTracks(e, answer, options, InitialConfig(options), events, c);
  }

  /** Server speed matters only among race rules: otherwise the result is the sequential interpreter's. */
  lemma {:induction false} OutcomeIsSequentialUpToRaces(e: Engine, answer: Answers, options: Options,
                                                        events: seq<Event>, c: Config)
    requires Validated(e) && ReadsDeclared(e)
    requires FairRun(e, answer, InitialConfig(options), events, c) && c.phase.Finished?
    ensures var (first, result) := Interpret(e, answer, 0, InitialSigma(options));
      || c.phase == Finished(first, result)
      || (first < c.phase.rule < |e.rules| && e.rules[first].Racing() && e.rules[c.phase.rule].Racing())
  {
    OutcomeIsEntitled(e, answer, options, events, c);
    EntitledIsSequential(e, answer, options, c.phase.rule, c.phase.result);
  }

  /** Schedule independence: without race rules every schedule delivers the sequential result. */
  lemma {:induction false} ScheduleIndependence(e: Engine, answer: Answers, options: Options, events: seq<Event>,
                                                c: Config)
    requires Validated(e) && ReadsDeclared(e) && forall i :: 0 <= i < |e.rules| ==> !e.rules[i].race
    requires FairRun(e, answer, InitialConfig(options), events, c) && c.phase.Finished?
    ensures var (first, result) := Interpret(e, answer, 0, InitialSigma(options));
      c.phase == Finished(first, result)
  {
    OutcomeIsSequentialUpToRaces(e, answer, options, events, c);
  }
}
