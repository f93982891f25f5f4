/**
 * The walk as the router runs it: an object whose fields the settle, sweep and rule loops update in
 * place (dns/router.go, `dnsRuleWalkState`). Each method is proved against its function in `RuleEngine`.
 */
module RuleWalker {
  import opened Wrappers
  import opened QueryOptions
  import opened RuleEngine
  import opened RuleSweep
  import opened RuleRun
  import opened RuleInvariant

  /** How a visit ends; the state it leaves is in the walker's fields. */
  datatype Signal = Proceed | Suspended(why: Suspension) | Returned(rule: nat, result: Result)

  function ToStep(signal: Signal, s: Walk): Step {
    match signal
    case Proceed => Next(s)
    case Suspended(why) => Suspend(s, why)
    case Returned(rule, result) => Return(s, rule, result)
  }

  /** One reading of the futures' completion flags, and the earlier one a settle pass works with. */
  datatype Observation = Observation(done: map<nat, Reply>, seen: set<nat>)

  lemma {:induction false} ArmAdvances(e: Engine, s: Walk, done: map<nat, Reply>)
    requires s.index < |e.rules|
    ensures Arm(e, s, done).Next? ==> Arm(e, s, done).state.index == s.index + 1
  {
    var _ := SweepArbitrates(e, s.(armed := s.armed + [ArmedEntry(e, s, done)]), done);
  }

  lemma {:induction false} VisitAdvances(e: Engine, s: Walk, done: map<nat, Reply>, seen: set<nat>)
    ensures var step := Visit(e, s, done, seen);
      step.Next? ==> s.index < |e.rules| && step.state.index == s.index + 1
  {
    if s.index >= |e.rules| {
      return;
    }
    if !e.rules[s.index].HasBindings() {
      ActIsTame(e, s, done);
      return;
    }
    var s1 := Settle(s, done, seen);
    if e.rules[s.index].race {
      ArmAdvances(e, s1, done);
      return;
    }
    if Waits(e.rules[s.index], s1, done) == [] {
      ActIsTame(e, s1, done);
    }
  }

  /** The whole loop of `walkDNSRules`; `observe` gives the readings made at each rule index. */
  function WalkFrom(e: Engine, s: Walk, observe: nat -> Observation): Step
    decreases |e.rules| - s.index
  {
    var o := observe(s.index);
    VisitAdvances(e, s, o.done, o.seen);
    match Visit(e, s, o.done, o.seen)
    case Next(s') => WalkFrom(e, s', observe)
    case Suspend(s', why) => Suspend(s', why)
    case Return(s', rule, result) => Return(s', rule, result)
  }

  lemma {:induction false} UnresolvedAppend(tags: seq<string>, t: string, named: map<string, Future>,
                                            done: map<nat, Reply>)
    ensures Unresolved(tags + [t], named, done) ==
      Unresolved(tags, named, done) + if t in named && !named[t].Resolved(done) then [named[t]] else []
  {
    if tags == [] {
      assert (tags + [t])[1..] == [];
    } else {
      assert (tags + [t])[1..] == tags[1..] + [t];
      UnresolvedAppend(tags[1..], t, named, done);
    }
  }

  class Walker {
    var index: nat
    var options: Options
    var anon: Option<Future>
    var named: map<string, Future>
    var futures: seq<Future>
    var settled: set<nat>
    var responses: map<string, Option<Message>>
    var sources: map<string, string>
    var armed: seq<Armed>
    var terminal: Option<Future>

    function Value(): Walk
      reads this
    {
      Walk(index, options, anon, named, futures, settled, responses, sources, armed, terminal)
    }

    constructor (options: Options)
      ensures Value() == InitialWalk(options)
    {
      this.options := options;
      index, anon, named, futures := 0, None, map[], [];
      settled, responses, sources, armed, terminal := {}, map[], map[], [], None;
    }

    method SettleFutures(done: map<nat, Reply>, seen: set<nat>)
      modifies this`settled, this`responses, this`sources
      ensures Value() == Settle(old(Value()), done, seen)
    {
      for i := 0 to |futures|
        invariant Value() == SettlePrefix(old(Value()), done, seen, i)
      {
        var future := futures[i];
        if future.id in settled || future.id !in seen || future.id !in done {
          continue;
        }
        settled := settled + {future.id};
        if future.tag == "" {
          continue;
        }
        responses := responses[future.tag := future.View(done)];
        sources := sources[future.tag := future.transport];
      }
    }

    method SweepArmed(e: Engine, done: map<nat, Reply>) returns (swept: Swept)
      modifies this`armed
      ensures swept == Sweep(e, old(Value()), done) && Value() == swept.state
    {
      ghost var judge := Judgement(e, old(Value()), done);
      var i := 0;
      while i < |armed|
        invariant i <= |armed|
        invariant Value() == old(Value()).(armed := armed)
        invariant SweepFrom(judge, Value(), done, i) == Sweep(e, old(Value()), done)
        decreases |armed| - i
      {
        var current := armed[i];
        var ready := AllResolved(current.waits, done);
        if !ready {
          i := i + 1;
          continue;
        }
        armed := armed[..i] + armed[i + 1..];
        var verdict := Judge(e, Value(), current, done);
        assert verdict == judge(current);
        if !verdict.Pass? {
          return Committed(Value(), current.rule, verdict);
        }
      }
      swept := Unswept(Value());
    }

    static method AllResolved(waits: seq<Future>, done: map<nat, Reply>) returns (ready: bool)
      ensures ready <==> forall f :: f in waits ==> f.Resolved(done)
    {
      for i := 0 to |waits|
        invariant forall f :: f in waits[..i] ==> f.Resolved(done)
      {
        assert waits[..i + 1] == waits[..i] + [waits[i]];
        if !waits[i].Resolved(done) {
          return false;
        }
      }
      assert waits[..|waits|] == waits;
      ready := true;
    }

    /** The unresolved futures `rule` binds: its tags in order, then the anonymous response. */
    method PendingFutures(rule: Rule, done: map<nat, Reply>) returns (pending: seq<Future>)
      ensures pending == Waits(rule, Value(), done)
    {
      pending := [];
      for i := 0 to |rule.tags|
        invariant pending == Unresolved(rule.tags[..i], named, done)
      {
        var tag := rule.tags[i];
        assert rule.tags[..i + 1] == rule.tags[..i] + [tag];
        UnresolvedAppend(rule.tags[..i], tag, named, done);
        if tag in named && !named[tag].Resolved(done) {
          pending := pending + [named[tag]];
        }
      }
      assert rule.tags[..|rule.tags|] == rule.tags;
      if rule.anonymous && anon.Some? && !anon.value.Resolved(done) {
        pending := pending + [anon.value];
      }
    }

    method ArmRule(e: Engine, done: map<nat, Reply>) returns (signal: Signal)
      requires index < |e.rules|
      modifies this`index, this`armed
      ensures ToStep(signal, Value()) == Arm(e, old(Value()), done)
    {
      var rule := e.rules[index];
      var pending := PendingFutures(rule, done);
      armed := armed + [Armed(index, rule, pending, if rule.anonymous then anon else None, rule.anonymous, options)];
      if pending == [] {
        var swept := SweepArmed(e, done);
        if swept.Committed? && swept.verdict.Ask? {
          armed := [];
          return Suspended(PendingOn(Query(swept.rule, swept.verdict.transport, swept.verdict.options)));
        }
        if swept.Committed? && swept.verdict.Deliver? {
          return Returned(swept.rule, swept.verdict.result);
        }
      }
      index := index + 1;
      signal := Proceed;
    }

    method LaunchEvaluate(e: Engine, server: string, tag: string, speculative: bool, o: ActionOptions)
      returns (signal: Signal)
      modifies this`index, this`anon, this`named, this`futures
      ensures ToStep(signal, Value()) == ActEvaluate(e, old(Value()), server, tag, speculative, o)
    {
      if server !in e.transports {
        if tag == "" {
          anon := None;
        }
        index := index + 1;
        return Proceed;
      }
      if !speculative && armed != [] {
        return Suspended(Drain);
      }
      var future := Future(|futures|, tag, index, server, Finalize(Apply(options, o), e.defaultStrategy), false);
      futures := futures + [future];
      if tag == "" {
        anon := Some(future);
      } else {
        named := named[tag := future];
      }
      index := index + 1;
      signal := Proceed;
    }

    method StartRoute(e: Engine, server: string, speculative: bool, o: ActionOptions) returns (signal: Signal)
      modifies this`index, this`futures, this`terminal
      ensures ToStep(signal, Value()) == ActRoute(e, old(Value()), server, speculative, o)
    {
      var query := ResolveRoute(e, options, server, o);
      if query.None? {
        index := index + 1;
        return Proceed;
      }
      if armed != [] {
        if speculative && terminal.None? {
          var future := Future(|futures|, "", index, server, Finalize(query.value, e.defaultStrategy), true);
          futures := futures + [future];
          terminal := Some(future);
        }
        return Suspended(Drain);
      }
      if terminal.Some? && terminal.value.rule == index {
        return Suspended(PendingOn(Speculated(index, terminal.value)));
      }
      signal := Suspended(PendingOn(Query(index, server, query.value)));
    }

    method RespondNow(rule: Rule, done: map<nat, Reply>) returns (signal: Signal)
      ensures ToStep(signal, Value()) == ActRespond(Value(), rule, done)
    {
      if armed != [] {
        return Suspended(Drain);
      }
      if rule.matchTag != "" {
        return Returned(index, RespondWith(Look(responses, rule.matchTag), Source(sources, rule.matchTag)));
      }
      if !rule.HasBindings() && anon.Some? && !anon.value.Resolved(done) {
        return Suspended(Await(anon.value));
      }
      if anon.None? {
        return Returned(index, MissingResponse);
      }
      signal := Returned(index, RespondWith(anon.value.View(done), anon.value.transport));
    }

    method ApplyAction(e: Engine, done: map<nat, Reply>) returns (signal: Signal)
      requires index < |e.rules|
      modifies this
      ensures ToStep(signal, Value()) == Act(e, old(Value()), done)
    {
      if !e.matches(index, CurrentView(Value(), done)) {
        index := index + 1;
        return Proceed;
      }
      match e.rules[index].action
      case SetOptions(o) =>
        options := Apply(options, o);
        index := index + 1;
        signal := Proceed;
      case Evaluate(server, tag, speculative, o) => signal := LaunchEvaluate(e, server, tag, speculative, o);
      case Respond => signal := RespondNow(e.rules[index], done);
      case Route(server, speculative, o) => signal := StartRoute(e, server, speculative, o);
      case Reject(how) =>
        if armed != [] {
          return Suspended(Drain);
        }
        if how.RejectReply? {
          index := index + 1;
          return Proceed;
        }
        signal := Returned(index, if how.RejectDefault? then Refused else Dropped);
      case Predefined(msg) =>
        signal := if armed != [] then Suspended(Drain) else Returned(index, Fixed(msg));
    }

    method VisitRule(e: Engine, done: map<nat, Reply>, seen: set<nat>) returns (signal: Signal)
      modifies this
      ensures ToStep(signal, Value()) == Visit(e, old(Value()), done, seen)
    {
      if index >= |e.rules| {
        return if armed != [] then Suspended(Drain)
          else Suspended(PendingOn(Query(|e.rules|, e.defaultTransport, options)));
      }
      var rule := e.rules[index];
      if !rule.HasBindings() {
        signal := ApplyAction(e, done);
        return;
      }
      SettleFutures(done, seen);
      if rule.race {
        signal := ArmRule(e, done);
        return;
      }
      var pending := PendingFutures(rule, done);
      if pending != [] {
        return Suspended(Await(pending[0]));
      }
      signal := ApplyAction(e, done);
    }

    method VisitNext(e: Engine, observe: nat -> Observation) returns (signal: Signal)
      modifies this
      ensures signal.Proceed? ==> old(index) < |e.rules| && index == old(index) + 1
      ensures WalkFrom(e, old(Value()), observe) == if signal.Proceed? then WalkFrom(e, Value(), observe)
        else ToStep(signal, Value())
    {
      var o := observe(index);
      signal := VisitRule(e, o.done, o.seen);
      VisitAdvances(e, old(Value()), o.done, o.seen);
    }

    method WalkRules(e: Engine, observe: nat -> Observation) returns (signal: Signal)
      modifies this
      ensures !signal.Proceed? && ToStep(signal, Value()) == WalkFrom(e, old(Value()), observe)
    {
      ghost var goal := WalkFrom(e, Value(), observe);
      signal := VisitNext(e, observe);
      while signal.Proceed?
        invariant goal == if signal.Proceed? then WalkFrom(e, Value(), observe) else ToStep(signal, Value())
        invariant signal.Proceed? ==> index <= |e.rules|
        decreases if signal.Proceed? then |e.rules| - index + 1 else 0
      {
        signal := VisitNext(e, observe);
      }
    }
  }

  // ------------------------------------------------------ the walk among its surroundings

  ghost predicate Grows(before: map<nat, Reply>, after: map<nat, Reply>) {
    forall k :: k in before ==> k in after && after[k] == before[k]
  }

  /**
   * The readings a walk can make: futures complete as it goes, at any time after their launch; what was
   * completed stays so; and a settle pass sees no more than the test after it.
   */
  ghost predicate Plausible(e: Engine, s: Walk, done: map<nat, Reply>, observe: nat -> Observation)
    decreases |e.rules| - s.index
  {
    var o := observe(s.index);
    VisitAdvances(e, s, o.done, o.seen);
    var step := Visit(e, s, o.done, o.seen);
    && Grows(done, o.done) && o.done.Keys <= Ids(s) && o.seen <= o.done.Keys
    && (step.Next? ==> Plausible(e, step.state, o.done, observe))
  }

  /** What has completed when the walk makes its last visit. */
  function LastDone(e: Engine, s: Walk, observe: nat -> Observation): map<nat, Reply>
    decreases |e.rules| - s.index
  {
    var o := observe(s.index);
    VisitAdvances(e, s, o.done, o.seen);
    var step := Visit(e, s, o.done, o.seen);
    if step.Next? then LastDone(e, step.state, observe) else o.done
  }

  /** The configuration once everything in `done` has completed, nobody having tried the wake channel since. */
  ghost function Completed(c: Config, done: map<nat, Reply>): Config {
    c.(done := done, unsent := c.unsent + (done.Keys - c.done.Keys))
  }

  /** Everything in `done` completes, and then the run goes on as `tail`. */
  lemma {:induction false} CompletionsThen(e: Engine, c: Config, done: map<nat, Reply>, tail: seq<Event>, c': Config)
    returns (events: seq<Event>)
    requires Grows(c.done, done) && done.Keys <= Ids(c.s) && Runs(e, Completed(c, done), tail, c')
    ensures Runs(e, c, events, c') && forall ev :: ev in events ==> ev.Complete? || ev in tail
    decreases done.Keys - c.done.Keys
  {
    if k :| k in done.Keys - c.done.Keys {
      var ev := Complete(k, done[k]);
      var c1 := Fire(e, c, ev);
      assert done.Keys - c1.done.Keys == done.Keys - c.done.Keys - {k};
      assert Completed(c1, done).unsent == Completed(c, done).unsent;
      var rest := CompletionsThen(e, c1, done, tail, c');
      Prepend(e, c, ev, rest, c');
      events := [ev] + rest;
    } else {
      forall k | k in done ensures k in c.done {
        assert k !in done.Keys - c.done.Keys;
      }
      assert done == c.done;
      assert Completed(c, done).unsent == c.unsent;
      events := tail;
    }
  }

  lemma {:induction false} CompletedTwice(c: Config, s: Walk, mid: map<nat, Reply>, done: map<nat, Reply>)
    requires Grows(c.done, mid) && Grows(mid, done)
    ensures Completed(Completed(c, mid).(s := s), done) == Completed(c, done).(s := s)
  {
    assert (mid.Keys - c.done.Keys) + (done.Keys - mid.Keys) == done.Keys - c.done.Keys;
    assert c.unsent + (mid.Keys - c.done.Keys) + (done.Keys - mid.Keys) == c.unsent + (done.Keys - c.done.Keys);
  }

  lemma {:induction false} LastDoneGrows(e: Engine, s: Walk, done: map<nat, Reply>, observe: nat -> Observation)
    requires Plausible(e, s, done, observe)
    ensures Grows(done, LastDone(e, s, observe))
    decreases |e.rules| - s.index
  {
    var o := observe(s.index);
    VisitAdvances(e, s, o.done, o.seen);
    var step := Visit(e, s, o.done, o.seen);
    if step.Next? {
      LastDoneGrows(e, step.state, o.done, observe);
    }
  }

  /** One visit of the walk, after the completions it is the first to observe, and then a run as `tail`. */
  lemma {:induction false} VisitThen(e: Engine, c: Config, o: Observation, tail: seq<Event>, c': Config)
    returns (events: seq<Event>)
    requires c.phase.Walking? && Grows(c.done, o.done) && o.done.Keys <= Ids(c.s) && o.seen <= o.done.Keys
    requires Runs(e, AfterVisit(Completed(c, o.done), Visit(e, c.s, o.done, o.seen)), tail, c')
    ensures Runs(e, c, events, c') && forall ev :: ev in events ==> ev.Complete? || ev.VisitRule? || ev in tail
  {
    var c1, ev := Completed(c, o.done), Event.VisitRule(o.seen);
    Prepend(e, c1, ev, tail, c');
    events := CompletionsThen(e, c, o.done, [ev] + tail, c');
  }

  /**
   * Every walk is a run of the state machine, futures completing while it goes on: completions and
   * visits interleave, and the walk's own result is where the machine ends up.
   */
  lemma {:induction false} WalkIsRun(e: Engine, c: Config, observe: nat -> Observation) returns (events: seq<Event>)
    requires c.phase.Walking? && Plausible(e, c.s, c.done, observe)
    ensures Runs(e, c, events, AfterVisit(Completed(c, LastDone(e, c.s, observe)), WalkFrom(e, c.s, observe)))
    ensures forall ev :: ev in events ==> ev.Complete? || ev.VisitRule?
    decreases |e.rules| - c.s.index
  {
    var o := observe(c.s.index);
    VisitAdvances(e, c.s, o.done, o.seen);
    var step := Visit(e, c.s, o.done, o.seen);
    var c1 := AfterVisit(Completed(c, o.done), step);
    var c', rest := c1, [];
    if step.Next? {
      rest := WalkIsRun(e, c1, observe);
      var done := LastDone(e, step.state, observe);
      LastDoneGrows(e, step.state, o.done, observe);
      CompletedTwice(c, step.state, o.done, done);
      AfterVisitIgnoresState(Completed(c, done), step.state, WalkFrom(e, step.state, observe));
      c' := AfterVisit(Completed(c1, done), WalkFrom(e, step.state, observe));
    }
    events := VisitThen(e, c, o, rest, c');
  }

  lemma {:induction false} AfterVisitIgnoresState(c: Config, s: Walk, step: Step)
    ensures AfterVisit(c.(s := s), step) == AfterVisit(c, step)
  {
  }
}
