/**
 * The driver of the rule engine as a state machine (dns/router.go, `exchangeWithRules` and
 * `resumeExchangeWithRules`): driver steps interleave freely with futures completing, with the
 * wake-up sends that follow each completion, and with cancellation of the caller's context.
 */
module RuleRun {
  import opened QueryOptions
  import opened RuleEngine

  datatype Phase =
    | Walking
    | Driving(why: Suspension)
    | Blocked(why: Suspension)
    | Finishing(pending: Pending)
    | Finished(rule: nat, result: Result)

  /**
   * `unsent` holds the completed futures whose callback has closed `done` but not yet tried the
   * one-slot wake channel; `token` is that slot. `observed` is what the driver's last pass saw completed.
   */
  datatype Config = Config(
    s: Walk,
    done: map<nat, Reply>,
    unsent: set<nat>,
    token: bool,
    cancelled: set<nat>,
    ctxDone: bool,
    observed: set<nat>,
    phase: Phase)

  datatype Event =
    | Complete(id: nat, reply: Reply)
    | Signal(id: nat)
    | CancelContext
    | VisitRule(seen: set<nat>)
    | Drive(seen: set<nat>)
    | Wake
    | Abort
    | Exchange(reply: Reply)
    | Collect

  function InitialConfig(options: Options): Config {
    Config(InitialWalk(options), map[], {}, false, {}, false, {}, Walking)
  }

  function UpTo(n: nat): (r: set<nat>)
    ensures forall i :: i in r <==> 0 <= i < n
    ensures |r| == n
  {
    if n == 0 then {} else UpTo(n - 1) + {n - 1}
  }

  function Ids(s: Walk): set<nat> { UpTo(|s.futures|) }

  predicate Enabled(c: Config, ev: Event) {
    match ev
    case Complete(k, _) => k < |c.s.futures| && k !in c.done
    case Signal(k) => k in c.unsent
    case CancelContext => !c.ctxDone
    case VisitRule(seen) => c.phase.Walking? && seen <= c.done.Keys
    case Drive(seen) => c.phase.Driving? && seen <= c.done.Keys
    case Wake => c.phase.Blocked? && c.token
    case Abort => c.ctxDone && (c.phase.Blocked? || (c.phase.Finishing? && c.phase.pending.Speculated?))
    case Exchange(_) => c.phase.Finishing? && c.phase.pending.Query?
    case Collect => c.phase.Finishing? && c.phase.pending.Speculated? && c.phase.pending.future.Resolved(c.done)
  }

  /** Returning cancels every future (`cancelDNSFutures`). */
  function Finish(c: Config, rule: nat, result: Result): Config {
    c.(phase := Finished(rule, result), cancelled := Ids(c.s))
  }

  /** `finishPendingExchange` first cancels every future but the one it waits for. */
  function BeginFinish(c: Config, pending: Pending): Config {
    var kept := if pending.Speculated? then {pending.future.id} else {};
    c.(phase := Finishing(pending), cancelled := c.cancelled + (Ids(c.s) - kept))
  }

  function Commit(c: Config, rule: nat, verdict: Verdict): Config {
    if verdict.Ask? then BeginFinish(c, PendingOf(rule, verdict))
    else if verdict.Deliver? then Finish(c, rule, verdict.result)
    else c
  }

  function AfterVisit(c: Config, step: Step): Config {
    match step
    case Next(s) => c.(s := s)
    case Suspend(s, why) => c.(s := s, phase := Driving(why))
    case Return(s, rule, result) => Finish(c.(s := s), rule, result)
  }

  /** Where the driver goes once a sweep has ended as `swept` under the suspension `why`. */
  function AfterPass(c: Config, why: Suspension, swept: Swept): Config {
    var c1 := c.(s := swept.state, observed := c.done.Keys);
    match swept
    case Committed(_, rule, verdict) => Commit(c1, rule, verdict)
    case Unswept(_) =>
      match why
      case PendingOn(pending) => BeginFinish(c1, pending)
      case Await(f) => c1.(phase := if f.Resolved(c.done) then Walking else Blocked(why))
      case Drain => c1.(phase := if c1.s.armed == [] then Walking else Blocked(why))
  }

  /** One pass of the driver loop up to the point where it blocks, finishes or walks again. */
  function DriveOnce(e: Engine, c: Config, seen: set<nat>): Config
    requires c.phase.Driving?
  {
    AfterPass(c, c.phase.why, Sweep(e, Settle(c.s, c.done, seen), c.done))
  }

  function Fire(e: Engine, c: Config, ev: Event): Config
    requires Enabled(c, ev)
  {
    match ev
    case Complete(k, reply) => c.(done := c.done[k := reply], unsent := c.unsent + {k})
    case Signal(k) => c.(unsent := c.unsent - {k}, token := true)
    case CancelContext => c.(ctxDone := true)
    case VisitRule(seen) => AfterVisit(c, Visit(e, c.s, c.done, seen))
    case Drive(seen) => DriveOnce(e, c, seen)
    case Wake => c.(phase := Driving(c.phase.why), token := false)
    case Abort => Finish(c, 0, Cancelled)
    case Exchange(reply) =>
      var p := c.phase.pending;
      Finish(c, p.rule, Exchanged(p.transport, Finalize(p.options, e.defaultStrategy), reply))
    case Collect =>
      var f := c.phase.pending.future;
      Finish(c, c.phase.pending.rule, Exchanged(f.transport, f.options, c.done[f.id]))
  }

  /** `events` is a run of the machine from `c` to `c'`. */
  ghost predicate Runs(e: Engine, c: Config, events: seq<Event>, c': Config)
    decreases |events|
  {
    if events == [] then c' == c
    else Enabled(c, events[0]) && Runs(e, Fire(e, c, events[0]), events[1..], c')
  }

  ghost predicate Reachable(e: Engine, options: Options, c: Config) {
    exists events :: Runs(e, InitialConfig(options), events, c)
  }

  lemma {:induction false} Prepend(e: Engine, c: Config, ev: Event, events: seq<Event>, c': Config)
    requires Enabled(c, ev) && Runs(e, Fire(e, c, ev), events, c')
    ensures Runs(e, c, [ev] + events, c')
  {
    assert ([ev] + events)[1..] == events;
  }
}
