# Verified models of the DNS engine and the daemon protocols

This project models the parts of the repository whose correctness is hardest to see from the code, and
proves what they promise. Nothing here is executed: every statement is proved by Dafny 4.11 with
`dafny verify dfyconfig.toml`.

## What is modelled

**The concurrent DNS rule engine** (`dns/router.go`). A rule list is walked while queries started by
`evaluate` rules are still running; race rules are armed and judged when their responses arrive;
speculative routes start early.

- `RuleEngine` gives one settle pass, one sweep and one visit to a rule as functions on the walk state.
  `RuleWalker` is the code's own form, a class updated in place by loops, proved equal to those functions.
- `RuleRun` is the driver as a state machine. Driver steps interleave with futures completing, with the
  wake-up sends after each completion, and with cancellation. `RuleSafety`, `RuleInvariant` and
  `RuleProgress` prove what holds in every reachable configuration, that nothing deadlocks, and a bound
  on every run.
- `Sequential` is the reference: an interpreter that blocks at each evaluate. `RuleOutcome` proves that
  every fair schedule gives its result, up to races, and `RuleCompletion` that such schedules always
  exist and finish. `RuleNames` and `RuleGap` prove what named responses rely on, in every run, with the
  exact condition under which a completed response is seen.
- `RuleConfig`, `RuleMode` and `RuleCompile` are the static side: mode resolution over rule trees,
  validation, the rule-set update gate, and why an accepted list meets what the engine relies on.

**The DNS client cache** (`dns/client.go`, `dns/extension_edns0_subnet.go`). `SingleFlight` (one owner
per key), `Lifetime` (TTL arithmetic, section 5 of RFC 2308), `CacheNames` and `DnsCache` (memory and
cache-file back ends against one history), `ClientSubnet` (section 6 of RFC 7871, and the cache key).

**Start order** (`dns/transport_manager.go`): `TransportStart`.

**Daemon protocols** (`daemon/`): `ServiceLifecycle` (two locks, interruption), `ConnectionStream`,
`StreamRebuild` and `StreamHealing` (a delta-encoded stream, the client that rebuilds it, and its recovery
from a bad start), `Taildrop` (chunked files with acknowledgements).

**A binary record** (`adapter/experimental.go`): `SavedBinary`.

## Hypotheses and findings

- A rule's `Match` is an arbitrary predicate that reads only the responses its rule declares
  (`ReadsDeclared`). Each exchange has one fixed answer. The transport manager does not change during a
  walk.
- Settling and the later test of a future are two reads of its `done` flag, and the machine lets anything
  complete in between. `RuleGap.SeesResponseIff` says exactly when a completed response is seen, in every
  run; `RuleGap.GapChangesOutcome` shows that an unseen one can change the result of a validated list. The
  outcome theorems ask only that no rule is *judged* without a completed response it names
  (`RuleOutcome.Fair`), which `RuleGap.NoticedIff` proves to be exactly that every judged rule sees what
  it names. Other completions in the gap are harmless.
- The documentation says the result may depend on server speed only among race rules;
  `RuleOutcome.OutcomeIsSequentialUpToRaces` proves that reading.
- The cache file keeps whole seconds, its key has no question class, and a failed save is only logged
  while the queued row is dropped all the same. `DnsCache.TwoCachesIff` says, for any keys and any
  history, exactly when the two back ends answer alike; `DnsCache.TwoCachesOneMap` spells it out for keys
  of one class. `DnsCache.ClassesCollide` and `DnsCache.FailedSaveResurfaces` are the cases in which they do not.
- A key has one owner at a time, but waiters woken by a closed channel that then find nothing cached go to
  the server together without owning it: `SingleFlight.TwoAtTheServer` is such a run, and
  `SingleFlight.OthersWaitedTheirTurn` says exactly who may go on without the key.
- An IPv4-mapped client subnet does not survive being written into a message;
  `ClientSubnet.GetAfterSet` and `ClientSubnet.KeyMatchesMessage` give the exact condition.
- An interrupted start leaves the status alone, so `STARTING` can be left behind with no instance and
  nobody at work (`ServiceLifecycle.StartingIsStranded`). `ServiceLifecycle.StrandedIff` says exactly when:
  once everybody waiting has had a turn, if and only if the service was closed and no close was waiting.
- The opening message of the connection stream lists active and closed connections from two reads. It
  starts client and daemon in agreement exactly when the lists are disjoint
  (`StreamRebuild.InitialAgreesIff`); otherwise only the connections listed twice are affected, and the
  first tick that finds none of them active repairs it (`StreamHealing.BadStartHeals`). Totals survive a
  tick exactly when no counter went back (`StreamRebuild.TotalsSurviveIff`).
- The second `len(r.buffer) > 0` test of `finishFile` can never succeed: an ended file has an empty
  buffer in every state (`Taildrop.FrameOk`).

## Model

| member | source | states |
|---|---|---|
| `RuleSweep.SweepArbitrates` | dns/router.go:811-899 | a sweep commits exactly when some ready armed rule matches with a decisive action; the first such rule in list order wins, the armed rules kept are those before it that still wait and those after it, and otherwise exactly the waiting ones are kept |
| `RuleSweep.SweepPicksLowestRule` | dns/router.go:811-899 | on a sorted armed list the committed rule has the lowest index of all ready deciding rules |
| `RuleSweep.SweepKeepsOrder` | dns/router.go:811-899 | sweeping changes nothing but the armed list, which keeps its order by rule index and gains no entry |
| `RuleSafety.VisitKeepsOk` | dns/router.go:579-767 | one visit to any rule keeps the walk invariant: futures numbered and launched once per rule, bindings known, armed rules sorted and waiting only on launched futures |
| `RuleInvariant.UnsweptWaits` | dns/router.go:811-826 | after a sweep that commits nothing every rule still armed waits on a launched, unresolved future |
| `RuleInvariant.FireKeepsOk` | dns/router.go:507-530 | every event of driver or surroundings keeps the invariant, including that whatever completed since the driver's last look has left, or will leave, a token in the wake channel |
| `RuleInvariant.VisitHolds` | dns/router.go:670-767 | a visit that ends the walk was decided by a race rule, or nothing is armed |
| `RuleProgress.RunsAreBounded` | dns/router.go:779-809 | no run, in whatever order futures complete, has more than 11 events a rule plus 13: the driver terminates |
| `RuleProgress.NeverStuck` | dns/router.go:779-809 | until a result is delivered some event other than cancellation is enabled, and once all futures have completed and signalled the driver itself can move |
| `RuleProgress.WakesUp` | dns/router.go:507-530 | a driver that blocked has a token once every launched future has completed and signalled |
| `RuleProgress.ReachableIsSafe` | dns/router.go:555-767 | in every reachable configuration: one future per rule, the armed list sorted and holding race rules only, nothing armed under a pending exchange, a result only from a race rule or with nothing armed, every future cancelled once the result is out, and a blocked driver cannot miss a completion |
| `RuleProgress.AsyncPathAgrees` | dns/router.go:901-950 | from a suspension that is a pending query the driver, whatever has completed, asks the same transport with the same options and returns its reply: what the asynchronous fast path does |
| `Sequential.EntitledIsSequential` | docs/configuration/dns/rule_action.md:47-58 | a result some rule is entitled to is the sequential one, unless a race rule overtook an earlier race rule |
| `RuleOutcome.OutcomeIsEntitled` | dns/router.go:579-809 | for a validated list and any order of completions, gaps between settling and testing included as long as no judged rule misses a completed response it names, the delivered result is one its deciding rule is entitled to |
| `RuleOutcome.OutcomeIsSequentialUpToRaces` | docs/configuration/dns/rule_action.md:47-58 | the result equals the blocking interpreter's, or was taken by a race rule from an earlier race rule |
| `RuleOutcome.ScheduleIndependence` | dns/router.go:579-809 | without race rules every schedule delivers exactly the sequential interpreter's deciding rule and result |
| `RuleOutcome.RespondTracks` | dns/router.go:684-714 | a respond action waits, or delivers what the interpreter reads at that rule, or fails exactly when it has nothing to read |
| `RuleCompletion.FairRunCompletes` | dns/router.go:579-809 | whatever has happened so far, the exchange can run to a delivered result with the answers as given |
| `RuleCompletion.EveryQueryIsAnswered` | dns/router.go:579-809 | every validated list has a fair run to a delivered result that is not a cancellation, and without race rules that result is the sequential one |
| `RuleNames.TagsLaunchOnce` | dns/router.go:661-683 | in any run of a validated list a tag is launched at most once, by a rule strictly before every rule that binds it |
| `RuleNames.NamedResponsesStay` | dns/router.go:532-553 | a recorded named response is never overwritten in the rest of the run |
| `RuleGap.SeesResponseIff` | dns/router.go:585-633 | in every run of a validated list whose exchanges reply as given, a rule sees a completed named response exactly when its settle pass saw the completion, or an earlier one did, or there is no message to see |
| `RuleGap.AnsweredRunKeepsData` | dns/router.go:532-553 | in every such run, whatever completes between settling and testing, the recorded named responses are exactly the settled ones, each the answer to the exchange its tag names |
| `RuleGap.NoticedIff` | dns/router.go:585-633 | what fairness asks of a judged rule is exactly that it sees every completed response it names |
| `RuleGap.GapChangesOutcome` | dns/router.go:585-633 | a concrete run of a validated list in which a completion between settle and test changes the result |
| `RuleWalker.Walker.SettleFutures` | dns/router.go:532-553 | the settle loop computes the settle function and touches nothing else of the walk |
| `RuleWalker.Walker.SweepArmed` | dns/router.go:811-899 | the in-place sweep, deleting from the list it walks, computes the sweep function |
| `RuleWalker.Walker.PendingFutures` | dns/router.go:590-606 | the collected futures are the unresolved ones among the rule's tags in order, then the anonymous one |
| `RuleWalker.Walker.ArmRule` | dns/router.go:589-629 | arming appends the entry and sweeps at once if it waits for nothing |
| `RuleWalker.Walker.LaunchEvaluate` | dns/router.go:661-683 | a matched evaluate clears or binds the response, or suspends behind armed rules |
| `RuleWalker.Walker.StartRoute` | dns/router.go:715-737 | a matched route is skipped, held, started early or handed over as a query or as the speculated future |
| `RuleWalker.Walker.ApplyAction` | dns/router.go:647-761 | the matched action takes effect as the act function says, reject and predefined held back behind armed rules |
| `RuleWalker.Walker.VisitRule` | dns/router.go:579-767 | one loop iteration of the walk equals one visit of the state machine |
| `RuleWalker.Walker.WalkRules` | dns/router.go:579-767 | the whole loop equals the recursive walk from the current rule |
| `RuleWalker.WalkIsRun` | dns/router.go:579-767 | every walk is a run of the state machine in which completions and visits interleave, futures completing at any time after their launch, and ends where the walk ends |
| `RuleConfig.Validate` | dns/router.go:1528-1589 | the validation loop accepts a list exactly when every rule is acceptable given the tags and anonymous evaluates before it |
| `RuleMode.RulesFlagsExact` | dns/router.go:1447-1508 | the three flags are exactly whether some rule at any depth disables legacy mode, needs it, or needs it through a strategy |
| `RuleMode.ModeSeparatesActions` | dns/router.go:1433-1445 | a resolved legacy configuration holds, at any depth, no race, speculative, evaluate, respond or optimistic switch, and a resolved non-legacy one no strategy |
| `RuleMode.MergersLoseNothing` | dns/router.go:284-394 | in either mode the option merger in use agrees with the one that applies every field |
| `RuleMode.ModeIsExact` | dns/router.go:1433-1445 | resolution fails exactly when strategies are mixed with what disables legacy mode; otherwise the mode is legacy exactly when something needs it and nothing disables it |
| `RuleMode.ValidateUpdate` | dns/router.go:233-282 | a closing router allows every update; a started one allows exactly those under which it would keep its mode and, when not legacy, its rules stay valid; one not yet started exactly those its start could accept |
| `RuleMode.GateKeepsMode` | dns/router.go:179-282 | along any sequence of allowed and applied updates a legacy router never meets a rule that disables legacy mode, and a non-legacy one keeps resolving to non-legacy with rules that validate |
| `RuleCompile.UseCoversBindings` | route/rule/rule_dns.go:427-535 | what validation records a rule tree to read is exactly what the built rule binds, and the anonymous response also exactly where one of its actions replies with it |
| `RuleCompile.ValidationIsSound` | dns/router.go:1528-1672 | an accepted list gives each tag one rule, binds it only afterwards, and reads the anonymous response only after one is evaluated |
| `RuleCompile.AcceptedListOutcome` | dns/router.go:579-809 | from configuration to result: for every accepted list every fair schedule ends with the sequential result or with a race rule that overtook an earlier one |
| `SingleFlight.OneOwnerPerKey` | dns/client.go:295-357 | in every interleaving of synchronous, asynchronous and uncached exchanges a key has at most one owner |
| `SingleFlight.OwnersReleaseOnce` | dns/client.go:251-256 | whichever way an owner leaves, its channel is closed exactly once and its entry is out of the table |
| `SingleFlight.WaitersAreServed` | dns/client.go:400-449 | a waiter's channel is closed, or its owner has yet to close it and has an enabled step of its own |
| `SingleFlight.DeletesOwnEntry` | dns/client.go:251-256 | the entry an owner deletes is its own |
| `SingleFlight.OthersWaitedTheirTurn` | dns/client.go:295-340 | of the exchanges of a key in flight at most one holds it, and any other does not use the cache or waited on a channel of that key that is now closed |
| `SingleFlight.WokenGoTogether` | dns/client.go:320-340 | from every reachable configuration two waiters of a closed channel can both be at the server at once |
| `SingleFlight.TwoAtTheServer` | dns/client.go:320-340 | a configuration with two exchanges of one key at the server is reachable |
| `Lifetime.Response.ExtractNegativeTTL` | dns/client.go:186-198 | the loop finds the first SOA of the authority section and the lesser of its TTL and MINIMUM |
| `Lifetime.Response.ComputeTimeToLive` | dns/client.go:200-218 | the scan computes the lifetime function |
| `Lifetime.Response.NormalizeTTL` | dns/client.go:220-229 | every record but OPT gets the TTL, in place |
| `Lifetime.Response.ApplyOptions` | dns/client.go:647-670 | an HTTPS answer loses exactly the address hints its strategy excludes; the lifetime is the rewrite, or the one computed of the response as it came; and the response is normalised to it |
| `Lifetime.LifetimeIsLeast` | dns/client.go:186-218 | the lifetime is the least positive TTL of the records that are not OPT, or the lesser of TTL and MINIMUM of the first SOA for an empty answer |
| `Lifetime.NormalizedLifetimeIff` | dns/client.go:200-229 | exactly which lifetimes survive being written into a response and computed again |
| `Lifetime.LifetimeIsFixedPoint` | dns/client.go:200-229 | computing again from the normalised response gives the stored lifetime back |
| `CacheNames.Base36Injective` | dns/client.go:108-110 | base-36 numerals of different numbers differ |
| `CacheNames.PersistentNameInjective` | dns/client.go:103-112 | for tags free of bytes 0 and 1 the persistent name determines the tag, the subnet if valid and the environment |
| `CacheNames.SameRowIff` | dns/client.go:91-112 | exactly which cache keys share a row of the cache file |
| `DnsCache.Cache.StoreCache` | dns/client.go:516-536 | a zero lifetime stores nothing; otherwise the entry goes to the write queue or to memory |
| `DnsCache.Cache.LoadResponse` | dns/client.go:587-645 | fresh, stale or missing as the entry's expiry says; only the memory back end drops what has expired |
| `DnsCache.FreshWithinLifetime` | dns/client.go:587-619 | a fresh answer at t with TTL s has t + s at most the expiry and within a second of it, never promises more than was stored, and carries s in every record |
| `DnsCache.StaleWithinWindow` | dns/client.go:600-614 | past its expiry an entry is served exactly inside the optimistic window, stale, with every TTL 1 |
| `DnsCache.MemoryServesLastStore` | dns/client.go:516-619 | over any history the memory cache, with its removals, serves what the last store under the key says |
| `DnsCache.FileServesItsRow` | experimental/cachefile/dns_cache.go:19-135 | over any history of stores, writes that succeed or fail, and clean-ups, and for any keys: the cache file serves the row a key shares, as last stored while queued and as last saved afterwards |
| `DnsCache.FileServesLastStoreIff` | experimental/cachefile/dns_cache.go:72-135 | the file serves the last store under a key exactly when the row is still queued, or the last attempt to save it succeeded and flooring goes unnoticed, or it failed and what was saved before cannot be told apart |
| `DnsCache.ServedAlikeIff` | dns/client.go:587-645 | exactly when a lookup cannot tell two entries apart: the same standing and the same records up to TTLs |
| `DnsCache.TwoCachesIff` | dns/client.go:516-645 | for any keys and histories, memory and file answer alike exactly when the last store under the key and what its row has to show cannot be told apart |
| `DnsCache.FlooringUnnoticedIff` | experimental/cachefile/dns_cache.go:53-60 | exactly when losing the fraction of a second of an expiry changes no answer |
| `DnsCache.TwoCachesOneMap` | dns/client.go:516-645 | among keys of one class, both back ends give the same response, TTL and staleness exactly when the row is queued, or its last save succeeded and flooring goes unnoticed, or it failed and the difference does not show |
| `DnsCache.UnwrittenCachesAgree` | dns/client.go:516-645 | while rows are only queued the two back ends are indistinguishable |
| `DnsCache.NothingOutlivesItsStore` | dns/client.go:516-645 | over any history, from either back end, an answer comes from a store under its own key, fresh only within the lifetime of that store and stale only inside its optimistic window |
| `DnsCache.MemoryNeverOutlives` | dns/client.go:516-619 | memory answers from the last store under the key, within its lifetime |
| `DnsCache.FileNeverOutlives` | dns/client.go:516-645 | the file, whatever saves fail and whatever keys share the row, answers from some store under the row, within its lifetime |
| `DnsCache.FailedSaveResurfaces` | experimental/cachefile/dns_cache.go:108-135 | after a failed save the response saved before it is served, although another was stored since |
| `DnsCache.ClassesCollide` | dns/client.go:516-528 | two questions that differ in class alone share a row of the file and not of the memory cache |
| `ClientSubnet.Msg.ClientSubnet` | dns/extension_edns0_subnet.go:16-35 | the scan returns the prefix of the first subnet option |
| `ClientSubnet.Msg.FindExisting` | dns/extension_edns0_subnet.go:62-79 | where the search loop leaves its two variables, with and without a subnet option present |
| `ClientSubnet.Msg.SetSubnet` | dns/extension_edns0_subnet.go:62-106 | the written message is the set function of the old one; with clone nothing that existed is modified |
| `ClientSubnet.Msg.SetClientSubnet` | dns/extension_edns0_subnet.go:12-14 | setting modifies no existing object, and the result has the set value |
| `ClientSubnet.Msg.RemoveClientSubnet` | dns/extension_edns0_subnet.go:37-60 | removing modifies no existing object; the result is stripped, and is the same object or a new one |
| `ClientSubnet.GetAfterSet` | dns/extension_edns0_subnet.go:12-106 | get after set gives the unmapped prefix, which is the one set exactly when it is not IPv4-mapped |
| `ClientSubnet.SetAfterSet` | dns/extension_edns0_subnet.go:62-106 | set after set keeps the last |
| `ClientSubnet.GetAfterRemove` | dns/extension_edns0_subnet.go:16-60 | get after remove is empty |
| `ClientSubnet.SetTouchesOnlySubnet` | dns/extension_edns0_subnet.go:62-106 | stripped of the subnet, a message after set is the one before, or that with one empty OPT record |
| `ClientSubnet.KeyMatchesMessage` | dns/client.go:114-131 | the cache key's subnet is the one in the prepared message, except exactly when an IPv4-mapped prefix was chosen |
| `TransportStart.StartPass` | dns/transport_manager.go:92-115 | one pass starts only ready servers, once each and after their dependencies, and makes no progress exactly when nothing can start |
| `TransportStart.Lint` | dns/transport_manager.go:125-141 | the recursion ends, with a genuine cycle or a genuine missing dependency |
| `TransportStart.StartTransports` | dns/transport_manager.go:88-144 | success starts every server exactly once after its dependencies; every error names a failed start, a genuine cycle or a genuine missing dependency |
| `TransportStart.LogProvesOrder` | dns/transport_manager.go:88-144 | an order in which everything started proves there is no cycle and nothing missing |
| `TransportStart.StartIff` | dns/transport_manager.go:88-144 | if every start call succeeds, starting succeeds exactly when the graph is acyclic with nothing missing |
| `ServiceLifecycle.StepKeepsOk` | daemon/started_service.go:248-349 | every step of every caller keeps the lifecycle invariant |
| `ServiceLifecycle.ReachableIsSafe` | daemon/started_service.go:146-165 | in every interleaving: at most one live instance, STARTED only with a published live instance that was not interrupted, the interrupt flag only while a start holds the lock with its instance published, and interrupted starts never announced and closed once the lock is free |
| `ServiceLifecycle.InterruptedIsDiscarded` | daemon/started_service.go:284-293 | an interrupted start, whatever its result and whoever else acts, closes its instance without announcing it |
| `ServiceLifecycle.ClosedNeverCreates` | daemon/started_service.go:252-256 | on a closed service no instance is created any more, but for a start past its check |
| `ServiceLifecycle.StartingIsStranded` | daemon/started_service.go:284-293 | STARTING with the lock free, no instance and nobody waiting is reachable |
| `ServiceLifecycle.StrandedOnlyWhenClosed` | daemon/started_service.go:248-293 | STARTING with the lock free and nobody waiting occurs on closed services only |
| `ServiceLifecycle.StrandedIff` | daemon/started_service.go:248-342 | from any reachable state with the lock free under STARTING, once everybody waiting has had a turn the status is still STARTING if and only if the service was closed and no close was waiting |
| `ConnectionStream.Connections.ApplyEvents` | experimental/libbox/command_types.go:129-212 | the client folds a batch of events into its map, evicts what closed long ago, and lists each connection once and those that pass its filter |
| `ConnectionStream.Stream.BuildInitial` | daemon/started_service.go:871-897 | the opening events, and a snapshot of exactly the active connections |
| `ConnectionStream.AnnounceKeepsAgree` | daemon/started_service.go:900-913 | a client that agrees before an announcement, known already or not, agrees after applying what is sent |
| `ConnectionStream.RetireKeepsAgree` | daemon/started_service.go:914-933 | and likewise after a closing, known to either side or not |
| `ConnectionStream.Stream.UpdateOne` | daemon/started_service.go:944-1003 | what one active connection adds to a tick, branch by branch |
| `ConnectionStream.Stream.CloseGone` | daemon/started_service.go:1005-1032 | exactly one CLOSED event for every snapshot that is no longer active, in whatever order the map is visited |
| `ConnectionStream.Stream.BuildTrafficUpdates` | daemon/started_service.go:939-1035 | a tick is the updates of the active connections followed by the closings |
| `StreamRebuild.TickRebuilds` | daemon/started_service.go:939-1035 | after a tick with growing counters the client holds open exactly the active connections, each with its current totals and, as its rate, what it moved since the last snapshot |
| `StreamRebuild.ActiveListIsSnapshots` | experimental/libbox/command_types.go:168-212 | a client in agreement lists as active exactly the daemon's connections, each with its totals |
| `StreamRebuild.TotalsSurviveIff` | daemon/started_service.go:961-977 | the client's totals survive a tick exactly when neither counter fell |
| `StreamRebuild.ZeroUpdateOnce` | daemon/started_service.go:991-1002 | when traffic stops exactly one zero update goes out, however many idle ticks follow |
| `StreamRebuild.StreamAlwaysAgrees` | daemon/started_service.go:829-861 | over any stream of announcements, closings, ticks and evictions the client's open set is the snapshot set, with the same totals |
| `StreamRebuild.InitialAgreesIff` | daemon/started_service.go:871-897 | client and daemon start in agreement exactly when no connection is listed both active and closed |
| `StreamHealing.InitialAgreesBut` | daemon/started_service.go:871-897 | every stream starts in agreement apart from the connections its opening message lists both ways |
| `StreamHealing.TickHeals` | daemon/started_service.go:939-1035 | a tick leaves in disagreement only those of them it still finds active |
| `StreamHealing.BadStartHeals` | daemon/started_service.go:829-861 | over any stream no other connection is affected, and from the first tick on that finds none of them active client and daemon agree entirely |
| `Taildrop.ChunkReader.BeginFile` | daemon/started_service_taildrop.go:252-255 | a file begins at the current stream position with nothing delivered and the acknowledgement state kept |
| `Taildrop.ChunkReader.Read` | daemon/started_service_taildrop.go:257-284 | a read hands on the next bytes of the file, at most as many as asked and at least one; end of file means all of it was handed on; acknowledgements rise strictly and lag by less than the interval |
| `Taildrop.ChunkReader.FinishFile` | daemon/started_service_taildrop.go:286-311 | success exactly when the buffer is empty, only empty chunks precede the end mark and the count is the declared one; then the delivered bytes are the stream's next file |
| `Taildrop.ChunkReader.DeliveredIsPrefix` | daemon/started_service_taildrop.go:257-284 | at any time the bytes delivered for a file are a prefix of its chunks, stray messages aside |
| `Taildrop.SendFiles` | daemon/started_service_taildrop.go:204-240 | for any consumers, even ones that read on after an error and report success: the files received are exactly the first files of the stream's framing with stray messages left out, each of its declared size, and no byte crosses files; with consumers that report a failed read there were no stray messages among them |
| `SavedBinary.UvarintRoundTrip` | adapter/experimental.go:67-70 | every number below 2^64 survives its varint, whatever follows |
| `SavedBinary.UvarintFits` | adapter/experimental.go:105-111 | a varint that is read never exceeds 64 bits |
| `SavedBinary.Int64RoundTrip` | adapter/experimental.go:75-78 | every int64 survives big-endian two's complement |
| `SavedBinary.RoundTrip` | adapter/experimental.go:61-152 | decoding an encoding gives back every field, time truncated to seconds; trailing bytes are ignored |
| `SavedBinary.EarlierVersion` | adapter/experimental.go:98-138 | a payload of an earlier version gives the same three fields and leaves the URL hash alone |
| `SavedBinary.EncodeInjective` | adapter/experimental.go:61-96 | two records encode alike exactly when they differ in fractions of a second only |
| `SavedBinary.TruncationIsDetected` | adapter/experimental.go:98-152 | no encoding cut short decodes |
| `SavedBinary.Reader.ReadUvarint` | adapter/experimental.go:105-108 | the shifting loop computes the varint function, with its three errors |
| `SavedBinary.Record.MarshalBinary` | adapter/experimental.go:61-96 | the buffer built step by step is the encoding |
| `SavedBinary.Record.UnmarshalBinary` | adapter/experimental.go:98-152 | the receiver's fields after decoding, field by field, on success and on every error |

## Left out

- Real transports, sockets, gRPC streams, contexts, timers and logging: an exchange is an answer, cancellation a flag, time an integer.
- The bodies of `Match`: an arbitrary predicate that reads only declared responses.
- Sweeping reads each future's `done` flag separately; the model tests all of them against one observation.
- `validateEvaluateFakeIPRules`, the warnings of validation, and the legacy walk of `matchDNS` beyond its option merger.
- Lookups, reverse mapping, the rejected-response cache, background refresh, and `finishCacheKey` when the environment changes during an exchange.
- RuleCompile.Compile: models what the engine uses of a built rule (tags, race, action), not its matching items.
- DnsCache.Cache.LoadResponse: computes whole seconds exactly, where the code goes through a floating-point number of seconds.
- Clearing either cache, and the write queue's behaviour while it is cleared.
- Eviction from the memory cache by size, and packing and unpacking of messages, which is taken to be faithful.
- ClientSubnet.Msg.SetSubnet: an OPT record is an object and its option list a value, so two records sharing one option object are not modelled.
- TransportStart.StartTransports: assumes distinct tags and an index by tag that holds exactly the servers being started, which the manager keeps outside this function.
- `TransportManager.Create` and `Remove`, the default server, and `waitForStarted`, `followInstance` and `SubscribeLog`.
- ServiceLifecycle.ReachableIsSafe: creating, starting and closing an instance are single steps that succeed or fail; what an instance does is not modelled.
- Sorting the client's connection list.
- ConnectionStream.Stream.UpdateOne: reads each counter once, where the code reads it again to build a NEW event.
- Taildrop progress messages, and 64-bit overflow of byte counts.
- SavedBinary.RoundTrip: a nil and an empty byte slice are the same value.
- `daemon/log_ring.go`, USB/IP, SSH sessions, fake-IP metadata, option parsing and registration stubs: easier than the rest, or without a property of their own.
