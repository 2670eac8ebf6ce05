# Trailmarked: a verified model

Trailmarked records a browser task once, compiles the recorded events into a versioned *capability*, and
replays it without a language model. Its services exchange events through per-service outboxes and one
append-only log. This project models that machinery in Dafny and proves what it promises, for every page
behaviour, every interleaving of threads and every crash between two committed statements.

## How the model is laid out

| files | what they model |
|---|---|
| `Prelude`, `Schemas`, `Sorting`, `Browser` | shared vocabulary; the artifact types of `shared/schemas.py`; `sorted(...)`; the page as an arbitrary state machine in which every call, reads included, may move the state |
| `RateLimit` | `shared/rate_limit.py` |
| `CircuitBreaker` | `services/replay_runtime/circuit_breaker.py` |
| `EventLog` | `services/event_log/storage.py` and `StreamTopic` of `services/event_log/server.py` |
| `Outbox`, `OutboxOrder`, `OutboxDispatcher` | `shared/outbox.py`: the protocol with any number of dispatchers, publication order and draining, and the dispatcher as an object |
| `RegistryStore`, `Versioning`, `CompileRace` | the registry's tables, compatibility labels, and concurrent compiles |
| `Projector`, `Projection`, `Confidence`, `ProjectorLoop` | `services/capability_registry/projector.py` with crashes between any two writes, and as the loop it is |
| `Discovery`, `Decisions`, `DiscoveryGate`, `DiscoveryEnds`, `DiscoveryTrace` | `services/discovery_plane/loop.py` and `actor.py`; one decision and one action by themselves, the allowlist, how a run begins and ends, and what its event stream says |
| `Compiler`, `CompiledSteps`, `CompilerOrder`, `Redaction`, `Delivery`, `Overlay`, `WellFormed` | the fold of a trace into a draft, each compiled step by its decision, independence of delivery order, `redact_payload`, overlays, well-formedness |
| `Executor`, `Accounting`, `Outcomes` | the retrying interpreter, its accounting, and its answers in the page's own terms |
| `Simulation`, `ReplayInputs`, `Publication` | discover, publish, fetch, compile, replay: the replay repeats the run |
| `ReplayServer`, `ReplaySafety`, `ReplaySessions`, `ReplayFacts`, `ReplayTheorems`, `ReplayFetches`, `ReplayReleases`, `ReplayGate`, `ReplayRows`, `ReplayEvents`, `ReplayAlone`, `ReplaySequence`, `ReplayService` | `SubmitReplay`, `ActOnLiveSession`, `ReleaseLiveSession` and the saga requests as one machine of threads; its invariants and theorems; what a run's row says; what the projector makes of its events; requests served one after the other; and the same requests as objects |

Objects of the source are classes whose methods are proved against functions on their tables; loops are
loops. Protocols are state machines, `Next` over an action, in which one committed statement, one change in
memory or one remote call is one step, and an action that is not enabled changes nothing. Clocks, uuids, the
planner, the page and lost or failed remote calls are parameters or choices of the actions.

## What the code does that its documentation does not say

Each of these is modelled as coded, and most have a lemma of their own.

- The rate limiter reads the clock before it takes the lock, so readings may arrive out of order; the bound on
  a window then shrinks by exactly the skew (`RateLimit.NoWindowOverLimit`, `RateLimit.SafeLengthExactly`).
- `HALF_OPEN` does not limit probes, and a clock that steps back admits a run inside its cooldown
  (`CircuitBreaker.ConcurrentProbesBreakSpacing`, `CircuitBreaker.ClockStepBackAdmitsEarly`); failures are
  spaced by the cooldown when requests are served one at a time (`ReplaySequence.ServedStreakSpacing`).
- An append that raises has already advanced the topic's counter, so a topic is gapless exactly when no append
  to it reached the insert and failed there (`EventLog.GaplessExactly`, `EventLog.GaplessThroughServer`).
- `create_pending` and `_emit` are separate transactions: a row may exist whose `ReplayRequested` never does.
- The empty idempotency key is stored and is unique like any other: after one keyless request every further
  one ends in an error (`ReplayTheorems.OneKeylessRequest`).
- A missing binding fails a navigation at once, but is retried to the end on a fill or a select, because the
  broad `except` takes it for a failed action (`Simulation.ReplayRepeatsDiscovery`, `Accounting.UnboundFillIsRetried`).
- The compiler's default output name differs from the run's own (`ReplayInputs.NamesAgreeExactly`), `finish`
  replaces what a run had collected, and an input that occurs inside a literal is bound to all of it
  (`ReplayInputs.OwnInputsExactly`).
- A final flush publishes at most 50 rows (`OutboxOrder.PassesDrain`), and the compiler reads at most 10,000
  events of its topic (`CompilerOrder.FetchLimitExactly`).
- A crashed projection can count a hard failure twice, so confidence errs on one side only
  (`ConfidenceTracking.ConfidenceIsOneSided`).
- A human action can be performed after the release of its session has begun, exactly when it had found the
  session before (`ReplayReleases.ActionAfterRelease`, `ReplayReleases.ActedAfterReleaseExactly`).
- The saga's status has no guards and `CONTROL_RETURNED` is never stored; `RecordHumanAction` records an action
  before it knows whether it can be performed.

## Model

| member | source | states |
|---|---|---|
| RateLimit.RateLimiter.Check | shared/rate_limit.py:31-41 | the verdict and the deque after a call are those of the key's whole call history, and no other key is touched |
| RateLimit.DequeIsNewestAdmissions | shared/rate_limit.py:35-41 | the deque is exactly the newest admissions, and whatever left it had expired for some call |
| RateLimit.AdmissionsSpaced | shared/rate_limit.py:35-41 | with clock readings at most d out of order, admission i + limit comes more than window - d after admission i |
| RateLimit.NoWindowOverLimit | shared/rate_limit.py:31-41 | no closed interval of length window - d ever holds more than max_requests admissions of a key; for monotone time, no closed window |
| RateLimit.SafeLengthExactly | shared/rate_limit.py:31-41 | with readings up to d out of order, no history puts more than max_requests admissions into a closed interval of length L if and only if L is at most window - d; at most the window itself when only one request is allowed; any L when none is |
| RateLimit.RefusalIsJustified | shared/rate_limit.py:37-41 | a refusal means max_requests admissions lie in the widened window, and that many in the narrowed one mean a refusal |
| RateLimit.RefusedExactlyWhenFull | shared/rate_limit.py:37-41 | in order, a call is refused exactly when max_requests admissions lie in the closed window ending at it |
| RateLimit.FaultExactlyWhenNoneAllowed | shared/rate_limit.py:37-38 | the empty deque is indexed exactly by limiters that allow no request |
| RateLimit.RetryAfterIsExact | shared/rate_limit.py:38-39 | with no other call on the key a retry is admitted exactly when it comes strictly later than retry_after_s |
| RateLimit.KeysCollideExactly | shared/rate_limit.py:32 | two (tenant, capability) pairs share a deque exactly when one tenant id extends the other past a colon |
| CircuitBreaker.Breaker.Get | services/replay_runtime/circuit_breaker.py:43-54 | reading a target yields the row its history led to, and inserts the default row for an unknown one |
| CircuitBreaker.Breaker.BeforeRun | services/replay_runtime/circuit_breaker.py:56-67 | the run proceeds exactly when the row reached by the target's history admits it; rejection carries that row's cooldown |
| CircuitBreaker.Breaker.RecordSuccess | services/replay_runtime/circuit_breaker.py:69-75 | the row becomes the one reached by the history with this success; a target without a row keeps none |
| CircuitBreaker.Breaker.RecordFailure | services/replay_runtime/circuit_breaker.py:77-93 | the row becomes the one reached by the history with this failure |
| CircuitBreaker.RowMeaning | services/replay_runtime/circuit_breaker.py:56-93 | the row is a summary of the history: the length of the failure streak, the cooldown from its last failure, and whether a call has seen it over |
| CircuitBreaker.CooldownIsKept | services/replay_runtime/circuit_breaker.py:69-93 | the row's cooldown ends 30,000 ms after the last failure that was the third or a later one of its streak, whatever succeeded since |
| CircuitBreaker.NeverOpenedNoCooldown | services/replay_runtime/circuit_breaker.py:43-54 | without such a failure it is still 0 |
| CircuitBreaker.AdmitsExactly | services/replay_runtime/circuit_breaker.py:56-67 | for any clock, a run is admitted exactly when the streak is short, the cooldown is over, or an earlier call since the last failure saw it over |
| CircuitBreaker.AdmitsExactlyMonotone | services/replay_runtime/circuit_breaker.py:56-93 | for a monotone clock, admitted exactly when fewer than 3 failures since the last success or 30,000 ms since the last failure |
| CircuitBreaker.RejectionLeavesRow | services/replay_runtime/circuit_breaker.py:61-63 | a rejected call changes neither the row nor the streak |
| CircuitBreaker.ConsecutiveFailuresSpaced | services/replay_runtime/circuit_breaker.py:77-93 | for runs submitted one at a time, each failure of a streak after the third comes a whole cooldown after the one before |
| CircuitBreaker.StreakSpacing | services/replay_runtime/circuit_breaker.py:77-93 | the k-th failure of a streak comes at least (k - 3) cooldowns after the third |
| CircuitBreaker.ConcurrentProbesBreakSpacing | services/replay_runtime/circuit_breaker.py:61-67 | with two runs in flight both are admitted after one cooldown and their failures come 1 ms apart |
| CircuitBreaker.ClockStepBackAdmitsEarly | services/replay_runtime/circuit_breaker.py:60-67 | after a step back of the clock a run inside the cooldown is admitted |
| EventLog.EventStore.AppendEvent | services/event_log/storage.py:82-128 | the tables and the reply after an append, including the counter left advanced when the insert raises |
| EventLog.EventStore.Fetch | services/event_log/storage.py:130-143 | in every reachable log the page holds events of the topic past the group's committed offset, in increasing offset, at most max_events of them, and leaves out only events beyond its last one, and those only when it is full |
| EventLog.EventStore.CommitOffset | services/event_log/storage.py:154-161 | the group's offset is replaced, nothing else changes |
| EventLog.ReachableWellFormed | services/event_log/storage.py:82-161 | in every reachable log offsets increase per topic below the counter, event ids are distinct and no dedupe key occurs twice on a topic |
| EventLog.OffsetsSkipped | services/event_log/storage.py:100-127 | a topic's counter is the number of its events plus the number of appends to it that raised |
| EventLog.GaplessExactly | services/event_log/storage.py:92-127 | a topic's offsets are exactly 0 .. next_offset - 1 if and only if every append to it met a stored event under its key or could be inserted: its payload decodes, its event id is new, its key is not on the topic |
| EventLog.GaplessThroughServer | services/event_log/server.py:22-29 | with the server's new event ids and no empty keys, that is: if and only if each payload sent to the topic decodes or belongs to an append that a stored event absorbs |
| EventLog.MalformedPayloadLeavesGap | services/event_log/storage.py:105-123 | an undecodable payload on a fresh topic puts the topic's first event at offset 1 |
| EventLog.RepeatIsAbsorbed | services/event_log/storage.py:92-98 | repeating an acknowledged append with its dedupe key, on any later log, returns the same id and offset and changes nothing |
| EventLog.FromMembers | services/event_log/storage.py:138-143 | a reading holds exactly the topic's events at or after its start |
| EventLog.PagesConcatenate | services/event_log/storage.py:137-143 | a page followed by the reading from just past its last event is the whole reading, so nothing is skipped or repeated |
| EventLog.FromGrows | services/event_log/storage.py:145-152 | growth of the log extends a reading only at its end |
| EventLog.StreamTopic | services/event_log/server.py:44-51 | after any number of polls on a growing log the stream has yielded exactly the topic's events before its position, in order, and at least 1000 per poll as long as the log held that many when it began |
| EventLog.StreamedConsecutively | services/event_log/server.py:44-51 | what a stream has yielded from a gapless topic carries consecutive offsets from where it started |
| EventLog.ConsumeInOrder | services/event_log/storage.py:130-161 | a group that fetches, handles and commits, round after round on a growing log, sees exactly the topic's events before its committed position, in order, each once, and at least max_events a round as long as the log held that many when it began |
| Outbox.AppendRow | shared/outbox.py:91-97 | appending a row's message, unless it raises, leaves the row delivered and every event under a row's id still carrying that row |
| Outbox.NextKeepsInv | shared/outbox.py:83-105 | every step of every dispatcher, enqueuer and foreign producer keeps the protocol's invariant |
| Outbox.ExactlyOnce | shared/outbox.py:83-105 | whatever interleaves, fails or crashes, a row gives at most one event on the log, carrying its message, and a published row exactly one |
| OutboxOrder.NextKeepsOrder | shared/outbox.py:83-105 | every step in which no append fails keeps the order invariant |
| OutboxOrder.PublishedInOrder | shared/outbox.py:84-98 | if no append fails and rows are committed in timestamp order, no row is first appended before an earlier-stamped one, dispatchers crashing and repeating work as they may |
| OutboxOrder.PassPublishes | shared/outbox.py:83-105 | one undisturbed pass publishes exactly min(50, pending) rows |
| OutboxOrder.PassesDrain | shared/outbox.py:83-105 | k undisturbed passes publish exactly min(50 k, pending) rows |
| OutboxDispatcher.OutboxDb.Insert | shared/outbox.py:47-55 | enqueue adds one pending row at the end, with no attempts, the given topic, type and moment, and a payload that has been redacted once; every other row stays |
| OutboxDispatcher.OutboxDb.SelectPending | shared/outbox.py:84-87 | the batch is the min(50, pending) oldest pending rows, in timestamp order, each once |
| OutboxDispatcher.Dispatcher.DispatchRow | shared/outbox.py:90-104 | one row is two steps of the protocol: the append, then the mark or the attempt count |
| OutboxDispatcher.Dispatcher.DispatchOnce | shared/outbox.py:83-105 | a whole pass is a run of the protocol in which one worker takes a batch and sends every row of it, each meeting its fate on the network; the count returned is the number of rows that stopped being pending |
| Versioning.ShapesSurvive | services/capability_registry/versioning.py:31-48 | without a BREAKING label in between, every shape of the earlier version is in the later one, which differs exactly if some label is FORWARD |
| Versioning.CompatibilityComposes | services/capability_registry/versioning.py:23-48 | without a BREAKING label in (m, n], comparing m with n gives FORWARD exactly when some label in between is FORWARD, and comparing back gives BREAKING exactly then |
| Versioning.LabelExactly | services/capability_registry/versioning.py:11-48 | a label is BREAKING exactly when some input or output, by name and type, or some checkpoint, by step and assertion, of the previous version is missing, and BACKWARD exactly when neither version declares anything the other does not |
| RegistryStore.Store.LatestVersion | services/capability_registry/store.py:104-123 | the greatest stored version of the capability in the scope, or none if there is none |
| RegistryStore.Store.Insert | services/capability_registry/store.py:125-140 | a new row under a free primary key; under a taken one an error and no change |
| RegistryStore.Store.UpsertRunRow | services/capability_registry/store.py:225-232 | a run's row is written once and never replaced |
| RegistryStore.Store.SetStatus | services/capability_registry/store.py:234-237 | only the status of an existing run changes |
| RegistryStore.Store.AddRunEvent | services/capability_registry/store.py:239-246 | one row per topic and offset, the first one kept |
| RegistryStore.Store.AddValidation | services/capability_registry/store.py:179-197 | a success resets the failure count and stamps the row, a hard failure adds one, an unknown version changes nothing |
| CompileRace.NextKeepsInv | services/capability_registry/compiler.py:124-164 | every read, insert, death and validation keeps each stored label a comparison with the stored predecessor |
| CompileRace.VersionsAreLinear | services/capability_registry/compiler.py:124-164 | however compiles interleave, the stored versions of a capability are exactly 1 .. n |
| CompileRace.NeverOverwritten | services/capability_registry/store.py:125-140 | no continuation removes or replaces a stored artifact |
| CompileRace.StoredHistoryComposes | services/capability_registry/compiler.py:124-137 | the first stored label is BACKWARD, each later one compares a version with its stored predecessor, and labels compose over the whole stored history |
| CompileRace.StoredLabelExactly | services/capability_registry/compiler.py:124-137 | however compiles interleave, a stored version is BREAKING exactly when something its stored predecessor declares is missing from it, and BACKWARD exactly when the two declare the same; the first is BACKWARD |
| Projection.RunEventsExact | services/capability_registry/projector.py:55-81 | for every crash schedule run_events holds exactly one row, with the event's content, for each run-carrying event below the committed offset, and beyond it at most the one in flight |
| Projection.EventRowByName | services/capability_registry/projector.py:68 | the rows stand under the names of the three topics and carry the run, type and moment of the event at their offset |
| Projection.RunsComeFromFirstEvent | services/capability_registry/projector.py:58-67 | a run has a row exactly when an event naming it has begun to be projected, and the row is that of the first such event |
| Projection.RunRowByName | services/capability_registry/projector.py:58-67 | a run's row has the kind of the topic its first event came on, discovery, replay or escalation, and that event's capability, tenant, correlation id and moment |
| Projection.StatusIsLastTerminal | services/capability_registry/projector.py:69-70 | for every crash schedule a run's status is the one its last terminal event projected on some topic leaves, IN_PROGRESS only while there is none on any; where one topic carries all its terminal events, it is that topic (by the names of the events: StatusByLastEnd) |
| Projection.StatusByLastEnd | services/capability_registry/projector.py:22-25 | where one topic carries the events that end a run, it is SUCCEEDED after RunSucceeded or ReplaySucceeded, FAILED after RunFailed and HARD_FAILURE after ReplayHardFailure, the last of them whose status has been written deciding, for every crash schedule |
| Projection.NoEndInProgress | services/capability_registry/projector.py:69-70 | no other event type changes a status: without one of those four the run is IN_PROGRESS |
| ConfidenceTracking.ConfidenceIsOneSided | services/capability_registry/projector.py:71-80 | the stored failure count lies between the true trailing count since the version was stored and that count plus the crashes since its last success; FRESH means a success since then, and fewer than two failures at the end of the whole projected history |
| ConfidenceTracking.ConfidenceIsExactWithoutCrashes | services/capability_registry/store.py:179-197 | without crashes the count is the true one and FRESH holds exactly after a success with fewer than two failures since |
| ConfidenceTracking.EffectByName | services/capability_registry/projector.py:71-80 | the successes and failures these counts speak of are exactly the ReplaySucceeded and ReplayHardFailure events that name the capability and version and a run |
| ReplayEvents.OnlyOutcomesCount | services/replay_runtime/server.py:118-178 | of the events the server emits exactly the outcomes of executed runs of a named capability and version carry the key of a counter, that of the version that ran |
| ReplayEvents.CountedAtMostOnce | services/replay_runtime/server.py:120-178 | in every interleaving a run's outcome is reported at most once, and only of a run that was launched and never turned away |
| ReplayEvents.RejectionMovesNoCounter | services/replay_runtime/server.py:122-130 | projecting any event of a run the breaker turned away, at any stage, moves no confidence counter |
| ReplayEvents.EventsByName | services/replay_runtime/server.py:118-176 | what each event is called, which run and correlation it names, and which of them end a run in which status |
| ReplayEvents.StatusMatchesRow | services/replay_runtime/server.py:126-181 | in every interleaving, once a request is answered every event that ends its run leaves the projected run in the status the server's own row has: HARD_FAILURE for a hard failure or a refusal, SUCCEEDED for a business outcome |
| ProjectorLoop.ProjectorService.ProjectEvent | services/capability_registry/projector.py:57-80 | one event's four writes in order, then its commit (what they leave in each table, by literal event types: WritesMean) |
| ProjectorLoop.ProjectorService.ProjectOnce | services/capability_registry/projector.py:55-81 | the loop leaves tables and offsets where one fetch of at most 200 events and one round per fetched event lead, and returns how many there were; each run ends in the status its last ending event in the batch leaves, and keeps its status when there is none |
| ProjectorLoop.WritesMean | services/capability_registry/projector.py:57-80 | the same four writes as a function: each table afterwards, by literal event types, with everything else untouched |
| ProjectorLoop.RoundsAreRuns | services/capability_registry/projector.py:55-81 | n rounds without a crash are five steps each of the crashing machine, so its theorems cover the loop |
| Discovery.MatchInputBindings | services/discovery_plane/loop.py:58-72 | a string parameter is bound to the last input whose non-empty value occurs in it; nothing else is bound |
| Decisions.BoundExactly | services/discovery_plane/loop.py:65-72 | a parameter is bound exactly when it is text and some non-empty input occurs in it, and then to the last such input |
| Decisions.DecisionSays | services/discovery_plane/loop.py:107-121 | the decision repeats the planner's action and is RISKY exactly for a click, fill or select on a risky target |
| Decisions.ActsOnFirst | services/discovery_plane/actor.py:43-58 | a click, fill, select or extract acts once, on the first candidate that has an element, reports that candidate, and succeeds exactly when the page does it; only an extract reads a text |
| Decisions.FailsWithoutElement | services/discovery_plane/actor.py:44-46 | when no candidate has an element it fails without acting |
| Decisions.NavigatesOrAsserts | services/discovery_plane/actor.py:39-63 | a navigation opens its url; an assertion succeeds exactly when the page confirms it; finish and unknown types fail |
| Decisions.ReadsAreKept | services/discovery_plane/loop.py:169-171 | a text is kept under the planner's name for it, or under step_i_output, and no other output changes |
| Discovery.OneTurn | services/discovery_plane/loop.py:100-174 | a turn goes on exactly after a move, and then tells observation, decision, successful execution and step success; it succeeds only by finishing without an error output and then reports those outputs; it fails blocked, finished with an error, or with a failed execution; an exception tells nothing past the decision and leaves the outputs alone (when it is blocked: DiscoveryGate.AllowlistIsKept) |
| Discovery.ExploreLoop | services/discovery_plane/loop.py:108-174 | the loop over step indices is the sequence of turns up to the first that does not go on, or fourteen of them |
| Discovery.ExecuteRun | services/discovery_plane/loop.py:74-184 | the whole run: entry navigation, turns, and RunFailed exactly when it neither succeeded nor raised (its events: DiscoveryEnds.RunEnds, DiscoveryGate.AllowlistIsKept) |
| DiscoveryGate.AllowlistIsKept | services/discovery_plane/loop.py:123-153 | in the events of any run, turn j is blocked exactly when it came to ask the allowlist and the host it read then, with the asserting type for extract and finish and the action's own type otherwise, is not allowed; its action is carried out, and a success reported, exactly where it is allowed |
| DiscoveryGate.RefusalEndsTheRun | services/discovery_plane/loop.py:127-133 | a refused run ends there as a failure and does not touch the page again |
| DiscoveryEnds.ObservationSays | services/discovery_plane/loop.py:100-104 | a turn first tells the page's text and url as it read them, and nothing at all when it could not |
| DiscoveryEnds.RunEnds | services/discovery_plane/loop.py:84-182 | a run first decides to open the entry page, its url bound to entry_url; it makes at most fourteen planned moves and then fails; RunFailed is told exactly by a failed run and RunSucceeded exactly by one that succeeded, in both cases last; one that cannot open the entry page tells nothing else |
| DiscoveryTrace.DiscoverTells | services/discovery_plane/loop.py:87-182 | the stream of a successful run says exactly its moves, one decision and one execution each, a last decision to finish and one success; no other stream reports success |
| DiscoveryTrace.DiscoverChains | services/discovery_plane/actor.py:37-68 | on a page whose reads change nothing each move is a successful action on the page its predecessor left, and the last leaves the final page |
| Compiler.LocatorRoundTrip | services/capability_registry/compiler.py:27-36 | rendering a strategy for replay and compiling it again gives the same strategy; the candidate itself comes back exactly when it has a known prefix |
| Compiler.FoldEvents | services/capability_registry/compiler.py:53-65 | the tables of decided and executed steps and the success after reading the events in order |
| Compiler.CompileDraft | services/capability_registry/compiler.py:48-151 | no success in the trace is an error, a step the schema refuses is an error, and otherwise the draft lists steps, checkpoints, outputs and inputs in index order (each of them by its decision: CompiledSteps.CompiledStepsExactly) |
| Compiler.CompiledOnce | services/capability_registry/compiler.py:75-121 | the tables determine the draft, down to the order of steps and input names |
| Compiler.CompileCapability | services/capability_registry/compiler.py:48-166 | with nobody else compiling, the first 10,000 events decide, and a draft is stored under the next version, labelled against the latest (the stored artifact field by field: CompiledSteps.RegisteredSays) |
| CompiledSteps.CompiledStepsExactly | services/capability_registry/compiler.py:75-155 | one step per decision that is not to finish, in index order, with its type, risk and bindings; its chain is the locator that resolved, if one did, followed by every other recorded candidate once, in the order recorded; checkpoints, outputs and inputs by their decisions; preapproval exactly when some step is RISKY, and their number |
| CompiledSteps.FallbackResolves | services/capability_registry/compiler.py:104-115 | on a page whose reads change nothing, if any recorded candidate with a known prefix has an element at replay, the compiled step finds one |
| CompiledSteps.RegisteredSays | services/capability_registry/compiler.py:124-164 | the stored artifact is the base scope's next version of the capability, from this run, with this draft, BREAKING exactly when something its predecessor declares is missing |
| CompilerOrder.FoldKnows | services/capability_registry/compiler.py:53-65 | every table entry comes from an event of the run, and every such event left an entry |
| CompilerOrder.OrderFreeExactly | services/capability_registry/compiler.py:53-65 | the tables are independent of order, repetition and other runs' events exactly when no two events of the run contradict each other |
| CompilerOrder.DraftIgnoresOrder | services/capability_registry/compiler.py:48-151 | rearranged events compile to the same draft |
| CompilerOrder.FetchLimitExactly | services/capability_registry/compiler.py:50-51 | the compiler sees all of a run exactly when each of its steps and its success are reported among the first 10,000 events of the topic |
| Delivery.DeliveredTables | services/discovery_plane/loop.py:53-56 | whatever order the redacted events of a successful run arrive in, the tables hold exactly its moves, redacted |
| Delivery.DeliveryOrderIsHarmless | services/capability_registry/compiler.py:53-121 | the events of any discovery run compile to one result, however they are ordered, repeated and mixed with those of other runs |
| Redaction.TextsAreRedacted | shared/safety.py:73-88 | the texts of a redacted event are exactly the redacted texts of the event |
| Redaction.SparedExactly | shared/safety.py:73-88 | redaction leaves an event as it is exactly when it spares each of its texts, so names, numbers and structure never change |
| Redaction.OnceIsEnough | shared/safety.py:73-88 | where no replacement text is itself redacted, a second redaction changes nothing |
| Publication.EmitsIsEmitted | shared/outbox.py:47-55 | in every run of the outbox in which each event of a discovery run is enqueued redacted once, and nothing else under its id, the table says exactly these events of the run |
| Publication.PublishedIsDelivered | shared/outbox.py:83-105 | whatever the dispatchers, the network, crashes and other producers do, once a run's rows are published its topic holds the run's redacted events and nothing else under its id |
| Publication.FetchedExactly | services/capability_registry/compiler.py:50-65 | the compiler's page gives the tables of the whole topic exactly when each step and the success of the run are reported on it |
| Overlay.Resolve | services/capability_registry/overlay.py:10-23 | the copy has the tenant's scope; a step the overlay names has exactly the overlay's chain and every other its own; an overridden key has the overlay's input name and every other its own; all else is the base's |
| WellFormed.IdsAreDistinct | services/capability_registry/compiler.py:82 | step ids in index order are distinct |
| WellFormed.CompiledIsWellFormed | services/capability_registry/compiler.py:75-121 | step ids follow the indices, assert steps match checkpoints and extract steps match outputs one to one in order, bindings name exactly the declared inputs |
| WellFormed.OverlayKeepsMatched | services/capability_registry/overlay.py:17-21 | ids, order and both matchings survive every overlay |
| WellFormed.OverlayKeepsInputsExactly | services/capability_registry/overlay.py:20-21 | bindings still name declared inputs only exactly when the overrides that reach a step do |
| WellFormed.ReplayIsSpared | services/replay_runtime/executor.py:136-155 | no replay of a compiled draft, under any overlay, on any page, ends for want of a checkpoint or at an unsupported action |
| Browser.ResolveSteady | services/replay_runtime/executor.py:68-77 | on a page whose reads change nothing, resolving moves nothing and yields a candidate that has an element |
| Browser.ResolveFindsFirst | services/replay_runtime/executor.py:68-77 | on any page, resolving asks the candidates in turn and takes the first that has an element, none exactly when none has |
| Executor.TryStep | services/replay_runtime/executor.py:178-224 | the attempts at one step: their log entries, their retries and the signal that ends them |
| Executor.RunSteps | services/replay_runtime/executor.py:171-226 | the loop over the steps returns the result of walking them until one does not succeed |
| Executor.Run | services/replay_runtime/executor.py:171-226 | the result of replaying the artifact on the page (when it is a business outcome: Outcomes.ShownTextIsTheAnswer and NothingShownNoSuchAnswer) |
| Outcomes.LastCheckpoint | services/replay_runtime/executor.py:172 | the checkpoint of a step is the last one listed for it |
| Outcomes.LastOutputName | services/replay_runtime/executor.py:173 | a text read at a step is reported under the last output name listed for it |
| Outcomes.ActsOnFirstFound | services/replay_runtime/executor.py:112-134 | an attempt at a click, fill, select or extract acts once, with the bound input, on the first candidate of the chain that has an element; it succeeds exactly when the page does it, and is tried again otherwise |
| Outcomes.NavigatesToInput | services/replay_runtime/executor.py:99-110 | a navigation opens the bound input, succeeds exactly when the page gets there and is tried again otherwise |
| Outcomes.OtherAssertion | services/replay_runtime/executor.py:136-143 | an assertion succeeds exactly when the page confirms it, and ends the run hard when the page cannot be asked |
| Outcomes.BusinessExactly | services/replay_runtime/executor.py:87-95 | an attempt is answered by a text exactly when no candidate had an element, or the page denied the assertion, and the body as read then says Member Not Found, or Permission Denied and not the former |
| Outcomes.ShownTextIsTheAnswer | services/replay_runtime/executor.py:201-204 | when some attempt of a replay is shown such a text, the replay ends there as a BUSINESS_OUTCOME with no failed step and that text as its business_outcome, and tries nothing more |
| Outcomes.NothingShownNoSuchAnswer | services/replay_runtime/executor.py:184-226 | when no attempt is shown one, the replay ends in a hard failure or in the success of every step |
| Accounting.ReplayAccounting | services/replay_runtime/executor.py:171-226 | for every page behaviour: at most 3 n attempts with one log entry each, in blocks of at most two retries and one final entry, retry_count the recoverable errors and at most 2 n + 1, and never RECOVERABLE |
| Accounting.OutcomeIsJustified | services/replay_runtime/executor.py:184-226 | a hard failure names the step where the walk stopped and why; any other end is a marker read off the page or the success of every step |
| Accounting.LastEntryTells | services/replay_runtime/executor.py:183-217 | the last entry of the step log is of the kind of the end: success, business outcome or hard failure |
| Accounting.UnboundNavigateFailsAtOnce | services/replay_runtime/executor.py:99-100 | a navigation without its binding fails hard at its first attempt |
| Accounting.UnboundFillIsRetried | services/replay_runtime/executor.py:123-133 | a fill or select without its binding is tried three times before it fails |
| Simulation.LocatorRepeats | services/capability_registry/compiler.py:105-110 | the locator that resolved in the run, put first, resolves again at once under its own name |
| Simulation.StepRepeats | services/replay_runtime/executor.py:98-155 | one attempt at a compiled step with its input present does to the page what the recorded action did |
| Simulation.WalkRepeats | services/replay_runtime/executor.py:171-226 | the replay takes the recorded moves one after another, up to the first step whose input is missing |
| Simulation.CompilesExactly | services/capability_registry/compiler.py:100-119 | the trace of a successful run passes the schema exactly when its output names are strings |
| Simulation.ReplayRepeatsDiscovery | services/replay_runtime/executor.py:171-226 | a compiled successful run, replayed with inputs that give back its literals, visits the same pages, succeeds at every step at once and reports the texts it read; with an input missing it fails at the first step that needs it |
| Publication.PublishedRunIsRepeated | services/capability_registry/compiler.py:48-166 | a successful run whose rows were published through any crashes, and whose story lies on the page the compiler fetches, compiles exactly when its output names are strings, and the replay of the capability then repeats it as above |
| ReplayInputs.NamesAgreeExactly | services/capability_registry/compiler.py:101 | run and replay report a text under the same name exactly when the planner named it and redaction spares the name |
| ReplayInputs.ReadingsAreCollected | services/discovery_plane/loop.py:169-171 | with such names the replay's outputs are those the run's loop had collected |
| ReplayInputs.OwnInputsExactly | services/discovery_plane/loop.py:65-72 | replayed with its own inputs, a step gets its literal back exactly when the bound input is all of it |
| ReplayInputs.OwnInputsBind | services/discovery_plane/loop.py:65-72 | a step is bound exactly when some non-empty input occurs in its string literal |
| ReplayGate.EveryLaunchWasLetThrough | services/replay_runtime/server.py:120-136 | behind every browser session lies a moment in its target's breaker history at which its run was admitted: short streak, or cooldown over |
| ReplayTheorems.NextKeepsInv | services/replay_runtime/server.py:107-220 | every step of every thread, and the death of any thread, keeps the invariants on rows, keys, sessions and reported actions |
| ReplayTheorems.OneLaunchPerKey | services/replay_runtime/server.py:107-136 | for every interleaving, no two browser sessions belong to rows with the same idempotency key |
| ReplayTheorems.AckNamesTheRow | services/replay_runtime/server.py:108-110 | every acknowledgement, deduplicated or not, names the one row stored for its key |
| ReplayTheorems.OneKeylessRequest | services/replay_runtime/store.py:17 | once a request without a key is stored, every other one ends in an error and changes nothing |
| ReplayTheorems.RefusedLaunchesNothing | services/replay_runtime/server.py:122-130 | a run the breaker turned away never has a session |
| ReplayTheorems.SessionsAreConserved | services/replay_runtime/server.py:135-143 | every session launched is in exactly one place: closed, live under one run, held by one thread, or lost with a thread that died |
| ReplayTheorems.SessionsCloseOnce | services/replay_runtime/server.py:216-220 | no session closes twice |
| ReplayTheorems.LiveMeansFailedHard | services/replay_runtime/server.py:139-141 | a live session belongs to the run it was launched for, which ran on it and failed hard |
| ReplayRows.RowTellsTheRun | services/replay_runtime/store.py:62-69 | in every interleaving, a run that went through the page has one result; its row is pending until its request is answered, and then has the outcome, outputs, retry count and failed step of that result, with a dead letter exactly after a hard failure |
| ReplayRows.RowWithoutARun | services/replay_runtime/server.py:122-130 | a row of a run that never ran is pending, or a hard failure with empty outputs once it was refused or answered |
| ReplayRows.EndMatchesRow | services/replay_runtime/server.py:150-181 | once a request is answered its row is a hard failure exactly when ReplayHardFailure was told of the run, and a business outcome exactly when ReplaySucceeded was |
| ReplayRows.HandledRow | services/replay_runtime/server.py:112-182 | what one submission leaves in the table: a new row with the request's own fields that tells what the page gave, or the refusal; after an exception at most one new row, and that pending |
| ReplayFetches.HumanActedIsReal | services/escalation_saga/server.py:63-73 | every HumanActed reports an action of its own on the session its run was launched with, found in the live map before any release took that session out and performed before it closed |
| ReplayReleases.ActedAfterReleaseExactly | services/replay_runtime/server.py:197-220 | in every reachable state, when a release takes a session out of the map some continuation still acts on that session if and only if a thread that has found it has not acted yet |
| ReplayReleases.ActionAfterRelease | services/replay_runtime/server.py:197-220 | such a run, step by step: a run that fails hard, a person's action that has found its session, a release that pops it, and the action performed and reported after that |
| ReplayAlone.HandledReached | services/replay_runtime/server.py:112-182 | handling a request from create_pending on is what its thread does when no other moves |
| ReplayAlone.ReleasedReached | services/replay_runtime/server.py:216-220 | so is releasing a live session |
| ReplayAlone.ActedReached | services/replay_runtime/server.py:197-214 | so is acting on one |
| ReplayAlone.ClaimedReached | services/escalation_saga/server.py:54-61 | so is claiming a saga |
| ReplayAlone.RecalledReached | services/escalation_saga/server.py:63-73 | so is recording a human action |
| ReplayAlone.FreedReached | services/escalation_saga/server.py:75-85 | so is returning control |
| ReplayAlone.AloneIsARun | services/replay_runtime/server.py:107-220 | and it is a run of the machine, which its theorems cover |
| ReplaySequence.EveryEndIsHandled | services/replay_runtime/server.py:112-182 | however many steps an undisturbed submission takes, when it is over the server is where handling the request as a function leaves it |
| ReplaySequence.SequenceIsARun | services/replay_runtime/server.py:107-220 | after every call of any sequence of submissions, actions, releases and saga requests the server is where some run of the machine leaves it, nobody still working and no session lost |
| ReplaySequence.ServedOnceAndAccounted | services/replay_runtime/server.py:107-143 | over any sequence of calls at most one session is launched per idempotency key, and between two calls each session is either closed or live |
| ReplaySequence.ServedStreakSpacing | services/replay_runtime/circuit_breaker.py:56-93 | in any sequence of calls, under a clock that does not step back, the k-th failure of a target since its last success comes at least (k - 3) cooldowns after the third |
| ReplayService.ReplayStore.FindByIdempotencyKey | services/replay_runtime/store.py:44-51 | a row with the key, or none exactly when there is none |
| ReplayService.ReplayStore.CreatePending | services/replay_runtime/store.py:53-60 | one pending row under a free key and id; otherwise an error and no change |
| ReplayService.ReplayStore.Complete | services/replay_runtime/store.py:62-69 | the row's outcome, outputs, retry count and failed step become those of the result and its dead letter the one given; its other fields and every other row stay |
| ReplayService.SagaStore.Create | services/escalation_saga/store.py:49-56 | one saga awaiting intervention |
| ReplayService.SagaStore.SetStatus | services/escalation_saga/store.py:58-77 | the status of that saga only, from whatever it was |
| ReplayService.ReplayRuntimeServicer.SubmitReplay | services/replay_runtime/server.py:107-182 | a known key is acknowledged with its row and nothing else happens; any other request is handled, or an exception leaves it, exactly as the machine's thread would; a new acknowledged run's row carries field by field the request, and the result the page gave or the refusal, and no other row changes |
| ReplayService.ReplayRuntimeServicer.Admit | services/replay_runtime/server.py:118-130 | the run passes exactly with fewer than three failures since its target's last success, the cooldown over, or an earlier call having seen it over, and then no row changes; otherwise its row is finished as a hard failure; the request is told first, and a refusal is told and acknowledged, and nothing else |
| ReplayService.ReplayRuntimeServicer.Execute | services/replay_runtime/server.py:132-143 | a result means one more session, launched for this run, live and open exactly after a hard failure and otherwise closed and under no run; no other run's session is touched, nothing else is told, and without a result nothing happens |
| ReplayService.ReplayRuntimeServicer.LogSteps | services/replay_runtime/server.py:145-148 | one ReplayStepExecuted for each entry of the step log, in order |
| ReplayService.ReplayRuntimeServicer.Report | services/replay_runtime/server.py:151-178 | the target's failure streak ends with a business outcome and grows by this moment otherwise; a hard failure that is reported to the end leaves a dead letter and a saga that awaits a person, any other run neither |
| ReplayService.ReplayRuntimeServicer.Escalate | services/replay_runtime/server.py:154-169 | success leaves a saga that awaits a person for this run, failure no new saga; told are exactly the failure event, if there is a dead letter, and the intervention, if the saga could be made; no saga is lost |
| ReplayService.ReplayRuntimeServicer.ActOnLiveSession | services/replay_runtime/server.py:197-214 | an action is performed exactly when the run has a live session and the page lets it |
| ReplayService.ReplayRuntimeServicer.ReleaseLiveSession | services/replay_runtime/server.py:216-220 | afterwards the run has no live session and the one it had is closed |
| ReplayService.EscalationSagaServicer.ClaimSession | services/escalation_saga/server.py:54-61 | a known saga is HUMAN_CONTROLLED and announced, its run and every other saga untouched; an unknown one is not found and nothing changes |
| ReplayService.EscalationSagaServicer.RecordHumanAction | services/escalation_saga/server.py:63-73 | the action is on record for every known saga; it succeeds exactly when the saga's run has a live session and the page obliges, and is then reported right after being performed on that session, still open; otherwise nothing is performed or reported |
| ReplayService.EscalationSagaServicer.ReleaseControl | services/escalation_saga/server.py:75-85 | the live session is released before the saga's status, RESUMED when the agent is to resume and TERMINATED otherwise, and its event |

## Left out

- The planner and its prompt: any function from step index to action, or to an exception.
- Playwright, real timeouts, backoff and jitter, screenshots: a call on the page succeeds, times out, fails or raises.
- SQLite, WAL, JSON and protobuf encodings: tables are maps and sequences; a payload that does not decode is kept only for the event log's append.
- The regular expressions and keyword table of shared/safety.py: any function on strings, applied once to every string of an event at enqueue.
- Planned parameters that are lists or dictionaries: a parameter is text, or a number, boolean or null.
- A death of the event log's own process between the counter and the insert: the uncommitted counter is then undone by SQLite.
- Replay inputs that are not strings, and the texts of details, dead letters and page summaries.
- The projector's topics are modelled without gaps, an event's position being its offset; the event log's own gaps are treated in `EventLog`.
- The registry's servers, overlays in its tables, listing and history queries, the REST, GraphQL and SSE gateway, clients, stubs, the command line, the dashboard and the sample bank.
- The saga's status as a protocol: the code has no guards, so only its requests' effects on live sessions are stated.
- The process of the replay server dying as a whole: threads die one by one, and the machine then keeps what they held as lost.
