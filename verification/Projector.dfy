// services/capability_registry/projector.py: the consumer that keeps the read model in sync.
//
// One event is projected by up to four committed writes and an offset commit. The process may die
// between any two of them; it then starts over from the committed offset. Payload fields the projector
// does not read are left out.
module Projector {
  import opened Prelude
  import opened Schemas
  import opened RegistryStore

  datatype Topic = DiscoveryTopic | ReplayTopic | EscalationTopic

  datatype Payload = Payload(runId: Option<string>, capabilityId: Option<string>, tenantId: Option<string>, version: Option<int>)

  datatype Event = Event(eventType: string, correlationId: string, occurredAtMs: int, payload: Payload)

  function TopicName(t: Topic): (s: string) {
    match t
    case DiscoveryTopic => "discovery.events"
    case ReplayTopic => "replay.events"
    case EscalationTopic => "escalation.events"
  }

  function KindOf(t: Topic): (s: string) {
    match t
    case DiscoveryTopic => "discovery"
    case ReplayTopic => "replay"
    case EscalationTopic => "escalation"
  }

  function TerminalStatus(eventType: string): (s: Option<string>) {
    if eventType == "RunSucceeded" then Some("SUCCEEDED")
    else if eventType == "RunFailed" then Some("FAILED")
    else if eventType == "ReplaySucceeded" then Some("SUCCEEDED")
    else if eventType == "ReplayHardFailure" then Some("HARD_FAILURE")
    else None
  }

  function ValidationOutcome(eventType: string): (o: Option<Outcome>) {
    if eventType == "ReplaySucceeded" then Some(BUSINESS_OUTCOME)
    else if eventType == "ReplayHardFailure" then Some(HARD_FAILURE)
    else None
  }

  // if run_id:
  predicate Carrying(e: Event) {
    e.payload.runId.Some? && e.payload.runId.value != ""
  }

  // if capability_id and version:
  function ValidationKey(e: Event): (k: Option<CapKey>) {
    if Carrying(e) && ValidationOutcome(e.eventType).Some?
       && e.payload.capabilityId.Some? && e.payload.capabilityId.value != ""
       && e.payload.version.Some? && e.payload.version.value != 0
    then Some(CapKey(e.payload.capabilityId.value, e.payload.version.value, BASE_SCOPE))
    else None
  }

  // ----- the event types, by name -----

  // The events that end a run, and the status each leaves behind.
  predicate IsEnd(e: Event, r: string) {
    && r != "" && e.payload.runId == Some(r)
    && (e.eventType == "RunSucceeded" || e.eventType == "RunFailed" || e.eventType == "ReplaySucceeded" || e.eventType == "ReplayHardFailure")
  }

  predicate LeavesStatus(eventType: string, status: string) {
    && (eventType == "RunSucceeded" || eventType == "ReplaySucceeded" ==> status == "SUCCEEDED")
    && (eventType == "RunFailed" ==> status == "FAILED")
    && (eventType == "ReplayHardFailure" ==> status == "HARD_FAILURE")
  }

  lemma EndsTold(e: Event, r: string)
    requires Carrying(e) && r == e.payload.runId.value
    ensures TerminalStatus(e.eventType).Some? <==> IsEnd(e, r)
    ensures IsEnd(e, r) ==> LeavesStatus(e.eventType, TerminalStatus(e.eventType).value)
  {
  }

  // Which counter an event moves, and which way.
  lemma KeyTold(e: Event)
    requires Carrying(e)
    ensures var told, c, v := ValidationKey(e), e.payload.capabilityId, e.payload.version;
            && (told.Some? <==> (e.eventType == "ReplaySucceeded" || e.eventType == "ReplayHardFailure")
                                && c.Some? && c != Some("") && v.Some? && v != Some(0))
            && (told.Some? ==> told.value == CapKey(c.value, v.value, "*")
                               && (ValidationOutcome(e.eventType) == Some(BUSINESS_OUTCOME) <==> e.eventType == "ReplaySucceeded"))
  {
  }

  function RunRowOf(t: Topic, e: Event): (r: RunRow) {
    RunRow(KindOf(t), e.payload.capabilityId, e.payload.tenantId, e.correlationId, "IN_PROGRESS", e.occurredAtMs)
  }

  function EventRowOf(e: Event): (r: RunEventRow)
    requires Carrying(e)
  {
    RunEventRow(e.payload.runId.value, e.eventType, e.occurredAtMs)
  }

  // The committed writes for one event, in order; an event that carries no run id has none.
  const WRITES := 4

  function Write(db: Db, t: Topic, offset: nat, e: Event, stage: nat, now: int): (r: Db)
    requires stage < WRITES
  {
    if !Carrying(e) then db
    else if stage == 0 then UpsertRun(db, e.payload.runId.value, RunRowOf(t, e))
    else if stage == 1 then AppendRunEvent(db, TopicName(t), offset, EventRowOf(e))
    else if stage == 2 then
      if TerminalStatus(e.eventType).Some? then SetRunStatus(db, e.payload.runId.value, TerminalStatus(e.eventType).value) else db
    else if ValidationKey(e).Some? then
      RecordValidation(db, ValidationKey(e).value, ValidationOutcome(e.eventType).value, now)
    else db
  }

  // ----- the machine -----

  datatype PerTopic<T> = PerTopic(discovery: T, replay: T, escalation: T) {
    function At(t: Topic): (x: T) {
      match t
      case DiscoveryTopic => discovery
      case ReplayTopic => replay
      case EscalationTopic => escalation
    }

    function With(t: Topic, x: T): (p: PerTopic<T>)
      ensures p.At(t) == x && forall u: Topic :: u != t ==> p.At(u) == At(u)
    {
      match t
      case DiscoveryTopic => this.(discovery := x)
      case ReplayTopic => this.(replay := x)
      case EscalationTopic => this.(escalation := x)
    }
  }

  datatype Work =
    | Idle
    | Working(topic: Topic, batch: seq<Event>, base: nat, at: nat, stage: nat)

  datatype Begun = Begun(topic: Topic, offset: nat, event: Event)

  datatype State = State(
    log: PerTopic<seq<Event>>,   // gapless topics: index is offset
    db: Db,
    next: PerTopic<nat>,         // committed offset + 1
    work: Work,
    // history, read by no step:
    reached: PerTopic<nat>,      // writes of the event at next that have ever been made
    order: seq<Begun>,           // run-carrying events in the order their projection first began
    inserted: map<CapKey, nat>,  // validation position at which a capability row appeared
    crashes: seq<nat>)           // validation position at each crash

  const FETCH := 200

  // Each service puts only its own event types on its own topic.
  function EmittedOn(t: Topic): (types: set<string>) {
    match t
    case DiscoveryTopic =>
      {"ObservationCaptured", "ActionDecided", "ActionExecuted", "ActionBlocked", "StepSucceeded", "StepFailed", "RunSucceeded", "RunFailed"}
    case ReplayTopic => {"ReplayRequested", "ReplayStepExecuted", "ReplaySucceeded", "ReplayHardFailure"}
    case EscalationTopic => {"InterventionRequested", "ControlClaimed", "HumanActed", "ControlReturned"}
  }

  datatype Action =
    | LogAppend(t: Topic, e: Event)
    | Fetch(t: Topic)
    | Proceed(now: int)          // the next write or commit of the event in hand
    | Crash
    | InsertCapability(key: CapKey, artifact: CapabilityArtifact, now: int)

  // Replay events whose validation write has been made.
  function Position(s: State): (v: nat) {
    s.next.replay + if s.reached.replay == WRITES then 1 else 0
  }

  function FetchBatch(s: State, t: Topic): (w: Work)
    requires s.next.At(t) <= |s.log.At(t)|
  {
    var batch := Take(s.log.At(t)[s.next.At(t)..], FETCH);
    if batch == [] then Idle else Working(t, batch, s.next.At(t), 0, 0)
  }

  function WriteStep(s: State, now: int): (r: State)
    requires s.work.Working? && s.work.at < |s.work.batch| && s.work.stage < WRITES
  {
    var w := s.work;
    var e, offset := w.batch[w.at], w.base + w.at;
    s.(db := Write(s.db, w.topic, offset, e, w.stage, now),
       work := w.(stage := w.stage + 1),
       reached := if s.reached.At(w.topic) < w.stage + 1 then s.reached.With(w.topic, w.stage + 1) else s.reached,
       order := if s.reached.At(w.topic) == 0 && Carrying(e) then s.order + [Begun(w.topic, offset, e)] else s.order)
  }

  function CommitStep(s: State): (r: State)
    requires s.work.Working? && s.work.at < |s.work.batch|
  {
    var w := s.work;
    s.(next := s.next.With(w.topic, w.base + w.at + 1),
       work := if w.at + 1 == |w.batch| then Idle else w.(at := w.at + 1, stage := 0),
       reached := s.reached.With(w.topic, 0))
  }

  function Next(s: State, a: Action): (r: State) {
    match a
    case LogAppend(t, e) => if e.eventType in EmittedOn(t) then s.(log := s.log.With(t, s.log.At(t) + [e])) else s
    case Fetch(t) => if s.work.Idle? && s.next.At(t) <= |s.log.At(t)| then s.(work := FetchBatch(s, t)) else s
    case Proceed(now) =>
      if s.work.Working? && s.work.at < |s.work.batch| then
        if s.work.stage < WRITES then WriteStep(s, now) else CommitStep(s)
      else s
    case Crash => s.(work := Idle, crashes := s.crashes + [Position(s)])
    case InsertCapability(key, artifact, now) =>
      match InsertVersion(s.db, key, artifact, now)
      case Ok(db) => s.(db := db, inserted := s.inserted[key := Position(s)])
      case Err(_) => s
  }

  const START := State(PerTopic([], [], []), Db(map[], map[], map[]), PerTopic(0, 0, 0), Idle,
                       PerTopic(0, 0, 0), [], map[], [])

  function Run(acts: seq<Action>): (s: State) {
    if acts == [] then START else Next(Run(acts[..|acts| - 1]), acts[|acts| - 1])
  }

  function RunFrom(s: State, acts: seq<Action>): (r: State) {
    if acts == [] then s else Next(RunFrom(s, acts[..|acts| - 1]), acts[|acts| - 1])
  }

  // ----- where the projector stands -----

  // The batch in hand is the stretch of the topic that starts at the committed offset.
  ghost predicate WorkOk(s: State) {
    && (forall t: Topic :: s.next.At(t) <= |s.log.At(t)| && s.reached.At(t) <= WRITES)
    && (forall t: Topic :: s.reached.At(t) > 0 ==> s.next.At(t) < |s.log.At(t)|)
    && (forall t: Topic, i :: 0 <= i < |s.log.At(t)| ==> s.log.At(t)[i].eventType in EmittedOn(t))
    && (s.work.Working? ==>
          var w := s.work;
          && w.at < |w.batch| && w.base + |w.batch| <= |s.log.At(w.topic)|
          && w.batch == s.log.At(w.topic)[w.base..w.base + |w.batch|]
          && s.next.At(w.topic) == w.base + w.at && w.stage <= s.reached.At(w.topic))
  }

  lemma InHand(s: State)
    requires WorkOk(s) && s.work.Working?
    ensures s.next.At(s.work.topic) < |s.log.At(s.work.topic)|
    ensures s.work.batch[s.work.at] == s.log.At(s.work.topic)[s.next.At(s.work.topic)]
  {
  }

  lemma AppendKeepsWorkOk(s: State, t: Topic, e: Event)
    requires WorkOk(s) && e.eventType in EmittedOn(t)
    ensures WorkOk(s.(log := s.log.With(t, s.log.At(t) + [e])))
  {
  }

  lemma FetchKeepsWorkOk(s: State, t: Topic)
    requires WorkOk(s)
    ensures WorkOk(s.(work := FetchBatch(s, t)))
  {
  }

  lemma WriteKeepsWorkOk(s: State, now: int)
    requires WorkOk(s) && s.work.Working? && s.work.stage < WRITES
    ensures WorkOk(WriteStep(s, now))
  {
  }

  lemma CommitKeepsWorkOk(s: State)
    requires WorkOk(s) && s.work.Working?
    ensures WorkOk(CommitStep(s))
  {
  }

  lemma NextKeepsWorkOk(s: State, a: Action)
    requires WorkOk(s)
    ensures WorkOk(Next(s, a))
  {
    match a
    case LogAppend(t, e) => if e.eventType in EmittedOn(t) { AppendKeepsWorkOk(s, t, e); }
    case Fetch(t) => if s.work.Idle? { FetchKeepsWorkOk(s, t); }
    case Proceed(now) =>
      if s.work.Working? {
        if s.work.stage < WRITES { WriteKeepsWorkOk(s, now); } else { CommitKeepsWorkOk(s); }
      }
    case Crash =>
    case InsertCapability(key, artifact, now) =>
  }

  lemma {:induction false} RunKeepsWorkOk(acts: seq<Action>)
    ensures WorkOk(Run(acts))
  {
    if acts != [] {
      RunKeepsWorkOk(acts[..|acts| - 1]);
      NextKeepsWorkOk(Run(acts[..|acts| - 1]), acts[|acts| - 1]);
    }
  }
}
