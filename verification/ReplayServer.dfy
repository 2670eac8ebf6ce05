// services/replay_runtime/server.py and services/escalation_saga/server.py as one state machine: any
// number of request threads, each advancing by one committed statement, one in-memory update or one
// remote call at a time, and each able to stop for good between any two (an exception, a lost call).
module ReplayServer {
  import opened Prelude
  import CB = CircuitBreaker
  import Executor

  // ----- the tables -----

  datatype Request = Request(key: string, capabilityId: string, version: int, tenantId: string, correlationId: string)

  datatype RunOutcome = PENDING | Finished(outcome: Executor.ReplayOutcome)

  datatype RunRow = RunRow(
    key: string, capabilityId: string, version: int, tenantId: string, correlationId: string, outcome: RunOutcome,
    outputs: map<string, string>, retryCount: nat, failedStepId: Option<string>, deadLetterEventId: Option<string>)

  datatype SagaStatus = INTERVENTION_REQUESTED | HUMAN_CONTROLLED | RESUMED | TERMINATED

  datatype Saga = Saga(runId: string, status: SagaStatus)

  // The rest of the world decides these, step by step.
  datatype Choice = Choice(id: string, now: int, ok: bool, result: Executor.ReplayResult)

  // UNIQUE(idempotency_key), which also covers the empty key.
  predicate KeyTaken(rows: map<string, RunRow>, key: string) {
    exists r :: r in rows && rows[r].key == key
  }

  function Pending(q: Request): (row: RunRow) {
    RunRow(q.key, q.capabilityId, q.version, q.tenantId, q.correlationId, PENDING, map[], 0, None, None)
  }

  // complete
  function Completed(row: RunRow, r: Executor.ReplayResult, deadLetter: Option<string>): (done: RunRow) {
    row.(outcome := Finished(r.outcome), outputs := r.outputs, retryCount := r.retryCount,
         failedStepId := r.failedStepId, deadLetterEventId := deadLetter)
  }

  // What complete is told for a run the breaker turned away.
  const REFUSAL := Executor.ReplayResult(Executor.HARD_FAILURE, map[], 0, None, None, [])

  function TargetOf(q: Request): (key: string) {
    q.tenantId + ":" + q.capabilityId
  }

  // ----- what happens, in order: events emitted, and effects outside the tables -----

  datatype Fact =
    | Requested(runId: string)
    | Gated(runId: string, past: seq<CB.Event>, now: int)  // the breaker admitted the run
    | Refused(runId: string)
    | Ran(runId: string, session: nat, result: Executor.ReplayResult)
    | StepLogged(runId: string, entry: Executor.StepExecution)
    | Succeeded(runId: string)
    | HardFailed(runId: string)
    | InterventionRequested(sagaId: string, runId: string)
    | Acked(key: string, runId: string, deduplicated: bool)
    | ControlClaimed(sagaId: string)
    | HumanActionRecorded(sagaId: string)
    | Fetched(runId: string, session: nat)                 // an action has found its live session
    | Performed(runId: string, session: nat, fetched: nat) // fetched: the place of its Fetched fact
    | HumanActed(runId: string, performed: nat)            // performed: the place of its Performed fact
    | Popped(runId: string, session: nat)
    | Closed(session: nat)
    | ControlReturned(sagaId: string)

  // ----- the threads -----

  // Where a SubmitReplay that has its row stands.
  datatype Stage =
    | Requesting | Gating | Refusing | RefusalTelling | Resolving | Launching
    | Running(session: nat)
    | Parking(session: nat, result: Executor.ReplayResult)
    | Logging(result: Executor.ReplayResult, at: nat)
    | Recording(result: Executor.ReplayResult)
    | DeadLettering(result: Executor.ReplayResult)
    | Announcing(result: Executor.ReplayResult, deadLetter: Option<string>)
    | Escalating(result: Executor.ReplayResult, deadLetter: Option<string>)
    | Completing(result: Executor.ReplayResult, deadLetter: Option<string>)

  datatype Thread =
    | Looking(q: Request)
    | Creating(q: Request)
    | Owning(q: Request, runId: string, stage: Stage)
    | Claiming(sagaId: string)
    | Recalling(sagaId: string)                               // RecordHumanAction
    | Acting(runId: string, viaSaga: bool)                    // ActOnLiveSession
    | Performing(runId: string, session: nat, fetched: nat, viaSaga: bool)
    | Freeing(sagaId: string)                                 // ReleaseControl
    | Releasing(runId: string, forSaga: Option<string>)        // ReleaseLiveSession
    | Closing(runId: string, session: nat, forSaga: Option<string>)
    | Returning(sagaId: string)
    | Telling(fact: Fact)

  datatype Sys = Sys(
    rows: map<string, RunRow>,
    history: map<string, seq<CB.Event>>,  // the breaker's calls, by target
    live: map<string, nat>,
    sessions: seq<string>,                // the run each session was launched for
    sagas: map<string, Saga>,
    facts: seq<Fact>,
    threads: map<nat, Thread>,
    leaked: set<nat>)                     // sessions whose only holder is gone

  const INIT := Sys(map[], map[], map[], [], map[], [], map[], {})

  datatype Action = Start(t: nat, thread: Thread) | Step(t: nat, c: Choice) | Die(t: nat)

  // The session a thread alone knows about.
  function Held(th: Thread): (x: Option<nat>) {
    match th
    case Owning(_, _, Running(x)) => Some(x)
    case Owning(_, _, Parking(x, _)) => Some(x)
    case Closing(_, x, _) => Some(x)
    case _ => None
  }

  predicate Fresh(th: Thread) {
    || th.Looking? || th.Claiming? || th.Recalling? || th.Freeing?
    || (th.Acting? && !th.viaSaga) || (th.Releasing? && th.forSaga.None?)
  }

  function Goto(s: Sys, t: nat, th: Thread): (r: Sys) {
    s.(threads := s.threads[t := th])
  }

  function Done(s: Sys, t: nat): (r: Sys) {
    s.(threads := s.threads - {t})
  }

  function Tell(s: Sys, f: Fact): (r: Sys) {
    s.(facts := s.facts + [f])
  }

  function Record(s: Sys, target: string, e: CB.Event): (r: Sys) {
    s.(history := s.history[target := CB.Past(s.history, target) + [e]])
  }

  // ----- SubmitReplay -----

  function Look(s: Sys, t: nat, q: Request, c: Choice): (r: Sys) {
    if q.key != "" && KeyTaken(s.rows, q.key) then
      if c.id in s.rows && s.rows[c.id].key == q.key then Tell(Done(s, t), Acked(q.key, c.id, true)) else s
    else Goto(s, t, Creating(q))
  }

  // IntegrityError when the key is taken, whoever took it and when; a run id is always new.
  function Create(s: Sys, t: nat, q: Request, c: Choice): (r: Sys) {
    if KeyTaken(s.rows, q.key) then Done(s, t)
    else if c.id in s.rows then s
    else Goto(s.(rows := s.rows[c.id := Pending(q)]), t, Owning(q, c.id, Requesting))
  }

  function Gate(s: Sys, t: nat, q: Request, run: string, c: Choice): (r: Sys) {
    var past := CB.Past(s.history, TargetOf(q));
    var s' := Record(s, TargetOf(q), CB.Probe(c.now));
    if CB.Admits(CB.After(past), c.now) then Goto(Tell(s', Gated(run, past, c.now)), t, Owning(q, run, Resolving))
    else Goto(s', t, Owning(q, run, Refusing))
  }

  function Finish(s: Sys, run: string, r: Executor.ReplayResult, deadLetter: Option<string>): (s': Sys) {
    if run in s.rows then s.(rows := s.rows[run := Completed(s.rows[run], r, deadLetter)]) else s
  }

  // A hard-failed run keeps its session alive; any other run closes it.
  function Park(s: Sys, t: nat, q: Request, run: string, x: nat, result: Executor.ReplayResult): (r: Sys) {
    var next := Owning(q, run, Logging(result, 0));
    if result.outcome == Executor.HARD_FAILURE then Goto(s.(live := s.live[run := x]), t, next)
    else Goto(Tell(s, Closed(x)), t, next)
  }

  function Account(s: Sys, t: nat, q: Request, run: string, result: Executor.ReplayResult, c: Choice): (r: Sys) {
    match result.outcome
    case HARD_FAILURE => Goto(Record(s, TargetOf(q), CB.Failure(c.now)), t, Owning(q, run, DeadLettering(result)))
    case BUSINESS_OUTCOME => Goto(Record(s, TargetOf(q), CB.Success), t, Owning(q, run, Announcing(result, None)))
    case RECOVERABLE => Goto(Record(s, TargetOf(q), CB.Failure(c.now)), t, Owning(q, run, Completing(result, None)))
  }

  function Submit(s: Sys, t: nat, q: Request, run: string, stage: Stage, c: Choice): (r: Sys) {
    match stage
    case Requesting => Goto(Tell(s, Requested(run)), t, Owning(q, run, Gating))
    case Gating => Gate(s, t, q, run, c)
    case Refusing => Goto(Finish(s, run, REFUSAL, None), t, Owning(q, run, RefusalTelling))
    case RefusalTelling => Tell(Tell(Done(s, t), Refused(run)), Acked(q.key, run, false))
    case Resolving => if c.ok then Goto(s, t, Owning(q, run, Launching)) else Done(s, t)
    case Launching =>
      if c.ok then Goto(s.(sessions := s.sessions + [run]), t, Owning(q, run, Running(|s.sessions|))) else Done(s, t)
    case Running(x) => Goto(Tell(s, Ran(run, x, c.result)), t, Owning(q, run, Parking(x, c.result)))
    case Parking(x, result) => Park(s, t, q, run, x, result)
    case Logging(result, i) =>
      if i < |result.stepLog| then Goto(Tell(s, StepLogged(run, result.stepLog[i])), t, Owning(q, run, Logging(result, i + 1)))
      else Goto(s, t, Owning(q, run, Recording(result)))
    case Recording(result) => Account(s, t, q, run, result, c)
    case DeadLettering(result) => if c.ok then Goto(s, t, Owning(q, run, Announcing(result, Some(c.id)))) else Done(s, t)
    case Announcing(result, deadLetter) =>
      if result.outcome == Executor.HARD_FAILURE then Goto(Tell(s, HardFailed(run)), t, Owning(q, run, Escalating(result, deadLetter)))
      else Goto(Tell(s, Succeeded(run)), t, Owning(q, run, Completing(result, deadLetter)))
    case Escalating(result, deadLetter) =>
      if !c.ok then Done(s, t)
      else if c.id in s.sagas then s
      else
        Goto(Tell(s.(sagas := s.sagas[c.id := Saga(run, INTERVENTION_REQUESTED)]), InterventionRequested(c.id, run)), t,
             Owning(q, run, Completing(result, deadLetter)))
    case Completing(result, deadLetter) => Tell(Done(Finish(s, run, result, deadLetter), t), Acked(q.key, run, false))
  }

  // ----- the saga's requests and the live sessions -----

  function SetStatus(s: Sys, saga: string, status: SagaStatus): (r: Sys) {
    if saga in s.sagas then s.(sagas := s.sagas[saga := s.sagas[saga].(status := status)]) else s
  }

  // An action on a session that is closed raises; one that fails, fails.
  function Perform(s: Sys, t: nat, run: string, x: nat, fetched: nat, viaSaga: bool, c: Choice): (r: Sys) {
    if Closed(x) in s.facts || !c.ok then Done(s, t)
    else if viaSaga then Goto(Tell(s, Performed(run, x, fetched)), t, Telling(HumanActed(run, |s.facts|)))
    else Done(Tell(s, Performed(run, x, fetched)), t)
  }

  // live_sessions.get
  function Find(s: Sys, t: nat, run: string, viaSaga: bool): (r: Sys) {
    if run in s.live then Goto(Tell(s, Fetched(run, s.live[run])), t, Performing(run, s.live[run], |s.facts|, viaSaga))
    else Done(s, t)
  }

  // live_sessions.pop
  function Pop(s: Sys, t: nat, run: string, saga: Option<string>): (r: Sys) {
    if run in s.live then
      Goto(Tell(s.(live := s.live - {run}), Popped(run, s.live[run])), t, Closing(run, s.live[run], saga))
    else Returned(s, t, saga)
  }

  function Returned(s: Sys, t: nat, saga: Option<string>): (r: Sys) {
    if saga.Some? then Goto(s, t, Returning(saga.value)) else Done(s, t)
  }

  function Advance(s: Sys, t: nat, th: Thread, c: Choice): (r: Sys) {
    match th
    case Looking(q) => Look(s, t, q, c)
    case Creating(q) => Create(s, t, q, c)
    case Owning(q, run, stage) => Submit(s, t, q, run, stage, c)
    case Claiming(saga) =>
      if saga in s.sagas then Goto(SetStatus(s, saga, HUMAN_CONTROLLED), t, Telling(ControlClaimed(saga))) else Done(s, t)
    case Recalling(saga) =>
      if saga in s.sagas then Goto(Tell(s, HumanActionRecorded(saga)), t, Acting(s.sagas[saga].runId, true)) else Done(s, t)
    case Acting(run, viaSaga) => Find(s, t, run, viaSaga)
    case Performing(run, x, fetched, viaSaga) => Perform(s, t, run, x, fetched, viaSaga, c)
    case Freeing(saga) => if saga in s.sagas then Goto(s, t, Releasing(s.sagas[saga].runId, Some(saga))) else Done(s, t)
    case Releasing(run, saga) => Pop(s, t, run, saga)
    case Closing(run, x, saga) => Returned(Tell(s, Closed(x)), t, saga)
    case Returning(saga) => Goto(SetStatus(s, saga, if c.ok then RESUMED else TERMINATED), t, Telling(ControlReturned(saga)))
    case Telling(f) => Done(Tell(s, f), t)
  }

  // An action that is not enabled changes nothing.
  function Next(s: Sys, a: Action): (r: Sys) {
    match a
    case Start(t, th) => if t !in s.threads && Fresh(th) then Goto(s, t, th) else s
    case Step(t, c) => if t in s.threads then Advance(s, t, s.threads[t], c) else s
    case Die(t) =>
      if t in s.threads then
        var x := Held(s.threads[t]);
        Done(s.(leaked := if x.Some? then s.leaked + {x.value} else s.leaked), t)
      else s
  }

  function RunFrom(s: Sys, acts: seq<Action>): (r: Sys) {
    if acts == [] then s else Next(RunFrom(s, acts[..|acts| - 1]), acts[|acts| - 1])
  }

  function Run(acts: seq<Action>): (r: Sys) {
    RunFrom(INIT, acts)
  }
}
