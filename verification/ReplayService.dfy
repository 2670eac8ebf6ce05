// services/replay_runtime/store.py and server.py, and services/escalation_saga/store.py and server.py,
// as objects. What one request does to the tables, the
// breaker and the live sessions is the function of ReplayAlone, which is a run of the server's machine.
module ReplayService {
  import opened Prelude
  import opened ReplayServer
  import opened ReplayAlone
  import opened ReplaySequence
  import Rows = ReplayRows
  import CB = CircuitBreaker
  import Executor

  class ReplayStore {
    var rows: map<string, RunRow>

    constructor ()
      ensures rows == map[]
    {
      rows := map[];
    }

    method FindByIdempotencyKey(key: string) returns (found: Option<string>)
      ensures found.Some? ==> found.value in rows && rows[found.value].key == key
      ensures found.None? <==> !KeyTaken(rows, key)
    {
      found := None;
      var left := rows.Keys;
      while left != {}
        invariant left <= rows.Keys && forall r :: r in rows && r !in left ==> rows[r].key != key
        decreases left
      {
        var r :| r in left;
        if rows[r].key == key {
          return Some(r);
        }
        left := left - {r};
      }
    }

    method CreatePending(runId: string, q: Request) returns (ok: bool)
      modifies this
      ensures ok <==> !KeyTaken(old(rows), q.key) && runId !in old(rows)
      ensures rows == if ok then old(rows)[runId := Pending(q)] else old(rows)
      ensures ok ==> Rows.Asked(rows[runId], q) && Rows.Unfinished(rows[runId])
    {
      var taken := FindByIdempotencyKey(q.key);
      ok := taken.None? && runId !in rows;
      if ok {
        rows := rows[runId := Pending(q)];
      }
    }

    method Complete(runId: string, r: Executor.ReplayResult, deadLetter: Option<string>)
      modifies this
      ensures rows == if runId in old(rows) then old(rows)[runId := Completed(old(rows)[runId], r, deadLetter)] else old(rows)
      ensures runId in old(rows) ==>
                && rows[runId].outcome == Finished(r.outcome) && rows[runId].outputs == r.outputs && rows[runId].retryCount == r.retryCount
                && rows[runId].failedStepId == r.failedStepId && rows[runId].deadLetterEventId == deadLetter
                && rows[runId].key == old(rows)[runId].key && rows[runId].tenantId == old(rows)[runId].tenantId
                && rows[runId].capabilityId == old(rows)[runId].capabilityId && rows[runId].version == old(rows)[runId].version
                && rows[runId].correlationId == old(rows)[runId].correlationId
    {
      if runId in rows {
        rows := rows[runId := Completed(rows[runId], r, deadLetter)];
      }
    }
  }

  // Live sessions are different ones, and open.
  ghost predicate LiveAreOpen(live: map<string, nat>, sessions: seq<string>, facts: seq<Fact>) {
    && (forall r :: r in live ==> live[r] < |sessions| && Closed(live[r]) !in facts)
    && (forall r, r' :: r in live && r' in live && live[r] == live[r'] ==> r == r')
    && (forall x: nat :: Closed(x) in facts ==> x < |sessions|)
  }

  class SagaStore {
    var sagas: map<string, Saga>

    constructor ()
      ensures sagas == map[]
    {
      sagas := map[];
    }

    method Create(sagaId: string, runId: string)
      modifies this
      ensures sagas == old(sagas)[sagaId := Saga(runId, INTERVENTION_REQUESTED)]
    {
      sagas := sagas[sagaId := Saga(runId, INTERVENTION_REQUESTED)];
    }

    // UPDATE sagas SET status = ?: claim and release, from whatever status.
    method SetStatus(sagaId: string, status: SagaStatus)
      modifies this
      ensures sagas == if sagaId in old(sagas) then old(sagas)[sagaId := old(sagas)[sagaId].(status := status)] else old(sagas)
    {
      if sagaId in sagas {
        sagas := sagas[sagaId := sagas[sagaId].(status := status)];
      }
    }
  }

  class ReplayRuntimeServicer {
    const store: ReplayStore
    const breaker: CB.Breaker
    const escalation: SagaStore     // behind the escalation client
    var live: map<string, nat>
    var sessions: seq<string>       // one entry for each browser ever started
    ghost var facts: seq<Fact>

    ghost predicate Valid() reads this, store, breaker, escalation {
      breaker.Valid() && LiveAreOpen(live, sessions, facts)
    }

    ghost function View(): (s: Sys) reads this, store, breaker, escalation {
      Sys(store.rows, breaker.history, live, sessions, escalation.sagas, facts, map[], {})
    }

    constructor ()
      ensures Valid() && fresh(store) && fresh(breaker) && fresh(escalation) && View() == INIT
    {
      store := new ReplayStore();
      breaker := new CB.Breaker();
      escalation := new SagaStore();
      live, sessions, facts := map[], [], [];
    }

    // ReplayRequested, then the breaker. Fewer than three failures since the target's last success, or a
    // cooldown that is over or was seen over, let the run pass, whose row then stays as it is; any other
    // run is completed as a hard failure and reported at once.
    method Admit(q: Request, run: string, w: World) returns (admitted: bool)
      requires Valid()
      modifies this`facts, store, breaker
      ensures Valid() && View() == Admitted(old(View()), q, run, w)
      ensures admitted == Passes(old(View()), q, run, w)
      ensures var h, now := CB.Past(old(breaker.history), TargetOf(q)), w(Owning(q, run, Gating)).now;
              admitted <==> |CB.Streak(h)| < CB.FAILURE_THRESHOLD || now >= CB.Last(CB.Streak(h)) + CB.COOLDOWN_MS || CB.CooledOff(h)
      ensures admitted ==> store.rows == old(store.rows)
      ensures !admitted && run in old(store.rows) ==> run in store.rows && store.rows[run].outcome == Finished(Executor.HARD_FAILURE)
      ensures var before, h, now := old(facts), CB.Past(old(breaker.history), TargetOf(q)), w(Owning(q, run, Gating)).now;
              facts == before + [Requested(run)] + if admitted then [Gated(run, h, now)] else [Refused(run), Acked(q.key, run, false)]
    {
      facts := facts + [Requested(run)];
      var now := w(Owning(q, run, Gating)).now;
      ghost var past := CB.Past(breaker.history, TargetOf(q));
      ghost var asked := View();
      CB.AdmitsExactly(past, now);
      var gate := breaker.BeforeRun(TargetOf(q), now);
      admitted := gate.Proceed?;
      assert View() == Record(asked, TargetOf(q), CB.Probe(now));
      if admitted {
        facts := facts + [Gated(run, past, now)];
      } else {
        Refuse(q, run);
      }
    }

    // The branch of a circuit that is open: the row is completed as a hard failure, which is all that happens.
    method Refuse(q: Request, run: string)
      requires Valid()
      modifies this`facts, store
      ensures Valid() && View() == Tell(Tell(Finish(old(View()), run, REFUSAL, None), Refused(run)), Acked(q.key, run, false))
      ensures run in old(store.rows) ==> run in store.rows && store.rows[run].outcome == Finished(Executor.HARD_FAILURE)
    {
      store.Complete(run, REFUSAL, None);
      facts := facts + [Refused(run)];
      facts := facts + [Acked(q.key, run, false)];
    }

    // Resolve, launch, run, and close the session or keep it alive. With a result one session more was
    // launched, for this run; it is live exactly when the run failed hard, and closed otherwise.
    method Execute(q: Request, run: string, w: World) returns (result: Option<Executor.ReplayResult>)
      requires Valid()
      modifies this`facts, this`live, this`sessions
      ensures Valid() && result == ResultOf(old(View()), q, run, w) && View() == Executed(old(View()), q, run, w)
      ensures result.None? ==> View() == old(View())
      ensures result.Some? ==>
                && sessions == old(sessions) + [run]
                && facts == old(facts) + [Ran(run, |old(sessions)|, result.value)] +
                            if result.value.outcome == Executor.HARD_FAILURE then [] else [Closed(|old(sessions)|)]
      ensures result.Some? ==>
                var x := |old(sessions)|;
                if result.value.outcome == Executor.HARD_FAILURE then run in live && live[run] == x && Closed(x) !in facts
                else live == old(live) && Closed(x) in facts && forall r :: r in live ==> live[r] != x
      ensures forall r :: r != run ==> (r in live <==> r in old(live)) && (r in live ==> live[r] == old(live)[r])
    {
      if !w(Owning(q, run, Resolving)).ok || !w(Owning(q, run, Launching)).ok {
        return None;
      }
      var session := |sessions|;
      sessions := sessions + [run];
      var r := w(Owning(q, run, Running(session))).result;
      facts := facts + [Ran(run, session, r)];
      if r.outcome == Executor.HARD_FAILURE {
        live := live[run := session];
      } else {
        facts := facts + [Closed(session)];
      }
      result := Some(r);
    }

    // One ReplayStepExecuted for each entry of the step log.
    method LogSteps(run: string, entries: seq<Executor.StepExecution>)
      requires Valid()
      modifies this`facts
      ensures Valid() && View() == Logged(old(View()), run, entries)
      ensures |facts| == |old(facts)| + |entries| && old(facts) <= facts
      ensures forall i :: 0 <= i < |entries| ==> facts[|old(facts)| + i] == StepLogged(run, entries[i])
    {
      ghost var before := facts;
      for i := 0 to |entries|
        invariant Valid() && facts == before + seq(i, k requires 0 <= k < i => StepLogged(run, entries[k]))
      {
        facts := facts + [StepLogged(run, entries[i])];
      }
    }

    // The breaker and the outcome event; a hard failure is dead-lettered and escalated too. The target's
    // streak of failures ends with a business outcome and grows by one with any other.
    method Report(q: Request, run: string, r: Executor.ReplayResult, w: World) returns (deadLetter: Option<string>, ok: bool)
      requires Valid()
      modifies this`facts, escalation, breaker
      ensures Valid() && ok == Reports(q, run, r, w) && (ok ==> deadLetter == DeadLetterOf(q, run, r, w))
      ensures View() == Reported(old(View()), q, run, r, w)
      ensures CB.Streak(CB.Past(breaker.history, TargetOf(q))) ==
              if r.outcome == Executor.BUSINESS_OUTCOME then []
              else CB.Streak(CB.Past(old(breaker.history), TargetOf(q))) + [w(Owning(q, run, Recording(r))).now]
      ensures r.outcome != Executor.HARD_FAILURE ==> ok && deadLetter.None? && escalation.sagas == old(escalation.sagas)
      ensures ok && r.outcome == Executor.HARD_FAILURE ==> deadLetter.Some? && Awaits(run)
      ensures r.outcome == Executor.BUSINESS_OUTCOME ==> facts == old(facts) + [Succeeded(run)]
      ensures r.outcome == Executor.RECOVERABLE ==> facts == old(facts)
    {
      deadLetter, ok := None, true;
      var now := w(Owning(q, run, Recording(r))).now;
      ghost var h := CB.Past(breaker.history, TargetOf(q));
      CB.OneMore(h, CB.Success);
      CB.OneMore(h, CB.Failure(now));
      match r.outcome {
        case HARD_FAILURE =>
          breaker.RecordFailure(TargetOf(q), now);
          deadLetter, ok := Escalate(q, run, r, w);
        case BUSINESS_OUTCOME =>
          breaker.RecordSuccess(TargetOf(q));
          facts := facts + [Succeeded(run)];
        case RECOVERABLE =>
          breaker.RecordFailure(TargetOf(q), now);
      }
    }

    // Some saga asks a person to step in for this run.
    ghost predicate Awaits(run: string) reads this`facts, escalation {
      exists g :: InterventionRequested(g, run) in facts && g in escalation.sagas && escalation.sagas[g] == Saga(run, INTERVENTION_REQUESTED)
    }

    // Dead letter, failure event, saga, in that order; when one of them fails the rest is not done.
    method Escalate(q: Request, run: string, r: Executor.ReplayResult, w: World) returns (deadLetter: Option<string>, ok: bool)
      requires Valid() && r.outcome == Executor.HARD_FAILURE
      modifies this`facts, escalation
      ensures Valid() && ok == Reports(q, run, r, w) && (ok ==> deadLetter == DeadLetterOf(q, run, r, w))
      ensures View() == Escalated(old(View()), q, run, r, w)
      ensures if ok then deadLetter.Some? && Awaits(run) else escalation.sagas == old(escalation.sagas)
      ensures if deadLetter.None? then facts == old(facts)
              else if !ok then facts == old(facts) + [HardFailed(run)]
              else facts == old(facts) + [HardFailed(run), InterventionRequested(w(Owning(q, run, Escalating(r, deadLetter))).id, run)]
      ensures forall g :: g in old(escalation.sagas) ==> g in escalation.sagas
    {
      var letter := w(Owning(q, run, DeadLettering(r)));
      if !letter.ok {
        return None, false;
      }
      deadLetter := Some(letter.id);
      facts := facts + [HardFailed(run)];
      var saga := w(Owning(q, run, Escalating(r, deadLetter)));
      ok := saga.ok;
      if ok {
        escalation.Create(saga.id, run);
        facts := facts + [InterventionRequested(saga.id, run)];
      }
    }

    // The rest of an admitted run.
    method Carry(q: Request, run: string, w: World) returns (ack: Option<Ack>)
      requires Valid()
      modifies this, store, breaker, escalation
      ensures Valid() && (View(), ack) == Carried(old(View()), q, run, w)
    {
      var result := Execute(q, run, w);
      if result.None? {
        return None;
      }
      LogSteps(run, result.value.stepLog);
      var deadLetter, ok := Report(q, run, result.value, w);
      if !ok {
        return None;
      }
      Acknowledge(q, run, result.value, deadLetter);
      ack := Some(Ack(run, false));
    }

    method Acknowledge(q: Request, run: string, r: Executor.ReplayResult, deadLetter: Option<string>)
      requires Valid()
      modifies this`facts, store
      ensures Valid() && View() == Tell(Finish(old(View()), run, r, deadLetter), Acked(q.key, run, false))
    {
      store.Complete(run, r, deadLetter);
      facts := facts + [Acked(q.key, run, false)];
    }

    // A key seen before is acknowledged with the run it was stored for; any other request is handled.
    // None: an exception leaves SubmitReplay.
    method SubmitReplay(q: Request, w: World) returns (ack: Option<Ack>)
      requires Valid()
      modifies this, store, breaker, escalation
      ensures Valid()
      ensures if q.key != "" && KeyTaken(old(store.rows), q.key) then
                && ack.Some? && ack.value.deduplicated && ack.value.runId in old(store.rows) && old(store.rows)[ack.value.runId].key == q.key
                && View() == Tell(old(View()), Acked(q.key, ack.value.runId, true))
              else (View(), ack) == Handled(old(View()), q, w)
      ensures Serves(old(View()), Submits(q, w), View())
      ensures ack.Some? && !ack.value.deduplicated ==>
                && ack.value.runId !in old(store.rows) && Rows.OthersKept(old(store.rows), store.rows, ack.value.runId)
                && Rows.RowOfRequest(store.rows[ack.value.runId], old(View()), q, ack.value.runId, w)
      ensures ack.Some? && ack.value.deduplicated ==> store.rows == old(store.rows)
    {
      if q.key != "" {
        var cached := store.FindByIdempotencyKey(q.key);
        if cached.Some? {
          facts := facts + [Acked(q.key, cached.value, true)];
          return Some(Ack(cached.value, true));
        }
      }
      Rows.HandledRow(View(), q, w);
      var run := w(Creating(q)).id;
      var created := store.CreatePending(run, q);
      if !created {
        return None;
      }
      var admitted := Admit(q, run, w);
      if !admitted {
        return Some(Ack(run, false));
      }
      ack := Carry(q, run, w);
    }

    // NOT_FOUND, or the outcome of the action on the page. What the page will do is asked of a world that
    // knows how many facts there are.
    method ActOnLiveSession(run: string, ghost viaSaga: bool, ghost w: World, works: bool) returns (ok: bool)
      requires Valid() && (run in live ==> works == w(Performing(run, live[run], |facts|, viaSaga)).ok)
      modifies this`facts
      ensures Valid() && View() == Acted(old(View()), run, viaSaga, w)
      ensures ok <==> run in live && works
      ensures !viaSaga ==> Serves(old(View()), Acts(run, w), View())
    {
      ok := false;
      if run in live {
        ghost var n := |facts|;
        facts := facts + [Fetched(run, live[run])];
        ok := works;
        if ok {
          facts := facts + [Performed(run, live[run], n)];
        }
      }
    }

    // The session is gone from the map, and closed, whoever asks and however often.
    method ReleaseLiveSession(run: string)
      requires Valid()
      modifies this`facts, this`live
      ensures Valid() && run !in live && View() == Released(old(View()), run)
      ensures Serves(old(View()), Releases(run), View())
    {
      if run in live {
        var session := live[run];
        live := live - {run};
        facts := facts + [Popped(run, session)];
        facts := facts + [Closed(session)];
      }
    }
  }

  // That saga has this status, whatever it had; it keeps its run, and no other saga is touched.
  ghost predicate SagaMoved(before: map<string, Saga>, after: map<string, Saga>, saga: string, status: SagaStatus) {
    && after.Keys == before.Keys && saga in before && after[saga].status == status && after[saga].runId == before[saga].runId
    && forall g :: g in before && g != saga ==> after[g] == before[g]
  }

  class EscalationSagaServicer {
    const runtime: ReplayRuntimeServicer  // behind the replay client

    constructor (r: ReplayRuntimeServicer)
      ensures runtime == r
    {
      runtime := r;
    }

    method ClaimSession(sagaId: string) returns (found: bool)
      requires runtime.Valid()
      modifies runtime`facts, runtime.escalation
      ensures runtime.Valid() && found == (sagaId in old(runtime.escalation.sagas)) && runtime.View() == Claimed(old(runtime.View()), sagaId)
      ensures Serves(old(runtime.View()), Claims(sagaId), runtime.View())
      ensures found ==> SagaMoved(old(runtime.escalation.sagas), runtime.escalation.sagas, sagaId, HUMAN_CONTROLLED)
                        && runtime.facts == old(runtime.facts) + [ControlClaimed(sagaId)]
      ensures !found ==> runtime.View() == old(runtime.View())
    {
      found := sagaId in runtime.escalation.sagas;
      if found {
        runtime.escalation.SetStatus(sagaId, HUMAN_CONTROLLED);
        runtime.facts := runtime.facts + [ControlClaimed(sagaId)];
      }
    }

    // Recorded for every known saga; performed, and reported as performed, exactly when the saga's run still
    // has its session and the page obliges, and then on that session, which is open.
    method RecordHumanAction(sagaId: string, ghost w: World, works: bool) returns (ok: bool)
      requires runtime.Valid()
      requires sagaId in runtime.escalation.sagas ==>
                 var run := runtime.escalation.sagas[sagaId].runId;
                 run in runtime.live ==> works == w(Performing(run, runtime.live[run], |runtime.facts| + 1, true)).ok
      modifies runtime`facts
      ensures runtime.Valid() && runtime.View() == Recalled(old(runtime.View()), sagaId, w)
      ensures Serves(old(runtime.View()), Recalls(sagaId, w), runtime.View())
      ensures ok <==> sagaId in runtime.escalation.sagas && runtime.escalation.sagas[sagaId].runId in runtime.live && works
      ensures if sagaId in runtime.escalation.sagas then old(runtime.facts) + [HumanActionRecorded(sagaId)] <= runtime.facts
              else runtime.facts == old(runtime.facts)
      ensures var n := |runtime.facts|;
              ok ==>
                var run := runtime.escalation.sagas[sagaId].runId;
                && n >= 2 && runtime.facts[n - 1] == HumanActed(run, n - 2)
                && runtime.facts[n - 2].Performed? && runtime.facts[n - 2].runId == run && runtime.facts[n - 2].session == runtime.live[run]
                && Closed(runtime.live[run]) !in runtime.facts
      ensures !ok ==> forall i :: |old(runtime.facts)| <= i < |runtime.facts| ==> !runtime.facts[i].HumanActed? && !runtime.facts[i].Performed?
    {
      if sagaId !in runtime.escalation.sagas {
        return false;
      }
      runtime.facts := runtime.facts + [HumanActionRecorded(sagaId)];
      var run := runtime.escalation.sagas[sagaId].runId;
      ghost var n := |runtime.facts|;
      ok := runtime.ActOnLiveSession(run, true, w, works);
      if ok {
        runtime.facts := runtime.facts + [HumanActed(run, n + 1)];
      }
    }

    method ReleaseControl(sagaId: string, w: World) returns (found: bool)
      requires runtime.Valid()
      modifies runtime`facts, runtime`live, runtime.escalation
      ensures runtime.Valid() && found == (sagaId in old(runtime.escalation.sagas)) && runtime.View() == Freed(old(runtime.View()), sagaId, w)
      ensures Serves(old(runtime.View()), Frees(sagaId, w), runtime.View())
      ensures found ==>
                && SagaMoved(old(runtime.escalation.sagas), runtime.escalation.sagas, sagaId, if w(Returning(sagaId)).ok then RESUMED else TERMINATED)
                && runtime.escalation.sagas[sagaId].runId !in runtime.live
                && runtime.facts != [] && runtime.facts[|runtime.facts| - 1] == ControlReturned(sagaId)
      ensures !found ==> runtime.View() == old(runtime.View())
    {
      found := sagaId in runtime.escalation.sagas;
      if found {
        runtime.ReleaseLiveSession(runtime.escalation.sagas[sagaId].runId);
        runtime.escalation.SetStatus(sagaId, if w(Returning(sagaId)).ok then RESUMED else TERMINATED);
        runtime.facts := runtime.facts + [ControlReturned(sagaId)];
      }
    }
  }
}
