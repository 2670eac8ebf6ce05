// The replay server's facts as the events it puts on its topic, and what the projector makes of them.
module ReplayEvents {
  import opened Prelude
  import opened ReplayServer
  import opened ReplaySafety
  import opened ReplaySessions
  import opened ReplayTheorems
  import Rows = ReplayRows
  import CB = CircuitBreaker
  import Executor
  import Projector
  import RegistryStore

  // A fact's event: what the projector reads of it. `version` is that of the artifact the run resolved.
  function EventOf(f: Fact, row: RunRow, version: int, at: int): (e: Option<Projector.Event>) {
    match f
    case Requested(run) => Some(Projector.Event("ReplayRequested", row.correlationId, at,
                                                Projector.Payload(Some(run), Some(row.capabilityId), Some(row.tenantId), None)))
    case Refused(run) => Some(Projector.Event("ReplayHardFailure", row.correlationId, at,
                                              Projector.Payload(Some(run), None, None, None)))
    case StepLogged(run, _) => Some(Projector.Event("ReplayStepExecuted", row.correlationId, at,
                                                    Projector.Payload(Some(run), None, None, None)))
    case HardFailed(run) => Some(Projector.Event("ReplayHardFailure", row.correlationId, at,
                                                 Projector.Payload(Some(run), Some(row.capabilityId), None, Some(version))))
    case Succeeded(run) => Some(Projector.Event("ReplaySucceeded", row.correlationId, at,
                                                Projector.Payload(Some(run), Some(row.capabilityId), None, Some(version))))
    case _ => None
  }

  predicate IsOutcome(f: Fact) {
    f.Succeeded? || f.HardFailed?
  }

  // Projecting an event writes a counter exactly when it reports the outcome of a run that was executed, of a
  // named capability, and then the counter of the version that ran.
  lemma OnlyOutcomesCount(f: Fact, row: RunRow, version: int, at: int)
    requires EventOf(f, row, version, at).Some?
    ensures var key := Projector.ValidationKey(EventOf(f, row, version, at).value);
            && (key.Some? <==> IsOutcome(f) && f.runId != "" && row.capabilityId != "" && version != 0)
            && (key.Some? ==> key.value == RegistryStore.CapKey(row.capabilityId, version, RegistryStore.BASE_SCOPE))
  {
  }

  // ----- outcomes are told once, of launched runs -----

  predicate TellsOf(f: Fact, run: string) {
    IsOutcome(f) && f.runId == run
  }

  ghost predicate Told(facts: seq<Fact>, run: string) {
    exists i :: 0 <= i < |facts| && TellsOf(facts[i], run)
  }

  // Whether the owner may still report the outcome.
  predicate MayTell(stage: Stage) {
    !stage.Escalating? && !stage.Completing?
  }

  ghost predicate OwnerOk(facts: seq<Fact>, sessions: seq<string>, th: Thread) {
    && (th.Owning? && !Before(th.stage) ==> th.runId in sessions)
    && (th.Owning? && MayTell(th.stage) ==> !Told(facts, th.runId))
    && (th.Telling? ==> !IsOutcome(th.fact))
  }

  ghost predicate ToldOk(facts: seq<Fact>, sessions: seq<string>) {
    && (forall run :: Told(facts, run) ==> run in sessions)
    && (forall i, j :: 0 <= i < j < |facts| && IsOutcome(facts[i]) && IsOutcome(facts[j]) ==> facts[i].runId != facts[j].runId)
  }

  ghost predicate ToldInv(s: Sys) {
    ToldOk(s.facts, s.sessions) && forall t :: t in s.threads ==> OwnerOk(s.facts, s.sessions, s.threads[t])
  }

  lemma ToldOneMore(facts: seq<Fact>, f: Fact, run: string)
    ensures Told(facts + [f], run) <==> Told(facts, run) || TellsOf(f, run)
  {
    var more := facts + [f];
    assert more[|facts|] == f;
    if Told(facts, run) {
      var i :| 0 <= i < |facts| && TellsOf(facts[i], run);
      assert more[i] == facts[i];
    }
  }

  // A step that tells no outcome: the others stay as they are, and thread t is in order afterwards.
  ghost predicate Silent(s: Sys, s': Sys, t: nat) {
    && s.sessions <= s'.sessions && OthersSame(s.threads, s'.threads, t)
    && |s.facts| <= |s'.facts| && s'.facts[..|s.facts|] == s.facts && (forall i :: |s.facts| <= i < |s'.facts| ==> !IsOutcome(s'.facts[i]))
    && (t in s'.threads ==> OwnerOk(s.facts, s'.sessions, s'.threads[t]))
  }

  lemma SameTold(s: Sys, s': Sys, t: nat, run: string)
    requires Silent(s, s', t)
    ensures Told(s'.facts, run) <==> Told(s.facts, run)
  {
    assert forall i :: 0 <= i < |s.facts| ==> s'.facts[i] == s.facts[i];
    if Told(s.facts, run) {
      var i :| 0 <= i < |s.facts| && TellsOf(s.facts[i], run);
      assert TellsOf(s'.facts[i], run);
    }
  }

  lemma SilentKeeps(s: Sys, s': Sys, t: nat)
    requires ToldInv(s) && Silent(s, s', t)
    ensures ToldInv(s')
  {
    forall run ensures Told(s'.facts, run) <==> Told(s.facts, run) {
      SameTold(s, s', t, run);
    }
    assert forall i :: 0 <= i < |s.facts| ==> s'.facts[i] == s.facts[i];
    assert forall x :: x in s.sessions ==> x in s'.sessions;
    forall u | u in s'.threads ensures OwnerOk(s'.facts, s'.sessions, s'.threads[u]) {
      if u != t { assert OwnerOk(s.facts, s.sessions, s.threads[u]); }
    }
  }

  lemma Silently(s: Sys, s': Sys, t: nat, more: seq<Fact>)
    requires ToldInv(s) && s'.facts == s.facts + more && s.sessions <= s'.sessions && OthersSame(s.threads, s'.threads, t)
    requires forall i :: 0 <= i < |more| ==> !IsOutcome(more[i])
    requires t in s'.threads ==> OwnerOk(s.facts, s'.sessions, s'.threads[t])
    ensures ToldInv(s')
  {
    assert forall i :: |s.facts| <= i < |s'.facts| ==> s'.facts[i] == more[i - |s.facts|];
    SilentKeeps(s, s', t);
  }

  // The one step that tells: its owner is the only one, and has not told before.
  lemma AnnounceKeepsTold(s: Sys, t: nat, q: Request, run: string, f: Fact, next: Stage)
    requires OwnersOk(s.rows, s.threads) && ToldInv(s) && t in s.threads && s.threads[t].Owning? && s.threads[t].runId == run
    requires !Before(s.threads[t].stage) && MayTell(s.threads[t].stage) && TellsOf(f, run) && !MayTell(next)
    ensures ToldInv(Goto(Tell(s, f), t, Owning(q, run, next)))
  {
    var s' := Goto(Tell(s, f), t, Owning(q, run, next));
    assert OwnerOk(s.facts, s.sessions, s.threads[t]) && Owns(s.threads, t, run);
    forall r ensures Told(s'.facts, r) <==> Told(s.facts, r) || r == run {
      ToldOneMore(s.facts, f, r);
    }
    forall i | 0 <= i < |s.facts| && IsOutcome(s.facts[i]) ensures s.facts[i].runId != run {
      assert !TellsOf(s.facts[i], run);
    }
    forall u | u in s'.threads ensures OwnerOk(s'.facts, s'.sessions, s'.threads[u]) {
      if u != t {
        assert OwnerOk(s.facts, s.sessions, s.threads[u]);
        assert Owns(s.threads, u, run) ==> u == t;
      }
    }
  }

  lemma CreateKeepsTold(s: Sys, t: nat, q: Request, c: Choice)
    requires LaunchesOk(s.rows, s.sessions, s.threads) && ToldInv(s)
    ensures ToldInv(Create(s, t, q, c))
  {
    if KeyTaken(s.rows, q.key) {
      Silently(s, Done(s, t), t, []);
    } else if c.id !in s.rows {
      assert c.id !in s.sessions;
      Silently(s, Create(s, t, q, c), t, []);
    }
  }

  // How a silent step ends: its thread goes on, or is done.
  lemma Onward(s: Sys, m: Sys, t: nat, th: Thread, more: seq<Fact>)
    requires ToldInv(s) && m.threads == s.threads && s.sessions <= m.sessions && m.facts == s.facts + more
    requires OwnerOk(s.facts, m.sessions, th) && forall i :: 0 <= i < |more| ==> !IsOutcome(more[i])
    ensures ToldInv(Goto(m, t, th))
  {
    Silently(s, Goto(m, t, th), t, more);
  }

  lemma Over(s: Sys, m: Sys, t: nat, more: seq<Fact>)
    requires ToldInv(s) && m.threads == s.threads && s.sessions <= m.sessions && m.facts == s.facts + more
    requires forall i :: 0 <= i < |more| ==> !IsOutcome(more[i])
    ensures ToldInv(Done(m, t))
  {
    Silently(s, Done(m, t), t, more);
  }

  lemma EarlyKeepsTold(s: Sys, t: nat, q: Request, run: string, stage: Stage, c: Choice)
    requires ToldInv(s) && t in s.threads && s.threads[t] == Owning(q, run, stage) && Before(stage) && !stage.Gating?
    ensures ToldInv(Submit(s, t, q, run, stage, c))
  {
    assert OwnerOk(s.facts, s.sessions, s.threads[t]);
    match stage
    case Requesting => Onward(s, Tell(s, Requested(run)), t, Owning(q, run, Gating), [Requested(run)]);
    case Refusing => Onward(s, Finish(s, run, REFUSAL, None), t, Owning(q, run, RefusalTelling), []);
    case RefusalTelling => Over(s, Tell(Tell(s, Refused(run)), Acked(q.key, run, false)), t, [Refused(run), Acked(q.key, run, false)]);
    case Resolving => if c.ok { Onward(s, s, t, Owning(q, run, Launching), []); } else { Over(s, s, t, []); }
    case Launching => LaunchKeepsTold(s, t, q, run, c);
  }

  lemma LaunchKeepsTold(s: Sys, t: nat, q: Request, run: string, c: Choice)
    requires ToldInv(s) && OwnerOk(s.facts, s.sessions, Owning(q, run, Launching))
    ensures ToldInv(Submit(s, t, q, run, Launching, c))
  {
    if c.ok {
      var m := s.(sessions := s.sessions + [run]);
      assert m.sessions[|s.sessions|] == run;
      Onward(s, m, t, Owning(q, run, Running(|s.sessions|)), []);
    } else {
      Over(s, s, t, []);
    }
  }

  lemma GateKeepsTold(s: Sys, t: nat, q: Request, run: string, c: Choice)
    requires ToldInv(s) && OwnerOk(s.facts, s.sessions, Owning(q, run, Gating))
    ensures ToldInv(Gate(s, t, q, run, c))
  {
    var past := CB.Past(s.history, TargetOf(q));
    var m := Record(s, TargetOf(q), CB.Probe(c.now));
    Onward(s, Tell(m, Gated(run, past, c.now)), t, Owning(q, run, Resolving), [Gated(run, past, c.now)]);
    Onward(s, m, t, Owning(q, run, Refusing), []);
  }

  lemma RunningKeepsTold(s: Sys, t: nat, q: Request, run: string, stage: Stage, c: Choice)
    requires ToldInv(s) && OwnerOk(s.facts, s.sessions, Owning(q, run, stage)) && (stage.Running? || stage.Parking? || stage.Logging?)
    ensures ToldInv(Submit(s, t, q, run, stage, c))
  {
    match stage
    case Running(x) => Onward(s, Tell(s, Ran(run, x, c.result)), t, Owning(q, run, Parking(x, c.result)), [Ran(run, x, c.result)]);
    case Parking(x, result) =>
      Onward(s, s.(live := s.live[run := x]), t, Owning(q, run, Logging(result, 0)), []);
      Onward(s, Tell(s, Closed(x)), t, Owning(q, run, Logging(result, 0)), [Closed(x)]);
    case Logging(result, i) =>
      if i < |result.stepLog| {
        Onward(s, Tell(s, StepLogged(run, result.stepLog[i])), t, Owning(q, run, Logging(result, i + 1)), [StepLogged(run, result.stepLog[i])]);
      } else {
        Onward(s, s, t, Owning(q, run, Recording(result)), []);
      }
  }

  lemma RecordingKeepsTold(s: Sys, t: nat, q: Request, run: string, result: Executor.ReplayResult, c: Choice)
    requires ToldInv(s) && OwnerOk(s.facts, s.sessions, Owning(q, run, Recording(result)))
    ensures ToldInv(Account(s, t, q, run, result, c))
  {
    match result.outcome
    case HARD_FAILURE => Onward(s, Record(s, TargetOf(q), CB.Failure(c.now)), t, Owning(q, run, DeadLettering(result)), []);
    case BUSINESS_OUTCOME => Onward(s, Record(s, TargetOf(q), CB.Success), t, Owning(q, run, Announcing(result, None)), []);
    case RECOVERABLE => Onward(s, Record(s, TargetOf(q), CB.Failure(c.now)), t, Owning(q, run, Completing(result, None)), []);
  }

  lemma EndKeepsTold(s: Sys, t: nat, q: Request, run: string, stage: Stage, c: Choice)
    requires ToldInv(s) && OwnerOk(s.facts, s.sessions, Owning(q, run, stage))
    requires stage.DeadLettering? || stage.Escalating? || stage.Completing?
    ensures ToldInv(Submit(s, t, q, run, stage, c))
  {
    match stage
    case DeadLettering(result) =>
      Over(s, s, t, []);
      Onward(s, s, t, Owning(q, run, Announcing(result, Some(c.id))), []);
    case Escalating(result, deadLetter) =>
      var f := InterventionRequested(c.id, run);
      Over(s, s, t, []);
      Onward(s, Tell(s.(sagas := s.sagas[c.id := Saga(run, INTERVENTION_REQUESTED)]), f), t, Owning(q, run, Completing(result, deadLetter)), [f]);
    case Completing(result, deadLetter) =>
      Over(s, Tell(Finish(s, run, result, deadLetter), Acked(q.key, run, false)), t, [Acked(q.key, run, false)]);
  }

  lemma SubmitKeepsTold(s: Sys, t: nat, q: Request, run: string, stage: Stage, c: Choice)
    requires OwnersOk(s.rows, s.threads) && ToldInv(s) && t in s.threads && s.threads[t] == Owning(q, run, stage)
    ensures ToldInv(Submit(s, t, q, run, stage, c))
  {
    assert OwnerOk(s.facts, s.sessions, s.threads[t]);
    match stage
    case Gating => GateKeepsTold(s, t, q, run, c);
    case Running(_) => RunningKeepsTold(s, t, q, run, stage, c);
    case Parking(_, _) => RunningKeepsTold(s, t, q, run, stage, c);
    case Logging(_, _) => RunningKeepsTold(s, t, q, run, stage, c);
    case Recording(result) => RecordingKeepsTold(s, t, q, run, result, c);
    case Announcing(result, deadLetter) =>
      if result.outcome == Executor.HARD_FAILURE {
        AnnounceKeepsTold(s, t, q, run, HardFailed(run), Escalating(result, deadLetter));
      } else {
        AnnounceKeepsTold(s, t, q, run, Succeeded(run), Completing(result, deadLetter));
      }
    case DeadLettering(_) => EndKeepsTold(s, t, q, run, stage, c);
    case Escalating(_, _) => EndKeepsTold(s, t, q, run, stage, c);
    case Completing(_, _) => EndKeepsTold(s, t, q, run, stage, c);
    case _ => EarlyKeepsTold(s, t, q, run, stage, c);
  }

  lemma SagasKeepTold(s: Sys, t: nat, th: Thread, c: Choice)
    requires ToldInv(s) && (th.Claiming? || th.Recalling? || th.Freeing? || th.Returning?)
    ensures ToldInv(Advance(s, t, th, c))
  {
    Over(s, s, t, []);
    match th
    case Claiming(saga) => Onward(s, SetStatus(s, saga, HUMAN_CONTROLLED), t, Telling(ControlClaimed(saga)), []);
    case Recalling(saga) =>
      if saga in s.sagas {
        Onward(s, Tell(s, HumanActionRecorded(saga)), t, Acting(s.sagas[saga].runId, true), [HumanActionRecorded(saga)]);
      }
    case Freeing(saga) => if saga in s.sagas { Onward(s, s, t, Releasing(s.sagas[saga].runId, Some(saga)), []); }
    case Returning(saga) => Onward(s, SetStatus(s, saga, if c.ok then RESUMED else TERMINATED), t, Telling(ControlReturned(saga)), []);
  }

  lemma LookKeepsTold(s: Sys, t: nat, q: Request, c: Choice)
    requires ToldInv(s)
    ensures ToldInv(Look(s, t, q, c))
  {
    Over(s, Tell(s, Acked(q.key, c.id, true)), t, [Acked(q.key, c.id, true)]);
    Onward(s, s, t, Creating(q), []);
  }

  lemma ActKeepsTold(s: Sys, t: nat, th: Thread, c: Choice)
    requires ToldInv(s) && (th.Acting? || th.Performing?)
    ensures ToldInv(Advance(s, t, th, c))
  {
    Over(s, s, t, []);
    match th
    case Acting(run, viaSaga) =>
      if run in s.live {
        var f := Fetched(run, s.live[run]);
        Onward(s, Tell(s, f), t, Performing(run, s.live[run], |s.facts|, viaSaga), [f]);
      }
    case Performing(run, x, fetched, _) =>
      var f := Performed(run, x, fetched);
      Over(s, Tell(s, f), t, [f]);
      Onward(s, Tell(s, f), t, Telling(HumanActed(run, |s.facts|)), [f]);
  }

  lemma ReturnKeepsTold(s: Sys, m: Sys, t: nat, saga: Option<string>, more: seq<Fact>)
    requires ToldInv(s) && m.threads == s.threads && m.sessions == s.sessions && m.facts == s.facts + more
    requires forall i :: 0 <= i < |more| ==> !IsOutcome(more[i])
    ensures ToldInv(Returned(m, t, saga))
  {
    Over(s, m, t, more);
    if saga.Some? { Onward(s, m, t, Returning(saga.value), more); }
  }

  lemma TakeKeepsTold(s: Sys, t: nat, th: Thread, c: Choice)
    requires ToldInv(s) && (th.Releasing? || th.Closing?)
    ensures ToldInv(Advance(s, t, th, c))
  {
    match th
    case Releasing(run, saga) =>
      if run in s.live {
        var f := Popped(run, s.live[run]);
        Onward(s, Tell(s.(live := s.live - {run}), f), t, Closing(run, s.live[run], saga), [f]);
      } else {
        ReturnKeepsTold(s, s, t, saga, []);
      }
    case Closing(_, x, saga) => ReturnKeepsTold(s, Tell(s, Closed(x)), t, saga, [Closed(x)]);
  }

  lemma AdvanceKeepsTold(s: Sys, t: nat, c: Choice)
    requires OwnersOk(s.rows, s.threads) && LaunchesOk(s.rows, s.sessions, s.threads) && ToldInv(s) && t in s.threads
    ensures ToldInv(Advance(s, t, s.threads[t], c))
  {
    assert OwnerOk(s.facts, s.sessions, s.threads[t]);
    match s.threads[t]
    case Owning(q, run, stage) => SubmitKeepsTold(s, t, q, run, stage, c);
    case Looking(q) => LookKeepsTold(s, t, q, c);
    case Creating(q) => CreateKeepsTold(s, t, q, c);
    case Acting(_, _) => ActKeepsTold(s, t, s.threads[t], c);
    case Performing(_, _, _, _) => ActKeepsTold(s, t, s.threads[t], c);
    case Releasing(_, _) => TakeKeepsTold(s, t, s.threads[t], c);
    case Closing(_, _, _) => TakeKeepsTold(s, t, s.threads[t], c);
    case Telling(f) => Over(s, Tell(s, f), t, [f]);
    case _ => SagasKeepTold(s, t, s.threads[t], c);
  }

  lemma NextKeepsTold(s: Sys, a: Action)
    requires Inv(s) && ToldInv(s)
    ensures ToldInv(Next(s, a))
  {
    match a
    case Start(t, th) => if t !in s.threads && Fresh(th) { Silently(s, Goto(s, t, th), t, []); }
    case Die(t) => if t in s.threads { Silently(s, Next(s, a), t, []); }
    case Step(t, c) => if t in s.threads { AdvanceKeepsTold(s, t, c); }
  }

  lemma {:induction false} RunKeepsTold(acts: seq<Action>)
    ensures ToldInv(Run(acts))
  {
    if acts != [] {
      RunKeepsInv(acts[..|acts| - 1]);
      RunKeepsTold(acts[..|acts| - 1]);
      NextKeepsTold(Run(acts[..|acts| - 1]), acts[|acts| - 1]);
    }
  }

  // The confidence counters hear of a run at most once, and only of one that was launched.
  lemma CountedAtMostOnce(acts: seq<Action>, i: nat)
    requires i < |Run(acts).facts| && IsOutcome(Run(acts).facts[i])
    ensures var s := Run(acts);
            var run := s.facts[i].runId;
            && run in s.sessions && Refused(run) !in s.facts
            && forall j :: 0 <= j < |s.facts| && j != i ==> !TellsOf(s.facts[j], run)
  {
    RunKeepsInv(acts);
    RunKeepsTold(acts);
    var s := Run(acts);
    assert TellsOf(s.facts[i], s.facts[i].runId);
    assert Told(s.facts, s.facts[i].runId);
  }

  // What each event is called and names; the three that end a run, by the status they leave.
  lemma EventsByName(f: Fact, row: RunRow, version: int, at: int)
    ensures EventOf(f, row, version, at).Some? <==> f.Requested? || f.StepLogged? || f.Refused? || IsOutcome(f)
    ensures EventOf(f, row, version, at).Some? ==>
              var e := EventOf(f, row, version, at).value;
              && e.correlationId == row.correlationId && e.occurredAtMs == at && e.payload.runId == Some(f.runId)
              && (f.Requested? ==> e.eventType == "ReplayRequested")
              && (f.Requested? ==> e.payload.capabilityId == Some(row.capabilityId) && e.payload.tenantId == Some(row.tenantId))
              && (f.StepLogged? ==> e.eventType == "ReplayStepExecuted")
              && (Projector.IsEnd(e, f.runId) <==> f.runId != "" && (f.Refused? || IsOutcome(f)))
              && (f.Succeeded? ==> Projector.LeavesStatus(e.eventType, "SUCCEEDED"))
              && (f.Refused? || f.HardFailed? ==> Projector.LeavesStatus(e.eventType, "HARD_FAILURE"))
  {
  }

  // Of an answered run, every event that ends it leaves the projected run in the status that the server's own
  // row has for it.
  lemma StatusMatchesRow(acts: seq<Action>, i: nat, row: RunRow, version: int, at: int)
    requires i < |Run(acts).facts|
    requires var f := Run(acts).facts[i];
             EventOf(f, row, version, at).Some? && f.runId != "" && Projector.IsEnd(EventOf(f, row, version, at).value, f.runId)
             && Rows.Answered(Run(acts).facts, f.runId)
    ensures var s, f := Run(acts), Run(acts).facts[i];
            var type_ := EventOf(f, row, version, at).value.eventType;
            && f.runId in s.rows
            && match s.rows[f.runId].outcome
               case Finished(HARD_FAILURE) => Projector.LeavesStatus(type_, "HARD_FAILURE")
               case Finished(BUSINESS_OUTCOME) => Projector.LeavesStatus(type_, "SUCCEEDED")
               case _ => false
  {
    var f := Run(acts).facts[i];
    EventsByName(f, row, version, at);
    Rows.EndMatchesRow(acts, f.runId);
  }

  // No event of a run the breaker turned away moves a counter, whatever is written of it and when.
  lemma RejectionMovesNoCounter(acts: seq<Action>, i: nat, row: RunRow, version: int, at: int,
                                db: RegistryStore.Db, offset: nat, stage: nat, now: int)
    requires i < |Run(acts).facts| && stage < Projector.WRITES
    requires var f := Run(acts).facts[i]; EventOf(f, row, version, at).Some? && Refused(f.runId) in Run(acts).facts
    ensures var e := EventOf(Run(acts).facts[i], row, version, at).value;
            Projector.Write(db, Projector.ReplayTopic, offset, e, stage, now).capabilities == db.capabilities
  {
    if IsOutcome(Run(acts).facts[i]) { CountedAtMostOnce(acts, i); }
  }
}
