// The breaker in front of the replays: what a launch says about the failures recorded before it.
module ReplayGate {
  import opened Prelude
  import opened ReplayServer
  import CB = CircuitBreaker
  import Executor

  function TargetOfRow(row: RunRow): (key: string) {
    row.tenantId + ":" + row.capabilityId
  }

  ghost predicate HistoryGrows(h: map<string, seq<CB.Event>>, h': map<string, seq<CB.Event>>) {
    forall k: string :: CB.Past(h, k) <= CB.Past(h', k)
  }

  ghost predicate TargetsKept(rows: map<string, RunRow>, rows': map<string, RunRow>) {
    forall r :: r in rows ==> r in rows' && TargetOfRow(rows'[r]) == TargetOfRow(rows[r])
  }

  ghost predicate WasGated(facts: seq<Fact>, run: string) {
    exists past, now :: Gated(run, past, now) in facts
  }

  // The breaker let this run pass at a moment of its target's history.
  ghost predicate GateOk(s: Sys, run: string, past: seq<CB.Event>, now: int) {
    run in s.rows && CB.Admits(CB.After(past), now) && past + [CB.Probe(now)] <= CB.Past(s.history, TargetOfRow(s.rows[run]))
  }

  predicate Passing(th: Thread) {
    th.Owning? && (th.stage.Resolving? || th.stage.Launching?)
  }

  // An owner's row names its request's target; nobody is about to forge a Gated fact.
  ghost predicate OwnerRow(rows: map<string, RunRow>, th: Thread) {
    && (th.Owning? ==> th.runId in rows && TargetOfRow(rows[th.runId]) == TargetOf(th.q))
    && (th.Telling? ==> !th.fact.Gated?)
  }

  ghost predicate GateInv(s: Sys) {
    && (forall t :: t in s.threads ==> OwnerRow(s.rows, s.threads[t]) && (Passing(s.threads[t]) ==> WasGated(s.facts, s.threads[t].runId)))
    && (forall x :: 0 <= x < |s.sessions| ==> WasGated(s.facts, s.sessions[x]))
    && (forall run, past, now :: Gated(run, past, now) in s.facts ==> GateOk(s, run, past, now))
  }

  // A step that lets nobody pass.
  ghost predicate NobodyPasses(s: Sys, s': Sys, t: nat) {
    && HistoryGrows(s.history, s'.history) && TargetsKept(s.rows, s'.rows)
    && |s.facts| <= |s'.facts| && s'.facts[..|s.facts|] == s.facts && (forall i :: |s.facts| <= i < |s'.facts| ==> !s'.facts[i].Gated?)
    && (forall u :: u in s'.threads && u != t ==> u in s.threads && s'.threads[u] == s.threads[u])
    && (t in s'.threads ==> OwnerRow(s'.rows, s'.threads[t]) && !Passing(s'.threads[t]))
    && s'.sessions == s.sessions
  }

  lemma NobodyKeepsInv(s: Sys, s': Sys, t: nat)
    requires GateInv(s) && NobodyPasses(s, s', t)
    ensures GateInv(s')
  {
  }

  lemma NothingRecorded(s: Sys)
    ensures HistoryGrows(s.history, s.history) && TargetsKept(s.rows, s.rows)
  {
  }

  lemma Recorded(s: Sys, target: string, e: CB.Event)
    ensures HistoryGrows(s.history, Record(s, target, e).history)
    ensures CB.Past(Record(s, target, e).history, target) == CB.Past(s.history, target) + [e]
  {
  }

  lemma GateKeepsInv(s: Sys, t: nat, q: Request, run: string, c: Choice)
    requires GateInv(s) && t in s.threads && s.threads[t] == Owning(q, run, Gating)
    ensures GateInv(Gate(s, t, q, run, c))
  {
    assert OwnerRow(s.rows, s.threads[t]);
    if CB.Admits(CB.After(CB.Past(s.history, TargetOf(q))), c.now) {
      AdmitKeepsInv(s, t, q, run, c.now);
    } else {
      Recorded(s, TargetOf(q), CB.Probe(c.now));
      NothingRecorded(s);
      NobodyKeepsInv(s, Gate(s, t, q, run, c), t);
    }
  }

  lemma AdmitKeepsInv(s: Sys, t: nat, q: Request, run: string, now: int)
    requires GateInv(s) && OwnerRow(s.rows, Owning(q, run, Gating)) && CB.Admits(CB.After(CB.Past(s.history, TargetOf(q))), now)
    ensures GateInv(Goto(Tell(Record(s, TargetOf(q), CB.Probe(now)), Gated(run, CB.Past(s.history, TargetOf(q)), now)), t, Owning(q, run, Resolving)))
  {
    var past, m := CB.Past(s.history, TargetOf(q)), Record(s, TargetOf(q), CB.Probe(now));
    Recorded(s, TargetOf(q), CB.Probe(now));
    ProbeKeepsInv(s, t, TargetOf(q), now);
    Passed(Done(m, t), Goto(Tell(m, Gated(run, past, now)), t, Owning(q, run, Resolving)), t, q, run, past, now);
  }

  lemma ProbeKeepsInv(s: Sys, t: nat, target: string, now: int)
    requires GateInv(s)
    ensures GateInv(Done(Record(s, target, CB.Probe(now)), t))
  {
    Recorded(s, target, CB.Probe(now));
    NothingRecorded(s);
    NobodyKeepsInv(s, Done(Record(s, target, CB.Probe(now)), t), t);
  }

  lemma Passed(s: Sys, s': Sys, t: nat, q: Request, run: string, past: seq<CB.Event>, now: int)
    requires GateInv(s) && s' == Goto(Tell(s, Gated(run, past, now)), t, Owning(q, run, Resolving))
    requires OwnerRow(s.rows, Owning(q, run, Resolving)) && GateOk(s, run, past, now)
    ensures GateInv(s')
  {
  }

  lemma ResolvedKeepsInv(s: Sys, t: nat, q: Request, run: string)
    requires GateInv(s) && t in s.threads && s.threads[t] == Owning(q, run, Resolving)
    ensures GateInv(Goto(s, t, Owning(q, run, Launching)))
  {
  }

  lemma LaunchKeepsInv(s: Sys, t: nat, q: Request, run: string)
    requires GateInv(s) && t in s.threads && s.threads[t] == Owning(q, run, Launching)
    ensures GateInv(Goto(s.(sessions := s.sessions + [run]), t, Owning(q, run, Running(|s.sessions|))))
  {
  }

  // Changes to the tables in the middle of a step.
  ghost predicate Midway(s: Sys, m: Sys) {
    && HistoryGrows(s.history, m.history) && TargetsKept(s.rows, m.rows) && m.threads == s.threads && m.sessions == s.sessions
    && |s.facts| <= |m.facts| && m.facts[..|s.facts|] == s.facts && (forall i :: |s.facts| <= i < |m.facts| ==> !m.facts[i].Gated?)
  }

  lemma Told(s: Sys, f: Fact)
    requires !f.Gated?
    ensures Midway(s, Tell(s, f)) && Midway(s, s)
  {
  }

  lemma Onward(s: Sys, m: Sys, t: nat, th: Thread)
    requires GateInv(s) && Midway(s, m) && OwnerRow(m.rows, th) && !Passing(th)
    ensures GateInv(Goto(m, t, th))
  {
  }

  lemma Over(s: Sys, m: Sys, t: nat)
    requires GateInv(s) && Midway(s, m)
    ensures GateInv(Done(m, t))
  {
  }

  lemma FinishMidway(s: Sys, run: string, r: Executor.ReplayResult, deadLetter: Option<string>)
    ensures Midway(s, Finish(s, run, r, deadLetter))
  {
  }

  lemma SubmitKeepsInv(s: Sys, t: nat, q: Request, run: string, stage: Stage, c: Choice)
    requires GateInv(s) && t in s.threads && s.threads[t] == Owning(q, run, stage)
    ensures GateInv(Submit(s, t, q, run, stage, c))
  {
    assert OwnerRow(s.rows, s.threads[t]);
    Told(s, Requested(run));
    match stage
    case Requesting => Onward(s, Tell(s, Requested(run)), t, Owning(q, run, Gating));
    case Gating => GateKeepsInv(s, t, q, run, c);
    case Refusing =>
      FinishMidway(s, run, REFUSAL, None);
      Onward(s, Finish(s, run, REFUSAL, None), t, Owning(q, run, RefusalTelling));
    case RefusalTelling =>
      var m := Tell(Tell(s, Refused(run)), Acked(q.key, run, false));
      assert Midway(s, m);
      Over(s, m, t);
    case Resolving => if c.ok { ResolvedKeepsInv(s, t, q, run); } else { Over(s, s, t); }
    case Launching => if c.ok { LaunchKeepsInv(s, t, q, run); } else { Over(s, s, t); }
    case Running(_) => RanKeepsInv(s, t, q, run, stage, c);
    case Parking(_, _) => RanKeepsInv(s, t, q, run, stage, c);
    case Logging(_, _) => RanKeepsInv(s, t, q, run, stage, c);
    case _ => TailKeepsInv(s, t, q, run, stage, c);
  }

  lemma RanKeepsInv(s: Sys, t: nat, q: Request, run: string, stage: Stage, c: Choice)
    requires GateInv(s) && t in s.threads && s.threads[t] == Owning(q, run, stage) && OwnerRow(s.rows, s.threads[t])
    requires stage.Running? || stage.Parking? || stage.Logging?
    ensures GateInv(Submit(s, t, q, run, stage, c))
  {
    match stage
    case Running(x) =>
      Told(s, Ran(run, x, c.result));
      Onward(s, Tell(s, Ran(run, x, c.result)), t, Owning(q, run, Parking(x, c.result)));
    case Parking(x, result) => ParkKeepsInv(s, t, q, run, x, result);
    case Logging(result, i) =>
      Told(s, Requested(run));
      if i < |result.stepLog| {
        Told(s, StepLogged(run, result.stepLog[i]));
        Onward(s, Tell(s, StepLogged(run, result.stepLog[i])), t, Owning(q, run, Logging(result, i + 1)));
      } else {
        Onward(s, s, t, Owning(q, run, Recording(result)));
      }
  }

  lemma ParkKeepsInv(s: Sys, t: nat, q: Request, run: string, x: nat, result: Executor.ReplayResult)
    requires GateInv(s) && OwnerRow(s.rows, Owning(q, run, Parking(x, result)))
    ensures GateInv(Park(s, t, q, run, x, result))
  {
    Told(s, Closed(x));
    var m := if result.outcome == Executor.HARD_FAILURE then s.(live := s.live[run := x]) else Tell(s, Closed(x));
    Onward(s, m, t, Owning(q, run, Logging(result, 0)));
  }

  lemma TailKeepsInv(s: Sys, t: nat, q: Request, run: string, stage: Stage, c: Choice)
    requires GateInv(s) && t in s.threads && s.threads[t] == Owning(q, run, stage) && OwnerRow(s.rows, s.threads[t])
    requires stage.Recording? || stage.DeadLettering? || stage.Announcing? || stage.Escalating? || stage.Completing?
    ensures GateInv(Submit(s, t, q, run, stage, c))
  {
    Told(s, Requested(run));
    match stage
    case Recording(result) => AccountKeepsInv(s, t, q, run, result, c);
    case DeadLettering(result) => if c.ok { Onward(s, s, t, Owning(q, run, Announcing(result, Some(c.id)))); } else { Over(s, s, t); }
    case Announcing(result, deadLetter) => AnnounceKeepsInv(s, t, q, run, result, deadLetter, c);
    case Escalating(result, deadLetter) => EscalateKeepsInv(s, t, q, run, result, deadLetter, c);
    case Completing(result, deadLetter) =>
      FinishMidway(s, run, result, deadLetter);
      var m := Tell(Finish(s, run, result, deadLetter), Acked(q.key, run, false));
      assert Midway(s, m);
      Over(s, m, t);
  }

  lemma AnnounceKeepsInv(s: Sys, t: nat, q: Request, run: string, result: Executor.ReplayResult, deadLetter: Option<string>, c: Choice)
    requires GateInv(s) && OwnerRow(s.rows, Owning(q, run, Announcing(result, deadLetter)))
    ensures GateInv(Submit(s, t, q, run, Announcing(result, deadLetter), c))
  {
    if result.outcome == Executor.HARD_FAILURE {
      Told(s, HardFailed(run));
      Onward(s, Tell(s, HardFailed(run)), t, Owning(q, run, Escalating(result, deadLetter)));
    } else {
      Told(s, Succeeded(run));
      Onward(s, Tell(s, Succeeded(run)), t, Owning(q, run, Completing(result, deadLetter)));
    }
  }

  lemma EscalateKeepsInv(s: Sys, t: nat, q: Request, run: string, result: Executor.ReplayResult, deadLetter: Option<string>, c: Choice)
    requires GateInv(s) && OwnerRow(s.rows, Owning(q, run, Escalating(result, deadLetter)))
    ensures GateInv(Submit(s, t, q, run, Escalating(result, deadLetter), c))
  {
  }

  lemma AccountKeepsInv(s: Sys, t: nat, q: Request, run: string, result: Executor.ReplayResult, c: Choice)
    requires GateInv(s) && t in s.threads && s.threads[t] == Owning(q, run, Recording(result)) && OwnerRow(s.rows, s.threads[t])
    ensures GateInv(Account(s, t, q, run, result, c))
  {
    var e := if result.outcome == Executor.BUSINESS_OUTCOME then CB.Success else CB.Failure(c.now);
    var m := Record(s, TargetOf(q), e);
    Recorded(s, TargetOf(q), e);
    NothingRecorded(s);
    match result.outcome
    case HARD_FAILURE => Onward(s, m, t, Owning(q, run, DeadLettering(result)));
    case BUSINESS_OUTCOME => Onward(s, m, t, Owning(q, run, Announcing(result, None)));
    case RECOVERABLE => Onward(s, m, t, Owning(q, run, Completing(result, None)));
  }

  lemma CreateKeepsInv(s: Sys, t: nat, q: Request, c: Choice)
    requires GateInv(s) && t in s.threads && s.threads[t] == Creating(q)
    ensures GateInv(Create(s, t, q, c))
  {
  }

  // The requests that launch nothing.
  lemma OthersKeepInv(s: Sys, t: nat, c: Choice)
    requires GateInv(s) && t in s.threads && !s.threads[t].Owning? && !s.threads[t].Creating?
    requires OwnerRow(s.rows, s.threads[t])
    ensures GateInv(Advance(s, t, s.threads[t], c))
  {
    Told(s, Requested(""));
    match s.threads[t]
    case Looking(q) =>
      Told(s, Acked(q.key, c.id, true));
      Over(s, Tell(s, Acked(q.key, c.id, true)), t);
      Onward(s, s, t, Creating(q));
    case Claiming(saga) => Over(s, s, t); Onward(s, SetStatus(s, saga, HUMAN_CONTROLLED), t, Telling(ControlClaimed(saga)));
    case Recalling(saga) =>
      Over(s, s, t);
      if saga in s.sagas {
        Told(s, HumanActionRecorded(saga));
        Onward(s, Tell(s, HumanActionRecorded(saga)), t, Acting(s.sagas[saga].runId, true));
      }
    case Acting(run, viaSaga) =>
      Over(s, s, t);
      if run in s.live {
        Told(s, Fetched(run, s.live[run]));
        Onward(s, Tell(s, Fetched(run, s.live[run])), t, Performing(run, s.live[run], |s.facts|, viaSaga));
      }
    case Freeing(saga) =>
      Over(s, s, t);
      if saga in s.sagas { Onward(s, s, t, Releasing(s.sagas[saga].runId, Some(saga))); }
    case _ => SessionsKeepInv(s, t, c);
  }

  lemma SessionsKeepInv(s: Sys, t: nat, c: Choice)
    requires GateInv(s) && t in s.threads
    requires var th := s.threads[t]; th.Performing? || th.Releasing? || th.Closing? || th.Returning? || (th.Telling? && !th.fact.Gated?)
    ensures GateInv(Advance(s, t, s.threads[t], c))
  {
    Told(s, Requested(""));
    match s.threads[t]
    case Performing(run, x, fetched, viaSaga) => PerformKeepsInv(s, t, run, x, fetched, viaSaga, c);
    case Releasing(run, saga) => PopKeepsInv(s, t, run, saga);
    case Closing(run, x, saga) => Told(s, Closed(x)); ReturnedKeepsInv(s, Tell(s, Closed(x)), t, saga);
    case Returning(saga) => Onward(s, SetStatus(s, saga, if c.ok then RESUMED else TERMINATED), t, Telling(ControlReturned(saga)));
    case Telling(f) => Told(s, f); Over(s, Tell(s, f), t);
  }

  lemma PerformKeepsInv(s: Sys, t: nat, run: string, x: nat, fetched: nat, viaSaga: bool, c: Choice)
    requires GateInv(s)
    ensures GateInv(Perform(s, t, run, x, fetched, viaSaga, c))
  {
    Told(s, Performed(run, x, fetched));
    Over(s, s, t);
    Over(s, Tell(s, Performed(run, x, fetched)), t);
    Onward(s, Tell(s, Performed(run, x, fetched)), t, Telling(HumanActed(run, |s.facts|)));
  }

  lemma PopKeepsInv(s: Sys, t: nat, run: string, saga: Option<string>)
    requires GateInv(s)
    ensures GateInv(Pop(s, t, run, saga))
  {
    Told(s, Requested(""));
    if run in s.live {
      var m := Tell(s.(live := s.live - {run}), Popped(run, s.live[run]));
      assert Midway(s, m);
      Onward(s, m, t, Closing(run, s.live[run], saga));
    } else {
      ReturnedKeepsInv(s, s, t, saga);
    }
  }

  lemma ReturnedKeepsInv(s: Sys, m: Sys, t: nat, saga: Option<string>)
    requires GateInv(s) && Midway(s, m)
    ensures GateInv(Returned(m, t, saga))
  {
  }

  lemma {:induction false} RunKeepsGateInv(acts: seq<Action>)
    ensures GateInv(Run(acts))
  {
    if acts != [] {
      var s, a := Run(acts[..|acts| - 1]), acts[|acts| - 1];
      RunKeepsGateInv(acts[..|acts| - 1]);
      NextKeepsGateInv(s, a);
    }
  }

  lemma NextKeepsGateInv(s: Sys, a: Action)
    requires GateInv(s)
    ensures GateInv(Next(s, a))
  {
    Told(s, Requested(""));
    match a
    case Start(t, th) => if t !in s.threads && Fresh(th) { Onward(s, s, t, th); }
    case Step(t, c) =>
      if t in s.threads {
        match s.threads[t] {
          case Owning(q, run, stage) => SubmitKeepsInv(s, t, q, run, stage, c);
          case Creating(q) => CreateKeepsInv(s, t, q, c);
          case _ => assert OwnerRow(s.rows, s.threads[t]); OthersKeepInv(s, t, c);
        }
      }
    case Die(t) =>
      if t in s.threads {
        var x := Held(s.threads[t]);
        Over(s, s.(leaked := if x.Some? then s.leaked + {x.value} else s.leaked), t);
      }
  }

  // Behind every session lies a moment in the history of its target's breaker at which its run was
  // let through: with fewer than three failures recorded since the last success, or the cooldown since
  // the last failure over, or an earlier call since then having seen it over.
  lemma EveryLaunchWasLetThrough(acts: seq<Action>, x: nat)
    requires x < |Run(acts).sessions|
    ensures var s := Run(acts);
            var run := s.sessions[x];
            exists past: seq<CB.Event>, now: int :: Gated(run, past, now) in s.facts
              && run in s.rows && past + [CB.Probe(now)] <= CB.Past(s.history, TargetOfRow(s.rows[run]))
              && (|CB.Streak(past)| < CB.FAILURE_THRESHOLD || CB.CooledOff(past)
                  || (CB.Streak(past) != [] && now >= CB.Last(CB.Streak(past)) + CB.COOLDOWN_MS))
  {
    RunKeepsGateInv(acts);
    var s := Run(acts);
    assert WasGated(s.facts, s.sessions[x]);
    var past, now :| Gated(s.sessions[x], past, now) in s.facts;
    assert GateOk(s, s.sessions[x], past, now);
    CB.AdmitsExactly(past, now);
  }
}
