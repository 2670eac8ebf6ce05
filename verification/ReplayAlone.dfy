// One SubmitReplay from beginning to end, as a function; and that it is what the server does when that
// request's thread is the only one to move.
module ReplayAlone {
  import opened Prelude
  import opened ReplayServer
  import CB = CircuitBreaker
  import Executor

  // What the world outside answers at each point: clocks, ids, remote calls, the page.
  type World = Thread -> Choice

  datatype Ack = Ack(runId: string, deduplicated: bool)

  // ----- the request as a function on the tables -----

  function Ask(w: World, q: Request, run: string, stage: Stage): (c: Choice) {
    w(Owning(q, run, stage))
  }

  predicate Passes(s: Sys, q: Request, run: string, w: World) {
    CB.Admits(CB.After(CB.Past(s.history, TargetOf(q))), Ask(w, q, run, Gating).now)
  }

  // ReplayRequested, then the breaker; a run it turns away is completed and reported at once.
  function Admitted(s: Sys, q: Request, run: string, w: World): (r: Sys) {
    var now := Ask(w, q, run, Gating).now;
    var m := Record(Tell(s, Requested(run)), TargetOf(q), CB.Probe(now));
    if Passes(s, q, run, w) then Tell(m, Gated(run, CB.Past(s.history, TargetOf(q)), now))
    else Tell(Tell(Finish(m, run, REFUSAL, None), Refused(run)), Acked(q.key, run, false))
  }

  function ResultOf(s: Sys, q: Request, run: string, w: World): (r: Option<Executor.ReplayResult>) {
    if Ask(w, q, run, Resolving).ok && Ask(w, q, run, Launching).ok then Some(Ask(w, q, run, Running(|s.sessions|)).result) else None
  }

  // Resolve, launch, run, and close the session or keep it alive.
  function Executed(s: Sys, q: Request, run: string, w: World): (r: Sys) {
    if ResultOf(s, q, run, w).None? then s
    else
      var x, r := |s.sessions|, ResultOf(s, q, run, w).value;
      var m := Tell(s.(sessions := s.sessions + [run]), Ran(run, x, r));
      if r.outcome == Executor.HARD_FAILURE then m.(live := m.live[run := x]) else Tell(m, Closed(x))
  }

  function Logged(s: Sys, run: string, entries: seq<Executor.StepExecution>): (r: Sys) {
    s.(facts := s.facts + seq(|entries|, i requires 0 <= i < |entries| => StepLogged(run, entries[i])))
  }

  predicate Reports(q: Request, run: string, r: Executor.ReplayResult, w: World) {
    r.outcome == Executor.HARD_FAILURE ==>
      Ask(w, q, run, DeadLettering(r)).ok && Ask(w, q, run, Escalating(r, DeadLetterOf(q, run, r, w))).ok
  }

  function DeadLetterOf(q: Request, run: string, r: Executor.ReplayResult, w: World): (d: Option<string>) {
    if r.outcome == Executor.HARD_FAILURE then Some(Ask(w, q, run, DeadLettering(r)).id) else None
  }

  // The dead letter, the failure event and the escalation, as far as they get.
  function Escalated(s: Sys, q: Request, run: string, r: Executor.ReplayResult, w: World): (m: Sys) {
    if !Ask(w, q, run, DeadLettering(r)).ok then s
    else
      var c := Ask(w, q, run, Escalating(r, DeadLetterOf(q, run, r, w)));
      var m := Tell(s, HardFailed(run));
      if !c.ok then m else Tell(m.(sagas := m.sagas[c.id := Saga(run, INTERVENTION_REQUESTED)]), InterventionRequested(c.id, run))
  }

  function Reported(s: Sys, q: Request, run: string, r: Executor.ReplayResult, w: World): (m: Sys) {
    var now := Ask(w, q, run, Recording(r)).now;
    match r.outcome
    case HARD_FAILURE => Escalated(Record(s, TargetOf(q), CB.Failure(now)), q, run, r, w)
    case BUSINESS_OUTCOME => Tell(Record(s, TargetOf(q), CB.Success), Succeeded(run))
    case RECOVERABLE => Record(s, TargetOf(q), CB.Failure(now))
  }

  // An admitted run to its end; without the acknowledgement, an exception left SubmitReplay.
  function Carried(s: Sys, q: Request, run: string, w: World): (r: (Sys, Option<Ack>)) {
    var result := ResultOf(s, q, run, w);
    var m := Executed(s, q, run, w);
    if result.None? then (m, None)
    else
      var n := Reported(Logged(m, run, result.value.stepLog), q, run, result.value, w);
      if !Reports(q, run, result.value, w) then (n, None)
      else (Tell(Finish(n, run, result.value, DeadLetterOf(q, run, result.value, w)), Acked(q.key, run, false)), Some(Ack(run, false)))
  }

  // From create_pending on.
  function Handled(s: Sys, q: Request, w: World): (r: (Sys, Option<Ack>)) {
    var run := w(Creating(q)).id;
    if KeyTaken(s.rows, q.key) || run in s.rows then (s, None)
    else
      var m := s.(rows := s.rows[run := Pending(q)]);
      var n := Admitted(m, q, run, w);
      if Passes(m, q, run, w) then Carried(n, q, run, w) else (n, Some(Ack(run, false)))
  }

  // ----- the thread of a request, moving alone -----

  function Iterate<T>(f: T -> T, x: T, n: nat): (r: T)
    decreases n
  {
    if n == 0 then x else Iterate(f, f(x), n - 1)
  }

  lemma {:induction false} IterateAdds<T>(f: T -> T, x: T, n: nat, k: nat)
    ensures Iterate(f, Iterate(f, x, n), k) == Iterate(f, x, n + k)
    decreases n
  {
    if n > 0 { IterateAdds(f, f(x), n - 1, k); }
  }

  // One step of thread 0, if it is still there.
  function Tick(w: World): (f: Sys -> Sys) {
    (s: Sys) => if 0 in s.threads then Advance(s, 0, s.threads[0], w(s.threads[0])) else s
  }

  // Thread 0 takes n steps, or as many as it has.
  function Alone(s: Sys, w: World, n: nat): (r: Sys) {
    Iterate(Tick(w), s, n)
  }

  ghost predicate Reaches(s: Sys, r: Sys, w: World) {
    exists n :: Alone(s, w, n) == r
  }

  lemma Chain(a: Sys, b: Sys, c: Sys, w: World)
    requires Reaches(a, b, w) && Reaches(b, c, w)
    ensures Reaches(a, c, w)
  {
    var n: nat :| Alone(a, w, n) == b;
    var k: nat :| Alone(b, w, k) == c;
    IterateAdds(Tick(w), a, n, k);
    assert Alone(a, w, n + k) == c;
  }

  function At(s: Sys, th: Thread): (r: Sys) {
    s.(threads := map[0 := th])
  }

  function Stands(s: Sys, q: Request, run: string, stage: Stage): (r: Sys) {
    At(s, Owning(q, run, stage))
  }

  lemma OneStep(s: Sys, th: Thread, r: Sys, w: World)
    requires Advance(At(s, th), 0, th, w(th)) == r
    ensures Reaches(At(s, th), r, w)
  {
    assert Tick(w)(At(s, th)) == r;
    assert Alone(At(s, th), w, 1) == Alone(r, w, 0);
  }

  // One more step from a state already reached.
  lemma Then(a: Sys, s: Sys, th: Thread, r: Sys, w: World)
    requires Reaches(a, At(s, th), w) && Advance(At(s, th), 0, th, w(th)) == r
    ensures Reaches(a, r, w)
  {
    OneStep(s, th, r, w);
    Chain(a, At(s, th), r, w);
  }

  lemma Goes(a: Sys, s: Sys, q: Request, run: string, stage: Stage, m: Sys, next: Stage, w: World)
    requires Reaches(a, Stands(s, q, run, stage), w)
    requires Submit(Stands(s, q, run, stage), 0, q, run, stage, Ask(w, q, run, stage)) == Stands(m, q, run, next)
    ensures Reaches(a, Stands(m, q, run, next), w)
  {
    Then(a, s, Owning(q, run, stage), Stands(m, q, run, next), w);
  }

  lemma DoneIsIdle(s: Sys, th: Thread)
    requires s.threads == map[]
    ensures Done(At(s, th), 0) == s
  {
  }

  lemma AdmittedReached(s: Sys, q: Request, run: string, w: World)
    requires s.threads == map[]
    ensures var r := Admitted(s, q, run, w);
            Reaches(Stands(s, q, run, Requesting), if Passes(s, q, run, w) then Stands(r, q, run, Resolving) else r, w)
  {
    var a, s1 := Stands(s, q, run, Requesting), Tell(s, Requested(run));
    OneStep(s, Owning(q, run, Requesting), Stands(s1, q, run, Gating), w);
    GateReached(a, s1, q, run, w);
    if !Passes(s, q, run, w) {
      var s2 := Record(s1, TargetOf(q), CB.Probe(Ask(w, q, run, Gating).now));
      RefusedReached(s2, q, run, w);
      Chain(a, Stands(s2, q, run, Refusing), Admitted(s, q, run, w), w);
    }
  }

  lemma GateReached(a: Sys, s: Sys, q: Request, run: string, w: World)
    requires Reaches(a, Stands(s, q, run, Gating), w)
    ensures var now, past := Ask(w, q, run, Gating).now, CB.Past(s.history, TargetOf(q));
            var m := Record(s, TargetOf(q), CB.Probe(now));
            Reaches(a, if CB.Admits(CB.After(past), now) then Stands(Tell(m, Gated(run, past, now)), q, run, Resolving)
                       else Stands(m, q, run, Refusing), w)
  {
    var now, past := Ask(w, q, run, Gating).now, CB.Past(s.history, TargetOf(q));
    var m := Record(s, TargetOf(q), CB.Probe(now));
    Then(a, s, Owning(q, run, Gating),
         if CB.Admits(CB.After(past), now) then Stands(Tell(m, Gated(run, past, now)), q, run, Resolving) else Stands(m, q, run, Refusing), w);
  }

  lemma RefusedReached(s: Sys, q: Request, run: string, w: World)
    requires s.threads == map[]
    ensures Reaches(Stands(s, q, run, Refusing), Tell(Tell(Finish(s, run, REFUSAL, None), Refused(run)), Acked(q.key, run, false)), w)
  {
    var m := Finish(s, run, REFUSAL, None);
    OneStep(s, Owning(q, run, Refusing), Stands(m, q, run, RefusalTelling), w);
    DoneIsIdle(m, Owning(q, run, RefusalTelling));
    OneStep(m, Owning(q, run, RefusalTelling), Tell(Tell(m, Refused(run)), Acked(q.key, run, false)), w);
    Chain(Stands(s, q, run, Refusing), Stands(m, q, run, RefusalTelling), Tell(Tell(m, Refused(run)), Acked(q.key, run, false)), w);
  }

  lemma ExecutedReached(s: Sys, q: Request, run: string, w: World)
    requires s.threads == map[]
    ensures var r, result := Executed(s, q, run, w), ResultOf(s, q, run, w);
            Reaches(Stands(s, q, run, Resolving), if result.None? then r else Stands(r, q, run, Logging(result.value, 0)), w)
  {
    DoneIsIdle(s, Owning(q, run, Resolving));
    DoneIsIdle(s, Owning(q, run, Launching));
    if !Ask(w, q, run, Resolving).ok {
      OneStep(s, Owning(q, run, Resolving), s, w);
    } else {
      OneStep(s, Owning(q, run, Resolving), Stands(s, q, run, Launching), w);
      if !Ask(w, q, run, Launching).ok {
        OneStep(s, Owning(q, run, Launching), s, w);
        Chain(Stands(s, q, run, Resolving), Stands(s, q, run, Launching), s, w);
      } else {
        LaunchedReached(s, q, run, w);
        var r := ResultOf(s, q, run, w).value;
        Chain(Stands(s, q, run, Resolving), Stands(s, q, run, Launching), Stands(Executed(s, q, run, w), q, run, Logging(r, 0)), w);
      }
    }
  }

  lemma LaunchedReached(s: Sys, q: Request, run: string, w: World)
    requires s.threads == map[] && ResultOf(s, q, run, w).Some?
    ensures Reaches(Stands(s, q, run, Launching),
                    Stands(Executed(s, q, run, w), q, run, Logging(ResultOf(s, q, run, w).value, 0)), w)
  {
    var x, r := |s.sessions|, ResultOf(s, q, run, w).value;
    var s1 := s.(sessions := s.sessions + [run]);
    OneStep(s, Owning(q, run, Launching), Stands(s1, q, run, Running(x)), w);
    RanReached(Stands(s, q, run, Launching), s1, q, run, x, r, w);
    ParkedReached(Stands(s, q, run, Launching), Tell(s1, Ran(run, x, r)), q, run, x, r, w);
  }

  lemma RanReached(a: Sys, s: Sys, q: Request, run: string, x: nat, r: Executor.ReplayResult, w: World)
    requires Reaches(a, Stands(s, q, run, Running(x)), w) && Ask(w, q, run, Running(x)).result == r
    ensures Reaches(a, Stands(Tell(s, Ran(run, x, r)), q, run, Parking(x, r)), w)
  {
    Goes(a, s, q, run, Running(x), Tell(s, Ran(run, x, r)), Parking(x, r), w);
  }

  lemma ParkedReached(a: Sys, s: Sys, q: Request, run: string, x: nat, r: Executor.ReplayResult, w: World)
    requires Reaches(a, Stands(s, q, run, Parking(x, r)), w)
    ensures var m := if r.outcome == Executor.HARD_FAILURE then s.(live := s.live[run := x]) else Tell(s, Closed(x));
            Reaches(a, Stands(m, q, run, Logging(r, 0)), w)
  {
    var m := if r.outcome == Executor.HARD_FAILURE then s.(live := s.live[run := x]) else Tell(s, Closed(x));
    Goes(a, s, q, run, Parking(x, r), m, Logging(r, 0), w);
  }

  lemma OneLogged(s: Sys, q: Request, run: string, r: Executor.ReplayResult, i: nat, w: World)
    requires i < |r.stepLog|
    ensures Reaches(Stands(s, q, run, Logging(r, i)), Stands(Tell(s, StepLogged(run, r.stepLog[i])), q, run, Logging(r, i + 1)), w)
  {
    OneStep(s, Owning(q, run, Logging(r, i)), Stands(Tell(s, StepLogged(run, r.stepLog[i])), q, run, Logging(r, i + 1)), w);
  }

  lemma AllLogged(s: Sys, q: Request, run: string, r: Executor.ReplayResult, w: World)
    ensures Reaches(Stands(s, q, run, Logging(r, |r.stepLog|)), Stands(s, q, run, Recording(r)), w)
  {
    OneStep(s, Owning(q, run, Logging(r, |r.stepLog|)), Stands(s, q, run, Recording(r)), w);
  }

  lemma LoggedOneMore(s: Sys, run: string, entries: seq<Executor.StepExecution>, i: nat)
    requires i < |entries|
    ensures Logged(Tell(s, StepLogged(run, entries[i])), run, entries[i + 1..]) == Logged(s, run, entries[i..])
    ensures Logged(s, run, entries[|entries|..]) == s
  {
  }

  lemma {:induction false} LoggedReached(s: Sys, q: Request, run: string, r: Executor.ReplayResult, i: nat, w: World)
    requires i <= |r.stepLog|
    ensures Reaches(Stands(s, q, run, Logging(r, i)), Stands(Logged(s, run, r.stepLog[i..]), q, run, Recording(r)), w)
    decreases |r.stepLog| - i
  {
    if i < |r.stepLog| {
      var m := Tell(s, StepLogged(run, r.stepLog[i]));
      LoggedOneMore(s, run, r.stepLog, i);
      LoggedReached(m, q, run, r, i + 1, w);
      OneLogged(s, q, run, r, i, w);
      Chain(Stands(s, q, run, Logging(r, i)), Stands(m, q, run, Logging(r, i + 1)),
            Stands(Logged(s, run, r.stepLog[i..]), q, run, Recording(r)), w);
    } else {
      assert Logged(s, run, r.stepLog[i..]).facts == s.facts;
      AllLogged(s, q, run, r, w);
    }
  }

  lemma ReportedReached(s: Sys, q: Request, run: string, r: Executor.ReplayResult, w: World)
    requires s.threads == map[] && forall th :: w(th).id !in s.sagas
    ensures var m := Reported(s, q, run, r, w);
            Reaches(Stands(s, q, run, Recording(r)),
                    if Reports(q, run, r, w) then Stands(m, q, run, Completing(r, DeadLetterOf(q, run, r, w))) else m, w)
  {
    var now := Ask(w, q, run, Recording(r)).now;
    if r.outcome == Executor.HARD_FAILURE {
      var m := Record(s, TargetOf(q), CB.Failure(now));
      FailureRecorded(s, q, run, r, w);
      EscalatedReached(m, q, run, r, w);
      var e := Escalated(m, q, run, r, w);
      Chain(Stands(s, q, run, Recording(r)), Stands(m, q, run, DeadLettering(r)),
            if Reports(q, run, r, w) then Stands(e, q, run, Completing(r, DeadLetterOf(q, run, r, w))) else e, w);
    } else if r.outcome == Executor.BUSINESS_OUTCOME {
      SuccessReached(s, q, run, r, w);
    } else {
      OneStep(s, Owning(q, run, Recording(r)), Stands(Record(s, TargetOf(q), CB.Failure(now)), q, run, Completing(r, None)), w);
    }
  }

  lemma FailureRecorded(s: Sys, q: Request, run: string, r: Executor.ReplayResult, w: World)
    requires r.outcome == Executor.HARD_FAILURE
    ensures Reaches(Stands(s, q, run, Recording(r)),
                    Stands(Record(s, TargetOf(q), CB.Failure(Ask(w, q, run, Recording(r)).now)), q, run, DeadLettering(r)), w)
  {
    OneStep(s, Owning(q, run, Recording(r)),
            Stands(Record(s, TargetOf(q), CB.Failure(Ask(w, q, run, Recording(r)).now)), q, run, DeadLettering(r)), w);
  }

  lemma SuccessReached(s: Sys, q: Request, run: string, r: Executor.ReplayResult, w: World)
    requires r.outcome == Executor.BUSINESS_OUTCOME
    ensures Reaches(Stands(s, q, run, Recording(r)),
                    Stands(Tell(Record(s, TargetOf(q), CB.Success), Succeeded(run)), q, run, Completing(r, None)), w)
  {
    var m := Record(s, TargetOf(q), CB.Success);
    OneStep(s, Owning(q, run, Recording(r)), Stands(m, q, run, Announcing(r, None)), w);
    Goes(Stands(s, q, run, Recording(r)), m, q, run, Announcing(r, None), Tell(m, Succeeded(run)), Completing(r, None), w);
  }

  // The failure is dead-lettered and announced.
  lemma AnnouncedReached(s: Sys, q: Request, run: string, r: Executor.ReplayResult, d: Option<string>, w: World)
    requires r.outcome == Executor.HARD_FAILURE && Ask(w, q, run, DeadLettering(r)).ok && d == DeadLetterOf(q, run, r, w)
    ensures Reaches(Stands(s, q, run, DeadLettering(r)), Stands(Tell(s, HardFailed(run)), q, run, Escalating(r, d)), w)
  {
    OneStep(s, Owning(q, run, DeadLettering(r)), Stands(s, q, run, Announcing(r, d)), w);
    Goes(Stands(s, q, run, DeadLettering(r)), s, q, run, Announcing(r, d), Tell(s, HardFailed(run)), Escalating(r, d), w);
  }

  lemma EscalatedReached(s: Sys, q: Request, run: string, r: Executor.ReplayResult, w: World)
    requires s.threads == map[] && r.outcome == Executor.HARD_FAILURE && forall th :: w(th).id !in s.sagas
    ensures var m := Escalated(s, q, run, r, w);
            Reaches(Stands(s, q, run, DeadLettering(r)),
                    if Reports(q, run, r, w) then Stands(m, q, run, Completing(r, DeadLetterOf(q, run, r, w))) else m, w)
  {
    if !Ask(w, q, run, DeadLettering(r)).ok {
      DoneIsIdle(s, Owning(q, run, DeadLettering(r)));
      OneStep(s, Owning(q, run, DeadLettering(r)), s, w);
    } else {
      var d := DeadLetterOf(q, run, r, w);
      AnnouncedReached(s, q, run, r, d, w);
      RequestedReached(Stands(s, q, run, DeadLettering(r)), Tell(s, HardFailed(run)), q, run, r, d, w);
    }
  }

  lemma RequestedReached(a: Sys, s: Sys, q: Request, run: string, r: Executor.ReplayResult, d: Option<string>, w: World)
    requires s.threads == map[] && Reaches(a, Stands(s, q, run, Escalating(r, d)), w) && Ask(w, q, run, Escalating(r, d)).id !in s.sagas
    ensures var c := Ask(w, q, run, Escalating(r, d));
            var m := Tell(s.(sagas := s.sagas[c.id := Saga(run, INTERVENTION_REQUESTED)]), InterventionRequested(c.id, run));
            Reaches(a, if c.ok then Stands(m, q, run, Completing(r, d)) else s, w)
  {
    var c := Ask(w, q, run, Escalating(r, d));
    var m := Tell(s.(sagas := s.sagas[c.id := Saga(run, INTERVENTION_REQUESTED)]), InterventionRequested(c.id, run));
    DoneIsIdle(s, Owning(q, run, Escalating(r, d)));
    Then(a, s, Owning(q, run, Escalating(r, d)), if c.ok then Stands(m, q, run, Completing(r, d)) else s, w);
  }

  lemma CarriedReached(s: Sys, q: Request, run: string, w: World)
    requires s.threads == map[] && forall th :: w(th).id !in s.sagas
    ensures Reaches(Stands(s, q, run, Resolving), Carried(s, q, run, w).0, w)
  {
    var from, m := Stands(s, q, run, Resolving), Executed(s, q, run, w);
    ExecutedReached(s, q, run, w);
    if ResultOf(s, q, run, w).Some? {
      var r := ResultOf(s, q, run, w).value;
      LoggedReached(m, q, run, r, 0, w);
      assert r.stepLog[0..] == r.stepLog;
      var n := Logged(m, run, r.stepLog);
      Chain(from, Stands(m, q, run, Logging(r, 0)), Stands(n, q, run, Recording(r)), w);
      ReportedReached(n, q, run, r, w);
      FinishedReached(s, n, q, run, r, w);
    }
  }

  lemma FinishedReached(s: Sys, n: Sys, q: Request, run: string, r: Executor.ReplayResult, w: World)
    requires s.threads == map[] && n.threads == map[] && ResultOf(s, q, run, w) == Some(r)
    requires n == Logged(Executed(s, q, run, w), run, r.stepLog)
    requires Reaches(Stands(s, q, run, Resolving), Stands(n, q, run, Recording(r)), w)
    requires var m := Reported(n, q, run, r, w);
             Reaches(Stands(n, q, run, Recording(r)),
                     if Reports(q, run, r, w) then Stands(m, q, run, Completing(r, DeadLetterOf(q, run, r, w))) else m, w)
    ensures Reaches(Stands(s, q, run, Resolving), Carried(s, q, run, w).0, w)
  {
    var from, m, d := Stands(s, q, run, Resolving), Reported(n, q, run, r, w), DeadLetterOf(q, run, r, w);
    if Reports(q, run, r, w) {
      Chain(from, Stands(n, q, run, Recording(r)), Stands(m, q, run, Completing(r, d)), w);
      var end := Tell(Finish(m, run, r, d), Acked(q.key, run, false));
      CompletedReached(m, q, run, r, d, w);
      Chain(from, Stands(m, q, run, Completing(r, d)), end, w);
    } else {
      Chain(from, Stands(n, q, run, Recording(r)), m, w);
    }
  }

  lemma CompletedReached(s: Sys, q: Request, run: string, r: Executor.ReplayResult, d: Option<string>, w: World)
    requires s.threads == map[]
    ensures Reaches(Stands(s, q, run, Completing(r, d)), Tell(Finish(s, run, r, d), Acked(q.key, run, false)), w)
  {
    DoneIsIdle(Finish(s, run, r, d), Owning(q, run, Completing(r, d)));
    OneStep(s, Owning(q, run, Completing(r, d)), Tell(Finish(s, run, r, d), Acked(q.key, run, false)), w);
  }

  // Handling a request is what its thread does when nobody else moves, provided the ids the world
  // hands out are new.
  lemma HandledReached(s: Sys, q: Request, w: World)
    requires s.threads == map[] && (forall th :: w(th).id !in s.sagas) && w(Creating(q)).id !in s.rows
    ensures Reaches(At(s, Creating(q)), Handled(s, q, w).0, w)
  {
    var run := w(Creating(q)).id;
    DoneIsIdle(s, Creating(q));
    if KeyTaken(s.rows, q.key) {
      OneStep(s, Creating(q), s, w);
    } else {
      var m := s.(rows := s.rows[run := Pending(q)]);
      OneStep(s, Creating(q), Stands(m, q, run, Requesting), w);
      var n := Admitted(m, q, run, w);
      AdmittedReached(m, q, run, w);
      Chain(At(s, Creating(q)), Stands(m, q, run, Requesting), if Passes(m, q, run, w) then Stands(n, q, run, Resolving) else n, w);
      if Passes(m, q, run, w) {
        CarriedReached(n, q, run, w);
        Chain(At(s, Creating(q)), Stands(n, q, run, Resolving), Carried(n, q, run, w).0, w);
      }
    }
  }

  // ----- requests on live sessions -----

  function Released(s: Sys, run: string): (r: Sys) {
    if run in s.live then Tell(Tell(s.(live := s.live - {run}), Popped(run, s.live[run])), Closed(s.live[run])) else s
  }

  lemma ReleasedReached(s: Sys, run: string, w: World)
    requires s.threads == map[]
    ensures Reaches(At(s, Releasing(run, None)), Released(s, run), w)
  {
    DoneIsIdle(s, Releasing(run, None));
    if run in s.live {
      var m := Tell(s.(live := s.live - {run}), Popped(run, s.live[run]));
      OneStep(s, Releasing(run, None), At(m, Closing(run, s.live[run], None)), w);
      DoneIsIdle(Tell(m, Closed(s.live[run])), Closing(run, s.live[run], None));
      Then(At(s, Releasing(run, None)), m, Closing(run, s.live[run], None), Tell(m, Closed(s.live[run])), w);
    } else {
      OneStep(s, Releasing(run, None), s, w);
    }
  }

  function Acted(s: Sys, run: string, viaSaga: bool, w: World): (r: Sys) {
    if run !in s.live then s
    else
      var x, n, m := s.live[run], |s.facts|, Tell(s, Fetched(run, s.live[run]));
      if w(Performing(run, x, n, viaSaga)).ok then Tell(m, Performed(run, x, n)) else m
  }

  lemma ActedReached(s: Sys, run: string, w: World)
    requires s.threads == map[] && (run in s.live ==> Closed(s.live[run]) !in s.facts)
    ensures Reaches(At(s, Acting(run, false)), Acted(s, run, false, w), w)
  {
    DoneIsIdle(s, Acting(run, false));
    if run in s.live {
      var x, n, m := s.live[run], |s.facts|, Tell(s, Fetched(run, s.live[run]));
      OneStep(s, Acting(run, false), At(m, Performing(run, x, n, false)), w);
      DoneIsIdle(Acted(s, run, false, w), Performing(run, x, n, false));
      DoneIsIdle(m, Performing(run, x, n, false));
      Then(At(s, Acting(run, false)), m, Performing(run, x, n, false), Acted(s, run, false, w), w);
    } else {
      OneStep(s, Acting(run, false), s, w);
    }
  }

  // ----- the saga's requests -----

  function Claimed(s: Sys, saga: string): (r: Sys) {
    if saga in s.sagas then Tell(SetStatus(s, saga, HUMAN_CONTROLLED), ControlClaimed(saga)) else s
  }

  lemma ClaimedReached(s: Sys, saga: string, w: World)
    requires s.threads == map[]
    ensures Reaches(At(s, Claiming(saga)), Claimed(s, saga), w)
  {
    DoneIsIdle(s, Claiming(saga));
    if saga in s.sagas {
      var m := SetStatus(s, saga, HUMAN_CONTROLLED);
      OneStep(s, Claiming(saga), At(m, Telling(ControlClaimed(saga))), w);
      ToldReached(At(s, Claiming(saga)), m, ControlClaimed(saga), w);
    } else {
      OneStep(s, Claiming(saga), s, w);
    }
  }

  // RecordHumanAction: the action is on record whether or not it could be performed; HumanActed says it was.
  function Recalled(s: Sys, saga: string, w: World): (r: Sys) {
    if saga !in s.sagas then s
    else
      var m, run := Tell(s, HumanActionRecorded(saga)), s.sagas[saga].runId;
      var n := Acted(m, run, true, w);
      if run in s.live && w(Performing(run, s.live[run], |m.facts|, true)).ok then Tell(n, HumanActed(run, |m.facts| + 1)) else n
  }

  lemma RecalledReached(s: Sys, saga: string, w: World)
    requires s.threads == map[] && forall r :: r in s.live ==> Closed(s.live[r]) !in s.facts
    ensures Reaches(At(s, Recalling(saga)), Recalled(s, saga, w), w)
  {
    DoneIsIdle(s, Recalling(saga));
    if saga in s.sagas {
      var m, run := Tell(s, HumanActionRecorded(saga)), s.sagas[saga].runId;
      OneStep(s, Recalling(saga), At(m, Acting(run, true)), w);
      if run in s.live {
        var n := Tell(m, Fetched(run, s.live[run]));
        Then(At(s, Recalling(saga)), m, Acting(run, true), At(n, Performing(run, s.live[run], |m.facts|, true)), w);
        PerformedReached(At(s, Recalling(saga)), n, run, s.live[run], |m.facts|, w);
      } else {
        DoneIsIdle(m, Acting(run, true));
        Then(At(s, Recalling(saga)), m, Acting(run, true), m, w);
      }
    } else {
      OneStep(s, Recalling(saga), s, w);
    }
  }

  lemma PerformedReached(a: Sys, m: Sys, run: string, x: nat, p: nat, w: World)
    requires m.threads == map[] && Reaches(a, At(m, Performing(run, x, p, true)), w) && Closed(x) !in m.facts
    ensures Reaches(a, if w(Performing(run, x, p, true)).ok then Tell(Tell(m, Performed(run, x, p)), HumanActed(run, |m.facts|)) else m, w)
  {
    DoneIsIdle(m, Performing(run, x, p, true));
    if w(Performing(run, x, p, true)).ok {
      var n, f := Tell(m, Performed(run, x, p)), HumanActed(run, |m.facts|);
      Then(a, m, Performing(run, x, p, true), At(n, Telling(f)), w);
      ToldReached(a, n, f, w);
    } else {
      Then(a, m, Performing(run, x, p, true), m, w);
    }
  }

  // ReleaseControl: the live session first, then the saga's own row.
  function Freed(s: Sys, saga: string, w: World): (r: Sys) {
    if saga !in s.sagas then s
    else Tell(SetStatus(Released(s, s.sagas[saga].runId), saga, if w(Returning(saga)).ok then RESUMED else TERMINATED), ControlReturned(saga))
  }

  lemma FreedReached(s: Sys, saga: string, w: World)
    requires s.threads == map[]
    ensures Reaches(At(s, Freeing(saga)), Freed(s, saga, w), w)
  {
    if saga in s.sagas {
      var run := s.sagas[saga].runId;
      OneStep(s, Freeing(saga), At(s, Releasing(run, Some(saga))), w);
      PoppedReached(At(s, Freeing(saga)), s, run, saga, w);
      ReturnedReached(At(s, Freeing(saga)), Released(s, run), saga, w);
    } else {
      DoneIsIdle(s, Freeing(saga));
      OneStep(s, Freeing(saga), s, w);
    }
  }

  lemma PoppedReached(a: Sys, s: Sys, run: string, saga: string, w: World)
    requires Reaches(a, At(s, Releasing(run, Some(saga))), w)
    ensures Reaches(a, At(Released(s, run), Returning(saga)), w)
  {
    if run in s.live {
      var m := Tell(s.(live := s.live - {run}), Popped(run, s.live[run]));
      Then(a, s, Releasing(run, Some(saga)), At(m, Closing(run, s.live[run], Some(saga))), w);
      ClosedReached(a, m, run, s.live[run], saga, w);
    } else {
      Then(a, s, Releasing(run, Some(saga)), At(s, Returning(saga)), w);
    }
  }

  lemma ClosedReached(a: Sys, s: Sys, run: string, x: nat, saga: string, w: World)
    requires Reaches(a, At(s, Closing(run, x, Some(saga))), w)
    ensures Reaches(a, At(Tell(s, Closed(x)), Returning(saga)), w)
  {
    Then(a, s, Closing(run, x, Some(saga)), At(Tell(s, Closed(x)), Returning(saga)), w);
  }

  lemma ToldReached(a: Sys, s: Sys, f: Fact, w: World)
    requires s.threads == map[] && Reaches(a, At(s, Telling(f)), w)
    ensures Reaches(a, Tell(s, f), w)
  {
    DoneIsIdle(Tell(s, f), Telling(f));
    Then(a, s, Telling(f), Tell(s, f), w);
  }

  lemma ReturnedReached(a: Sys, s: Sys, saga: string, w: World)
    requires s.threads == map[] && Reaches(a, At(s, Returning(saga)), w)
    ensures Reaches(a, Tell(SetStatus(s, saga, if w(Returning(saga)).ok then RESUMED else TERMINATED), ControlReturned(saga)), w)
  {
    var m := SetStatus(s, saga, if w(Returning(saga)).ok then RESUMED else TERMINATED);
    Then(a, s, Returning(saga), At(m, Telling(ControlReturned(saga))), w);
    ToldReached(a, m, ControlReturned(saga), w);
  }

  // A request that runs alone ends in one state only.
  lemma {:induction false} EndIsUnique(s: Sys, w: World, n: nat, k: nat)
    requires 0 !in Alone(s, w, n).threads && 0 !in Alone(s, w, k).threads
    ensures Alone(s, w, n) == Alone(s, w, k)
  {
    if n <= k {
      IterateAdds(Tick(w), s, n, k - n);
      Stays(Alone(s, w, n), w, k - n);
    } else {
      IterateAdds(Tick(w), s, k, n - k);
      Stays(Alone(s, w, k), w, n - k);
    }
  }

  lemma {:induction false} Stays(s: Sys, w: World, n: nat)
    requires 0 !in s.threads
    ensures Alone(s, w, n) == s
  {
    if n > 0 {
      assert Tick(w)(s) == s;
      Stays(s, w, n - 1);
    }
  }

  // And it is a run of the server, so all that is proved of those holds of it.
  lemma {:induction false} AloneIsARun(s: Sys, w: World, n: nat)
    ensures IsRun(s, Alone(s, w, n))
  {
    if n == 0 {
      assert RunFrom(s, []) == s;
    } else {
      AloneIsARun(s, w, n - 1);
      IterateAdds(Tick(w), s, n - 1, 1);
      RunTicks(s, Alone(s, w, n - 1), w);
    }
  }

  ghost predicate IsRun(s: Sys, r: Sys) {
    exists acts :: RunFrom(s, acts) == r
  }

  lemma RunTicks(s: Sys, m: Sys, w: World)
    requires IsRun(s, m)
    ensures IsRun(s, Iterate(Tick(w), m, 1))
  {
    var acts :| RunFrom(s, acts) == m;
    if 0 in m.threads {
      RunOneMore(s, acts, Step(0, w(m.threads[0])));
    }
    assert Iterate(Tick(w), m, 1) == Tick(w)(m);
  }

  lemma RunOneMore(s: Sys, acts: seq<Action>, a: Action)
    ensures RunFrom(s, acts + [a]) == Next(RunFrom(s, acts), a)
  {
  }
}
