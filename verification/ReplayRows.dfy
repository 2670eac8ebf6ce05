// What the stored row of a run says of it, in every reachable state of the replay server: nothing before its
// end, then field by field what the page gave, or that the breaker turned it away.
module ReplayRows {
  import opened Prelude
  import opened ReplayServer
  import opened ReplaySafety
  import opened ReplaySessions
  import opened ReplayTheorems
  import Solo = ReplayAlone
  import CB = CircuitBreaker
  import Executor

  // ----- what a row may say -----

  predicate Unfinished(row: RunRow) {
    row.outcome == PENDING && row.outputs == map[] && row.retryCount == 0 && row.failedStepId.None? && row.deadLetterEventId.None?
  }

  predicate TurnedAway(row: RunRow) {
    && row.outcome == Finished(Executor.HARD_FAILURE) && row.outputs == map[] && row.retryCount == 0
    && row.failedStepId.None? && row.deadLetterEventId.None?
  }

  // The result of the run, field by field; a dead letter exactly for a hard failure.
  predicate Tells(row: RunRow, r: Executor.ReplayResult) {
    && row.outcome == Finished(r.outcome) && row.outputs == r.outputs && row.retryCount == r.retryCount
    && row.failedStepId == r.failedStepId && (row.deadLetterEventId.Some? <==> r.outcome == Executor.HARD_FAILURE)
  }

  // ----- what the facts say of a run -----

  ghost predicate RanAs(facts: seq<Fact>, run: string, r: Executor.ReplayResult) {
    exists x :: Ran(run, x, r) in facts
  }

  ghost predicate HasRun(facts: seq<Fact>, run: string) {
    exists r :: RanAs(facts, run, r)
  }

  // Its own request has been answered.
  ghost predicate Answered(facts: seq<Fact>, run: string) {
    exists key :: Acked(key, run, false) in facts
  }

  predicate About(f: Fact, run: string) {
    || (f.Ran? && f.runId == run) || (f.Acked? && !f.deduplicated && f.runId == run)
    || f == Refused(run) || f == HardFailed(run) || f == Succeeded(run)
  }

  // Says nothing of how any run went.
  predicate Wordless(f: Fact) {
    !f.Ran? && !f.Refused? && !f.HardFailed? && !f.Succeeded? && (f.Acked? ==> f.deduplicated)
  }

  ghost predicate OneResult(facts: seq<Fact>, run: string) {
    forall r, r' :: RanAs(facts, run, r) && RanAs(facts, run, r') ==> r == r'
  }

  ghost predicate RanWith(facts: seq<Fact>, run: string, outcome: Executor.ReplayOutcome) {
    exists r: Executor.ReplayResult :: RanAs(facts, run, r) && r.outcome == outcome
  }

  // The end that is told of a run is that of its result, and has been told once its request is answered.
  ghost predicate EndTold(facts: seq<Fact>, run: string) {
    && (HardFailed(run) in facts ==> RanWith(facts, run, Executor.HARD_FAILURE))
    && (Succeeded(run) in facts ==> RanWith(facts, run, Executor.BUSINESS_OUTCOME))
    && (Answered(facts, run) && RanWith(facts, run, Executor.HARD_FAILURE) ==> HardFailed(run) in facts)
    && (Answered(facts, run) && RanWith(facts, run, Executor.BUSINESS_OUTCOME) ==> Succeeded(run) in facts)
  }

  ghost predicate RowOk(row: RunRow, facts: seq<Fact>, run: string) {
    && OneResult(facts, run) && EndTold(facts, run)
    && (if Answered(facts, run) then (exists r :: RanAs(facts, run, r) && Tells(row, r)) || (TurnedAway(row) && !HasRun(facts, run) && Refused(run) in facts)
        else Unfinished(row) || (TurnedAway(row) && !HasRun(facts, run)))
    && (Refused(run) in facts ==> TurnedAway(row) && !HasRun(facts, run))
  }

  // What the owner of a run knows of its row.
  ghost predicate StageOk(row: RunRow, facts: seq<Fact>, run: string, stage: Stage) {
    && !Answered(facts, run) && Refused(run) !in facts
    && (if stage.RefusalTelling? then TurnedAway(row) && !HasRun(facts, run)
        else Unfinished(row) && if Before(stage) || stage.Running? then !HasRun(facts, run) else RanAs(facts, run, stage.result))
    && (stage.DeadLettering? ==> stage.result.outcome == Executor.HARD_FAILURE)
    && (stage.Announcing? || stage.Escalating? || stage.Completing? ==> (stage.deadLetter.Some? <==> stage.result.outcome == Executor.HARD_FAILURE))
    && ToldAt(facts, run, stage)
  }

  // How far the telling of the end has come at the late stages.
  ghost predicate ToldAt(facts: seq<Fact>, run: string, stage: Stage) {
    && (stage.Announcing? ==> stage.result.outcome != Executor.RECOVERABLE)
    && (stage.Escalating? ==> stage.result.outcome == Executor.HARD_FAILURE && HardFailed(run) in facts)
    && (stage.Completing? ==> (stage.result.outcome == Executor.HARD_FAILURE ==> HardFailed(run) in facts)
                              && (stage.result.outcome == Executor.BUSINESS_OUTCOME ==> Succeeded(run) in facts))
  }

  ghost predicate ThreadOk(rows: map<string, RunRow>, facts: seq<Fact>, th: Thread) {
    && (th.Owning? ==> th.runId in rows && StageOk(rows[th.runId], facts, th.runId, th.stage))
    && (th.Telling? ==> Wordless(th.fact))
  }

  ghost predicate Mentioned(facts: seq<Fact>, run: string) {
    HasRun(facts, run) || Answered(facts, run) || Refused(run) in facts || HardFailed(run) in facts || Succeeded(run) in facts
  }

  ghost predicate RowsInv(s: Sys) {
    && (forall run :: run in s.rows ==> RowOk(s.rows[run], s.facts, run))
    && (forall run :: Mentioned(s.facts, run) ==> run in s.rows)
    && (forall t :: t in s.threads ==> ThreadOk(s.rows, s.facts, s.threads[t]))
  }

  // ----- facts that do not mention a run say nothing of it -----

  ghost predicate SameWord(facts: seq<Fact>, after: seq<Fact>, run: string) {
    && (forall r :: RanAs(after, run, r) <==> RanAs(facts, run, r))
    && (Answered(after, run) <==> Answered(facts, run)) && (Refused(run) in after <==> Refused(run) in facts)
    && (HardFailed(run) in after <==> HardFailed(run) in facts) && (Succeeded(run) in after <==> Succeeded(run) in facts)
  }

  lemma NotAbout(facts: seq<Fact>, more: seq<Fact>, run: string)
    requires forall f :: f in more ==> !About(f, run)
    ensures SameWord(facts, facts + more, run)
  {
    forall f | About(f, run) ensures f in facts + more <==> f in facts { }
    forall r ensures RanAs(facts + more, run, r) <==> RanAs(facts, run, r) {
      assert forall x :: About(Ran(run, x, r), run);
    }
    assert forall key :: About(Acked(key, run, false), run);
  }

  lemma SameRow(row: RunRow, facts: seq<Fact>, after: seq<Fact>, run: string)
    requires SameWord(facts, after, run)
    ensures RowOk(row, facts, run) ==> RowOk(row, after, run)
    ensures Mentioned(after, run) ==> Mentioned(facts, run)
    ensures forall stage :: StageOk(row, facts, run, stage) ==> StageOk(row, after, run, stage)
  {
    if HasRun(after, run) {
      var r :| RanAs(after, run, r);
      assert RanAs(facts, run, r);
    }
    if HasRun(facts, run) {
      var r :| RanAs(facts, run, r);
      assert RanAs(after, run, r);
    }
    if r :| RanAs(facts, run, r) && Tells(row, r) { assert RanAs(after, run, r); }
  }

  // ----- one step -----

  // Only run is concerned: thread t is the only one that may own it, and what it leaves is in order.
  ghost predicate Concerns(s: Sys, s': Sys, t: nat, run: string, more: seq<Fact>) {
    && s'.facts == s.facts + more && (forall f, q :: f in more && q != run ==> !About(f, q))
    && OthersSame(s.threads, s'.threads, t) && (forall u :: u != t ==> !Owns(s.threads, u, run))
    && (forall q :: q in s.rows && q != run ==> q in s'.rows && s'.rows[q] == s.rows[q])
    && (forall q :: q in s'.rows && q != run ==> q in s.rows)
    && run in s'.rows && RowOk(s'.rows[run], s'.facts, run)
    && (t in s'.threads ==> ThreadOk(s'.rows, s'.facts, s'.threads[t]))
  }

  lemma OtherThreadOk(s: Sys, s': Sys, t: nat, run: string, more: seq<Fact>, u: nat)
    requires RowsInv(s) && Concerns(s, s', t, run, more) && u in s'.threads && u != t
    ensures ThreadOk(s'.rows, s'.facts, s'.threads[u])
  {
    var th := s.threads[u];
    assert ThreadOk(s.rows, s.facts, th);
    if th.Owning? {
      assert Owns(s.threads, u, th.runId);
      NotAbout(s.facts, more, th.runId);
      SameRow(s.rows[th.runId], s.facts, s'.facts, th.runId);
    }
  }

  lemma ConcernsKeeps(s: Sys, s': Sys, t: nat, run: string, more: seq<Fact>)
    requires RowsInv(s) && Concerns(s, s', t, run, more)
    ensures RowsInv(s')
  {
    forall q | q != run ensures (q in s'.rows ==> RowOk(s'.rows[q], s'.facts, q)) && (Mentioned(s'.facts, q) ==> q in s'.rows) {
      NotAbout(s.facts, more, q);
      if q in s.rows { SameRow(s.rows[q], s.facts, s'.facts, q); } else { SameRow(Pending(Request("", "", 0, "", "")), s.facts, s'.facts, q); }
    }
    forall u | u in s'.threads ensures ThreadOk(s'.rows, s'.facts, s'.threads[u]) {
      if u != t { OtherThreadOk(s, s', t, run, more, u); }
    }
  }

  // Nothing is said of any run, and no row changes.
  ghost predicate Apart(s: Sys, s': Sys, t: nat, more: seq<Fact>) {
    && s'.rows == s.rows && s'.facts == s.facts + more && OthersSame(s.threads, s'.threads, t)
    && (forall f :: f in more ==> Wordless(f))
    && (t in s'.threads ==> ThreadOk(s.rows, s.facts, s'.threads[t]))
  }

  lemma ApartThreadOk(s: Sys, s': Sys, t: nat, more: seq<Fact>, th: Thread)
    requires Apart(s, s', t, more) && ThreadOk(s.rows, s.facts, th)
    ensures ThreadOk(s'.rows, s'.facts, th)
  {
    if th.Owning? {
      NotAbout(s.facts, more, th.runId);
      SameRow(s.rows[th.runId], s.facts, s'.facts, th.runId);
    }
  }

  lemma ApartKeeps(s: Sys, s': Sys, t: nat, more: seq<Fact>)
    requires RowsInv(s) && Apart(s, s', t, more)
    ensures RowsInv(s')
  {
    forall q ensures (q in s'.rows ==> RowOk(s'.rows[q], s'.facts, q)) && (Mentioned(s'.facts, q) ==> q in s'.rows) {
      NotAbout(s.facts, more, q);
      if q in s.rows { SameRow(s.rows[q], s.facts, s'.facts, q); } else { SameRow(Pending(Request("", "", 0, "", "")), s.facts, s'.facts, q); }
    }
    forall u | u in s'.threads ensures ThreadOk(s'.rows, s'.facts, s'.threads[u]) {
      if u != t { assert ThreadOk(s.rows, s.facts, s.threads[u]); }
      ApartThreadOk(s, s', t, more, s'.threads[u]);
    }
  }

  // How a step that says nothing of any run ends: its thread goes on, or is done.
  lemma Onward(s: Sys, m: Sys, t: nat, th: Thread, more: seq<Fact>)
    requires RowsInv(s) && m.threads == s.threads && m.rows == s.rows && m.facts == s.facts + more && ThreadOk(s.rows, s.facts, th)
    requires forall f :: f in more ==> Wordless(f)
    ensures RowsInv(Goto(m, t, th))
  {
    ApartKeeps(s, Goto(m, t, th), t, more);
  }

  lemma Over(s: Sys, m: Sys, t: nat, more: seq<Fact>)
    requires RowsInv(s) && m.threads == s.threads && m.rows == s.rows && m.facts == s.facts + more
    requires forall f :: f in more ==> Wordless(f)
    ensures RowsInv(Done(m, t))
  {
    ApartKeeps(s, Done(m, t), t, more);
  }

  // ----- the steps that concern a run -----

  lemma CreateKeepsRows(s: Sys, t: nat, q: Request, c: Choice)
    requires OwnersOk(s.rows, s.threads) && RowsInv(s) && t in s.threads && s.threads[t] == Creating(q)
    ensures RowsInv(Create(s, t, q, c))
  {
    if KeyTaken(s.rows, q.key) {
      Over(s, s, t, []);
    } else if c.id !in s.rows {
      assert !Mentioned(s.facts, c.id);
      assert s.facts == s.facts + [];
      assert forall u :: !Owns(s.threads, u, c.id);
      ConcernsKeeps(s, Create(s, t, q, c), t, c.id, []);
    }
  }

  // The owner and its row.
  ghost predicate At(s: Sys, t: nat, q: Request, run: string, stage: Stage) {
    && RowsInv(s) && OwnersOk(s.rows, s.threads) && t in s.threads && s.threads[t] == Owning(q, run, stage)
  }

  lemma OwnerKnows(s: Sys, t: nat, q: Request, run: string, stage: Stage)
    requires At(s, t, q, run, stage)
    ensures run in s.rows && StageOk(s.rows[run], s.facts, run, stage) && RowOk(s.rows[run], s.facts, run)
    ensures forall u :: u != t ==> !Owns(s.threads, u, run)
  {
    assert ThreadOk(s.rows, s.facts, s.threads[t]);
    assert Owns(s.threads, t, run);
  }

  lemma RefusingKeepsRows(s: Sys, t: nat, q: Request, run: string, c: Choice)
    requires At(s, t, q, run, Refusing)
    ensures RowsInv(Submit(s, t, q, run, Refusing, c))
  {
    OwnerKnows(s, t, q, run, Refusing);
    assert s.facts == s.facts + [];
    ConcernsKeeps(s, Submit(s, t, q, run, Refusing, c), t, run, []);
  }

  lemma RefusedRow(row: RunRow, facts: seq<Fact>, run: string, key: string)
    requires TurnedAway(row) && !HasRun(facts, run) && RowOk(row, facts, run)
    ensures RowOk(row, facts + [Refused(run), Acked(key, run, false)], run)
  {
    var after := facts + [Refused(run), Acked(key, run, false)];
    forall r ensures !RanAs(after, run, r) {
      assert !RanAs(facts, run, r);
    }
    assert Acked(key, run, false) in after;
  }

  lemma RefusalKeepsRows(s: Sys, t: nat, q: Request, run: string, c: Choice)
    requires At(s, t, q, run, RefusalTelling)
    ensures RowsInv(Submit(s, t, q, run, RefusalTelling, c))
  {
    OwnerKnows(s, t, q, run, RefusalTelling);
    RefusedRow(s.rows[run], s.facts, run, q.key);
    var s' := Submit(s, t, q, run, RefusalTelling, c);
    assert s'.facts == s.facts + [Refused(run), Acked(q.key, run, false)];
    ConcernsKeeps(s, s', t, run, [Refused(run), Acked(q.key, run, false)]);
  }

  lemma RanRow(row: RunRow, facts: seq<Fact>, run: string, x: nat, r: Executor.ReplayResult)
    requires RowOk(row, facts, run) && Unfinished(row) && !HasRun(facts, run) && !Answered(facts, run) && Refused(run) !in facts
    ensures var after := facts + [Ran(run, x, r)];
            RowOk(row, after, run) && RanAs(after, run, r) && !Answered(after, run) && Refused(run) !in after
  {
    var after := facts + [Ran(run, x, r)];
    assert Ran(run, x, r) in after;
    forall r' | RanAs(after, run, r') ensures r' == r {
      assert !RanAs(facts, run, r');
    }
    assert forall key :: Acked(key, run, false) in after <==> Acked(key, run, false) in facts;
  }

  lemma RunningKeepsRows(s: Sys, t: nat, q: Request, run: string, x: nat, c: Choice)
    requires At(s, t, q, run, Running(x))
    ensures RowsInv(Submit(s, t, q, run, Running(x), c))
  {
    OwnerKnows(s, t, q, run, Running(x));
    RanRow(s.rows[run], s.facts, run, x, c.result);
    ConcernsKeeps(s, Submit(s, t, q, run, Running(x), c), t, run, [Ran(run, x, c.result)]);
  }

  lemma CompletedRow(row: RunRow, facts: seq<Fact>, run: string, key: string, r: Executor.ReplayResult, d: Option<string>)
    requires OneResult(facts, run) && EndTold(facts, run) && RanAs(facts, run, r) && Refused(run) !in facts
    requires (d.Some? <==> r.outcome == Executor.HARD_FAILURE) && ToldAt(facts, run, Completing(r, d))
    ensures RowOk(Completed(row, r, d), facts + [Acked(key, run, false)], run)
  {
    var after := facts + [Acked(key, run, false)];
    assert Acked(key, run, false) in after;
    assert forall x, r' :: Ran(run, x, r') in after <==> Ran(run, x, r') in facts;
    forall r' ensures RanAs(after, run, r') <==> RanAs(facts, run, r') {
      if RanAs(after, run, r') { var x :| Ran(run, x, r') in after; assert Ran(run, x, r') in facts; }
    }
    assert Tells(Completed(row, r, d), r);
  }

  lemma CompletingKeepsRows(s: Sys, t: nat, q: Request, run: string, result: Executor.ReplayResult, d: Option<string>, c: Choice)
    requires At(s, t, q, run, Completing(result, d))
    ensures RowsInv(Submit(s, t, q, run, Completing(result, d), c))
  {
    OwnerKnows(s, t, q, run, Completing(result, d));
    CompletedRow(s.rows[run], s.facts, run, q.key, result, d);
    ConcernsKeeps(s, Submit(s, t, q, run, Completing(result, d), c), t, run, [Acked(q.key, run, false)]);
  }

  function EndOf(run: string, r: Executor.ReplayResult): (f: Fact) {
    if r.outcome == Executor.HARD_FAILURE then HardFailed(run) else Succeeded(run)
  }

  lemma ToldRow(row: RunRow, facts: seq<Fact>, run: string, r: Executor.ReplayResult, d: Option<string>)
    requires RowOk(row, facts, run) && StageOk(row, facts, run, Announcing(r, d))
    ensures var after := facts + [EndOf(run, r)];
            && RowOk(row, after, run)
            && StageOk(row, after, run, if r.outcome == Executor.HARD_FAILURE then Escalating(r, d) else Completing(r, d))
  {
    var f := EndOf(run, r);
    var after := facts + [f];
    assert f in after;
    assert forall x, r' :: Ran(run, x, r') in after <==> Ran(run, x, r') in facts;
    forall r' ensures RanAs(after, run, r') <==> RanAs(facts, run, r') {
      if RanAs(after, run, r') { var x :| Ran(run, x, r') in after; assert Ran(run, x, r') in facts; }
    }
    assert forall key :: Acked(key, run, false) in after <==> Acked(key, run, false) in facts;
  }

  lemma AnnouncingKeepsRows(s: Sys, t: nat, q: Request, run: string, r: Executor.ReplayResult, d: Option<string>, c: Choice)
    requires At(s, t, q, run, Announcing(r, d))
    ensures RowsInv(Submit(s, t, q, run, Announcing(r, d), c))
  {
    OwnerKnows(s, t, q, run, Announcing(r, d));
    ToldRow(s.rows[run], s.facts, run, r, d);
    ConcernsKeeps(s, Submit(s, t, q, run, Announcing(r, d), c), t, run, [EndOf(run, r)]);
  }

  // ----- the others -----

  // The owner's row is as it should be at its stage.
  ghost predicate Stands(s: Sys, run: string, stage: Stage) {
    RowsInv(s) && run in s.rows && StageOk(s.rows[run], s.facts, run, stage)
  }

  lemma RequestingKeepsRows(s: Sys, t: nat, q: Request, run: string, c: Choice)
    requires Stands(s, run, Requesting)
    ensures RowsInv(Submit(s, t, q, run, Requesting, c))
  {
    Onward(s, Tell(s, Requested(run)), t, Owning(q, run, Gating), [Requested(run)]);
  }

  lemma GatingKeepsRows(s: Sys, t: nat, q: Request, run: string, c: Choice)
    requires Stands(s, run, Gating)
    ensures RowsInv(Gate(s, t, q, run, c))
  {
    var past, m := CB.Past(s.history, TargetOf(q)), Record(s, TargetOf(q), CB.Probe(c.now));
    Onward(s, Tell(m, Gated(run, past, c.now)), t, Owning(q, run, Resolving), [Gated(run, past, c.now)]);
    Onward(s, m, t, Owning(q, run, Refusing), []);
  }

  lemma LaunchingKeepsRows(s: Sys, t: nat, q: Request, run: string, stage: Stage, c: Choice)
    requires Stands(s, run, stage) && (stage.Resolving? || stage.Launching?)
    ensures RowsInv(Submit(s, t, q, run, stage, c))
  {
    Over(s, s, t, []);
    if stage.Resolving? {
      Onward(s, s, t, Owning(q, run, Launching), []);
    } else {
      Onward(s, s.(sessions := s.sessions + [run]), t, Owning(q, run, Running(|s.sessions|)), []);
    }
  }

  lemma ParkingKeepsRows(s: Sys, t: nat, q: Request, run: string, x: nat, result: Executor.ReplayResult)
    requires Stands(s, run, Parking(x, result))
    ensures RowsInv(Park(s, t, q, run, x, result))
  {
    Onward(s, s.(live := s.live[run := x]), t, Owning(q, run, Logging(result, 0)), []);
    Onward(s, Tell(s, Closed(x)), t, Owning(q, run, Logging(result, 0)), [Closed(x)]);
  }

  lemma StagesAlike(s: Sys, q: Request, run: string, stage: Stage, next: Stage)
    requires Stands(s, run, stage)
    requires stage.Parking? || stage.Logging? || stage.Recording? || stage.DeadLettering? || stage.Escalating?
    requires next.Logging? || next.Recording? || next.DeadLettering? || next.Announcing? || next.Completing?
    requires next.result == stage.result && (next.DeadLettering? ==> stage.result.outcome == Executor.HARD_FAILURE)
    requires next.Announcing? || next.Completing? ==> (next.deadLetter.Some? <==> stage.result.outcome == Executor.HARD_FAILURE)
    requires ToldAt(s.facts, run, next)
    ensures ThreadOk(s.rows, s.facts, Owning(q, run, next))
  {
  }

  lemma LoggedKeepsRows(s: Sys, t: nat, q: Request, run: string, result: Executor.ReplayResult, i: nat, entry: Executor.StepExecution)
    requires Stands(s, run, Logging(result, i))
    ensures RowsInv(Goto(Tell(s, StepLogged(run, entry)), t, Owning(q, run, Logging(result, i + 1))))
  {
    StagesAlike(s, q, run, Logging(result, i), Logging(result, i + 1));
    Onward(s, Tell(s, StepLogged(run, entry)), t, Owning(q, run, Logging(result, i + 1)), [StepLogged(run, entry)]);
  }

  lemma AllLoggedKeepsRows(s: Sys, t: nat, q: Request, run: string, result: Executor.ReplayResult, i: nat)
    requires Stands(s, run, Logging(result, i))
    ensures RowsInv(Goto(s, t, Owning(q, run, Recording(result))))
  {
    StagesAlike(s, q, run, Logging(result, i), Recording(result));
    Onward(s, s, t, Owning(q, run, Recording(result)), []);
  }

  lemma LoggingKeepsRows(s: Sys, t: nat, q: Request, run: string, result: Executor.ReplayResult, i: nat, c: Choice)
    requires Stands(s, run, Logging(result, i))
    ensures RowsInv(Submit(s, t, q, run, Logging(result, i), c))
  {
    if i < |result.stepLog| {
      assert Submit(s, t, q, run, Logging(result, i), c)
          == Goto(Tell(s, StepLogged(run, result.stepLog[i])), t, Owning(q, run, Logging(result, i + 1)));
      LoggedKeepsRows(s, t, q, run, result, i, result.stepLog[i]);
    } else {
      AllLoggedKeepsRows(s, t, q, run, result, i);
    }
  }

  lemma RecordingKeepsRows(s: Sys, t: nat, q: Request, run: string, result: Executor.ReplayResult, c: Choice)
    requires Stands(s, run, Recording(result))
    ensures RowsInv(Account(s, t, q, run, result, c))
  {
    match result.outcome
    case HARD_FAILURE => Onward(s, Record(s, TargetOf(q), CB.Failure(c.now)), t, Owning(q, run, DeadLettering(result)), []);
    case BUSINESS_OUTCOME => Onward(s, Record(s, TargetOf(q), CB.Success), t, Owning(q, run, Announcing(result, None)), []);
    case RECOVERABLE => Onward(s, Record(s, TargetOf(q), CB.Failure(c.now)), t, Owning(q, run, Completing(result, None)), []);
  }

  lemma DeadLetteringKeepsRows(s: Sys, t: nat, q: Request, run: string, result: Executor.ReplayResult, c: Choice)
    requires Stands(s, run, DeadLettering(result))
    ensures RowsInv(Submit(s, t, q, run, DeadLettering(result), c))
  {
    Over(s, s, t, []);
    Onward(s, s, t, Owning(q, run, Announcing(result, Some(c.id))), []);
  }

  lemma EscalatingKeepsRows(s: Sys, t: nat, q: Request, run: string, result: Executor.ReplayResult, d: Option<string>, c: Choice)
    requires Stands(s, run, Escalating(result, d))
    ensures RowsInv(Submit(s, t, q, run, Escalating(result, d), c))
  {
    var f := InterventionRequested(c.id, run);
    Over(s, s, t, []);
    StagesAlike(s, q, run, Escalating(result, d), Completing(result, d));
    Onward(s, Tell(s.(sagas := s.sagas[c.id := Saga(run, INTERVENTION_REQUESTED)]), f), t, Owning(q, run, Completing(result, d)), [f]);
  }

  lemma SubmitKeepsRows(s: Sys, t: nat, q: Request, run: string, stage: Stage, c: Choice)
    requires At(s, t, q, run, stage)
    ensures RowsInv(Submit(s, t, q, run, stage, c))
  {
    OwnerKnows(s, t, q, run, stage);
    match stage
    case Requesting => RequestingKeepsRows(s, t, q, run, c);
    case Gating => GatingKeepsRows(s, t, q, run, c);
    case Refusing => RefusingKeepsRows(s, t, q, run, c);
    case RefusalTelling => RefusalKeepsRows(s, t, q, run, c);
    case Resolving => LaunchingKeepsRows(s, t, q, run, stage, c);
    case Launching => LaunchingKeepsRows(s, t, q, run, stage, c);
    case Running(x) => RunningKeepsRows(s, t, q, run, x, c);
    case Announcing(result, d) => AnnouncingKeepsRows(s, t, q, run, result, d, c);
    case Completing(result, d) => CompletingKeepsRows(s, t, q, run, result, d, c);
    case _ => LateKeepsRows(s, t, q, run, stage, c);
  }

  lemma LateKeepsRows(s: Sys, t: nat, q: Request, run: string, stage: Stage, c: Choice)
    requires Stands(s, run, stage)
    requires stage.Parking? || stage.Logging? || stage.Recording? || stage.DeadLettering? || stage.Escalating?
    ensures RowsInv(Submit(s, t, q, run, stage, c))
  {
    match stage
    case Parking(x, result) => ParkingKeepsRows(s, t, q, run, x, result);
    case Logging(result, i) => LoggingKeepsRows(s, t, q, run, result, i, c);
    case Recording(result) => RecordingKeepsRows(s, t, q, run, result, c);
    case DeadLettering(result) => DeadLetteringKeepsRows(s, t, q, run, result, c);
    case Escalating(result, d) => EscalatingKeepsRows(s, t, q, run, result, d, c);
  }

  lemma SagasKeepRows(s: Sys, t: nat, th: Thread, c: Choice)
    requires RowsInv(s) && (th.Claiming? || th.Recalling? || th.Freeing? || th.Returning?)
    ensures RowsInv(Advance(s, t, th, c))
  {
    Over(s, s, t, []);
    match th
    case Claiming(saga) => Onward(s, SetStatus(s, saga, HUMAN_CONTROLLED), t, Telling(ControlClaimed(saga)), []);
    case Recalling(saga) =>
      if saga in s.sagas {
        Onward(s, Tell(s, HumanActionRecorded(saga)), t, Acting(s.sagas[saga].runId, true), [HumanActionRecorded(saga)]);
      }
    case Freeing(saga) => if saga in s.sagas { Onward(s, s, t, Releasing(s.sagas[saga].runId, Some(saga)), []); }
    case Returning(saga) => Onward(s, SetStatus(s, saga, if c.ok then RESUMED else TERMINATED), t, Telling(ControlReturned(saga)), []);
  }

  lemma LookKeepsRows(s: Sys, t: nat, q: Request, c: Choice)
    requires RowsInv(s)
    ensures RowsInv(Look(s, t, q, c))
  {
    Over(s, Tell(s, Acked(q.key, c.id, true)), t, [Acked(q.key, c.id, true)]);
    Onward(s, s, t, Creating(q), []);
  }

  lemma ActKeepsRows(s: Sys, t: nat, th: Thread, c: Choice)
    requires RowsInv(s) && (th.Acting? || th.Performing?)
    ensures RowsInv(Advance(s, t, th, c))
  {
    Over(s, s, t, []);
    match th
    case Acting(run, viaSaga) =>
      if run in s.live {
        var f := Fetched(run, s.live[run]);
        Onward(s, Tell(s, f), t, Performing(run, s.live[run], |s.facts|, viaSaga), [f]);
      }
    case Performing(run, x, fetched, _) =>
      var f := Performed(run, x, fetched);
      Over(s, Tell(s, f), t, [f]);
      Onward(s, Tell(s, f), t, Telling(HumanActed(run, |s.facts|)), [f]);
  }

  lemma ReturnKeepsRows(s: Sys, m: Sys, t: nat, saga: Option<string>, more: seq<Fact>)
    requires RowsInv(s) && m.threads == s.threads && m.rows == s.rows && m.facts == s.facts + more
    requires forall f :: f in more ==> Wordless(f)
    ensures RowsInv(Returned(m, t, saga))
  {
    Over(s, m, t, more);
    if saga.Some? { Onward(s, m, t, Returning(saga.value), more); }
  }

  lemma TakeKeepsRows(s: Sys, t: nat, th: Thread, c: Choice)
    requires RowsInv(s) && (th.Releasing? || th.Closing?)
    ensures RowsInv(Advance(s, t, th, c))
  {
    match th
    case Releasing(run, saga) =>
      if run in s.live {
        var f := Popped(run, s.live[run]);
        Onward(s, Tell(s.(live := s.live - {run}), f), t, Closing(run, s.live[run], saga), [f]);
      } else {
        ReturnKeepsRows(s, s, t, saga, []);
      }
    case Closing(_, x, saga) => ReturnKeepsRows(s, Tell(s, Closed(x)), t, saga, [Closed(x)]);
  }

  lemma AdvanceKeepsRows(s: Sys, t: nat, c: Choice)
    requires OwnersOk(s.rows, s.threads) && RowsInv(s) && t in s.threads
    ensures RowsInv(Advance(s, t, s.threads[t], c))
  {
    assert ThreadOk(s.rows, s.facts, s.threads[t]);
    match s.threads[t]
    case Owning(q, run, stage) => SubmitKeepsRows(s, t, q, run, stage, c);
    case Looking(q) => LookKeepsRows(s, t, q, c);
    case Creating(q) => CreateKeepsRows(s, t, q, c);
    case Acting(_, _) => ActKeepsRows(s, t, s.threads[t], c);
    case Performing(_, _, _, _) => ActKeepsRows(s, t, s.threads[t], c);
    case Releasing(_, _) => TakeKeepsRows(s, t, s.threads[t], c);
    case Closing(_, _, _) => TakeKeepsRows(s, t, s.threads[t], c);
    case Telling(f) => Over(s, Tell(s, f), t, [f]);
    case _ => SagasKeepRows(s, t, s.threads[t], c);
  }

  lemma NextKeepsRows(s: Sys, a: Action)
    requires OwnersOk(s.rows, s.threads) && RowsInv(s)
    ensures RowsInv(Next(s, a))
  {
    match a
    case Start(t, th) => if t !in s.threads && Fresh(th) { Onward(s, s, t, th, []); }
    case Step(t, c) => if t in s.threads { AdvanceKeepsRows(s, t, c); }
    case Die(t) =>
      if t in s.threads {
        var x := Held(s.threads[t]);
        Over(s, s.(leaked := if x.Some? then s.leaked + {x.value} else s.leaked), t, []);
      }
  }

  lemma {:induction false} RunKeepsRows(acts: seq<Action>)
    ensures RowsInv(Run(acts))
  {
    if acts != [] {
      RunKeepsInv(acts[..|acts| - 1]);
      RunKeepsRows(acts[..|acts| - 1]);
      NextKeepsRows(Run(acts[..|acts| - 1]), acts[|acts| - 1]);
    }
  }

  // In every interleaving: a run that went through the page has one result; its row is untouched until its
  // request is answered, and then says that result, outcome, outputs, retries, failed step and all. A row that
  // says anything else is that of a run turned away, which never ran.
  lemma RowTellsTheRun(acts: seq<Action>, run: string, x: nat, r: Executor.ReplayResult)
    requires Ran(run, x, r) in Run(acts).facts
    ensures var s := Run(acts);
            && run in s.rows && Refused(run) !in s.facts
            && (forall y, r' :: Ran(run, y, r') in s.facts ==> r' == r)
            && (Answered(s.facts, run) ==> Tells(s.rows[run], r))
            && (!Answered(s.facts, run) ==> Unfinished(s.rows[run]))
  {
    RunKeepsRows(acts);
    var s := Run(acts);
    assert RanAs(s.facts, run, r) && HasRun(s.facts, run);
    assert Mentioned(s.facts, run) && RowOk(s.rows[run], s.facts, run);
    forall y, r' | Ran(run, y, r') in s.facts ensures r' == r { assert RanAs(s.facts, run, r'); }
  }

  // Once a request is answered, its row and the end told of its run agree.
  lemma EndMatchesRow(acts: seq<Action>, run: string)
    requires Answered(Run(acts).facts, run)
    ensures var s := Run(acts);
            && run in s.rows
            && (s.rows[run].outcome == Finished(Executor.HARD_FAILURE) <==> HardFailed(run) in s.facts || Refused(run) in s.facts)
            && (s.rows[run].outcome == Finished(Executor.BUSINESS_OUTCOME) <==> Succeeded(run) in s.facts)
  {
    RunKeepsRows(acts);
    var s := Run(acts);
    assert Mentioned(s.facts, run) && RowOk(s.rows[run], s.facts, run);
    if r :| RanAs(s.facts, run, r) {
      assert HasRun(s.facts, run);
      assert Tells(s.rows[run], r);
      assert RanWith(s.facts, run, r.outcome);
    }
  }

  // A run the breaker turned away, and any run that has not been through the page.
  lemma RowWithoutARun(acts: seq<Action>, run: string)
    requires run in Run(acts).rows && forall x, r :: Ran(run, x, r) !in Run(acts).facts
    ensures var s := Run(acts);
            && (Refused(run) in s.facts || Answered(s.facts, run) ==> TurnedAway(s.rows[run]))
            && (Unfinished(s.rows[run]) || TurnedAway(s.rows[run]))
  {
    RunKeepsRows(acts);
    var s := Run(acts);
    assert RowOk(s.rows[run], s.facts, run);
    forall r ensures !RanAs(s.facts, run, r) { }
  }

  // ----- one request after the other: the row of a new run, field by field -----

  predicate Asked(row: RunRow, q: Request) {
    && row.key == q.key && row.capabilityId == q.capabilityId && row.version == q.version
    && row.tenantId == q.tenantId && row.correlationId == q.correlationId
  }

  // Let through by the breaker, the row says what the page gave and names the dead letter of a hard failure;
  // turned away, it says so.
  ghost predicate RowOfRequest(row: RunRow, s: Sys, q: Request, run: string, w: Solo.World) {
    var r := w(Owning(q, run, Running(|s.sessions|))).result;
    && Asked(row, q)
    && if LetThrough(s, q, run, w) then
         Tells(row, r) && (r.outcome == Executor.HARD_FAILURE ==> row.deadLetterEventId == Some(w(Owning(q, run, DeadLettering(r))).id))
       else TurnedAway(row)
  }

  ghost predicate OthersKept(rows: map<string, RunRow>, after: map<string, RunRow>, run: string) {
    after.Keys == rows.Keys + {run} && forall r :: r in rows && r != run ==> after[r] == rows[r]
  }

  lemma ReportedKeepsRows(s: Sys, q: Request, run: string, r: Executor.ReplayResult, w: Solo.World)
    ensures Solo.Reported(s, q, run, r, w).rows == s.rows
  {
  }

  lemma ExecutedKeepsRows(s: Sys, q: Request, run: string, w: Solo.World)
    ensures Solo.Executed(s, q, run, w).rows == s.rows
  {
  }

  lemma FinishedRows(s: Sys, q: Request, run: string, r: Executor.ReplayResult, d: Option<string>)
    requires run in s.rows
    ensures Tell(Finish(s, run, r, d), Acked(q.key, run, false)).rows == s.rows[run := Completed(s.rows[run], r, d)]
  {
  }

  lemma CarriedRows(s: Sys, q: Request, run: string, w: Solo.World)
    requires run in s.rows
    ensures var (s', ack) := Solo.Carried(s, q, run, w);
            var r := w(Owning(q, run, Running(|s.sessions|))).result;
            && (ack.None? ==> s'.rows == s.rows)
            && (ack.Some? ==> ack.value == Solo.Ack(run, false) && s'.rows == s.rows[run := Completed(s.rows[run], r, Solo.DeadLetterOf(q, run, r, w))])
  {
    var m, result := Solo.Executed(s, q, run, w), Solo.ResultOf(s, q, run, w);
    ExecutedKeepsRows(s, q, run, w);
    if result.Some? {
      var r := result.value;
      var n := Solo.Reported(Solo.Logged(m, run, r.stepLog), q, run, r, w);
      ReportedKeepsRows(Solo.Logged(m, run, r.stepLog), q, run, r, w);
      assert n.rows == s.rows;
      FinishedRows(n, q, run, r, Solo.DeadLetterOf(q, run, r, w));
    }
  }

  lemma CarriedRow(s: Sys, q: Request, run: string, w: Solo.World)
    requires run in s.rows
    ensures var (s', ack) := Solo.Carried(s, q, run, w);
            var r := w(Owning(q, run, Running(|s.sessions|))).result;
            && run in s'.rows && OthersKept(s.rows, s'.rows, run)
            && (if ack.None? then s'.rows == s.rows
                else
                  && ack == Some(Solo.Ack(run, false)) && Tells(s'.rows[run], r) && (Asked(s.rows[run], q) ==> Asked(s'.rows[run], q))
                  && (r.outcome == Executor.HARD_FAILURE ==> s'.rows[run].deadLetterEventId == Some(w(Owning(q, run, DeadLettering(r))).id)))
  {
    CarriedRows(s, q, run, w);
  }

  lemma AdmittedRow(s: Sys, q: Request, run: string, w: Solo.World)
    requires run in s.rows
    ensures var s' := Solo.Admitted(s, q, run, w);
            && s'.sessions == s.sessions && run in s'.rows && OthersKept(s.rows, s'.rows, run)
            && (if Solo.Passes(s, q, run, w) then s'.rows == s.rows
                else TurnedAway(s'.rows[run]) && (Asked(s.rows[run], q) ==> Asked(s'.rows[run], q)))
  {
  }

  lemma KeptTwice(rows: map<string, RunRow>, mid: map<string, RunRow>, after: map<string, RunRow>, run: string)
    requires OthersKept(rows, mid, run) && OthersKept(mid, after, run)
    ensures OthersKept(rows, after, run)
  {
  }

  // The breaker's condition, by the target's history.
  ghost predicate LetThrough(s: Sys, q: Request, run: string, w: Solo.World) {
    var h, now := CB.Past(s.history, q.tenantId + ":" + q.capabilityId), w(Owning(q, run, Gating)).now;
    |CB.Streak(h)| < 3 || now >= CB.Last(CB.Streak(h)) + 30_000 || CB.CooledOff(h)
  }

  lemma PassesLetThrough(s: Sys, q: Request, run: string, w: Solo.World)
    ensures Solo.Passes(s, q, run, w) <==> LetThrough(s, q, run, w)
  {
    CB.AdmitsExactly(CB.Past(s.history, TargetOf(q)), w(Owning(q, run, Gating)).now);
  }

  ghost predicate Left(s: Sys, s': Sys, q: Request, run: string, w: Solo.World, ack: Option<Solo.Ack>) {
    if ack.Some? then
      ack == Some(Solo.Ack(run, false)) && run !in s.rows && OthersKept(s.rows, s'.rows, run) && RowOfRequest(s'.rows[run], s, q, run, w)
    else s'.rows == s.rows || (run !in s.rows && OthersKept(s.rows, s'.rows, run) && Unfinished(s'.rows[run]))
  }

  lemma PassedRow(s: Sys, q: Request, run: string, w: Solo.World)
    requires run !in s.rows && LetThrough(s, q, run, w)
    ensures var n := Solo.Admitted(s.(rows := s.rows[run := Pending(q)]), q, run, w);
            Left(s, Solo.Carried(n, q, run, w).0, q, run, w, Solo.Carried(n, q, run, w).1)
  {
    var m := s.(rows := s.rows[run := Pending(q)]);
    var n := Solo.Admitted(m, q, run, w);
    PassesLetThrough(m, q, run, w);
    AdmittedRow(m, q, run, w);
    CarriedRow(n, q, run, w);
    assert OthersKept(s.rows, m.rows, run) && Asked(m.rows[run], q) && n.rows == m.rows;
    KeptTwice(s.rows, m.rows, Solo.Carried(n, q, run, w).0.rows, run);
  }

  lemma TurnedAwayRow(s: Sys, q: Request, run: string, w: Solo.World)
    requires run !in s.rows && !LetThrough(s, q, run, w)
    ensures Left(s, Solo.Admitted(s.(rows := s.rows[run := Pending(q)]), q, run, w), q, run, w, Some(Solo.Ack(run, false)))
  {
    var m := s.(rows := s.rows[run := Pending(q)]);
    PassesLetThrough(m, q, run, w);
    AdmittedRow(m, q, run, w);
    assert OthersKept(s.rows, m.rows, run) && Asked(m.rows[run], q);
    KeptTwice(s.rows, m.rows, Solo.Admitted(m, q, run, w).rows, run);
  }

  // What a submission leaves in the table, if it is not answered from there: one row more, as above, when it is
  // acknowledged; when an exception leaves it, at most one row more, and that one pending.
  lemma HandledRow(s: Sys, q: Request, w: Solo.World)
    ensures Left(s, Solo.Handled(s, q, w).0, q, w(Creating(q)).id, w, Solo.Handled(s, q, w).1)
  {
    var run := w(Creating(q)).id;
    if !KeyTaken(s.rows, q.key) && run !in s.rows {
      PassesLetThrough(s, q, run, w);
      if LetThrough(s, q, run, w) { PassedRow(s, q, run, w); } else { TurnedAwayRow(s, q, run, w); }
    }
  }
}
