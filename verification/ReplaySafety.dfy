// What holds in every reachable state of the replay server, however its threads interleave and wherever
// they stop.
module ReplaySafety {
  import opened Prelude
  import opened ReplayServer
  import CB = CircuitBreaker
  import Executor

  // ----- runs and keys -----

  ghost predicate KeysUnique(rows: map<string, RunRow>) {
    forall a, b :: a in rows && b in rows && rows[a].key == rows[b].key ==> a == b
  }

  // Not launched, and if it ever will be, then by its owner.
  predicate Before(stage: Stage) {
    stage.Requesting? || stage.Gating? || stage.Refusing? || stage.RefusalTelling? || stage.Resolving? || stage.Launching?
  }

  ghost predicate Owns(threads: map<nat, Thread>, t: nat, run: string) {
    t in threads && threads[t].Owning? && threads[t].runId == run
  }

  ghost predicate OwnersOk(rows: map<string, RunRow>, threads: map<nat, Thread>) {
    && (forall t :: t in threads && threads[t].Owning? ==> threads[t].runId in rows && rows[threads[t].runId].key == threads[t].q.key)
    && (forall t, u, run :: Owns(threads, t, run) && Owns(threads, u, run) ==> t == u)
  }

  ghost predicate LaunchesOk(rows: map<string, RunRow>, sessions: seq<string>, threads: map<nat, Thread>) {
    && (forall x :: 0 <= x < |sessions| ==> sessions[x] in rows)
    && (forall x, y :: 0 <= x < y < |sessions| ==> sessions[x] != sessions[y])
    && (forall t :: t in threads && threads[t].Owning? && Before(threads[t].stage) ==> threads[t].runId !in sessions)
  }

  ghost predicate RefusalsOk(rows: map<string, RunRow>, sessions: seq<string>, facts: seq<Fact>, threads: map<nat, Thread>) {
    forall run :: Refused(run) in facts ==> run in rows && run !in sessions && forall t :: !Owns(threads, t, run)
  }

  ghost predicate AcksOk(rows: map<string, RunRow>, facts: seq<Fact>) {
    forall key, run, dedup :: Acked(key, run, dedup) in facts ==> run in rows && rows[run].key == key && (dedup ==> key != "")
  }

  ghost predicate RunsOk(s: Sys) {
    && KeysUnique(s.rows) && OwnersOk(s.rows, s.threads) && LaunchesOk(s.rows, s.sessions, s.threads)
    && RefusalsOk(s.rows, s.sessions, s.facts, s.threads) && AcksOk(s.rows, s.facts)
  }

  // Rows are never removed and keep their keys.
  ghost predicate RowsKept(rows: map<string, RunRow>, after: map<string, RunRow>) {
    forall r :: r in rows ==> r in after && after[r].key == rows[r].key
  }

  ghost predicate SameRows(rows: map<string, RunRow>, after: map<string, RunRow>) {
    RowsKept(rows, after) && forall r :: r in after ==> r in rows
  }

  // Only thread t moved, and not so as to own another run, or one again that is past its launch.
  ghost predicate Moved(threads: map<nat, Thread>, after: map<nat, Thread>, t: nat) {
    && (forall u :: u != t ==> (u in after <==> u in threads) && (u in after ==> after[u] == threads[u]))
    && (t in after && after[t].Owning? ==>
          && t in threads && threads[t].Owning? && threads[t].runId == after[t].runId && threads[t].q == after[t].q
          && (Before(after[t].stage) ==> Before(threads[t].stage)))
  }

  predicate Notable(f: Fact) {
    f.Refused? || f.Acked? || f.Fetched? || f.Performed? || f.HumanActed? || f.Popped? || f.Closed?
  }

  ghost predicate SaysLittle(facts: seq<Fact>, more: seq<Fact>) {
    |facts| <= |more| && more[..|facts|] == facts && forall i :: |facts| <= i < |more| ==> !Notable(more[i])
  }

  // A thread with nothing in its hands: no session, no reference to one, no action to report.
  predicate Empty(th: Thread) {
    Held(th).None? && !th.Performing? && !(th.Telling? && Notable(th.fact))
  }

  ghost predicate EmptyAt(threads: map<nat, Thread>, t: nat) {
    t in threads ==> Empty(threads[t])
  }

  // A step that concerns neither keys nor sessions.
  ghost predicate Quiet(s: Sys, s': Sys, t: nat) {
    && SameRows(s.rows, s'.rows) && Moved(s.threads, s'.threads, t) && EmptyAt(s.threads, t) && EmptyAt(s'.threads, t)
    && s'.sessions == s.sessions && s'.live == s.live && s'.leaked == s.leaked && SaysLittle(s.facts, s'.facts)
  }

  predicate Loud(stage: Stage) {
    stage.RefusalTelling? || stage.Launching? || stage.Running? || stage.Parking? || stage.Completing?
  }

  // The two ways a quiet step ends: its thread goes on, or it is done.
  lemma QuietGoto(s: Sys, m: Sys, t: nat, th: Thread)
    requires t in s.threads && Empty(s.threads[t]) && Empty(th) && QuietTables(s, m)
    requires th.Owning? ==> s.threads[t].Owning? && s.threads[t].runId == th.runId && s.threads[t].q == th.q
                            && (Before(th.stage) ==> Before(s.threads[t].stage))
    ensures Quiet(s, Goto(m, t, th), t)
  {
  }

  lemma QuietDone(s: Sys, m: Sys, t: nat)
    requires t in s.threads && Empty(s.threads[t]) && QuietTables(s, m)
    ensures Quiet(s, Done(m, t), t)
  {
  }

  ghost predicate QuietTables(s: Sys, m: Sys) {
    && SameRows(s.rows, m.rows) && m.threads == s.threads && m.sessions == s.sessions && m.live == s.live && m.leaked == s.leaked
    && SaysLittle(s.facts, m.facts)
  }

  lemma QuietTell(s: Sys, f: Fact)
    requires !Notable(f)
    ensures QuietTables(s, Tell(s, f)) && QuietTables(s, s)
  {
  }

  lemma SubmitIsQuiet(s: Sys, t: nat, q: Request, run: string, stage: Stage, c: Choice)
    requires t in s.threads && s.threads[t] == Owning(q, run, stage) && !Loud(stage)
    ensures Quiet(s, Submit(s, t, q, run, stage, c), t)
  {
    QuietTell(s, Requested(run));
    match stage
    case Requesting => QuietGoto(s, Tell(s, Requested(run)), t, Owning(q, run, Gating));
    case Gating => GateIsQuiet(s, t, q, run, c);
    case Refusing => QuietGoto(s, Finish(s, run, REFUSAL, None), t, Owning(q, run, RefusalTelling));
    case Resolving => if c.ok { QuietGoto(s, s, t, Owning(q, run, Launching)); } else { QuietDone(s, s, t); }
    case Logging(result, i) => LogIsQuiet(s, t, q, run, result, i, c);
    case Recording(result) => AccountIsQuiet(s, t, q, run, result, c);
    case DeadLettering(result) =>
      if c.ok { QuietGoto(s, s, t, Owning(q, run, Announcing(result, Some(c.id)))); } else { QuietDone(s, s, t); }
    case Announcing(result, deadLetter) => AnnounceIsQuiet(s, t, q, run, result, deadLetter, c);
    case Escalating(result, deadLetter) => EscalateIsQuiet(s, t, q, run, result, deadLetter, c);
  }

  lemma LogIsQuiet(s: Sys, t: nat, q: Request, run: string, result: Executor.ReplayResult, i: nat, c: Choice)
    requires t in s.threads && s.threads[t] == Owning(q, run, Logging(result, i))
    ensures Quiet(s, Submit(s, t, q, run, Logging(result, i), c), t)
  {
    QuietTell(s, Requested(run));
    if i < |result.stepLog| {
      QuietTell(s, StepLogged(run, result.stepLog[i]));
      QuietGoto(s, Tell(s, StepLogged(run, result.stepLog[i])), t, Owning(q, run, Logging(result, i + 1)));
    } else {
      QuietGoto(s, s, t, Owning(q, run, Recording(result)));
    }
  }

  lemma GateIsQuiet(s: Sys, t: nat, q: Request, run: string, c: Choice)
    requires t in s.threads && s.threads[t] == Owning(q, run, Gating)
    ensures Quiet(s, Gate(s, t, q, run, c), t)
  {
    var past := CB.Past(s.history, TargetOf(q));
    var m := Record(s, TargetOf(q), CB.Probe(c.now));
    QuietTell(s, Gated(run, past, c.now));
    if CB.Admits(CB.After(past), c.now) {
      QuietGoto(s, Tell(m, Gated(run, past, c.now)), t, Owning(q, run, Resolving));
    } else {
      QuietGoto(s, m, t, Owning(q, run, Refusing));
    }
  }

  lemma AccountIsQuiet(s: Sys, t: nat, q: Request, run: string, result: Executor.ReplayResult, c: Choice)
    requires t in s.threads && s.threads[t] == Owning(q, run, Recording(result))
    ensures Quiet(s, Account(s, t, q, run, result, c), t)
  {
    QuietTell(s, Requested(run));
    match result.outcome
    case HARD_FAILURE => QuietGoto(s, Record(s, TargetOf(q), CB.Failure(c.now)), t, Owning(q, run, DeadLettering(result)));
    case BUSINESS_OUTCOME => QuietGoto(s, Record(s, TargetOf(q), CB.Success), t, Owning(q, run, Announcing(result, None)));
    case RECOVERABLE => QuietGoto(s, Record(s, TargetOf(q), CB.Failure(c.now)), t, Owning(q, run, Completing(result, None)));
  }

  lemma AnnounceIsQuiet(s: Sys, t: nat, q: Request, run: string, result: Executor.ReplayResult, deadLetter: Option<string>, c: Choice)
    requires t in s.threads && s.threads[t] == Owning(q, run, Announcing(result, deadLetter))
    ensures Quiet(s, Submit(s, t, q, run, Announcing(result, deadLetter), c), t)
  {
    if result.outcome == Executor.HARD_FAILURE {
      QuietTell(s, HardFailed(run));
      QuietGoto(s, Tell(s, HardFailed(run)), t, Owning(q, run, Escalating(result, deadLetter)));
    } else {
      QuietTell(s, Succeeded(run));
      QuietGoto(s, Tell(s, Succeeded(run)), t, Owning(q, run, Completing(result, deadLetter)));
    }
  }

  lemma EscalateIsQuiet(s: Sys, t: nat, q: Request, run: string, result: Executor.ReplayResult, deadLetter: Option<string>, c: Choice)
    requires t in s.threads && s.threads[t] == Owning(q, run, Escalating(result, deadLetter))
    ensures Quiet(s, Submit(s, t, q, run, Escalating(result, deadLetter), c), t)
  {
    QuietTell(s, InterventionRequested(c.id, run));
    if !c.ok {
      QuietDone(s, s, t);
    } else if c.id !in s.sagas {
      QuietGoto(s, Tell(s.(sagas := s.sagas[c.id := Saga(run, INTERVENTION_REQUESTED)]), InterventionRequested(c.id, run)), t,
                Owning(q, run, Completing(result, deadLetter)));
    }
  }

  // Requests that only read, or only touch the saga's own row.
  predicate Light(rows: map<string, RunRow>, th: Thread) {
    || (th.Looking? && (th.q.key == "" || !KeyTaken(rows, th.q.key)))
    || th.Claiming? || th.Recalling? || th.Freeing? || th.Returning? || (th.Telling? && !Notable(th.fact))
  }

  lemma AdvanceIsQuiet(s: Sys, t: nat, c: Choice)
    requires t in s.threads && Light(s.rows, s.threads[t])
    ensures Quiet(s, Advance(s, t, s.threads[t], c), t)
  {
    match s.threads[t]
    case Looking(q) => QuietTell(s, ControlClaimed("")); QuietGoto(s, s, t, Creating(q));
    case Claiming(saga) =>
      QuietTell(s, ControlClaimed(saga));
      if saga in s.sagas { QuietGoto(s, SetStatus(s, saga, HUMAN_CONTROLLED), t, Telling(ControlClaimed(saga))); } else { QuietDone(s, s, t); }
    case Recalling(saga) =>
      QuietTell(s, HumanActionRecorded(saga));
      if saga in s.sagas { QuietGoto(s, Tell(s, HumanActionRecorded(saga)), t, Acting(s.sagas[saga].runId, true)); } else { QuietDone(s, s, t); }
    case Freeing(saga) =>
      QuietTell(s, ControlClaimed(saga));
      if saga in s.sagas { QuietGoto(s, s, t, Releasing(s.sagas[saga].runId, Some(saga))); } else { QuietDone(s, s, t); }
    case Returning(saga) =>
      QuietTell(s, ControlReturned(saga));
      QuietGoto(s, SetStatus(s, saga, if c.ok then RESUMED else TERMINATED), t, Telling(ControlReturned(saga)));
    case Telling(f) => QuietTell(s, f); QuietDone(s, Tell(s, f), t);
  }

  lemma OwnersMoved(rows: map<string, RunRow>, rows': map<string, RunRow>, threads: map<nat, Thread>, after: map<nat, Thread>, t: nat)
    requires OwnersOk(rows, threads) && SameRows(rows, rows') && Moved(threads, after, t)
    ensures forall u, run :: Owns(after, u, run) ==> Owns(threads, u, run)
    ensures OwnersOk(rows', after)
  {
  }

  lemma LaunchesMoved(rows: map<string, RunRow>, rows': map<string, RunRow>, sessions: seq<string>, threads: map<nat, Thread>, after: map<nat, Thread>, t: nat)
    requires LaunchesOk(rows, sessions, threads) && SameRows(rows, rows') && Moved(threads, after, t)
    ensures LaunchesOk(rows', sessions, after)
  {
  }

  ghost predicate NothingSettled(facts: seq<Fact>, more: seq<Fact>) {
    forall f :: f in more && f !in facts ==> !f.Refused? && !f.Acked?
  }

  lemma RunsQuiet(s: Sys, s': Sys, t: nat)
    requires RunsOk(s) && SameRows(s.rows, s'.rows) && Moved(s.threads, s'.threads, t)
    requires s'.sessions == s.sessions && NothingSettled(s.facts, s'.facts)
    ensures RunsOk(s')
  {
    OwnersMoved(s.rows, s'.rows, s.threads, s'.threads, t);
    LaunchesMoved(s.rows, s'.rows, s.sessions, s.threads, s'.threads, t);
  }

  lemma RunsAcked(s: Sys, s': Sys, t: nat, key: string, run: string, dedup: bool)
    requires RunsOk(s) && SameRows(s.rows, s'.rows) && Moved(s.threads, s'.threads, t)
    requires s'.sessions == s.sessions && s'.facts == s.facts + [Acked(key, run, dedup)]
    requires run in s.rows && s.rows[run].key == key && (dedup ==> key != "")
    ensures RunsOk(s')
  {
    OwnersMoved(s.rows, s'.rows, s.threads, s'.threads, t);
    LaunchesMoved(s.rows, s'.rows, s.sessions, s.threads, s'.threads, t);
  }

  // A new row under a new key, and its owner.
  lemma OwnersCreated(rows: map<string, RunRow>, threads: map<nat, Thread>, t: nat, q: Request, run: string)
    requires KeysUnique(rows) && OwnersOk(rows, threads) && !KeyTaken(rows, q.key) && run !in rows && (t in threads ==> !threads[t].Owning?)
    ensures var rows', threads' := rows[run := Pending(q)], threads[t := Owning(q, run, Requesting)];
            && RowsKept(rows, rows') && KeysUnique(rows') && OwnersOk(rows', threads')
            && forall u, r :: Owns(threads', u, r) ==> (u == t && r == run) || Owns(threads, u, r)
  {
    var rows', threads' := rows[run := Pending(q)], threads[t := Owning(q, run, Requesting)];
    assert forall u, r :: Owns(threads', u, r) ==> (u == t && r == run) || (u != t && Owns(threads, u, r));
    assert forall u, r :: Owns(threads, u, r) ==> r in rows;
  }

  lemma RunsCreated(s: Sys, t: nat, q: Request, run: string)
    requires RunsOk(s) && t in s.threads && !s.threads[t].Owning? && !KeyTaken(s.rows, q.key) && run !in s.rows
    ensures RunsOk(Goto(s.(rows := s.rows[run := Pending(q)]), t, Owning(q, run, Requesting)))
  {
    OwnersCreated(s.rows, s.threads, t, q, run);
    assert run !in s.sessions;
  }

  lemma RunsRefused(s: Sys, t: nat, q: Request, run: string, c: Choice)
    requires RunsOk(s) && t in s.threads && s.threads[t] == Owning(q, run, RefusalTelling)
    ensures RunsOk(Submit(s, t, q, run, RefusalTelling, c))
  {
    var s' := Submit(s, t, q, run, RefusalTelling, c);
    OwnersMoved(s.rows, s'.rows, s.threads, s'.threads, t);
    LaunchesMoved(s.rows, s'.rows, s.sessions, s.threads, s'.threads, t);
    assert Owns(s.threads, t, run);
    assert s'.facts == s.facts + [Refused(run), Acked(q.key, run, false)];
    forall r | Refused(r) in s'.facts ensures r in s'.rows && r !in s'.sessions && forall u :: !Owns(s'.threads, u, r) {
      if r == run {
        forall u ensures !Owns(s'.threads, u, r) {
          if u != t { assert Owns(s.threads, u, r) ==> u == t; }
        }
      }
    }
  }

  lemma RunsLaunched(s: Sys, t: nat, q: Request, run: string, c: Choice)
    requires RunsOk(s) && t in s.threads && s.threads[t] == Owning(q, run, Launching)
    ensures RunsOk(Submit(s, t, q, run, Launching, c))
  {
    var s' := Submit(s, t, q, run, Launching, c);
    if c.ok {
      OwnersMoved(s.rows, s'.rows, s.threads, s'.threads, t);
      assert Owns(s.threads, t, run);
      assert run !in s.sessions;
      forall u | u in s'.threads && s'.threads[u].Owning? && Before(s'.threads[u].stage) ensures s'.threads[u].runId !in s'.sessions {
        assert Owns(s.threads, u, s.threads[u].runId);
      }
    } else {
      RunsQuiet(s, s', t);
    }
  }

}
