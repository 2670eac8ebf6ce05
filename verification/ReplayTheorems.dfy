// The promises of the replay server, over every run of its threads.
module ReplayTheorems {
  import opened Prelude
  import opened ReplayServer
  import opened ReplaySafety
  import opened ReplaySessions
  import opened ReplayFacts
  import CB = CircuitBreaker
  import Executor

  ghost predicate Inv(s: Sys) {
    RunsOk(s) && SessionsOk(s) && FactsOk(s) && RanOk(s)
  }

  lemma QuietKeepsInv(s: Sys, s': Sys, t: nat)
    requires Inv(s) && Quiet(s, s', t)
    ensures Inv(s')
  {
    RunsQuiet(s, s', t);
    SessionsQuiet(s, s', t);
    FactsQuiet(s, s', t);
    assert forall i :: 0 <= i < |s.facts| ==> s'.facts[i] == s.facts[i];
    RanKept(s, s', t);
  }

  // The steps that acknowledge a request, or give it a row.
  lemma AckKeepsInv(s: Sys, s': Sys, t: nat, more: seq<Fact>)
    requires Inv(s) && RunsOk(s') && t in s.threads && Held(s.threads[t]).None?
    requires s'.sessions == s.sessions && s'.live == s.live && s'.leaked == s.leaked && OthersSame(s.threads, s'.threads, t)
    requires s'.facts == s.facts + more && forall f :: f in more ==> f.Acked? || f.Refused?
    requires t in s'.threads ==> Held(s'.threads[t]).None? && s'.threads[t].Owning?
    ensures Inv(s')
  {
    assert forall f :: f in s'.facts <==> f in s.facts || f in more;
    forall i | |s.facts| <= i < |s'.facts| ensures Plain(s'.facts[i]) {
      assert s'.facts[i] == more[i - |s.facts|] && more[i - |s.facts|] in more;
    }
    SessionsStay(s, s', t);
    FactsPlain(s, s', t);
    RanKept(s, s', t);
  }

  lemma LookKeepsInv(s: Sys, t: nat, c: Choice)
    requires Inv(s) && t in s.threads && s.threads[t].Looking?
    ensures Inv(Look(s, t, s.threads[t].q, c))
  {
    var q := s.threads[t].q;
    var s' := Look(s, t, q, c);
    if q.key != "" && KeyTaken(s.rows, q.key) {
      if c.id in s.rows && s.rows[c.id].key == q.key {
        RunsAcked(s, s', t, q.key, c.id, true);
        AckKeepsInv(s, s', t, [Acked(q.key, c.id, true)]);
      }
    } else {
      AdvanceIsQuiet(s, t, c);
      QuietKeepsInv(s, s', t);
    }
  }

  lemma CreateKeepsInv(s: Sys, t: nat, q: Request, c: Choice)
    requires Inv(s) && t in s.threads && s.threads[t] == Creating(q)
    ensures Inv(Create(s, t, q, c))
  {
    var s' := Create(s, t, q, c);
    if KeyTaken(s.rows, q.key) {
      QuietTell(s, Requested(""));
      QuietDone(s, s, t);
      QuietKeepsInv(s, s', t);
    } else if c.id !in s.rows {
      RunsCreated(s, t, q, c.id);
      AckKeepsInv(s, s', t, []);
    }
  }

  lemma LaunchKeepsInv(s: Sys, t: nat, q: Request, run: string, c: Choice)
    requires Inv(s) && t in s.threads && s.threads[t] == Owning(q, run, Launching)
    ensures Inv(Submit(s, t, q, run, Launching, c))
  {
    var s' := Submit(s, t, q, run, Launching, c);
    RunsLaunched(s, t, q, run, c);
    if c.ok {
      SessionsLaunched(s, s', t, q, run);
      FactsPlain(s, s', t);
      RanKept(s, s', t);
    } else {
      QuietTell(s, Requested(""));
      QuietDone(s, s, t);
      QuietKeepsInv(s, s', t);
    }
  }

  lemma RunningKeepsInv(s: Sys, t: nat, q: Request, run: string, x: nat, c: Choice)
    requires Inv(s) && t in s.threads && s.threads[t] == Owning(q, run, Running(x))
    ensures Inv(Submit(s, t, q, run, Running(x), c))
  {
    var s' := Submit(s, t, q, run, Running(x), c);
    RanIsPlain(s, s', t, q, run, x, c.result);
    assert OriginOk(s.sessions, s.threads[t]);
    SessionsStay(s, s', t);
    RanNow(s, s', t, q, run, x, c.result);
  }

  lemma RanIsPlain(s: Sys, s': Sys, t: nat, q: Request, run: string, x: nat, result: Executor.ReplayResult)
    requires RunsOk(s) && FactsOk(s) && t in s.threads && s.threads[t] == Owning(q, run, Running(x))
    requires s' == Goto(Tell(s, Ran(run, x, result)), t, Owning(q, run, Parking(x, result)))
    ensures RunsOk(s') && FactsOk(s')
  {
    RunsQuiet(s, s', t);
    FactsPlain(s, s', t);
  }

  lemma NotLiveYet(s: Sys, t: nat, q: Request, run: string, x: nat, result: Executor.ReplayResult)
    requires Inv(s) && t in s.threads && s.threads[t] == Owning(q, run, Parking(x, result))
    ensures run !in s.live
  {
    assert OriginOk(s.sessions, s.threads[t]);
    assert Holding(s.threads, t, x);
    if run in s.live { assert IsLive(s.live, run, s.live[run]); }
  }

  lemma ParkKeepsInv(s: Sys, t: nat, q: Request, run: string, x: nat, result: Executor.ReplayResult)
    requires Inv(s) && t in s.threads && s.threads[t] == Owning(q, run, Parking(x, result))
    ensures Inv(Park(s, t, q, run, x, result))
  {
    var s' := Park(s, t, q, run, x, result);
    if result.outcome == Executor.HARD_FAILURE {
      NotLiveYet(s, t, q, run, x, result);
      SessionsParkedLive(s, s', t, q, run, x, result);
      RanParked(s, s', t, q, run, x, result);
      ParkIsPlain(s, s', t);
    } else {
      LetGo(s, s', t, x);
    }
  }

  lemma ParkIsPlain(s: Sys, s': Sys, t: nat)
    requires RunsOk(s) && FactsOk(s) && Moved(s.threads, s'.threads, t) && s'.rows == s.rows && s'.sessions == s.sessions && s'.facts == s.facts
    requires t in s'.threads && s'.threads[t].Owning?
    ensures RunsOk(s') && FactsOk(s')
  {
    RunsQuiet(s, s', t);
    FactsPlain(s, s', t);
  }

  // Whoever closes its session, at the end of a run or of a release.
  lemma LetGo(s: Sys, s': Sys, t: nat, x: nat)
    requires Inv(s) && Holding(s.threads, t, x) && s'.rows == s.rows && Moved(s.threads, s'.threads, t)
    requires s'.sessions == s.sessions && s'.live == s.live && s'.leaked == s.leaked && s'.facts == s.facts + [Closed(x)]
    requires t in s'.threads ==> Empty(s'.threads[t])
    ensures Inv(s')
  {
    RunsQuiet(s, s', t);
    SessionsClosed(s, s', t, x);
    FactsClosed(s, s', t, x);
    RanKept(s, s', t);
  }

  lemma RefuseKeepsInv(s: Sys, t: nat, q: Request, run: string, c: Choice)
    requires Inv(s) && t in s.threads && s.threads[t] == Owning(q, run, RefusalTelling)
    ensures Inv(Submit(s, t, q, run, RefusalTelling, c))
  {
    var s' := Submit(s, t, q, run, RefusalTelling, c);
    RunsRefused(s, t, q, run, c);
    assert s'.facts == s.facts + [Refused(run), Acked(q.key, run, false)];
    AckKeepsInv(s, s', t, [Refused(run), Acked(q.key, run, false)]);
  }

  lemma CompleteKeepsInv(s: Sys, t: nat, q: Request, run: string, result: Executor.ReplayResult, deadLetter: Option<string>)
    requires Inv(s) && t in s.threads && s.threads[t] == Owning(q, run, Completing(result, deadLetter))
    ensures Inv(Tell(Done(Finish(s, run, result, deadLetter), t), Acked(q.key, run, false)))
  {
    var s' := Tell(Done(Finish(s, run, result, deadLetter), t), Acked(q.key, run, false));
    RunsAcked(s, s', t, q.key, run, false);
    AckKeepsInv(s, s', t, [Acked(q.key, run, false)]);
  }

  lemma SubmitKeepsInv(s: Sys, t: nat, q: Request, run: string, stage: Stage, c: Choice)
    requires Inv(s) && t in s.threads && s.threads[t] == Owning(q, run, stage)
    ensures Inv(Submit(s, t, q, run, stage, c))
  {
    match stage
    case Launching => LaunchKeepsInv(s, t, q, run, c);
    case Running(x) => RunningKeepsInv(s, t, q, run, x, c);
    case Parking(x, result) => ParkKeepsInv(s, t, q, run, x, result);
    case RefusalTelling => RefuseKeepsInv(s, t, q, run, c);
    case Completing(result, deadLetter) => CompleteKeepsInv(s, t, q, run, result, deadLetter);
    case _ =>
      SubmitIsQuiet(s, t, q, run, stage, c);
      QuietKeepsInv(s, Submit(s, t, q, run, stage, c), t);
  }

  // ----- the requests on live sessions -----

  lemma ActKeepsInv(s: Sys, t: nat, run: string, viaSaga: bool)
    requires Inv(s) && t in s.threads && s.threads[t] == Acting(run, viaSaga)
    ensures Inv(Find(s, t, run, viaSaga))
  {
    if run in s.live {
      assert IsLive(s.live, run, s.live[run]);
      Idle(s, t, Performing(run, s.live[run], |s.facts|, viaSaga));
      Noted(Goto(s, t, Performing(run, s.live[run], |s.facts|, viaSaga)), t, Fetched(run, s.live[run]));
    } else {
      QuietTell(s, Requested(""));
      QuietDone(s, s, t);
      QuietKeepsInv(s, Done(s, t), t);
    }
  }

  // A fact that settles nothing.
  lemma Noted(s: Sys, t: nat, f: Fact)
    requires Inv(s) && t in s.threads && s.threads[t].Performing? && Plain(f) && !f.Acked? && !f.Refused?
    ensures Inv(Tell(s, f))
  {
    var s' := Tell(s, f);
    RunsQuiet(s, s', t);
    SessionsStay(s, s', t);
    FactsPlain(s, s', t);
    RanKept(s, s', t);
  }

  // A thread that holds nothing turns to something else.
  lemma Idle(s: Sys, t: nat, th: Thread)
    requires Inv(s) && (t in s.threads ==> Held(s.threads[t]).None?)
    requires !th.Owning? && !th.Telling? && Held(th).None? && OriginOk(s.sessions, th)
    ensures Inv(Goto(s, t, th))
  {
    var s' := Goto(s, t, th);
    RunsQuiet(s, s', t);
    SessionsStay(s, s', t);
    FactsPlain(s, s', t);
    RanKept(s, s', t);
  }

  lemma PerformKeepsInv(s: Sys, t: nat, run: string, x: nat, fetched: nat, viaSaga: bool, c: Choice)
    requires Inv(s) && t in s.threads && s.threads[t] == Performing(run, x, fetched, viaSaga)
    ensures Inv(Perform(s, t, run, x, fetched, viaSaga, c))
  {
    var s' := Perform(s, t, run, x, fetched, viaSaga, c);
    assert OriginOk(s.sessions, s.threads[t]);
    RunsQuiet(s, s', t);
    SessionsStay(s, s', t);
    FactsPerformed(s, t, run, x, fetched, viaSaga, c);
    RanKept(s, s', t);
  }

  lemma PopKeepsInv(s: Sys, t: nat, run: string, saga: Option<string>)
    requires Inv(s) && t in s.threads && s.threads[t] == Releasing(run, saga)
    ensures Inv(Pop(s, t, run, saga))
  {
    if run in s.live {
      PoppedKeepsInv(s, Pop(s, t, run, saga), t, run, saga);
    } else {
      QuietTell(s, Requested(""));
      if saga.Some? { QuietGoto(s, s, t, Returning(saga.value)); } else { QuietDone(s, s, t); }
      QuietKeepsInv(s, Pop(s, t, run, saga), t);
    }
  }

  lemma PoppedKeepsInv(s: Sys, s': Sys, t: nat, run: string, saga: Option<string>)
    requires Inv(s) && t in s.threads && s.threads[t] == Releasing(run, saga) && run in s.live
    requires s' == Goto(Tell(s.(live := s.live - {run}), Popped(run, s.live[run])), t, Closing(run, s.live[run], saga))
    ensures Inv(s')
  {
    RunsQuiet(s, s', t);
    SessionsPopped(s, s', t, run, saga);
    FactsPlain(s, s', t);
    RanKept(s, s', t);
  }

  lemma CloseKeepsInv(s: Sys, t: nat, run: string, x: nat, saga: Option<string>)
    requires Inv(s) && t in s.threads && s.threads[t] == Closing(run, x, saga)
    ensures Inv(Returned(Tell(s, Closed(x)), t, saga))
  {
    LetGo(s, Returned(Tell(s, Closed(x)), t, saga), t, x);
  }

  lemma TellKeepsInv(s: Sys, t: nat, c: Choice)
    requires Inv(s) && t in s.threads && s.threads[t].Telling?
    ensures Inv(Advance(s, t, s.threads[t], c))
  {
    var f := s.threads[t].fact;
    var s' := Advance(s, t, s.threads[t], c);
    if Notable(f) {
      RunsQuiet(s, s', t);
      SessionsStay(s, s', t);
      FactsReported(s, t, f.runId, f.performed);
      RanKept(s, s', t);
    } else {
      AdvanceIsQuiet(s, t, c);
      QuietKeepsInv(s, s', t);
    }
  }

  lemma AdvanceKeepsInv(s: Sys, t: nat, c: Choice)
    requires Inv(s) && t in s.threads
    ensures Inv(Advance(s, t, s.threads[t], c))
  {
    match s.threads[t]
    case Looking(q) => LookKeepsInv(s, t, c);
    case Creating(q) => CreateKeepsInv(s, t, q, c);
    case Owning(q, run, stage) => SubmitKeepsInv(s, t, q, run, stage, c);
    case Acting(run, viaSaga) => ActKeepsInv(s, t, run, viaSaga);
    case Performing(run, x, fetched, viaSaga) => PerformKeepsInv(s, t, run, x, fetched, viaSaga, c);
    case Releasing(run, saga) => PopKeepsInv(s, t, run, saga);
    case Closing(run, x, saga) => CloseKeepsInv(s, t, run, x, saga);
    case Telling(_) => TellKeepsInv(s, t, c);
    case _ =>
      AdvanceIsQuiet(s, t, c);
      QuietKeepsInv(s, Advance(s, t, s.threads[t], c), t);
  }

  lemma DieKeepsInv(s: Sys, t: nat)
    requires Inv(s) && t in s.threads
    ensures Inv(Next(s, Die(t)))
  {
    var s' := Next(s, Die(t));
    RunsQuiet(s, s', t);
    FactsPlain(s, s', t);
    RanKept(s, s', t);
    var x := Held(s.threads[t]);
    if x.Some? {
      SessionsLeaked(s, t, x.value);
    } else {
      SessionsStay(s, s', t);
    }
  }

  lemma NextKeepsInv(s: Sys, a: Action)
    requires Inv(s)
    ensures Inv(Next(s, a))
  {
    match a
    case Start(t, th) => if t !in s.threads && Fresh(th) { Idle(s, t, th); }
    case Step(t, c) => if t in s.threads { AdvanceKeepsInv(s, t, c); }
    case Die(t) => if t in s.threads { DieKeepsInv(s, t); }
  }

  lemma {:induction false} RunKeepsInv(acts: seq<Action>)
    ensures Inv(Run(acts))
  {
    if acts != [] {
      RunKeepsInv(acts[..|acts| - 1]);
      NextKeepsInv(Run(acts[..|acts| - 1]), acts[|acts| - 1]);
    }
  }

  // ----- at most one browser run per idempotency key -----

  // However many requests carry a key, and however they interleave, at most one session is launched for it.
  lemma OneLaunchPerKey(acts: seq<Action>, x: nat, y: nat)
    requires var s := Run(acts); x < |s.sessions| && y < |s.sessions|
    ensures var s := Run(acts);
            && s.sessions[x] in s.rows && s.sessions[y] in s.rows
            && (s.rows[s.sessions[x]].key == s.rows[s.sessions[y]].key ==> x == y)
  {
    RunKeepsInv(acts);
  }

  // Every acknowledgement names the one row stored for its key; only keyed requests are deduplicated.
  lemma AckNamesTheRow(acts: seq<Action>, key: string, run: string, dedup: bool)
    requires Acked(key, run, dedup) in Run(acts).facts
    ensures var s := Run(acts);
            && run in s.rows && s.rows[run].key == key && (dedup ==> key != "")
            && forall r :: r in s.rows && s.rows[r].key == key ==> r == run
  {
    RunKeepsInv(acts);
  }

  // The empty key is a key like any other to the table: once a request without a key has been stored, no
  // other request without a key ever is, and each of them ends in an error before anything is launched.
  lemma OneKeylessRequest(acts: seq<Action>, t: nat, q: Request, c: Choice)
    requires var s := Run(acts); KeyTaken(s.rows, "") && q.key == "" && t in s.threads && s.threads[t] == Looking(q)
    ensures var s := Run(acts);
            && (forall a, b :: a in s.rows && b in s.rows && s.rows[a].key == "" && s.rows[b].key == "" ==> a == b)
            && Next(Next(s, Step(t, c)), Step(t, c)) == s.(threads := s.threads - {t})
  {
    RunKeepsInv(acts);
    var s := Run(acts);
    assert s.threads[t := Creating(q)] - {t} == s.threads - {t};
  }

  // A run the breaker turned away launches nothing, then or later.
  lemma RefusedLaunchesNothing(acts: seq<Action>, run: string)
    requires Refused(run) in Run(acts).facts
    ensures run !in Run(acts).sessions && run in Run(acts).rows
  {
    RunKeepsInv(acts);
  }

  // ----- sessions -----

  ghost predicate ExactlyOne(a: bool, b: bool, c: bool, d: bool) {
    (a || b || c || d) && !(a && b) && !(a && c) && !(a && d) && !(b && c) && !(b && d) && !(c && d)
  }

  // Every session launched is in exactly one of four places: closed, live, in the hands of exactly one
  // thread, or lost with a thread that died holding it.
  lemma SessionsAreConserved(acts: seq<Action>, x: nat)
    requires x < |Run(acts).sessions|
    ensures var s := Run(acts);
            && ExactlyOne(Closed(x) in s.facts, exists r :: IsLive(s.live, r, x), exists t :: Holding(s.threads, t, x), x in s.leaked)
            && (forall t, u :: Holding(s.threads, t, x) && Holding(s.threads, u, x) ==> t == u)
            && (forall r, r' :: IsLive(s.live, r, x) && IsLive(s.live, r', x) ==> r == r')
  {
    RunKeepsInv(acts);
    assert Located(Run(acts), x);
  }

  lemma SessionsCloseOnce(acts: seq<Action>, i: nat, j: nat)
    requires var f := Run(acts).facts; i < j < |f| && f[i].Closed? && f[j].Closed?
    ensures Run(acts).facts[i].session != Run(acts).facts[j].session
  {
    RunKeepsInv(acts);
  }

  // A live session belongs to the run it was launched for, and that run failed hard on it.
  lemma LiveMeansFailedHard(acts: seq<Action>, run: string)
    requires run in Run(acts).live
    ensures var s := Run(acts);
            var x := s.live[run];
            x < |s.sessions| && s.sessions[x] == run && RanHard(s.facts, run, x)
  {
    RunKeepsInv(acts);
    assert IsLive(Run(acts).live, run, Run(acts).live[run]);
  }
}
