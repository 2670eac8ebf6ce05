// Actions on live sessions against their release: an action finds its session in the map before the
// release takes it out, though it may be performed after that, as long as the session is still open.
module ReplayFetches {
  import opened Prelude
  import opened ReplayServer
  import opened ReplaySafety
  import opened ReplaySessions
  import opened ReplayFacts
  import opened ReplayTheorems
  import Executor

  ghost predicate Taken(facts: seq<Fact>, x: nat) {
    exists i :: 0 <= i < |facts| && facts[i].Popped? && facts[i].session == x
  }

  // A session taken out of the map never was one of a later number, is not in the map again, and is not
  // with the request that ran on it.
  ghost predicate TakenOk(s: Sys) {
    && (forall x: nat :: Taken(s.facts, x) ==> x < |s.sessions|)
    && (forall r, x: nat :: IsLive(s.live, r, x) ==> !Taken(s.facts, x))
    && (forall t, x: nat :: Holding(s.threads, t, x) && s.threads[t].Owning? ==> !Taken(s.facts, x))
  }

  // Fetches come before the pop, and every performed action has its fetch.
  ghost predicate FetchesOk(facts: seq<Fact>) {
    && (forall i, j :: 0 <= i < j < |facts| && facts[i].Popped? && facts[j].Fetched? ==> facts[i].session != facts[j].session)
    && (forall j :: 0 <= j < |facts| && facts[j].Performed? ==>
          facts[j].fetched < j && facts[facts[j].fetched] == Fetched(facts[j].runId, facts[j].session))
  }

  predicate HasFetch(facts: seq<Fact>, th: Thread) {
    th.Performing? ==> th.fetched < |facts| && facts[th.fetched] == Fetched(th.runId, th.session)
  }

  ghost predicate FetchInv(s: Sys) {
    TakenOk(s) && FetchesOk(s.facts) && forall t :: t in s.threads ==> HasFetch(s.facts, s.threads[t])
  }

  predicate Unrelated(f: Fact) {
    !f.Popped? && !f.Fetched? && !f.Performed?
  }

  // No session is fetched, acted on or taken.
  ghost predicate Apart(s: Sys, s': Sys, t: nat) {
    && s.sessions <= s'.sessions && OthersSame(s.threads, s'.threads, t)
    && |s.facts| <= |s'.facts| && s'.facts[..|s.facts|] == s.facts && (forall i :: |s.facts| <= i < |s'.facts| ==> Unrelated(s'.facts[i]))
    && (t in s'.threads ==> !s'.threads[t].Performing?)
  }

  lemma SameTaken(s: Sys, s': Sys, t: nat)
    requires Apart(s, s', t)
    ensures forall x: nat :: Taken(s'.facts, x) <==> Taken(s.facts, x)
  {
    assert forall i :: 0 <= i < |s.facts| ==> s'.facts[i] == s.facts[i];
    forall x: nat | Taken(s.facts, x) ensures Taken(s'.facts, x) {
      var i :| 0 <= i < |s.facts| && s.facts[i].Popped? && s.facts[i].session == x;
      assert s'.facts[i].Popped?;
    }
  }

  lemma ApartFacts(s: Sys, s': Sys, t: nat)
    requires FetchInv(s) && Apart(s, s', t)
    ensures FetchesOk(s'.facts) && forall u :: u in s'.threads ==> HasFetch(s'.facts, s'.threads[u])
  {
    assert forall i :: 0 <= i < |s.facts| ==> s'.facts[i] == s.facts[i];
  }

  lemma ApartKeeps(s: Sys, s': Sys, t: nat)
    requires FetchInv(s) && Apart(s, s', t) && (forall r, x: nat :: IsLive(s'.live, r, x) ==> !Taken(s.facts, x))
    requires forall x: nat :: Holding(s'.threads, t, x) && s'.threads[t].Owning? ==> !Taken(s.facts, x)
    ensures FetchInv(s')
  {
    SameTaken(s, s', t);
    ApartFacts(s, s', t);
    assert forall u, x: nat :: u != t && Holding(s'.threads, u, x) ==> Holding(s.threads, u, x);
  }

  lemma QuietKeepsFetches(s: Sys, s': Sys, t: nat)
    requires FetchInv(s) && Quiet(s, s', t)
    ensures FetchInv(s')
  {
    ApartKeeps(s, s', t);
  }

  // The requests' own steps: a new session is nobody's yet, and one that is parked has not been taken.
  lemma SubmitKeepsFetches(s: Sys, t: nat, q: Request, run: string, stage: Stage, c: Choice)
    requires FetchInv(s) && t in s.threads && s.threads[t] == Owning(q, run, stage)
    ensures FetchInv(Submit(s, t, q, run, stage, c))
  {
    if !Loud(stage) {
      SubmitIsQuiet(s, t, q, run, stage, c);
      QuietKeepsFetches(s, Submit(s, t, q, run, stage, c), t);
    } else {
      LoudKeepsFetches(s, t, q, run, stage, c);
    }
  }

  // The middle of a step that leaves fetches and pops alone.
  ghost predicate Midway(s: Sys, m: Sys) {
    && m.threads == s.threads && s.sessions <= m.sessions && |s.facts| <= |m.facts| && m.facts[..|s.facts|] == s.facts
    && (forall i :: |s.facts| <= i < |m.facts| ==> Unrelated(m.facts[i]))
    && (forall r, x: nat :: IsLive(m.live, r, x) ==> !Taken(s.facts, x))
  }

  lemma Onward(s: Sys, m: Sys, t: nat, th: Thread)
    requires FetchInv(s) && Midway(s, m) && !th.Performing?
    requires th.Owning? && Held(th).Some? ==> !Taken(s.facts, Held(th).value)
    ensures FetchInv(Goto(m, t, th))
  {
    ApartKeeps(s, Goto(m, t, th), t);
  }

  lemma Over(s: Sys, m: Sys, t: nat)
    requires FetchInv(s) && Midway(s, m)
    ensures FetchInv(Done(m, t))
  {
    ApartKeeps(s, Done(m, t), t);
  }

  lemma Told(s: Sys, f: Fact)
    requires FetchInv(s) && Unrelated(f)
    ensures Midway(s, Tell(s, f)) && Midway(s, s)
  {
  }

  lemma LoudKeepsFetches(s: Sys, t: nat, q: Request, run: string, stage: Stage, c: Choice)
    requires FetchInv(s) && t in s.threads && s.threads[t] == Owning(q, run, stage) && Loud(stage)
    ensures FetchInv(Submit(s, t, q, run, stage, c))
  {
    Told(s, Requested(run));
    match stage
    case Launching =>
      if c.ok { Onward(s, s.(sessions := s.sessions + [run]), t, Owning(q, run, Running(|s.sessions|))); } else { Over(s, s, t); }
    case Running(x) =>
      assert Holding(s.threads, t, x);
      Told(s, Ran(run, x, c.result));
      Onward(s, Tell(s, Ran(run, x, c.result)), t, Owning(q, run, Parking(x, c.result)));
    case Parking(x, result) => ParkKeepsFetches(s, t, q, run, x, result);
    case RefusalTelling =>
      var m := Tell(Tell(s, Refused(run)), Acked(q.key, run, false));
      assert Midway(s, m);
      Over(s, m, t);
    case Completing(result, deadLetter) =>
      Told(s, Acked(q.key, run, false));
      Over(s, Tell(Finish(s, run, result, deadLetter), Acked(q.key, run, false)), t);
  }

  lemma ParkKeepsFetches(s: Sys, t: nat, q: Request, run: string, x: nat, result: Executor.ReplayResult)
    requires FetchInv(s) && t in s.threads && s.threads[t] == Owning(q, run, Parking(x, result))
    ensures FetchInv(Park(s, t, q, run, x, result))
  {
    assert Holding(s.threads, t, x);
    if result.outcome == Executor.HARD_FAILURE {
      var m := s.(live := s.live[run := x]);
      assert forall r, y: nat :: IsLive(m.live, r, y) ==> y == x || IsLive(s.live, r, y);
      Onward(s, m, t, Owning(q, run, Logging(result, 0)));
    } else {
      Told(s, Closed(x));
      Onward(s, Tell(s, Closed(x)), t, Owning(q, run, Logging(result, 0)));
    }
  }

  // ----- finding, performing, taking -----

  lemma FindKeepsFetches(s: Sys, t: nat, run: string, viaSaga: bool)
    requires FetchInv(s) && t in s.threads && s.threads[t] == Acting(run, viaSaga)
    ensures FetchInv(Find(s, t, run, viaSaga))
  {
    var s' := Find(s, t, run, viaSaga);
    if run in s.live {
      var x := s.live[run];
      assert IsLive(s.live, run, x);
      MoreFacts(s.facts, Fetched(run, x));
      forall i, j | 0 <= i < j < |s'.facts| && s'.facts[i].Popped? && s'.facts[j].Fetched? ensures s'.facts[i].session != s'.facts[j].session {
        assert s'.facts[i] == s.facts[i];
        if j == |s.facts| { assert Taken(s.facts, s.facts[i].session); }
      }
      assert forall u, y: nat :: Holding(s'.threads, u, y) ==> Holding(s.threads, u, y) && u != t;
    } else {
      ApartKeeps(s, s', t);
    }
  }

  lemma MoreFacts(facts: seq<Fact>, f: Fact)
    ensures forall i :: 0 <= i < |facts| ==> (facts + [f])[i] == facts[i]
    ensures !f.Popped? ==> forall x: nat :: Taken(facts + [f], x) <==> Taken(facts, x)
    ensures f.Popped? ==> forall x: nat :: Taken(facts + [f], x) <==> Taken(facts, x) || x == f.session
  {
    var more := facts + [f];
    assert more[|facts|] == f;
    forall x: nat | Taken(facts, x) ensures Taken(more, x) {
      var i :| 0 <= i < |facts| && facts[i].Popped? && facts[i].session == x;
      assert more[i].Popped?;
    }
  }

  lemma PerformKeepsFetches(s: Sys, t: nat, run: string, x: nat, fetched: nat, viaSaga: bool, c: Choice)
    requires FetchInv(s) && t in s.threads && s.threads[t] == Performing(run, x, fetched, viaSaga)
    ensures FetchInv(Perform(s, t, run, x, fetched, viaSaga, c))
  {
    var s' := Perform(s, t, run, x, fetched, viaSaga, c);
    if Closed(x) in s.facts || !c.ok {
      ApartKeeps(s, s', t);
    } else {
      assert HasFetch(s.facts, s.threads[t]);
      MoreFacts(s.facts, Performed(run, x, fetched));
      assert forall u, y: nat :: Holding(s'.threads, u, y) ==> Holding(s.threads, u, y) && u != t;
    }
  }

  lemma PopKeepsFetches(s: Sys, t: nat, run: string, saga: Option<string>)
    requires SessionsOk(s) && FetchInv(s) && t in s.threads && s.threads[t] == Releasing(run, saga)
    ensures FetchInv(Pop(s, t, run, saga))
  {
    if run in s.live {
      TakeKeepsFetches(s, Pop(s, t, run, saga), t, run, saga);
    } else {
      ApartKeeps(s, Pop(s, t, run, saga), t);
    }
  }

  lemma TakeKeepsFetches(s: Sys, s': Sys, t: nat, run: string, saga: Option<string>)
    requires SessionsOk(s) && FetchInv(s) && t in s.threads && s.threads[t] == Releasing(run, saga) && run in s.live
    requires s' == Goto(Tell(s.(live := s.live - {run}), Popped(run, s.live[run])), t, Closing(run, s.live[run], saga))
    ensures FetchInv(s')
  {
    var x := s.live[run];
    assert IsLive(s.live, run, x);
    MoreFacts(s.facts, Popped(run, x));
    assert forall r, y: nat :: IsLive(s'.live, r, y) ==> IsLive(s.live, r, y) && r != run;
    assert forall u, y: nat :: Holding(s'.threads, u, y) && s'.threads[u].Owning? ==> Holding(s.threads, u, y) && s.threads[u].Owning?;
  }

  lemma LookKeepsFetches(s: Sys, t: nat, q: Request, c: Choice)
    requires FetchInv(s)
    ensures FetchInv(Look(s, t, q, c))
  {
    Told(s, Acked(q.key, c.id, true));
    Over(s, Tell(s, Acked(q.key, c.id, true)), t);
    Onward(s, s, t, Creating(q));
  }

  lemma CreateKeepsFetches(s: Sys, t: nat, q: Request, c: Choice)
    requires FetchInv(s)
    ensures FetchInv(Create(s, t, q, c))
  {
    Told(s, Requested(""));
    Over(s, s, t);
    Onward(s, s.(rows := s.rows[c.id := Pending(q)]), t, Owning(q, c.id, Requesting));
  }

  lemma CloseKeepsFetches(s: Sys, t: nat, x: nat, saga: Option<string>)
    requires FetchInv(s)
    ensures FetchInv(Returned(Tell(s, Closed(x)), t, saga))
  {
    Told(s, Closed(x));
    Over(s, Tell(s, Closed(x)), t);
    if saga.Some? { Onward(s, Tell(s, Closed(x)), t, Returning(saga.value)); }
  }

  lemma TellKeepsFetches(s: Sys, t: nat, f: Fact)
    requires FetchInv(s) && (Notable(f) ==> f.HumanActed?)
    ensures FetchInv(Done(Tell(s, f), t))
  {
    Told(s, f);
    Over(s, Tell(s, f), t);
  }

  lemma AdvanceKeepsFetches(s: Sys, t: nat, c: Choice)
    requires SessionsOk(s) && FetchInv(s) && t in s.threads
    requires var th := s.threads[t]; th.Telling? && Notable(th.fact) ==> th.fact.HumanActed?
    ensures FetchInv(Advance(s, t, s.threads[t], c))
  {
    match s.threads[t]
    case Owning(q, run, stage) => SubmitKeepsFetches(s, t, q, run, stage, c);
    case Acting(run, viaSaga) => FindKeepsFetches(s, t, run, viaSaga);
    case Performing(run, x, fetched, viaSaga) => PerformKeepsFetches(s, t, run, x, fetched, viaSaga, c);
    case Releasing(run, saga) => PopKeepsFetches(s, t, run, saga);
    case Telling(f) => TellKeepsFetches(s, t, f);
    case Looking(q) => LookKeepsFetches(s, t, q, c);
    case Creating(q) => CreateKeepsFetches(s, t, q, c);
    case Closing(_, x, saga) => CloseKeepsFetches(s, t, x, saga);
    case _ =>
      AdvanceIsQuiet(s, t, c);
      QuietKeepsFetches(s, Advance(s, t, s.threads[t], c), t);
  }

  lemma NextKeepsFetches(s: Sys, a: Action)
    requires Inv(s) && FetchInv(s)
    ensures FetchInv(Next(s, a))
  {
    Told(s, Requested(""));
    match a
    case Start(t, th) => if t !in s.threads && Fresh(th) { Onward(s, s, t, th); }
    case Step(t, c) => if t in s.threads { AdvanceKeepsFetches(s, t, c); }
    case Die(t) =>
      if t in s.threads {
        var x := Held(s.threads[t]);
        Over(s, s.(leaked := if x.Some? then s.leaked + {x.value} else s.leaked), t);
      }
  }

  lemma {:induction false} RunKeepsFetches(acts: seq<Action>)
    ensures FetchInv(Run(acts))
  {
    if acts != [] {
      RunKeepsInv(acts[..|acts| - 1]);
      RunKeepsFetches(acts[..|acts| - 1]);
      NextKeepsFetches(Run(acts[..|acts| - 1]), acts[|acts| - 1]);
    }
  }

  // Every HumanActed reports an action of its own, on the session its run was launched with: found
  // in the map before any release took that session out, and performed before it closed.
  lemma HumanActedIsReal(acts: seq<Action>, j: nat)
    requires var f := Run(acts).facts; j < |f| && f[j].HumanActed?
    ensures var s := Run(acts);
            var f, p := s.facts, s.facts[j].performed;
            && p < j && f[p].Performed? && f[p].runId == f[j].runId
            && (forall k :: 0 <= k < |f| && k != j && f[k].HumanActed? ==> f[k].performed != p)
            && f[p].session < |s.sessions| && s.sessions[f[p].session] == f[j].runId
            && f[p].fetched < p && f[f[p].fetched] == Fetched(f[j].runId, f[p].session)
            && (forall i :: 0 <= i < f[p].fetched && f[i].Popped? ==> f[i].session != f[p].session)
            && (forall i :: 0 <= i < p && f[i].Closed? ==> f[i].session != f[p].session)
  {
    RunKeepsInv(acts);
    RunKeepsFetches(acts);
    var f := Run(acts).facts;
    var p := f[j].performed;
    assert f[f[p].fetched].Fetched?;
  }
}
