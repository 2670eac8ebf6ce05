// What the order of events says, in every reachable state of the replay server: sessions close once,
// nothing is performed on a closed one, and every human action reported was performed.
module ReplayFacts {
  import opened Prelude
  import opened ReplayServer
  import opened ReplaySafety
  import opened ReplaySessions
  import Executor

  ghost predicate ClosedOnce(facts: seq<Fact>) {
    forall i, j :: 0 <= i < j < |facts| && facts[i].Closed? && facts[j].Closed? ==> facts[i].session != facts[j].session
  }

  ghost predicate PerformedOk(facts: seq<Fact>, sessions: seq<string>) {
    && (forall j :: 0 <= j < |facts| && facts[j].Performed? ==>
          facts[j].session < |sessions| && sessions[facts[j].session] == facts[j].runId)
    && (forall i, j :: 0 <= i < j < |facts| && facts[i].Closed? && facts[j].Performed? ==> facts[i].session != facts[j].session)
  }

  // p is the place of an action performed for this run.
  predicate IsPerformed(facts: seq<Fact>, p: nat, run: string) {
    p < |facts| && facts[p].Performed? && facts[p].runId == run
  }

  ghost predicate ReportsOk(facts: seq<Fact>) {
    && (forall j :: 0 <= j < |facts| && facts[j].HumanActed? ==>
          facts[j].performed < j && IsPerformed(facts, facts[j].performed, facts[j].runId))
    && (forall i, j :: 0 <= i < j < |facts| && facts[i].HumanActed? && facts[j].HumanActed? ==> facts[i].performed != facts[j].performed)
  }

  ghost predicate Telling(threads: map<nat, Thread>, t: nat, p: nat) {
    t in threads && threads[t].Telling? && threads[t].fact.HumanActed? && threads[t].fact.performed == p
  }

  ghost predicate TellersOk(facts: seq<Fact>, threads: map<nat, Thread>) {
    && (forall t :: t in threads && threads[t].Telling? && Notable(threads[t].fact) ==>
          threads[t].fact.HumanActed? && IsPerformed(facts, threads[t].fact.performed, threads[t].fact.runId))
    && (forall t, p, j :: Telling(threads, t, p) && 0 <= j < |facts| && facts[j].HumanActed? ==> facts[j].performed != p)
    && (forall t, u, p :: Telling(threads, t, p) && Telling(threads, u, p) ==> t == u)
  }

  ghost predicate FactsOk(s: Sys) {
    ClosedOnce(s.facts) && PerformedOk(s.facts, s.sessions) && ReportsOk(s.facts) && TellersOk(s.facts, s.threads)
  }

  predicate Plain(f: Fact) {
    !f.Closed? && !f.Performed? && !f.HumanActed?
  }

  // More facts of the plain kind, and a thread that moves without anything to report.
  ghost predicate PlainStep(s: Sys, s': Sys, t: nat) {
    && s.sessions <= s'.sessions
    && |s.facts| <= |s'.facts| && s'.facts[..|s.facts|] == s.facts
    && (forall i :: |s.facts| <= i < |s'.facts| ==> Plain(s'.facts[i]))
    && OthersSame(s.threads, s'.threads, t)
    && (t in s'.threads && s'.threads[t].Telling? ==> !Notable(s'.threads[t].fact))
  }

  lemma FactsPlain(s: Sys, s': Sys, t: nat)
    requires FactsOk(s) && PlainStep(s, s', t)
    ensures FactsOk(s')
  {
    assert forall i :: 0 <= i < |s.facts| ==> s'.facts[i] == s.facts[i];
    assert forall x :: 0 <= x < |s.sessions| ==> s'.sessions[x] == s.sessions[x];
    assert forall u, p :: Telling(s'.threads, u, p) ==> u != t && Telling(s.threads, u, p);
  }

  lemma FactsQuiet(s: Sys, s': Sys, t: nat)
    requires FactsOk(s) && Quiet(s, s', t)
    ensures FactsOk(s')
  {
    FactsPlain(s, s', t);
  }

  lemma ClosedOneMore(facts: seq<Fact>, f: Fact)
    requires ClosedOnce(facts) && (f.Closed? ==> f !in facts)
    ensures ClosedOnce(facts + [f])
  {
  }

  lemma PerformedOneMore(facts: seq<Fact>, sessions: seq<string>, f: Fact)
    requires PerformedOk(facts, sessions)
    requires f.Performed? ==> f.session < |sessions| && sessions[f.session] == f.runId && Closed(f.session) !in facts
    ensures PerformedOk(facts + [f], sessions)
  {
  }

  ghost predicate Unreported(facts: seq<Fact>, p: nat) {
    forall j :: 0 <= j < |facts| && facts[j].HumanActed? ==> facts[j].performed != p
  }

  lemma ReportsOneMore(facts: seq<Fact>, f: Fact)
    requires ReportsOk(facts)
    requires f.HumanActed? ==> IsPerformed(facts, f.performed, f.runId) && Unreported(facts, f.performed)
    ensures ReportsOk(facts + [f])
  {
  }

  // A thread takes up what it performed, or has reported it.
  lemma TellersOneMore(facts: seq<Fact>, f: Fact, threads: map<nat, Thread>, after: map<nat, Thread>, t: nat)
    requires TellersOk(facts, threads) && ReportsOk(facts) && OthersSame(threads, after, t)
    requires t in after && after[t].Telling? && Notable(after[t].fact) ==>
               after[t].fact.HumanActed? && after[t].fact.performed == |facts| && f.Performed? && f.runId == after[t].fact.runId
    requires f.HumanActed? ==> t !in after && Telling(threads, t, f.performed)
    ensures TellersOk(facts + [f], after)
  {
    var more := facts + [f];
    assert forall i :: 0 <= i < |facts| ==> more[i] == facts[i];
    assert forall u, p :: u != t ==> (Telling(after, u, p) <==> Telling(threads, u, p));
    forall u, p, j | Telling(after, u, p) && 0 <= j < |more| && more[j].HumanActed? ensures more[j].performed != p {
      if j == |facts| { assert u != t && Telling(threads, u, p); }
    }
    assert forall u, p :: Telling(after, u, p) ==> (p == |facts| <==> u == t);
  }

  lemma FactsClosed(s: Sys, s': Sys, t: nat, x: nat)
    requires FactsOk(s) && Closed(x) !in s.facts
    requires s'.sessions == s.sessions && s'.facts == s.facts + [Closed(x)] && OthersSame(s.threads, s'.threads, t)
    requires t in s'.threads && s'.threads[t].Telling? ==> !Notable(s'.threads[t].fact)
    ensures FactsOk(s')
  {
    ClosedOneMore(s.facts, Closed(x));
    PerformedOneMore(s.facts, s.sessions, Closed(x));
    ReportsOneMore(s.facts, Closed(x));
    TellersOneMore(s.facts, Closed(x), s.threads, s'.threads, t);
  }

  lemma FactsPerformed(s: Sys, t: nat, run: string, x: nat, fetched: nat, viaSaga: bool, c: Choice)
    requires FactsOk(s) && t in s.threads && s.threads[t] == Performing(run, x, fetched, viaSaga)
    requires x < |s.sessions| && s.sessions[x] == run
    ensures FactsOk(Perform(s, t, run, x, fetched, viaSaga, c))
  {
    var s' := Perform(s, t, run, x, fetched, viaSaga, c);
    if Closed(x) in s.facts || !c.ok {
      FactsPlain(s, s', t);
    } else {
      var f := Performed(run, x, fetched);
      assert s'.facts == s.facts + [f];
      ClosedOneMore(s.facts, f);
      PerformedOneMore(s.facts, s.sessions, f);
      ReportsOneMore(s.facts, f);
      TellersOneMore(s.facts, f, s.threads, s'.threads, t);
    }
  }

  lemma FactsReported(s: Sys, t: nat, run: string, p: nat)
    requires FactsOk(s) && t in s.threads && s.threads[t] == Thread.Telling(HumanActed(run, p))
    ensures FactsOk(Done(Tell(s, HumanActed(run, p)), t))
  {
    var f := HumanActed(run, p);
    assert Telling(s.threads, t, p);
    ClosedOneMore(s.facts, f);
    PerformedOneMore(s.facts, s.sessions, f);
    ReportsOneMore(s.facts, f);
    TellersOneMore(s.facts, f, s.threads, s.threads - {t}, t);
  }

  // ----- live runs have failed hard -----

  ghost predicate RanHard(facts: seq<Fact>, run: string, x: nat) {
    exists result :: Ran(run, x, result) in facts && result.outcome == Executor.HARD_FAILURE
  }

  ghost predicate RanOk(s: Sys) {
    && (forall r :: r in s.live ==> RanHard(s.facts, r, s.live[r]))
    && (forall t :: t in s.threads && s.threads[t].Owning? && s.threads[t].stage.Parking? ==>
          Ran(s.threads[t].runId, s.threads[t].stage.session, s.threads[t].stage.result) in s.facts)
  }

  ghost predicate Parks(threads: map<nat, Thread>, t: nat) {
    t in threads && threads[t].Owning? && threads[t].stage.Parking?
  }

  lemma RanKept(s: Sys, s': Sys, t: nat)
    requires RanOk(s) && OthersSame(s.threads, s'.threads, t) && !Parks(s'.threads, t)
    requires (forall f :: f in s.facts ==> f in s'.facts) && forall r :: r in s'.live ==> r in s.live && s'.live[r] == s.live[r]
    ensures RanOk(s')
  {
  }

  lemma RanNow(s: Sys, s': Sys, t: nat, q: Request, run: string, x: nat, result: Executor.ReplayResult)
    requires RanOk(s) && s'.live == s.live && s'.facts == s.facts + [Ran(run, x, result)]
    requires s'.threads == s.threads[t := Owning(q, run, Parking(x, result))]
    ensures RanOk(s')
  {
  }

  lemma RanParked(s: Sys, s': Sys, t: nat, q: Request, run: string, x: nat, result: Executor.ReplayResult)
    requires RanOk(s) && t in s.threads && s.threads[t] == Owning(q, run, Parking(x, result)) && result.outcome == Executor.HARD_FAILURE
    requires s'.live == s.live[run := x] && s'.facts == s.facts && s'.threads == s.threads[t := Owning(q, run, Logging(result, 0))]
    ensures RanOk(s')
  {
  }
}
