// Where every browser session is, in every reachable state of the replay server.
module ReplaySessions {
  import opened Prelude
  import opened ReplayServer
  import opened ReplaySafety
  import Executor

  ghost predicate Holding(threads: map<nat, Thread>, t: nat, x: nat) {
    t in threads && Held(threads[t]) == Some(x)
  }

  ghost predicate IsLive(live: map<string, nat>, r: string, x: nat) {
    r in live && live[r] == x
  }

  // Closed, leaked, live and held exclude each other.
  ghost predicate HoldersOk(s: Sys) {
    && (forall t, x: nat :: Holding(s.threads, t, x) ==> x < |s.sessions| && Closed(x) !in s.facts && x !in s.leaked)
    && (forall t, r, x :: Holding(s.threads, t, x) ==> !IsLive(s.live, r, x))
    && (forall t, u, x :: Holding(s.threads, t, x) && Holding(s.threads, u, x) ==> t == u)
  }

  ghost predicate LiveOk(s: Sys) {
    forall r, x: nat :: IsLive(s.live, r, x) ==> x < |s.sessions| && s.sessions[x] == r && Closed(x) !in s.facts && x !in s.leaked
  }

  ghost predicate LostOk(s: Sys) {
    && (forall x :: x in s.leaked ==> x < |s.sessions| && Closed(x) !in s.facts)
    && (forall x: nat :: Closed(x) in s.facts ==> x < |s.sessions|)
  }

  // No session is forgotten.
  ghost predicate Located(s: Sys, x: nat) {
    || Closed(x) in s.facts || x in s.leaked || (exists r :: IsLive(s.live, r, x)) || (exists t :: Holding(s.threads, t, x))
  }

  ghost predicate AllLocated(s: Sys) {
    forall x :: 0 <= x < |s.sessions| ==> Located(s, x)
  }

  // The session a thread works on was launched for the run it works for.
  predicate OriginOk(sessions: seq<string>, th: Thread) {
    match th
    case Owning(_, run, Running(x)) => x < |sessions| && sessions[x] == run
    case Owning(_, run, Parking(x, _)) => x < |sessions| && sessions[x] == run
    case Closing(run, x, _) => x < |sessions| && sessions[x] == run
    case Performing(run, x, _, _) => x < |sessions| && sessions[x] == run
    case _ => true
  }

  ghost predicate OriginsOk(s: Sys) {
    forall t :: t in s.threads ==> OriginOk(s.sessions, s.threads[t])
  }

  ghost predicate SessionsOk(s: Sys) {
    HoldersOk(s) && LiveOk(s) && LostOk(s) && AllLocated(s) && OriginsOk(s)
  }

  // ----- steps that leave every session where it is -----

  ghost predicate OthersSame(threads: map<nat, Thread>, after: map<nat, Thread>, t: nat) {
    forall u :: u != t ==> (u in after <==> u in threads) && (u in after ==> after[u] == threads[u])
  }

  ghost predicate SameHold(threads: map<nat, Thread>, after: map<nat, Thread>, t: nat) {
    forall x :: Holding(threads, t, x) <==> Holding(after, t, x)
  }

  ghost predicate NoneClosed(facts: seq<Fact>, more: seq<Fact>) {
    && (forall f :: f in facts ==> f in more)
    && (forall x :: Closed(x) in more ==> Closed(x) in facts)
  }

  lemma SessionsStay(s: Sys, s': Sys, t: nat)
    requires SessionsOk(s) && s'.sessions == s.sessions && s'.live == s.live && s'.leaked == s.leaked
    requires OthersSame(s.threads, s'.threads, t) && SameHold(s.threads, s'.threads, t) && NoneClosed(s.facts, s'.facts)
    requires t in s'.threads ==> OriginOk(s'.sessions, s'.threads[t])
    ensures SessionsOk(s')
  {
    assert forall u, x :: Holding(s'.threads, u, x) <==> Holding(s.threads, u, x);
    forall x | 0 <= x < |s'.sessions| ensures Located(s', x) {
      assert Located(s, x);
    }
  }

  lemma LittleClosed(facts: seq<Fact>, more: seq<Fact>)
    requires SaysLittle(facts, more)
    ensures NoneClosed(facts, more)
  {
  }

  lemma SessionsQuiet(s: Sys, s': Sys, t: nat)
    requires SessionsOk(s) && Quiet(s, s', t)
    ensures SessionsOk(s')
  {
    LittleClosed(s.facts, s'.facts);
    SessionsStay(s, s', t);
  }

  // ----- steps that move one -----

  lemma SessionsLaunched(s: Sys, s': Sys, t: nat, q: Request, run: string)
    requires SessionsOk(s) && t in s.threads && s.threads[t] == Owning(q, run, Launching)
    requires s' == Goto(s.(sessions := s.sessions + [run]), t, Owning(q, run, Running(|s.sessions|)))
    ensures SessionsOk(s')
  {
    var n := |s.sessions|;
    assert forall u, x :: Holding(s'.threads, u, x) <==> (u == t && x == n) || Holding(s.threads, u, x);
    assert forall x :: 0 <= x < n ==> s'.sessions[x] == s.sessions[x];
    forall x | 0 <= x < |s'.sessions| ensures Located(s', x) {
      if x < n { assert Located(s, x); } else { assert Holding(s'.threads, t, x); }
    }
  }

  lemma SessionsParkedLive(s: Sys, s': Sys, t: nat, q: Request, run: string, x: nat, result: Executor.ReplayResult)
    requires SessionsOk(s) && t in s.threads && s.threads[t] == Owning(q, run, Parking(x, result)) && run !in s.live
    requires s' == Goto(s.(live := s.live[run := x]), t, Owning(q, run, Logging(result, 0)))
    ensures SessionsOk(s')
  {
    assert Holding(s.threads, t, x);
    assert forall u, y :: Holding(s'.threads, u, y) <==> u != t && Holding(s.threads, u, y);
    assert forall r, y :: IsLive(s'.live, r, y) <==> (r == run && y == x) || IsLive(s.live, r, y);
    assert OriginOk(s.sessions, s.threads[t]);
    forall y | 0 <= y < |s'.sessions| ensures Located(s', y) {
      assert Located(s, y);
      if y == x { assert IsLive(s'.live, run, x); }
    }
  }

  // Closing: the holder lets go, and nothing is left of the session.
  lemma SessionsClosed(s: Sys, s': Sys, t: nat, x: nat)
    requires SessionsOk(s) && Holding(s.threads, t, x)
    requires s'.sessions == s.sessions && s'.live == s.live && s'.leaked == s.leaked && s'.facts == s.facts + [Closed(x)]
    requires OthersSame(s.threads, s'.threads, t) && (t in s'.threads ==> Held(s'.threads[t]).None? && OriginOk(s'.sessions, s'.threads[t]))
    ensures SessionsOk(s')
  {
    assert forall u, y :: Holding(s'.threads, u, y) <==> u != t && Holding(s.threads, u, y);
    assert forall y :: Closed(y) in s'.facts <==> y == x || Closed(y) in s.facts;
    forall y | 0 <= y < |s'.sessions| ensures Located(s', y) {
      assert Located(s, y);
    }
  }

  lemma SessionsPopped(s: Sys, s': Sys, t: nat, run: string, saga: Option<string>)
    requires SessionsOk(s) && t in s.threads && Held(s.threads[t]).None? && run in s.live
    requires s' == Goto(Tell(s.(live := s.live - {run}), Popped(run, s.live[run])), t, Closing(run, s.live[run], saga))
    ensures SessionsOk(s')
  {
    var x := s.live[run];
    assert IsLive(s.live, run, x);
    assert forall u, y :: Holding(s'.threads, u, y) <==> (u == t && y == x) || Holding(s.threads, u, y);
    assert forall r, y :: IsLive(s'.live, r, y) <==> r != run && IsLive(s.live, r, y);
    assert forall y :: Closed(y) in s'.facts <==> Closed(y) in s.facts;
    forall y | 0 <= y < |s'.sessions| ensures Located(s', y) {
      assert Located(s, y);
      if y == x { assert Holding(s'.threads, t, x); }
    }
  }

  lemma SessionsLeaked(s: Sys, t: nat, x: nat)
    requires SessionsOk(s) && Holding(s.threads, t, x)
    ensures SessionsOk(Done(s.(leaked := s.leaked + {x}), t))
  {
    var s' := Done(s.(leaked := s.leaked + {x}), t);
    assert forall u, y :: Holding(s'.threads, u, y) <==> u != t && Holding(s.threads, u, y);
    forall y | 0 <= y < |s'.sessions| ensures Located(s', y) {
      assert Located(s, y);
    }
  }
}
