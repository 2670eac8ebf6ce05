// Actions and releases that overlap: after a release has taken a session out of the map, only a thread that
// had found it before can still act on it, and such a thread always can.
module ReplayReleases {
  import opened Prelude
  import opened ReplayServer
  import opened ReplaySafety
  import opened ReplaySessions
  import opened ReplayFacts
  import opened ReplayTheorems
  import opened ReplayFetches
  import CB = CircuitBreaker
  import Sequential = ReplayAlone
  import Executor

  predicate HasFound(th: Thread, x: nat) {
    th.Performing? && th.session == x
  }

  ghost predicate InFlight(threads: map<nat, Thread>, x: nat) {
    exists t :: t in threads && HasFound(threads[t], x)
  }

  // Some action on the session stands at place n or later.
  ghost predicate ActedFrom(facts: seq<Fact>, n: nat, x: nat) {
    exists i :: n <= i < |facts| && facts[i].Performed? && facts[i].session == x
  }

  // ----- a session that is gone and that nobody has found stays alone -----

  // Nobody new has found x, and nothing more was done to it.
  ghost predicate LeavesAlone(s: Sys, s': Sys, x: nat) {
    && |s.facts| <= |s'.facts| && s'.facts[..|s.facts|] == s.facts
    && (forall i :: |s.facts| <= i < |s'.facts| && s'.facts[i].Performed? ==> s'.facts[i].session != x)
    && (InFlight(s'.threads, x) ==> InFlight(s.threads, x))
  }

  // The thread that moved has not found x, nor has what it told to do with an action on x.
  ghost predicate OneMoved(s: Sys, s': Sys, t: nat, x: nat) {
    && OthersSame(s.threads, s'.threads, t) && (t in s'.threads ==> !HasFound(s'.threads[t], x))
    && |s.facts| <= |s'.facts| && s'.facts[..|s.facts|] == s.facts
    && (forall i :: |s.facts| <= i < |s'.facts| && s'.facts[i].Performed? ==> s'.facts[i].session != x)
  }

  lemma OneMovedLeaves(s: Sys, s': Sys, t: nat, x: nat)
    requires OneMoved(s, s', t, x)
    ensures LeavesAlone(s, s', x)
  {
    if InFlight(s'.threads, x) {
      var u :| u in s'.threads && HasFound(s'.threads[u], x);
      assert u != t && HasFound(s.threads[u], x);
    }
  }

  lemma QuietLeaves(s: Sys, s': Sys, t: nat, x: nat)
    requires Quiet(s, s', t)
    ensures OneMoved(s, s', t, x)
  {
  }

  // A thread that does nothing but add a harmless fact, or none, and does not find x.
  lemma ToldLeaves(s: Sys, s': Sys, t: nat, x: nat, more: seq<Fact>)
    requires OthersSame(s.threads, s'.threads, t) && (t in s'.threads ==> !HasFound(s'.threads[t], x))
    requires s'.facts == s.facts + more && forall i :: 0 <= i < |more| && more[i].Performed? ==> more[i].session != x
    ensures OneMoved(s, s', t, x)
  {
    assert forall i :: |s.facts| <= i < |s'.facts| ==> s'.facts[i] == more[i - |s.facts|];
  }

  lemma LoudLeaves(s: Sys, t: nat, q: Request, run: string, stage: Stage, c: Choice, x: nat)
    requires t in s.threads && s.threads[t] == Owning(q, run, stage) && Loud(stage)
    ensures OneMoved(s, Submit(s, t, q, run, stage, c), t, x)
  {
    var s' := Submit(s, t, q, run, stage, c);
    match stage
    case RefusalTelling => ToldLeaves(s, s', t, x, [Refused(run), Acked(q.key, run, false)]);
    case Launching => ToldLeaves(s, s', t, x, []);
    case Running(y) => ToldLeaves(s, s', t, x, [Ran(run, y, c.result)]);
    case Parking(y, result) => ToldLeaves(s, s', t, x, if result.outcome == Executor.HARD_FAILURE then [] else [Closed(y)]);
    case Completing(_, _) => ToldLeaves(s, s', t, x, [Acked(q.key, run, false)]);
  }

  lemma SubmitLeaves(s: Sys, t: nat, q: Request, run: string, stage: Stage, c: Choice, x: nat)
    requires t in s.threads && s.threads[t] == Owning(q, run, stage)
    ensures OneMoved(s, Submit(s, t, q, run, stage, c), t, x)
  {
    if Loud(stage) {
      LoudLeaves(s, t, q, run, stage, c, x);
    } else {
      SubmitIsQuiet(s, t, q, run, stage, c);
      QuietLeaves(s, Submit(s, t, q, run, stage, c), t, x);
    }
  }

  lemma FindLeaves(s: Sys, t: nat, run: string, viaSaga: bool, x: nat)
    requires TakenOk(s) && Taken(s.facts, x) && t in s.threads && s.threads[t] == Acting(run, viaSaga)
    ensures OneMoved(s, Find(s, t, run, viaSaga), t, x)
  {
    if run in s.live {
      assert IsLive(s.live, run, s.live[run]);
      ToldLeaves(s, Find(s, t, run, viaSaga), t, x, [Fetched(run, s.live[run])]);
    } else {
      ToldLeaves(s, Find(s, t, run, viaSaga), t, x, []);
    }
  }

  lemma PerformLeaves(s: Sys, t: nat, run: string, y: nat, fetched: nat, viaSaga: bool, c: Choice, x: nat)
    requires x != y && t in s.threads && s.threads[t] == Performing(run, y, fetched, viaSaga)
    ensures OneMoved(s, Perform(s, t, run, y, fetched, viaSaga, c), t, x)
  {
    ToldLeaves(s, Perform(s, t, run, y, fetched, viaSaga, c), t, x,
               if Closed(y) in s.facts || !c.ok then [] else [Performed(run, y, fetched)]);
  }

  lemma TakeLeaves(s: Sys, t: nat, run: string, saga: Option<string>, x: nat)
    requires t in s.threads && s.threads[t] == Releasing(run, saga)
    ensures OneMoved(s, Pop(s, t, run, saga), t, x)
  {
    ToldLeaves(s, Pop(s, t, run, saga), t, x, if run in s.live then [Popped(run, s.live[run])] else []);
  }

  lemma CloseLeaves(s: Sys, t: nat, run: string, y: nat, saga: Option<string>, x: nat)
    requires t in s.threads && s.threads[t] == Closing(run, y, saga)
    ensures OneMoved(s, Returned(Tell(s, Closed(y)), t, saga), t, x)
  {
    ToldLeaves(s, Returned(Tell(s, Closed(y)), t, saga), t, x, [Closed(y)]);
  }

  lemma RestLeaves(s: Sys, t: nat, c: Choice, x: nat)
    requires t in s.threads && (s.threads[t].Looking? || s.threads[t].Creating? || (s.threads[t].Telling? && s.threads[t].fact.HumanActed?))
    ensures Advance(s, t, s.threads[t], c) == s || OneMoved(s, Advance(s, t, s.threads[t], c), t, x)
  {
    var s' := Advance(s, t, s.threads[t], c);
    match s.threads[t]
    case Looking(q) =>
      if s' != s { ToldLeaves(s, s', t, x, if q.key != "" && KeyTaken(s.rows, q.key) then [Acked(q.key, c.id, true)] else []); }
    case Creating(q) => if s' != s { ToldLeaves(s, s', t, x, []); }
    case Telling(f) => ToldLeaves(s, s', t, x, [f]);
  }

  lemma AdvanceLeaves(s: Sys, t: nat, c: Choice, x: nat)
    requires TellersOk(s.facts, s.threads) && TakenOk(s) && Taken(s.facts, x) && !InFlight(s.threads, x) && t in s.threads
    ensures LeavesAlone(s, Advance(s, t, s.threads[t], c), x)
  {
    var s' := Advance(s, t, s.threads[t], c);
    if Light(s.rows, s.threads[t]) {
      AdvanceIsQuiet(s, t, c);
      QuietLeaves(s, s', t, x);
    } else {
      HeavyLeaves(s, t, c, x);
    }
    if s' != s { OneMovedLeaves(s, s', t, x); }
  }

  lemma HeavyLeaves(s: Sys, t: nat, c: Choice, x: nat)
    requires TellersOk(s.facts, s.threads) && TakenOk(s) && Taken(s.facts, x) && !InFlight(s.threads, x)
    requires t in s.threads && !Light(s.rows, s.threads[t])
    ensures Advance(s, t, s.threads[t], c) == s || OneMoved(s, Advance(s, t, s.threads[t], c), t, x)
  {
    match s.threads[t]
    case Owning(q, run, stage) => SubmitLeaves(s, t, q, run, stage, c, x);
    case Acting(run, viaSaga) => FindLeaves(s, t, run, viaSaga, x);
    case Performing(run, y, fetched, viaSaga) =>
      assert !HasFound(s.threads[t], x);
      PerformLeaves(s, t, run, y, fetched, viaSaga, c, x);
    case Releasing(run, saga) => TakeLeaves(s, t, run, saga, x);
    case Closing(run, y, saga) => CloseLeaves(s, t, run, y, saga, x);
    case _ => RestLeaves(s, t, c, x);
  }

  lemma NextLeaves(s: Sys, a: Action, x: nat)
    requires Inv(s) && TakenOk(s) && Taken(s.facts, x) && !InFlight(s.threads, x)
    ensures LeavesAlone(s, Next(s, a), x)
  {
    match a
    case Start(t, th) =>
      if t !in s.threads && Fresh(th) {
        ToldLeaves(s, Goto(s, t, th), t, x, []);
        OneMovedLeaves(s, Goto(s, t, th), t, x);
      }
    case Step(t, c) => if t in s.threads { AdvanceLeaves(s, t, c, x); }
    case Die(t) =>
      if t in s.threads {
        ToldLeaves(s, Next(s, a), t, x, []);
        OneMovedLeaves(s, Next(s, a), t, x);
      }
  }

  // Nobody has found x, and since place n nothing was done to it.
  ghost predicate Alone(s: Sys, n: nat, x: nat) {
    Inv(s) && FetchInv(s) && Taken(s.facts, x) && !InFlight(s.threads, x) && n <= |s.facts| && !ActedFrom(s.facts, n, x)
  }

  lemma NextKeepsAlone(s: Sys, a: Action, n: nat, x: nat)
    requires Alone(s, n, x)
    ensures Alone(Next(s, a), n, x)
  {
    var s' := Next(s, a);
    NextKeepsInv(s, a);
    NextKeepsFetches(s, a);
    NextLeaves(s, a, x);
    assert forall i :: 0 <= i < |s.facts| ==> s'.facts[i] == s.facts[i];
    var i :| 0 <= i < |s.facts| && s.facts[i].Popped? && s.facts[i].session == x;
    assert s'.facts[i].Popped?;
  }

  lemma {:induction false} StaysAlone(s: Sys, more: seq<Action>, n: nat, x: nat)
    requires Alone(s, n, x)
    ensures Alone(RunFrom(s, more), n, x)
  {
    if more != [] {
      StaysAlone(s, more[..|more| - 1], n, x);
      NextKeepsAlone(RunFrom(s, more[..|more| - 1]), more[|more| - 1], n, x);
    }
  }

  // ----- a thread that has found the session acts on it -----

  lemma FoundActs(s: Sys, t: nat, x: nat, c: Choice)
    requires t in s.threads && HasFound(s.threads[t], x) && Closed(x) !in s.facts && c.ok
    ensures var s' := RunFrom(s, [Step(t, c)]);
            |s'.facts| == |s.facts| + 1 && s'.facts[|s.facts|].Performed? && s'.facts[|s.facts|].session == x
  {
    assert RunFrom(s, [Step(t, c)][..0]) == s;
  }

  // ----- the release -----

  ghost predicate Continues(s: Sys, n: nat, x: nat, more: seq<Action>) {
    ActedFrom(RunFrom(s, more).facts, n, x)
  }

  // What a release leaves behind as it takes session x out of the map.
  lemma PoppedState(s: Sys, u: nat, saga: Option<string>, run: string, c: Choice)
    requires Inv(s) && FetchInv(s) && u in s.threads && s.threads[u] == Releasing(run, saga) && run in s.live
    ensures var popped, x := Next(s, Step(u, c)), s.live[run];
            && Inv(popped) && FetchInv(popped) && popped.facts == s.facts + [Popped(run, x)] && Taken(popped.facts, x)
            && Closed(x) !in popped.facts && OneMoved(s, popped, u, x)
  {
    var popped, x := Next(s, Step(u, c)), s.live[run];
    NextKeepsInv(s, Step(u, c));
    NextKeepsFetches(s, Step(u, c));
    assert IsLive(s.live, run, x);
    assert popped.facts[|s.facts|] == Popped(run, x);
    TakeLeaves(s, u, run, saga, x);
  }

  lemma SomeoneActs(s: Sys, popped: Sys, u: nat, x: nat, c: Choice)
    requires OneMoved(s, popped, u, x) && u in s.threads && s.threads[u].Releasing? && InFlight(s.threads, x) && Closed(x) !in popped.facts
    ensures exists more :: Continues(popped, |popped.facts|, x, more)
  {
    var t :| t in s.threads && HasFound(s.threads[t], x);
    var w := c.(ok := true);
    FoundActs(popped, t, x, w);
    assert Continues(popped, |popped.facts|, x, [Step(t, w)]);
  }

  lemma NobodyActs(s: Sys, popped: Sys, u: nat, x: nat)
    requires Inv(popped) && FetchInv(popped) && Taken(popped.facts, x) && OneMoved(s, popped, u, x) && !InFlight(s.threads, x)
    ensures !exists more :: Continues(popped, |popped.facts|, x, more)
  {
    OneMovedLeaves(s, popped, u, x);
    forall more ensures !Continues(popped, |popped.facts|, x, more) {
      StaysAlone(popped, more, |popped.facts|, x);
    }
  }

  // When a release takes session x out of the map, some continuation still acts on x if and only if at that
  // moment some thread has found x and not acted yet.
  lemma ActedAfterReleaseExactly(acts: seq<Action>, u: nat, saga: Option<string>, run: string, c: Choice)
    requires var s := Run(acts); u in s.threads && s.threads[u] == Releasing(run, saga) && run in s.live
    ensures var s := Run(acts);
            var popped, x := Next(s, Step(u, c)), s.live[run];
            && popped.facts == s.facts + [Popped(run, x)]
            && ((exists more :: Continues(popped, |popped.facts|, x, more)) <==> InFlight(s.threads, x))
  {
    var s := Run(acts);
    RunKeepsInv(acts);
    RunKeepsFetches(acts);
    PoppedState(s, u, saga, run, c);
    if InFlight(s.threads, s.live[run]) {
      SomeoneActs(s, Next(s, Step(u, c)), u, s.live[run], c);
    } else {
      NobodyActs(s, Next(s, Step(u, c)), u, s.live[run]);
    }
  }

  // ----- such a run -----

  const Q := Request("order-7", "submit-form", 1, "acme", "corr-1")
  // A navigate step without its url, which fails hard at the first attempt.
  const FAILED := Executor.ReplayResult(
    Executor.HARD_FAILURE, map[], 0, Some("step-1"), Some(Executor.Hard(Executor.UnboundParam("url"))),
    [Executor.StepExecution("step-1", Executor.HardEntry)])

  function Move(t: nat, id: string): (a: Action) {
    Step(t, Choice(id, 0, true, FAILED))
  }

  // Looked up and stored; announced, admitted and resolved; launched, failed and kept alive; logged and
  // recorded; dead-lettered, announced and escalated; completed, and a person's action begins; it finds the
  // session, and a release arrives at the pop.
  const STORES := [Start(0, Looking(Q)), Move(0, ""), Move(0, "run-1")]
  const ADMITS := [Move(0, ""), Move(0, ""), Move(0, "")]
  const FAILS := [Move(0, ""), Move(0, ""), Move(0, "")]
  const RECORDS := [Move(0, ""), Move(0, ""), Move(0, "")]
  const ESCALATES := [Move(0, "letter-1"), Move(0, ""), Move(0, "saga-1")]
  const RECALLS := [Move(0, ""), Start(1, Recalling("saga-1")), Move(1, "")]
  const MEETS := [Move(1, ""), Start(2, Freeing("saga-1")), Move(2, "")]
  const RACE := STORES + (ADMITS + (FAILS + (RECORDS + (ESCALATES + (RECALLS + MEETS)))))

  lemma {:induction false} FromFront(s: Sys, a: Action, rest: seq<Action>)
    ensures RunFrom(s, [a] + rest) == RunFrom(Next(s, a), rest)
    decreases |rest|
  {
    var all := [a] + rest;
    if rest == [] {
      assert all[..0] == [] && RunFrom(s, all) == Next(RunFrom(s, all[..0]), all[0]);
    } else {
      FromFront(s, a, rest[..|rest| - 1]);
      assert all[..|all| - 1] == [a] + rest[..|rest| - 1];
    }
  }

  function Three(s: Sys, g: seq<Action>): (r: Sys)
    requires |g| == 3
  {
    Next(Next(Next(s, g[0]), g[1]), g[2])
  }

  lemma FromThree(s: Sys, g: seq<Action>, rest: seq<Action>)
    requires |g| == 3
    ensures RunFrom(s, g + rest) == RunFrom(Three(s, g), rest)
  {
    assert g + rest == [g[0]] + ([g[1]] + ([g[2]] + rest));
    FromFront(s, g[0], [g[1]] + ([g[2]] + rest));
    FromFront(Next(s, g[0]), g[1], [g[2]] + rest);
    FromFront(Next(Next(s, g[0]), g[1]), g[2], rest);
  }

  function Owned(s: Sys, stage: Stage): (r: Sys) {
    s.(threads := map[0 := Owning(Q, "run-1", stage)])
  }

  const STORED := INIT.(rows := map["run-1" := Pending(Q)])
  const ADMITTED := STORED.(
    history := map["acme:submit-form" := [CB.Probe(0)]], facts := [Requested("run-1"), Gated("run-1", [], 0)])
  const KEPT := ADMITTED.(
    sessions := ["run-1"], live := map["run-1" := 0], facts := ADMITTED.facts + [Ran("run-1", 0, FAILED)])
  const RECORDED := KEPT.(
    history := map["acme:submit-form" := [CB.Probe(0), CB.Failure(0)]], facts := KEPT.facts + [StepLogged("run-1", FAILED.stepLog[0])])
  const ESCALATED := RECORDED.(
    sagas := map["saga-1" := Saga("run-1", INTERVENTION_REQUESTED)],
    facts := RECORDED.facts + [HardFailed("run-1"), InterventionRequested("saga-1", "run-1")])
  const RECALLED := ESCALATED.(
    rows := map["run-1" := Completed(Pending(Q), FAILED, Some("letter-1"))],
    facts := ESCALATED.facts + [Acked("order-7", "run-1", false), HumanActionRecorded("saga-1")])
  const RACING := RECALLED.(
    facts := RECALLED.facts + [Fetched("run-1", 0)],
    threads := map[1 := Performing("run-1", 0, |RECALLED.facts|, true), 2 := Releasing("run-1", Some("saga-1"))])

  lemma StoresReached()
    ensures Three(INIT, STORES) == Owned(STORED, Requesting)
  {
  }

  lemma AdmitsReached()
    ensures Three(Owned(STORED, Requesting), ADMITS) == Owned(ADMITTED, Launching)
  {
    var m := STORED.(facts := [Requested("run-1")]);
    assert Next(Owned(STORED, Requesting), ADMITS[0]) == Owned(m, Gating);
    FirstGate(m);
    assert m.facts + [Gated("run-1", [], 0)] == ADMITTED.facts;
    assert Next(Owned(ADMITTED, Resolving), ADMITS[2]) == Owned(ADMITTED, Launching);
  }

  lemma FirstGate(m: Sys)
    requires m.history == map[]
    ensures Next(Owned(m, Gating), Move(0, "")) == Owned(m.(
              history := map["acme:submit-form" := [CB.Probe(0)]], facts := m.facts + [Gated("run-1", [], 0)]), Resolving)
  {
    assert TargetOf(Q) == "acme:submit-form";
    assert [] + [CB.Probe(0)] == [CB.Probe(0)];
  }

  lemma FailsReached()
    ensures Three(Owned(ADMITTED, Launching), FAILS) == Owned(KEPT, Logging(FAILED, 0))
  {
    var s := Next(Owned(ADMITTED, Launching), Move(0, ""));
    assert s == Owned(ADMITTED.(sessions := ["run-1"]), Running(0));
  }

  lemma RecordsReached()
    ensures Three(Owned(KEPT, Logging(FAILED, 0)), RECORDS) == Owned(RECORDED, DeadLettering(FAILED))
  {
    var m := KEPT.(facts := RECORDED.facts);
    assert Next(Owned(KEPT, Logging(FAILED, 0)), RECORDS[0]) == Owned(m, Logging(FAILED, 1));
    assert Next(Owned(m, Logging(FAILED, 1)), RECORDS[1]) == Owned(m, Recording(FAILED));
    FirstFailure(m);
  }

  lemma FirstFailure(m: Sys)
    requires m.history == map["acme:submit-form" := [CB.Probe(0)]]
    ensures Next(Owned(m, Recording(FAILED)), Move(0, ""))
         == Owned(m.(history := map["acme:submit-form" := [CB.Probe(0), CB.Failure(0)]]), DeadLettering(FAILED))
  {
    assert TargetOf(Q) == "acme:submit-form";
    assert [CB.Probe(0)] + [CB.Failure(0)] == [CB.Probe(0), CB.Failure(0)];
  }

  lemma EscalatesReached()
    ensures Three(Owned(RECORDED, DeadLettering(FAILED)), ESCALATES) == Owned(ESCALATED, Completing(FAILED, Some("letter-1")))
  {
    var m := RECORDED.(facts := RECORDED.facts + [HardFailed("run-1")]);
    assert Next(Owned(RECORDED, DeadLettering(FAILED)), ESCALATES[0]) == Owned(RECORDED, Announcing(FAILED, Some("letter-1")));
    assert Next(Owned(RECORDED, Announcing(FAILED, Some("letter-1"))), ESCALATES[1]) == Owned(m, Escalating(FAILED, Some("letter-1")));
    FirstSaga(m);
    assert m.facts + [InterventionRequested("saga-1", "run-1")] == ESCALATED.facts;
  }

  lemma FirstSaga(m: Sys)
    requires m.sagas == map[]
    ensures Next(Owned(m, Escalating(FAILED, Some("letter-1"))), Move(0, "saga-1")) == Owned(m.(
              sagas := map["saga-1" := Saga("run-1", INTERVENTION_REQUESTED)],
              facts := m.facts + [InterventionRequested("saga-1", "run-1")]), Completing(FAILED, Some("letter-1")))
  {
  }

  lemma RecallsReached()
    ensures Three(Owned(ESCALATED, Completing(FAILED, Some("letter-1"))), RECALLS) == RECALLED.(threads := map[1 := Acting("run-1", true)])
  {
    var s := Next(Owned(ESCALATED, Completing(FAILED, Some("letter-1"))), Move(0, ""));
    var m := RECALLED.(facts := ESCALATED.facts + [Acked("order-7", "run-1", false)]);
    assert s == m.(threads := map[]);
    assert Next(s, RECALLS[1]) == m.(threads := map[1 := Recalling("saga-1")]);
    assert m.facts + [HumanActionRecorded("saga-1")] == RECALLED.facts;
  }

  lemma MeetsReached()
    ensures Three(RECALLED.(threads := map[1 := Acting("run-1", true)]), MEETS) == RACING
  {
  }

  lemma RaceReached()
    ensures Run(RACE) == RACING
  {
    StoresReached();
    FromThree(INIT, STORES, ADMITS + (FAILS + (RECORDS + (ESCALATES + (RECALLS + MEETS)))));
    AdmitsReached();
    FromThree(Owned(STORED, Requesting), ADMITS, FAILS + (RECORDS + (ESCALATES + (RECALLS + MEETS))));
    FailsReached();
    FromThree(Owned(ADMITTED, Launching), FAILS, RECORDS + (ESCALATES + (RECALLS + MEETS)));
    RecordsReached();
    FromThree(Owned(KEPT, Logging(FAILED, 0)), RECORDS, ESCALATES + (RECALLS + MEETS));
    EscalatesReached();
    FromThree(Owned(RECORDED, DeadLettering(FAILED)), ESCALATES, RECALLS + MEETS);
    RecallsReached();
    FromThree(Owned(ESCALATED, Completing(FAILED, Some("letter-1"))), RECALLS, MEETS);
    MeetsReached();
    FromThree(RECALLED.(threads := map[1 := Acting("run-1", true)]), MEETS, []);
    assert MEETS + [] == MEETS;
  }

  // The release pops, the person's action is performed and reported: an action on the original session after
  // its first release.
  lemma ActionAfterRelease()
    ensures Run(RACE) == RACING
    ensures Run(RACE + [Move(2, ""), Move(1, ""), Move(1, "")]).facts
            == RACING.facts + [Popped("run-1", 0), Performed("run-1", 0, |RECALLED.facts|), HumanActed("run-1", |RACING.facts| + 1)]
  {
    RaceReached();
    Continued(RACE, Move(2, ""), Move(1, ""), Move(1, ""));
    PopsFirst();
  }

  lemma PopsFirst()
    ensures Next(Next(Next(RACING, Move(2, "")), Move(1, "")), Move(1, "")).facts
            == RACING.facts + [Popped("run-1", 0), Performed("run-1", 0, |RECALLED.facts|), HumanActed("run-1", |RACING.facts| + 1)]
  {
    var m := Next(RACING, Move(2, ""));
    assert m.facts == RACING.facts + [Popped("run-1", 0)] && m.threads[1] == RACING.threads[1];
    PerformsAndTells(m, "run-1", 0, |RECALLED.facts|);
  }

  lemma PerformsAndTells(m: Sys, run: string, x: nat, fetched: nat)
    requires 1 in m.threads && m.threads[1] == Performing(run, x, fetched, true) && Closed(x) !in m.facts
    ensures Next(Next(m, Move(1, "")), Move(1, "")).facts == m.facts + [Performed(run, x, fetched), HumanActed(run, |m.facts|)]
  {
    var s := Next(m, Move(1, ""));
    assert s.facts == m.facts + [Performed(run, x, fetched)] && s.threads[1] == Thread.Telling(HumanActed(run, |m.facts|));
  }

  lemma Continued(acts: seq<Action>, a: Action, b: Action, c: Action)
    ensures Run(acts + [a, b, c]) == Next(Next(Next(Run(acts), a), b), c)
  {
    assert acts + [a, b, c] == ((acts + [a]) + [b]) + [c];
    Sequential.RunOneMore(INIT, acts, a);
    Sequential.RunOneMore(INIT, acts + [a], b);
    Sequential.RunOneMore(INIT, (acts + [a]) + [b], c);
  }
}
