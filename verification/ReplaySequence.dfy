// Requests served one after the other: each is a run of the server's machine with nobody else moving, so a
// whole sequence is one, and the breaker sees one run of a target at a time.
module ReplaySequence {
  import opened Prelude
  import opened ReplayServer
  import opened ReplaySafety
  import opened ReplaySessions
  import opened ReplayTheorems
  import opened ReplayAlone
  import CB = CircuitBreaker
  import Executor

  datatype Call =
    | Submits(q: Request, w: World)
    | Acts(run: string, w: World)       // ActOnLiveSession
    | Releases(run: string)             // ReleaseLiveSession
    | Claims(saga: string)              // ClaimSession
    | Recalls(saga: string, w: World)   // RecordHumanAction
    | Frees(saga: string, w: World)     // ReleaseControl

  // What a call does to the server.
  ghost predicate Serves(s: Sys, call: Call, s': Sys) {
    match call
    case Submits(q, w) =>
      if q.key != "" && KeyTaken(s.rows, q.key) then
        exists run :: run in s.rows && s.rows[run].key == q.key && s' == Tell(s, Acked(q.key, run, true))
      else s' == Handled(s, q, w).0
    case Acts(run, w) => s' == Acted(s, run, false, w)
    case Releases(run) => s' == Released(s, run)
    case Claims(saga) => s' == Claimed(s, saga)
    case Recalls(saga, w) => s' == Recalled(s, saga, w)
    case Frees(saga, w) => s' == Freed(s, saga, w)
  }

  // A submission is handed new ids.
  ghost predicate NewIds(s: Sys, call: Call) {
    call.Submits? ==> call.w(Creating(call.q)).id !in s.rows && forall th :: call.w(th).id !in s.sagas
  }

  ghost predicate Sequence(states: seq<Sys>, calls: seq<Call>) {
    && |states| == |calls| + 1 && states[0] == INIT
    && forall i :: 0 <= i < |calls| ==> NewIds(states[i], calls[i]) && Serves(states[i], calls[i], states[i + 1])
  }

  // ----- what one submission leaves behind -----

  // The breaker's history of a target across one submission.
  ghost predicate OneRun(h: seq<CB.Event>, h': seq<CB.Event>) {
    h' == h || (
      && |h| < |h'| <= |h| + 2 && h'[..|h|] == h && h'[|h|].Probe?
      && (|h'| == |h| + 2 ==> CB.Admits(CB.After(h), h'[|h|].now) && !h'[|h| + 1].Probe?))
  }

  ghost predicate OneRunEach(s: Sys, s': Sys) {
    forall target: string :: OneRun(CB.Past(s.history, target), CB.Past(s'.history, target))
  }

  // Nobody is left working, and nothing was lost on the way.
  predicate AtRest(s: Sys, s': Sys) {
    s'.threads == s.threads && s'.leaked == s.leaked
  }

  lemma FinishAtRest(s: Sys, run: string, r: Executor.ReplayResult, d: Option<string>)
    ensures AtRest(s, Finish(s, run, r, d)) && Finish(s, run, r, d).history == s.history
  {
  }

  lemma AdmittedHistory(s: Sys, q: Request, run: string, w: World)
    ensures var s' := Admitted(s, q, run, w);
            && AtRest(s, s')
            && s'.history == s.history[TargetOf(q) := CB.Past(s.history, TargetOf(q)) + [CB.Probe(Ask(w, q, run, Gating).now)]]
  {
  }

  lemma ReportedHistory(s: Sys, q: Request, run: string, r: Executor.ReplayResult, w: World)
    ensures var s' := Reported(s, q, run, r, w);
            && AtRest(s, s')
            && exists e: CB.Event :: !e.Probe? && s'.history == s.history[TargetOf(q) := CB.Past(s.history, TargetOf(q)) + [e]]
  {
    var e := if r.outcome == Executor.BUSINESS_OUTCOME then CB.Success else CB.Failure(Ask(w, q, run, Recording(r)).now);
    assert Reported(s, q, run, r, w).history == s.history[TargetOf(q) := CB.Past(s.history, TargetOf(q)) + [e]];
  }

  lemma ExecutedHistory(s: Sys, q: Request, run: string, w: World)
    ensures AtRest(s, Executed(s, q, run, w)) && Executed(s, q, run, w).history == s.history
  {
  }

  lemma CarriedHistory(s: Sys, q: Request, run: string, w: World)
    ensures var s' := Carried(s, q, run, w).0;
            && AtRest(s, s')
            && (s'.history == s.history ||
                exists e: CB.Event :: !e.Probe? && s'.history == s.history[TargetOf(q) := CB.Past(s.history, TargetOf(q)) + [e]])
  {
    ExecutedHistory(s, q, run, w);
    var result := ResultOf(s, q, run, w);
    if result.Some? {
      var m := Logged(Executed(s, q, run, w), run, result.value.stepLog);
      ReportedHistory(m, q, run, result.value, w);
      FinishAtRest(Reported(m, q, run, result.value, w), run, result.value, DeadLetterOf(q, run, result.value, w));
    }
  }

  lemma ProbedOnly(s: Sys, s': Sys, target: string, now: int)
    requires s'.history == s.history[target := CB.Past(s.history, target) + [CB.Probe(now)]]
    ensures OneRunEach(s, s')
  {
  }

  lemma ProbedAndRan(s: Sys, m: Sys, s': Sys, target: string, now: int, e: CB.Event)
    requires CB.Admits(CB.After(CB.Past(s.history, target)), now) && !e.Probe?
    requires m.history == s.history[target := CB.Past(s.history, target) + [CB.Probe(now)]]
    requires s'.history == m.history[target := CB.Past(m.history, target) + [e]]
    ensures OneRunEach(s, s')
  {
    var h := CB.Past(s.history, target);
    assert CB.Past(s'.history, target) == h + [CB.Probe(now)] + [e];
    assert (h + [CB.Probe(now)] + [e])[..|h|] == h;
  }

  lemma HandledHistory(s: Sys, q: Request, w: World)
    ensures AtRest(s, Handled(s, q, w).0) && OneRunEach(s, Handled(s, q, w).0)
  {
    var run := w(Creating(q)).id;
    if !KeyTaken(s.rows, q.key) && run !in s.rows {
      var m := s.(rows := s.rows[run := Pending(q)]);
      var n := Admitted(m, q, run, w);
      AdmittedHistory(m, q, run, w);
      var now := Ask(w, q, run, Gating).now;
      ProbedOnly(s, n, TargetOf(q), now);
      if Passes(m, q, run, w) {
        CarriedHistory(n, q, run, w);
        var s' := Carried(n, q, run, w).0;
        if s'.history == n.history {
          ProbedOnly(s, s', TargetOf(q), now);
        } else {
          var e: CB.Event :| !e.Probe? && s'.history == n.history[TargetOf(q) := CB.Past(n.history, TargetOf(q)) + [e]];
          ProbedAndRan(s, n, s', TargetOf(q), now, e);
        }
      }
    }
  }

  lemma ActedAtRest(s: Sys, run: string, viaSaga: bool, w: World)
    ensures AtRest(s, Acted(s, run, viaSaga, w)) && Acted(s, run, viaSaga, w).history == s.history
  {
  }

  lemma RecalledAtRest(s: Sys, saga: string, w: World)
    ensures AtRest(s, Recalled(s, saga, w)) && Recalled(s, saga, w).history == s.history
  {
    if saga in s.sagas {
      ActedAtRest(Tell(s, HumanActionRecorded(saga)), s.sagas[saga].runId, true, w);
    }
  }

  lemma OthersAtRest(s: Sys, call: Call, s': Sys)
    requires Serves(s, call, s') && !call.Submits?
    ensures AtRest(s, s') && s'.history == s.history
  {
    match call
    case Acts(run, w) => ActedAtRest(s, run, false, w);
    case Recalls(saga, w) => RecalledAtRest(s, saga, w);
    case _ =>
  }

  lemma ServesOneRun(s: Sys, call: Call, s': Sys)
    requires Serves(s, call, s')
    ensures AtRest(s, s') && OneRunEach(s, s')
  {
    if call.Submits? {
      HandledHistory(s, call.q, call.w);
    } else {
      OthersAtRest(s, call, s');
    }
  }

  // ----- each call is a run of the machine -----

  lemma {:induction false} RunsCompose(s: Sys, a: seq<Action>, b: seq<Action>)
    ensures RunFrom(s, a + b) == RunFrom(RunFrom(s, a), b)
    decreases |b|
  {
    if b == [] {
      assert a + b == a;
    } else {
      var n := |b| - 1;
      RunsCompose(s, a, b[..n]);
      assert a + b == (a + b[..n]) + [b[n]];
      RunOneMore(s, a + b[..n], b[n]);
    }
  }

  lemma RunsChain(a: Sys, b: Sys, c: Sys)
    requires IsRun(a, b) && IsRun(b, c)
    ensures IsRun(a, c)
  {
    var x :| RunFrom(a, x) == b;
    var y :| RunFrom(b, y) == c;
    RunsCompose(a, x, y);
  }

  lemma OneAction(s: Sys, a: Action)
    ensures IsRun(s, Next(s, a))
  {
    RunOneMore(s, [], a);
    assert RunFrom(s, []) == s;
  }

  // A request whose key is known is acknowledged at once,
  lemma DedupArrives(s: Sys, q: Request, w: World, run: string)
    requires s.threads == map[] && q.key != "" && run in s.rows && s.rows[run].key == q.key
    ensures IsRun(s, Tell(s, Acked(q.key, run, true)))
  {
    var m := At(s, Looking(q));
    OneAction(s, Start(0, Looking(q)));
    assert Next(s, Start(0, Looking(q))) == m;
    var c := w(Looking(q)).(id := run);
    DoneIsIdle(s, Looking(q));
    assert KeyTaken(s.rows, q.key) && Next(m, Step(0, c)) == Tell(s, Acked(q.key, run, true));
    OneAction(m, Step(0, c));
    RunsChain(s, m, Tell(s, Acked(q.key, run, true)));
  }

  // any other is handled.
  lemma HandledArrives(s: Sys, q: Request, w: World)
    requires s.threads == map[] && NewIds(s, Submits(q, w)) && !(q.key != "" && KeyTaken(s.rows, q.key))
    ensures IsRun(s, Handled(s, q, w).0)
  {
    var m, c := At(s, Looking(q)), w(Looking(q));
    OneAction(s, Start(0, Looking(q)));
    assert Next(s, Start(0, Looking(q))) == m;
    assert Next(m, Step(0, c)) == At(s, Creating(q));
    OneAction(m, Step(0, c));
    RunsChain(s, m, At(s, Creating(q)));
    HandledReached(s, q, w);
    Proceeds(s, At(s, Creating(q)), Handled(s, q, w).0, w);
  }

  lemma Proceeds(s: Sys, m: Sys, s': Sys, w: World)
    requires IsRun(s, m) && Reaches(m, s', w)
    ensures IsRun(s, s')
  {
    var n: nat :| ReplayAlone.Alone(m, w, n) == s';
    AloneIsARun(m, w, n);
    RunsChain(s, m, s');
  }

  // A request comes in while nobody else is served, and runs to its end.
  lemma Arrives(s: Sys, th: Thread, s': Sys, w: World)
    requires s.threads == map[] && Fresh(th) && Reaches(At(s, th), s', w)
    ensures IsRun(s, s')
  {
    OneAction(s, Start(0, th));
    assert Next(s, Start(0, th)) == At(s, th);
    Proceeds(s, At(s, th), s', w);
  }

  // However a submission that nobody disturbs takes its steps, it ends where Handled says.
  lemma EveryEndIsHandled(s: Sys, q: Request, w: World, n: nat)
    requires s.threads == map[] && NewIds(s, Submits(q, w)) && 0 !in ReplayAlone.Alone(At(s, Creating(q)), w, n).threads
    ensures ReplayAlone.Alone(At(s, Creating(q)), w, n) == Handled(s, q, w).0
  {
    HandledReached(s, q, w);
    HandledHistory(s, q, w);
    var k: nat :| ReplayAlone.Alone(At(s, Creating(q)), w, k) == Handled(s, q, w).0;
    EndIsUnique(At(s, Creating(q)), w, n, k);
  }

  const CALM: World := (th: Thread) => Choice("", 0, true, REFUSAL)

  lemma ServesIsARun(s: Sys, call: Call, s': Sys)
    requires Inv(s) && s.threads == map[] && NewIds(s, call) && Serves(s, call, s')
    ensures IsRun(s, s')
  {
    forall run | run in s.live ensures Closed(s.live[run]) !in s.facts {
      assert IsLive(s.live, run, s.live[run]);
    }
    match call
    case Submits(q, w) =>
      if q.key != "" && KeyTaken(s.rows, q.key) {
        var run :| run in s.rows && s.rows[run].key == q.key && s' == Tell(s, Acked(q.key, run, true));
        DedupArrives(s, q, w, run);
      } else {
        HandledArrives(s, q, w);
      }
    case Acts(run, w) => ActedReached(s, run, w); Arrives(s, Thread.Acting(run, false), s', w);
    case Releases(run) => ReleasedReached(s, run, CALM); Arrives(s, Releasing(run, None), s', CALM);
    case Claims(saga) => ClaimedReached(s, saga, CALM); Arrives(s, Claiming(saga), s', CALM);
    case Recalls(saga, w) => RecalledReached(s, saga, w); Arrives(s, Recalling(saga), s', w);
    case Frees(saga, w) => FreedReached(s, saga, w); Arrives(s, Freeing(saga), s', w);
  }

  // ----- whole sequences -----

  // After every call the server is where some run of its machine leaves it, with nobody left working.
  lemma {:induction false} SequenceIsARun(states: seq<Sys>, calls: seq<Call>, i: nat)
    requires Sequence(states, calls) && i < |states|
    ensures IsRun(INIT, states[i]) && states[i].threads == map[] && states[i].leaked == {}
  {
    if i == 0 {
      assert RunFrom(INIT, []) == INIT;
    } else {
      SequenceIsARun(states, calls, i - 1);
      assert Serves(states[i - 1], calls[i - 1], states[i]);
      RunHasInv(states[i - 1]);
      ServesIsARun(states[i - 1], calls[i - 1], states[i]);
      ServesOneRun(states[i - 1], calls[i - 1], states[i]);
      RunsChain(INIT, states[i - 1], states[i]);
    }
  }

  lemma RunHasInv(s: Sys)
    requires IsRun(INIT, s)
    ensures Inv(s)
  {
    var acts :| RunFrom(INIT, acts) == s;
    RunKeepsInv(acts);
    assert Run(acts) == s;
  }

  // However many calls come, in whatever order: at most one session is launched for each idempotency key,
  // and between two calls every session is closed or live, none held and none lost.
  lemma ServedOnceAndAccounted(states: seq<Sys>, calls: seq<Call>, i: nat, x: nat)
    requires Sequence(states, calls) && i < |states| && x < |states[i].sessions|
    ensures var s := states[i];
            && s.sessions[x] in s.rows
            && (forall y :: 0 <= y < |s.sessions| && y != x ==>
                  s.sessions[y] in s.rows && s.rows[s.sessions[y]].key != s.rows[s.sessions[x]].key)
            && (Closed(x) in s.facts <==> !exists run :: IsLive(s.live, run, x))
  {
    SequenceIsARun(states, calls, i);
    RunHasInv(states[i]);
    assert Located(states[i], x);
  }

  // Each failure closes the run that the call just before it let through.
  ghost predicate Paired(h: seq<CB.Event>) {
    forall i :: 0 <= i < |h| && h[i].Failure? ==> i > 0 && h[i - 1].Probe? && CB.Admits(CB.After(h[..i - 1]), h[i - 1].now)
  }

  lemma PairedStays(h: seq<CB.Event>, h': seq<CB.Event>)
    requires Paired(h) && OneRun(h, h')
    ensures Paired(h')
  {
    forall i | 0 <= i < |h'| && h'[i].Failure?
      ensures i > 0 && h'[i - 1].Probe? && CB.Admits(CB.After(h'[..i - 1]), h'[i - 1].now)
    {
      if i < |h| {
        assert h'[i] == h'[..|h|][i] && h'[i - 1] == h'[..|h|][i - 1];
        assert h'[..i - 1] == h[..i - 1];
      } else {
        assert i == |h| + 1 && h'[..i - 1] == h;
      }
    }
  }

  lemma {:induction false} SequenceIsPaired(states: seq<Sys>, calls: seq<Call>, i: nat, target: string)
    requires Sequence(states, calls) && i < |states|
    ensures Paired(CB.Past(states[i].history, target))
  {
    if i > 0 {
      SequenceIsPaired(states, calls, i - 1, target);
      assert Serves(states[i - 1], calls[i - 1], states[i]);
      ServesOneRun(states[i - 1], calls[i - 1], states[i]);
      assert OneRun(CB.Past(states[i - 1].history, target), CB.Past(states[i].history, target));
      PairedStays(CB.Past(states[i - 1].history, target), CB.Past(states[i].history, target));
    }
  }

  // With runs submitted one at a time, and a clock that does not step back, the k-th failure of a
  // target since its last success comes at least (k - 3) cooldowns after the third.
  lemma ServedStreakSpacing(states: seq<Sys>, calls: seq<Call>, i: nat, target: string, k: nat)
    requires Sequence(states, calls) && i < |states| && CB.Monotone(CB.Past(states[i].history, target))
    requires CB.FAILURE_THRESHOLD <= k <= |CB.Streak(CB.Past(states[i].history, target))|
    ensures var times := CB.Streak(CB.Past(states[i].history, target));
            times[k - 1] >= times[CB.FAILURE_THRESHOLD - 1] + (k - CB.FAILURE_THRESHOLD) * CB.COOLDOWN_MS
  {
    var h := CB.Past(states[i].history, target);
    SequenceIsPaired(states, calls, i, target);
    forall j | 0 <= j < |h| && h[j].Failure? ensures h[j - 1].now <= h[j].now {
      assert CB.TimeOf(h[j - 1]) <= CB.TimeOf(h[j]);
    }
    CB.StreakSpacing(h, k);
  }
}
