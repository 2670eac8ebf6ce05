// Discover, compile, replay: the compiled capability repeats the run it was compiled from.
module Simulation {
  import opened Prelude
  import opened Schemas
  import opened Browser
  import opened Sorting
  import opened Discovery
  import opened DiscoveryTrace
  import opened Compiler
  import opened Delivery
  import opened WellFormed
  import Executor

  // ----- what is asked of a run, of the redaction and of the inputs -----

  // Redaction spares what replay reads of this move; literals typed into the page may well be lost.
  ghost predicate Survives<S>(redact: Redactor, m: Move<S>) {
    var d, r := m.decision, RedactDecision(redact, m.decision);
    && (m.locatorUsed.Some? ==> redact(m.locatorUsed.value) == m.locatorUsed.value && KnownPrefix(m.locatorUsed.value))
    && StrParam(r.params, "assertion") == StrParam(d.params, "assertion")
    && StrParam(r.params, "expected") == StrParam(d.params, "expected")
    && r.paramBindings == d.paramBindings
  }

  // The parameter a replay has to take from its inputs.
  function NeededParam(t: ActionType): (key: Option<string>) {
    if t == Navigate then Some("url") else if t == Fill || t == SelectOption then Some("value") else None
  }

  predicate Bound(d: Decision, inputs: map<string, string>) {
    var key := NeededParam(d.actionType);
    key.Some? ==> key.value in d.paramBindings && d.paramBindings[key.value] in inputs
  }

  // Where the inputs say anything about a needed parameter, they give back the recorded literal.
  predicate Faithful(d: Decision, inputs: map<string, string>) {
    var key := NeededParam(d.actionType);
    key.Some? && Bound(d, inputs) ==> inputs[d.paramBindings[key.value]] == StrParam(d.params, key.value)
  }

  // ----- the compiled steps of a run -----

  // The step, and its entries in the replay's tables, are the compiled form of the i-th move.
  ghost predicate Compiled<S>(step: CapabilityStep, env: Executor.Env, i: nat, m: Move<S>, redact: Redactor) {
    var r := RedactDecision(redact, m.decision);
    && step == StepFor(i, r, RedactUsed(redact, m.locatorUsed))
    && (step.actionType == Assert ==> step.stepId in env.checkpoints && env.checkpoints[step.stepId] == CheckpointFor(i, r))
    && (step.actionType == Extract ==> step.stepId in env.outputNames && env.outputNames[step.stepId] == OutputFor(i, r).name)
  }

  ghost predicate AllCompiled<S>(steps: seq<CapabilityStep>, env: Executor.Env, moves: seq<Move<S>>, redact: Redactor) {
    |steps| == |moves| && forall i :: 0 <= i < |moves| ==> Compiled(steps[i], env, i, moves[i], redact)
  }

  function Upto(n: nat): (ks: seq<nat>)
    ensures |ks| == n && forall i :: 0 <= i < n ==> ks[i] == i
  {
    seq(n, i requires 0 <= i < n => i)
  }

  lemma {:induction false} KeptUpto(t: Tables, n: nat)
    requires forall i :: 0 <= i < n ==> i in t.decided && t.decided[i].actionType != Finish
    ensures Kept(t, Upto(n)) == Upto(n)
  {
    if n > 0 {
      KeptUpto(t, n - 1);
      assert Upto(n)[..n - 1] == Upto(n - 1);
    }
  }

  // What the steps before n put into the replay's tables, the step n leaves as it is.
  lemma TablesGrow(t: Tables, n: nat)
    requires forall k :: 0 <= k <= n ==> k in t.decided
    ensures var d, cs := t.decided[n], CheckpointsOf(t, Upto(n));
            Executor.CheckpointMap(CheckpointsOf(t, Upto(n + 1))) ==
              if d.actionType == Assert then Executor.CheckpointMap(cs)[StepIdOf(n) := CheckpointFor(n, d)] else Executor.CheckpointMap(cs)
    ensures var d, os := t.decided[n], OutputsOf(t, Upto(n));
            Executor.OutputNames(OutputsOf(t, Upto(n + 1))) ==
              if d.actionType == Extract then Executor.OutputNames(os)[StepIdOf(n) := OutputFor(n, d).name] else Executor.OutputNames(os)
  {
    assert Upto(n + 1)[..n] == Upto(n);
    var d, cs, os := t.decided[n], CheckpointsOf(t, Upto(n)), OutputsOf(t, Upto(n));
    assert cs + [] == cs && os + [] == os;
    assert (cs + [CheckpointFor(n, d)])[..|cs|] == cs;
    assert (os + [OutputFor(n, d)])[..|os|] == os;
  }

  lemma {:induction false} CheckpointEntry(t: Tables, n: nat, i: nat)
    requires (forall k :: 0 <= k < n ==> k in t.decided) && i < n && t.decided[i].actionType == Assert
    ensures var m := Executor.CheckpointMap(CheckpointsOf(t, Upto(n)));
            StepIdOf(i) in m && m[StepIdOf(i)] == CheckpointFor(i, t.decided[i])
  {
    TablesGrow(t, n - 1);
    if i < n - 1 {
      CheckpointEntry(t, n - 1, i);
      StepIdInjective(i, n - 1);
    }
  }

  lemma {:induction false} OutputEntry(t: Tables, n: nat, i: nat)
    requires (forall k :: 0 <= k < n ==> k in t.decided) && i < n && t.decided[i].actionType == Extract
    ensures var m := Executor.OutputNames(OutputsOf(t, Upto(n)));
            StepIdOf(i) in m && m[StepIdOf(i)] == OutputFor(i, t.decided[i]).name
  {
    TablesGrow(t, n - 1);
    if i < n - 1 {
      OutputEntry(t, n - 1, i);
      StepIdInjective(i, n - 1);
    }
  }

  lemma CarriedIsReplayable<S>(app: App<S>, m: Move<S>)
    requires Carried(app, m)
    ensures m.decision.actionType != Finish && !m.decision.actionType.Unknown?
  {
  }

  lemma {:induction false} ChainedAt<S>(app: App<S>, s: S, moves: seq<Move<S>>, end: S, i: nat)
    requires Chained(app, s, moves, end) && i < |moves|
    ensures Carried(app, moves[i])
    decreases i
  {
    if i > 0 { ChainedAt(app, moves[0].after, moves[1..], end, i - 1); }
  }

  ghost predicate AllCarried<S>(app: App<S>, moves: seq<Move<S>>) {
    forall i :: 0 <= i < |moves| ==> Carried(app, moves[i])
  }

  lemma KeysAreUpto(keys: seq<nat>, s: set<nat>, n: nat)
    requires SortedBy(keys, s, NatLess) && forall i :: i in s <==> 0 <= i <= n
    ensures keys == Upto(n + 1)
  {
    NatLessIsStrict();
    assert forall i :: i in s ==> Upto(n + 1)[i] == i;
    SortedUnique(keys, Upto(n + 1), s, NatLess);
  }

  lemma StepsUpto(t: Tables, n: nat)
    requires forall i :: 0 <= i <= n ==> i in t.decided
    requires t.decided[n].actionType == Finish && forall i :: 0 <= i < n ==> t.decided[i].actionType != Finish
    ensures var steps := StepsOf(t, Upto(n + 1));
            |steps| == n && forall i :: 0 <= i < n ==> IsStep(t, i, steps[i])
  {
    KeptUpto(t, n);
    StepsAre(t, Upto(n));
    assert Upto(n + 1)[..n] == Upto(n);
    StepAppended(t, Upto(n + 1));
    var steps, ks := StepsOf(t, Upto(n)), Upto(n);
    assert forall i :: 0 <= i < n ==> IsStep(t, ks[i], steps[i]) && ks[i] == i;
  }

  lemma DraftKeys(t: Tables, n: nat, d: Draft)
    requires (forall i :: i in t.decided <==> 0 <= i <= n) && IsCompiled(t, Ok(d))
    requires t.decided[n].actionType == Finish && forall i :: 0 <= i < n ==> t.decided[i].actionType != Finish
    ensures d.checkpoints == CheckpointsOf(t, Upto(n + 1)) && d.outputs == OutputsOf(t, Upto(n + 1))
    ensures |d.steps| == n && forall i :: 0 <= i < n ==> IsStep(t, i, d.steps[i])
  {
    var keys: seq<nat>, names: seq<string> :| CompiledFrom(t, keys, names, Ok(d));
    KeysAreUpto(keys, t.decided.Keys, n);
    StepsUpto(t, n);
  }

  lemma DraftSteps<S>(app: App<S>, t: Tables, moves: seq<Move<S>>, last: Decision, condition: string, redact: Redactor, d: Draft, inputs: map<string, string>)
    requires TablesOf(t, moves, last, condition, redact) && last.actionType == Finish && AllCarried(app, moves)
    requires IsCompiled(t, Ok(d))
    ensures AllCompiled(d.steps, Executor.EnvOf(d, inputs), moves, redact)
  {
    var n := |moves|;
    forall i | 0 <= i < n ensures t.decided[i].actionType != Finish { CarriedIsReplayable(app, moves[i]); }
    DraftKeys(t, n, d);
    forall i | 0 <= i < n ensures Compiled(d.steps[i], Executor.EnvOf(d, inputs), i, moves[i], redact) {
      if d.steps[i].actionType == Assert { CheckpointEntry(t, n + 1, i); }
      if d.steps[i].actionType == Extract { OutputEntry(t, n + 1, i); }
      assert IsStep(t, i, d.steps[i]);
    }
  }

  // ----- one step -----

  // The locator that resolved in the run resolves again, at once, under its own name.
  lemma LocatorRepeats<S(!new)>(app: App<S>, s: S, candidates: seq<string>, ranked: seq<string>, redact: Redactor)
    requires Steady(app)
    requires var c := Resolve(app, s, candidates).1;
             c.Some? && redact(c.value) == c.value && KnownPrefix(c.value) && ranked == Ranked(RedactAll(redact, candidates), RedactUsed(redact, c))
    ensures Resolve(app, s, Executor.RenderAll(Strategies(ranked))) == (s, Resolve(app, s, candidates).1)
  {
    ResolveSteady(app, s, candidates);
    var c := Resolve(app, s, candidates).1.value;
    LocatorRoundTrip(c);
    assert ranked[0] == c;
    assert Executor.RenderAll(Strategies(ranked))[0] == c;
    assert app.count(s, c).0 == s;
  }

  function Recorded<S>(i: nat, m: Move<S>, redact: Redactor, outputs: map<string, string>): (o: map<string, string>) {
    if m.extracted.None? then outputs else outputs[OutputFor(i, RedactDecision(redact, m.decision)).name := m.extracted.value]
  }

  predicate UsesLocator(t: ActionType) {
    t == Click || t == Fill || t == SelectOption || t == Extract
  }

  lemma ResolvesAgain<S(!new)>(app: App<S>, m: Move<S>, i: nat, step: CapabilityStep, env: Executor.Env, redact: Redactor)
    requires Steady(app) && Carried(app, m) && Survives(redact, m) && Compiled(step, env, i, m, redact)
    requires UsesLocator(m.decision.actionType)
    ensures Resolve(app, m.before, m.decision.candidates) == (m.before, m.locatorUsed) && m.locatorUsed.Some?
    ensures Resolve(app, m.before, Executor.RenderAll(step.strategyChain)) == (m.before, m.locatorUsed)
  {
    ResolveSteady(app, m.before, m.decision.candidates);
    var r := RedactDecision(redact, m.decision);
    LocatorRepeats(app, m.before, m.decision.candidates, Ranked(r.candidates, RedactUsed(redact, m.locatorUsed)), redact);
  }

  lemma StepRepeats<S(!new)>(app: App<S>, m: Move<S>, i: nat, step: CapabilityStep, env: Executor.Env, outputs: map<string, string>, redact: Redactor)
    requires Steady(app) && Carried(app, m) && Survives(redact, m) && Compiled(step, env, i, m, redact)
    requires Bound(m.decision, env.inputs) && Faithful(m.decision, env.inputs)
    ensures Executor.ExecuteStep(app, m.before, step, env, outputs) == Executor.Attempt(m.after, Recorded(i, m, redact, outputs), Executor.Success)
  {
    if UsesLocator(m.decision.actionType) {
      ResolvesAgain(app, m, i, step, env, redact);
    } else {
      CarriedIsReplayable(app, m);
    }
  }

  // ----- the whole walk -----

  function FirstUnbound<S>(moves: seq<Move<S>>, inputs: map<string, string>, i: nat): (k: nat)
    requires i <= |moves|
    ensures i <= k <= |moves| && (forall j :: i <= j < k ==> Bound(moves[j].decision, inputs))
    ensures k < |moves| ==> !Bound(moves[k].decision, inputs)
    decreases |moves| - i
  {
    if i == |moves| || !Bound(moves[i].decision, inputs) then i else FirstUnbound(moves, inputs, i + 1)
  }

  // The texts read by the moves from the i-th on, under their compiled names.
  function Readings<S>(moves: seq<Move<S>>, i: nat, redact: Redactor, outputs: map<string, string>): (o: map<string, string>)
    requires i <= |moves|
    decreases |moves| - i
  {
    if i == |moves| then outputs else Readings(moves, i + 1, redact, Recorded(i, moves[i], redact, outputs))
  }

  function Successes(n: nat): (blocks: seq<seq<Executor.Signal>>)
    ensures |blocks| == n && forall i :: 0 <= i < n ==> blocks[i] == [Executor.Success]
  {
    seq(n, i requires 0 <= i < n => [Executor.Success])
  }

  // How a step with a missing input fails: a navigation at once, typing and choosing after every retry.
  function UnboundBlock(t: ActionType): (signals: seq<Executor.Signal>) {
    if t == Navigate then [Executor.Hard(Executor.UnboundParam("url"))]
    else
      var r := Executor.Recoverable(Executor.ActionFailed);
      [r, r, r]
  }

  lemma UnboundFails<S(!new)>(app: App<S>, steps: seq<CapabilityStep>, env: Executor.Env, m: Move<S>, i: nat, outputs: map<string, string>, redact: Redactor)
    requires Steady(app) && Carried(app, m) && Survives(redact, m)
    requires i < |steps| && Compiled(steps[i], env, i, m, redact) && !Bound(m.decision, env.inputs)
    ensures Executor.Attempts(Executor.InterpreterOf(app, steps, env), i, m.before, outputs, 0)
         == Executor.Block(m.before, outputs, UnboundBlock(m.decision.actionType))
  {
    var exec := Executor.InterpreterOf(app, steps, env);
    if m.decision.actionType == Navigate {
      assert exec(i, m.before, outputs) == Executor.Attempt(m.before, outputs, Executor.Hard(Executor.UnboundParam("url")));
    } else {
      ResolvesAgain(app, m, i, steps[i], env, redact);
      UnboundIsRetried(exec, i, m.before, outputs);
    }
  }

  lemma UnboundIsRetried<S>(exec: Executor.Interpreter<S>, i: nat, s: S, outputs: map<string, string>)
    requires exec(i, s, outputs) == Executor.Attempt(s, outputs, Executor.Recoverable(Executor.ActionFailed))
    ensures Executor.Attempts(exec, i, s, outputs, 0) == Executor.Block(s, outputs, UnboundBlock(Fill))
  {
  }

  ghost predicate WalkFollows<S>(t: Executor.Trace<S>, moves: seq<Move<S>>, inputs: map<string, string>, i: nat, end: S,
                                 outputs: map<string, string>, redact: Redactor)
    requires i <= |moves|
  {
    var k := FirstUnbound(moves, inputs, i);
    && t.blocks == Successes(k - i) + (if k < |moves| then [UnboundBlock(moves[k].decision.actionType)] else [])
    && (k == |moves| ==> t.state == end && t.outputs == Readings(moves, i, redact, outputs))
  }

  lemma FollowsOn<S>(rest: Executor.Trace<S>, moves: seq<Move<S>>, inputs: map<string, string>, i: nat, end: S,
                     outputs: map<string, string>, redact: Redactor)
    requires i < |moves| && Bound(moves[i].decision, inputs)
    requires WalkFollows(rest, moves, inputs, i + 1, end, Recorded(i, moves[i], redact, outputs), redact)
    ensures WalkFollows(rest.(blocks := [[Executor.Success]] + rest.blocks), moves, inputs, i, end, outputs, redact)
  {
  }

  lemma {:induction false} WalkRepeats<S(!new)>(app: App<S>, steps: seq<CapabilityStep>, env: Executor.Env, moves: seq<Move<S>>, i: nat, s: S,
                                                end: S, outputs: map<string, string>, redact: Redactor)
    requires Steady(app) && i <= |moves| && Chained(app, s, moves[i..], end)
    requires AllCompiled(steps, env, moves, redact)
    requires forall j :: 0 <= j < |moves| ==> Survives(redact, moves[j]) && Faithful(moves[j].decision, env.inputs)
    ensures WalkFollows(Executor.Walk(Executor.InterpreterOf(app, steps, env), i, |steps|, s, outputs), moves, env.inputs, i, end, outputs, redact)
    decreases |moves| - i
  {
    if i < |moves| {
      var exec, m := Executor.InterpreterOf(app, steps, env), moves[i];
      assert moves[i..][0] == m && moves[i..][1..] == moves[i + 1..];
      if Bound(m.decision, env.inputs) {
        StepRepeats(app, m, i, steps[i], env, outputs, redact);
        var o := Recorded(i, m, redact, outputs);
        WalkRepeats(app, steps, env, moves, i + 1, m.after, end, o, redact);
        StepTaken(exec, i, |steps|, s, outputs, m.after, o);
        FollowsOn(Executor.Walk(exec, i + 1, |steps|, m.after, o), moves, env.inputs, i, end, outputs, redact);
      } else {
        UnboundFails(app, steps, env, m, i, outputs, redact);
        StepFailed(exec, i, |steps|, s, outputs, UnboundBlock(m.decision.actionType));
      }
    }
  }

  lemma StepTaken<S>(exec: Executor.Interpreter<S>, i: nat, n: nat, s: S, outputs: map<string, string>, s': S, outputs': map<string, string>)
    requires i < n && exec(i, s, outputs) == Executor.Attempt(s', outputs', Executor.Success)
    ensures var rest := Executor.Walk(exec, i + 1, n, s', outputs');
            Executor.Walk(exec, i, n, s, outputs) == rest.(blocks := [[Executor.Success]] + rest.blocks)
  {
  }

  lemma StepFailed<S>(exec: Executor.Interpreter<S>, i: nat, n: nat, s: S, outputs: map<string, string>, signals: seq<Executor.Signal>)
    requires i < n && signals != [] && !Executor.Last(signals).Success?
    requires Executor.Attempts(exec, i, s, outputs, 0) == Executor.Block(s, outputs, signals)
    ensures Executor.Walk(exec, i, n, s, outputs) == Executor.Trace(s, outputs, [signals])
  {
  }

  // ----- the result -----

  lemma {:induction false} NoRetries(n: nat)
    ensures Executor.RecoverableCount(Successes(n)) == 0
  {
    if n > 0 {
      NoRetries(n - 1);
      assert Successes(n)[..n - 1] == Successes(n - 1);
    }
  }

  lemma OneMoreBlock(n: nat, signals: seq<Executor.Signal>)
    ensures Executor.RecoverableCount(Successes(n) + [signals]) == Executor.RecoverablesIn(signals)
  {
    NoRetries(n);
    assert (Successes(n) + [signals])[..n] == Successes(n);
  }

  lemma UnboundRetries(t: ActionType)
    ensures Executor.RecoverablesIn(UnboundBlock(t)) == if t == Navigate then 0 else 3
    ensures !Executor.Last(UnboundBlock(t)).Success? && !Executor.Last(UnboundBlock(t)).Business?
  {
  }

  ghost predicate Repeats<S>(d: Draft, t: Executor.Trace<S>, f: Found<S>, inputs: map<string, string>, redact: Redactor)
    requires |t.blocks| <= |d.steps| == |f.moves| && forall k :: 0 <= k < |t.blocks| ==> t.blocks[k] != []
  {
    var r := Executor.ResultOf(d.steps, t);
    var k := FirstUnbound(f.moves, inputs, 0);
    if k == |f.moves| then
      && t.state == f.state && t.blocks == Successes(k)
      && r.outcome == Executor.BUSINESS_OUTCOME && r.retryCount == 0 && r.outputs == Readings(f.moves, 0, redact, map[])
    else
      && t.blocks == Successes(k) + [UnboundBlock(f.moves[k].decision.actionType)]
      && r.outcome == Executor.HARD_FAILURE && r.failedStepId == Some(StepIdOf(k))
      && r.retryCount == if f.moves[k].decision.actionType == Navigate then 0 else 3
  }

  lemma SuccessResult<S>(d: Draft, t: Executor.Trace<S>)
    requires d.steps != [] && t.blocks == Successes(|d.steps|)
    ensures var r := Executor.ResultOf(d.steps, t);
            r.outcome == Executor.BUSINESS_OUTCOME && r.retryCount == 0 && r.outputs == t.outputs
  {
    NoRetries(|d.steps|);
    assert t.blocks[|d.steps| - 1] == [Executor.Success];
    assert Executor.LastSignal(t.blocks) == Executor.Success;
  }

  lemma UnboundResult<S>(d: Draft, t: Executor.Trace<S>, k: nat, action: ActionType)
    requires k < |d.steps| && t.blocks == Successes(k) + [UnboundBlock(action)]
    ensures var r := Executor.ResultOf(d.steps, t);
            && r.outcome == Executor.HARD_FAILURE && r.failedStepId == Some(d.steps[k].stepId)
            && r.retryCount == if action == Navigate then 0 else 3
  {
    OneMoreBlock(k, UnboundBlock(action));
    UnboundRetries(action);
    assert t.blocks[k] == UnboundBlock(action) && Executor.LastSignal(t.blocks) == Executor.Last(UnboundBlock(action));
  }

  lemma FollowedResult<S>(d: Draft, t: Executor.Trace<S>, f: Found<S>, inputs: map<string, string>, redact: Redactor)
    requires |t.blocks| <= |d.steps| == |f.moves| && forall k :: 0 <= k < |t.blocks| ==> t.blocks[k] != []
    requires forall i :: 0 <= i < |d.steps| ==> d.steps[i].stepId == StepIdOf(i)
    requires f.moves != [] && WalkFollows(t, f.moves, inputs, 0, f.state, map[], redact)
    ensures Repeats(d, t, f, inputs, redact)
  {
    var k := FirstUnbound(f.moves, inputs, 0);
    if k == |f.moves| {
      assert Successes(k) + [] == Successes(k);
      SuccessResult(d, t);
    } else {
      UnboundResult(d, t, k, f.moves[k].decision.actionType);
    }
  }

  // ----- the theorem -----

  // An extract whose output_name is not a string does not pass the schema.
  ghost predicate NamesAreStrings<S>(moves: seq<Move<S>>) {
    forall i :: 0 <= i < |moves| && moves[i].decision.actionType == Extract && "output_name" in moves[i].decision.params ==>
      moves[i].decision.params["output_name"].Text?
  }

  lemma CompilesExactly<S>(app: App<S>, t: Tables, moves: seq<Move<S>>, last: Decision, condition: string, redact: Redactor)
    requires TablesOf(t, moves, last, condition, redact) && last.actionType == Finish && AllCarried(app, moves)
    ensures AllAdmissible(t) <==> NamesAreStrings(moves)
  {
    forall i | 0 <= i < |moves|
      ensures t.decided[i].actionType != Finish
      ensures Admissible(t.decided[i]) <==> (moves[i].decision.actionType == Extract && "output_name" in moves[i].decision.params ==>
                                               moves[i].decision.params["output_name"].Text?)
    {
      CarriedIsReplayable(app, moves[i]);
      assert moves[i].decision.actionType == Assert ==> "assertion" in moves[i].decision.params;
    }
  }

  lemma TablesRepeat<S(!new)>(app: App<S>, start: S, f: Found<S>, t: Tables, last: Decision, condition: string, redact: Redactor,
                              r: Result<Draft, CompileError>, inputs: map<string, string>)
    requires Steady(app) && f.moves != [] && Chained(app, start, f.moves, f.state)
    requires TablesOf(t, f.moves, last, condition, redact) && last.actionType == Finish && IsCompiled(t, r)
    requires forall m :: m in f.moves ==> Survives(redact, m) && Faithful(m.decision, inputs)
    ensures r.Ok? <==> NamesAreStrings(f.moves)
    ensures r.Ok? ==> |r.value.steps| == |f.moves| && Repeats(r.value, Executor.Replay(app, start, r.value, inputs), f, inputs, redact)
  {
    forall i | 0 <= i < |f.moves| ensures Carried(app, f.moves[i]) { ChainedAt(app, start, f.moves, f.state, i); }
    CompilesExactly(app, t, f.moves, last, condition, redact);
    if r.Ok? {
      DraftSteps(app, t, f.moves, last, condition, redact, r.value, inputs);
      DraftRepeats(app, start, f, redact, r.value, inputs);
    }
  }

  lemma DraftRepeats<S(!new)>(app: App<S>, start: S, f: Found<S>, redact: Redactor, d: Draft, inputs: map<string, string>)
    requires Steady(app) && f.moves != [] && Chained(app, start, f.moves, f.state)
    requires AllCompiled(d.steps, Executor.EnvOf(d, inputs), f.moves, redact)
    requires forall m :: m in f.moves ==> Survives(redact, m) && Faithful(m.decision, inputs)
    ensures Repeats(d, Executor.Replay(app, start, d, inputs), f, inputs, redact)
  {
    assert f.moves[0..] == f.moves;
    WalkRepeats(app, d.steps, Executor.EnvOf(d, inputs), f.moves, 0, start, f.state, map[], redact);
    assert forall i :: 0 <= i < |d.steps| ==> Compiled(d.steps[i], Executor.EnvOf(d, inputs), i, f.moves[i], redact);
    FollowedResult(d, Executor.Replay(app, start, d, inputs), f, inputs, redact);
  }

  // Take any page whose reads change nothing, any planner, any run that succeeded, and any topic its
  // redacted events reached. The draft compiles exactly when output names are strings. Replayed from the
  // same page with inputs that are faithful where they speak, it takes the very same moves and ends as
  // the run ended, first try at every step, with the texts the run read; unless some needed input is
  // missing, and then it fails at the first step that needs one.
  lemma ReplayRepeatsDiscovery<S(!new)>(app: App<S>, cfg: Config, planner: Planner, start: S, redact: Redactor,
                                        topic: seq<Record>, runId: string, r: Result<Draft, CompileError>, inputs: map<string, string>)
    requires Steady(app)
    requires var f := Discover(app, cfg, planner, start);
             && f.status == SUCCEEDED && Delivered(topic, runId, f.events, redact)
             && forall m :: m in f.moves ==> Survives(redact, m) && Faithful(m.decision, inputs)
    requires IsCompiled(Fold(topic, runId), r)
    ensures var f := Discover(app, cfg, planner, start);
            && (r.Ok? <==> NamesAreStrings(f.moves))
            && (r.Ok? ==> |r.value.steps| == |f.moves| && Repeats(r.value, Executor.Replay(app, start, r.value, inputs), f, inputs, redact))
  {
    var f := Discover(app, cfg, planner, start);
    DiscoverTells(app, cfg, planner, start);
    DiscoverChains(app, cfg, planner, start);
    var last, condition :| Tells(f.events, 0, f.moves, last, f.outputs, condition);
    DeliveredTables(topic, runId, f.events, redact, f.moves, last, f.outputs, condition);
    TablesRepeat(app, start, f, Fold(topic, runId), last, condition, redact, r, inputs);
  }
}
