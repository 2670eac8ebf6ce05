// What every compiled draft satisfies, what of it survives any overlay, and what it spares a replay.
module WellFormed {
  import opened Prelude
  import opened Schemas
  import opened Sorting
  import opened Compiler
  import opened Overlay
  import opened Executor
  import Browser
  import Discovery

  // ----- the parts of well-formedness -----

  // Step ids are the decimal step indices, in increasing order: so they are distinct.
  ghost predicate InIndexOrder(steps: seq<CapabilityStep>) {
    exists ks: seq<nat> :: Numbers(steps, ks)
  }

  ghost predicate Numbers(steps: seq<CapabilityStep>, ks: seq<nat>) {
    && |ks| == |steps|
    && (forall j :: 0 <= j < |ks| ==> steps[j].stepId == StepIdOf(ks[j]))
    && (forall i, j :: 0 <= i < j < |ks| ==> ks[i] < ks[j])
  }

  // Index order makes the ids distinct.
  lemma IdsAreDistinct(steps: seq<CapabilityStep>, i: nat, j: nat)
    requires InIndexOrder(steps) && i < j < |steps|
    ensures steps[i].stepId != steps[j].stepId
  {
    var ks: seq<nat> :| Numbers(steps, ks);
    StepIdInjective(ks[i], ks[j]);
  }

  lemma StepIdInjective(a: nat, b: nat)
    ensures StepIdOf(a) == StepIdOf(b) ==> a == b
  {
    if StepIdOf(a) == StepIdOf(b) {
      assert StepIdOf(a)[5..] == Decimal(a) && StepIdOf(b)[5..] == Decimal(b);
      DecimalInjective(a, b);
    }
  }

  predicate Replayable(steps: seq<CapabilityStep>) {
    forall j :: 0 <= j < |steps| ==> steps[j].actionType != Finish && !steps[j].actionType.Unknown?
  }

  function IdsOf(steps: seq<CapabilityStep>, t: ActionType): (ids: seq<string>) {
    if steps == [] then []
    else IdsOf(steps[..|steps| - 1], t) + if steps[|steps| - 1].actionType == t then [steps[|steps| - 1].stepId] else []
  }

  function CheckpointSteps(cs: seq<Checkpoint>): (ids: seq<string>) {
    seq(|cs|, i requires 0 <= i < |cs| => cs[i].stepId)
  }

  function OutputSteps(os: seq<OutputSpec>): (ids: seq<string>) {
    seq(|os|, i requires 0 <= i < |os| => os[i].extractionSource)
  }

  function BoundNames(steps: seq<CapabilityStep>): (names: set<string>) {
    if steps == [] then {} else BoundNames(steps[..|steps| - 1]) + steps[|steps| - 1].paramBindings.Values
  }

  function ParamNames(ps: seq<InputParam>): (names: set<string>) {
    set p | p in ps :: p.name
  }

  // The assert steps and the checkpoints, and the extract steps and the outputs, match one to one and
  // in order.
  ghost predicate Matched(d: Draft) {
    && InIndexOrder(d.steps)
    && Replayable(d.steps)
    && IdsOf(d.steps, Assert) == CheckpointSteps(d.checkpoints)
    && IdsOf(d.steps, Extract) == OutputSteps(d.outputs)
  }

  predicate OnlyDeclaredInputs(d: Draft) {
    BoundNames(d.steps) <= ParamNames(d.inputParams)
  }

  // ----- compiled drafts are well formed -----

  function Kept(t: Tables, keys: seq<nat>): (ks: seq<nat>)
    requires forall i :: i in keys ==> i in t.decided
    ensures forall k :: k in ks ==> k in keys
  {
    if keys == [] then []
    else Kept(t, keys[..|keys| - 1]) + if t.decided[keys[|keys| - 1]].actionType == Finish then [] else [keys[|keys| - 1]]
  }

  // What the last key adds to the steps.
  lemma StepAppended(t: Tables, keys: seq<nat>)
    requires keys != [] && forall i :: i in keys ==> i in t.decided
    ensures var n := |keys| - 1;
            var d, before := t.decided[keys[n]], StepsOf(t, keys[..n]);
            if d.actionType == Finish then StepsOf(t, keys) == before
            else
              var steps := StepsOf(t, keys);
              |steps| == |before| + 1 && steps[..|steps| - 1] == before && steps[|steps| - 1] == StepFor(keys[n], d, UsedAt(t, keys[n]))
  {
  }

  ghost predicate IsStep(t: Tables, k: nat, step: CapabilityStep) {
    k in t.decided && t.decided[k].actionType != Finish && step == StepFor(k, t.decided[k], UsedAt(t, k))
  }

  lemma {:induction false} StepsAre(t: Tables, keys: seq<nat>)
    requires forall i :: i in keys ==> i in t.decided
    ensures |StepsOf(t, keys)| == |Kept(t, keys)|
    ensures forall j :: 0 <= j < |Kept(t, keys)| ==> IsStep(t, Kept(t, keys)[j], StepsOf(t, keys)[j])
  {
    if keys != [] {
      StepsAre(t, keys[..|keys| - 1]);
      StepAppended(t, keys);
    }
  }

  lemma {:induction false} KeptInOrder(t: Tables, keys: seq<nat>)
    requires forall i :: i in keys ==> i in t.decided
    requires forall i, j :: 0 <= i < j < |keys| ==> keys[i] < keys[j]
    ensures forall i, j :: 0 <= i < j < |Kept(t, keys)| ==> Kept(t, keys)[i] < Kept(t, keys)[j]
  {
    if keys != [] {
      var n := |keys| - 1;
      KeptInOrder(t, keys[..n]);
      var before, ks := Kept(t, keys[..n]), Kept(t, keys);
      forall i, j | 0 <= i < j < |ks| ensures ks[i] < ks[j] {
        assert ks[i] == before[i];
        if j == |before| {
          assert before[i] in keys[..n] && ks[j] == keys[n];
        } else {
          assert ks[j] == before[j];
        }
      }
    }
  }

  lemma StepsAreNumbered(t: Tables, keys: seq<nat>)
    requires forall i :: i in keys ==> i in t.decided
    requires forall i, j :: 0 <= i < j < |keys| ==> keys[i] < keys[j]
    ensures Numbers(StepsOf(t, keys), Kept(t, keys))
  {
    StepsAre(t, keys);
    KeptInOrder(t, keys);
  }

  lemma {:induction false} CheckpointsMatch(t: Tables, keys: seq<nat>)
    requires forall i :: i in keys ==> i in t.decided
    ensures IdsOf(StepsOf(t, keys), Assert) == CheckpointSteps(CheckpointsOf(t, keys))
  {
    if keys != [] {
      var n := |keys| - 1;
      CheckpointsMatch(t, keys[..n]);
      StepAppended(t, keys);
    }
  }

  lemma {:induction false} OutputsMatch(t: Tables, keys: seq<nat>)
    requires forall i :: i in keys ==> i in t.decided
    ensures IdsOf(StepsOf(t, keys), Extract) == OutputSteps(OutputsOf(t, keys))
  {
    if keys != [] {
      var n := |keys| - 1;
      OutputsMatch(t, keys[..n]);
      StepAppended(t, keys);
    }
  }

  lemma {:induction false} InputsMatch(t: Tables, keys: seq<nat>)
    requires forall i :: i in keys ==> i in t.decided
    ensures BoundNames(StepsOf(t, keys)) == InputNames(t, keys)
  {
    if keys != [] {
      var n := |keys| - 1;
      InputsMatch(t, keys[..n]);
      StepAppended(t, keys);
    }
  }

  // Whatever the events, a draft that compiles is well formed, and its bindings name exactly its
  // declared inputs.
  lemma CompiledIsWellFormed(t: Tables, r: Result<Draft, CompileError>)
    requires IsCompiled(t, r) && r.Ok?
    ensures Matched(r.value) && BoundNames(r.value.steps) == ParamNames(r.value.inputParams)
  {
    var keys: seq<nat>, names: seq<string> :| CompiledFrom(t, keys, names, r);
    var d := r.value;
    StepsAreNumbered(t, keys);
    CheckpointsMatch(t, keys);
    OutputsMatch(t, keys);
    InputsMatch(t, keys);
    forall j | 0 <= j < |d.steps| ensures d.steps[j].actionType != Finish && !d.steps[j].actionType.Unknown? {
      StepsAre(t, keys);
      var k := Kept(t, keys)[j];
      assert IsStep(t, k, d.steps[j]) && Admissible(t.decided[k]);
    }
    NamesDeclared(names, InputNames(t, keys));
  }

  lemma NamesDeclared(names: seq<string>, s: set<string>)
    requires forall x :: x in names <==> x in s
    ensures ParamNames(ParamsFor(names)) == s
  {
  }

  // ----- overlays -----

  lemma {:induction false} OverlayKeepsIds(d: Draft, o: TenantOverlay, n: nat, t: ActionType)
    requires n <= |d.steps|
    ensures IdsOf(ResolvedDraft(d, o).steps[..n], t) == IdsOf(d.steps[..n], t)
  {
    if n > 0 {
      OverlayKeepsIds(d, o, n - 1, t);
      assert ResolvedDraft(d, o).steps[..n][..n - 1] == ResolvedDraft(d, o).steps[..n - 1];
      assert d.steps[..n][..n - 1] == d.steps[..n - 1];
    }
  }

  // The matching of steps, checkpoints and outputs survives every overlay.
  lemma OverlayKeepsMatched(d: Draft, o: TenantOverlay)
    requires Matched(d)
    ensures Matched(ResolvedDraft(d, o))
  {
    var r := ResolvedDraft(d, o);
    var ks: seq<nat> :| Numbers(d.steps, ks);
    assert Numbers(r.steps, ks);
    OverlayKeepsIds(d, o, |d.steps|, Assert);
    OverlayKeepsIds(d, o, |d.steps|, Extract);
    assert r.steps[..|r.steps|] == r.steps && d.steps[..|d.steps|] == d.steps;
  }

  lemma {:induction false} NameIsBound(steps: seq<CapabilityStep>, name: string)
    ensures name in BoundNames(steps) <==> exists j :: 0 <= j < |steps| && name in steps[j].paramBindings.Values
  {
    if steps != [] {
      var n := |steps| - 1;
      NameIsBound(steps[..n], name);
      if exists j :: 0 <= j < |steps| && name in steps[j].paramBindings.Values {
        var j :| 0 <= j < |steps| && name in steps[j].paramBindings.Values;
        assert j < n ==> steps[..n][j] == steps[j];
      }
    }
  }

  // The overrides that reach a step rebind to declared inputs only.
  predicate OverridesDeclared(d: Draft, o: TenantOverlay) {
    forall j :: 0 <= j < |d.steps| && d.steps[j].stepId in o.paramOverrides ==>
      o.paramOverrides[d.steps[j].stepId].Values <= ParamNames(d.inputParams)
  }

  // That bindings name declared inputs only survives exactly those overlays whose own bindings do.
  lemma OverlayKeepsInputsExactly(d: Draft, o: TenantOverlay)
    requires OnlyDeclaredInputs(d)
    ensures OnlyDeclaredInputs(ResolvedDraft(d, o)) <==> OverridesDeclared(d, o)
  {
    var r := ResolvedDraft(d, o);
    if OverridesDeclared(d, o) {
      forall name | name in BoundNames(r.steps) ensures name in ParamNames(d.inputParams) {
        NameIsBound(r.steps, name);
        var j :| 0 <= j < |r.steps| && name in r.steps[j].paramBindings.Values;
        NameIsBound(d.steps, name);
        assert name in d.steps[j].paramBindings.Values || d.steps[j].stepId in o.paramOverrides;
      }
    }
    if OnlyDeclaredInputs(r) {
      forall j | 0 <= j < |d.steps| && d.steps[j].stepId in o.paramOverrides
        ensures o.paramOverrides[d.steps[j].stepId].Values <= ParamNames(d.inputParams)
      {
        forall name | name in o.paramOverrides[d.steps[j].stepId].Values ensures name in ParamNames(d.inputParams) {
          var key :| key in o.paramOverrides[d.steps[j].stepId] && o.paramOverrides[d.steps[j].stepId][key] == name;
          assert key in r.steps[j].paramBindings && r.steps[j].paramBindings[key] == name;
          NameIsBound(r.steps, name);
        }
      }
    }
  }

  // ----- what a replay is spared -----

  lemma {:induction false} CheckpointsFound(cs: seq<Checkpoint>, id: string)
    ensures id in CheckpointMap(cs) <==> id in CheckpointSteps(cs)
  {
    if cs != [] {
      var n := |cs| - 1;
      CheckpointsFound(cs[..n], id);
      assert CheckpointSteps(cs) == CheckpointSteps(cs[..n]) + [cs[n].stepId];
    }
  }

  lemma {:induction false} IdListed(steps: seq<CapabilityStep>, j: nat)
    requires j < |steps|
    ensures steps[j].stepId in IdsOf(steps, steps[j].actionType)
  {
    if j < |steps| - 1 { IdListed(steps[..|steps| - 1], j); }
  }

  // The two hard failures that would mean a malformed artifact.
  predicate Malformed(x: Signal) {
    x == Hard(NoCheckpoint) || x == Hard(UnsupportedAction)
  }

  ghost predicate NeverMalformed<S(!new)>(exec: Interpreter<S>, n: nat) {
    forall i: nat, s: S, o: map<string, string> :: i < n ==> !Malformed(exec(i, s, o).signal)
  }

  lemma {:induction false} AttemptsSpared<S(!new)>(exec: Interpreter<S>, i: nat, n: nat, s: S, outputs: map<string, string>, tried: nat)
    requires NeverMalformed(exec, n) && i < n && tried <= MAX_RETRIES_PER_STEP
    ensures forall x :: x in Attempts(exec, i, s, outputs, tried).signals ==> !Malformed(x)
    decreases MAX_RETRIES_PER_STEP - tried
  {
  }

  lemma {:induction false} WalkSpared<S(!new)>(exec: Interpreter<S>, i: nat, n: nat, s: S, outputs: map<string, string>)
    requires NeverMalformed(exec, n) && i <= n
    ensures forall b, x :: b in Walk(exec, i, n, s, outputs).blocks && x in b ==> !Malformed(x)
    decreases n - i
  {
    if i < n {
      AttemptsSpared(exec, i, n, s, outputs, 0);
      var b := Attempts(exec, i, s, outputs, 0);
      if Last(b.signals).Success? { WalkSpared(exec, i + 1, n, b.state, b.outputs); }
    }
  }

  // No replay of a compiled draft, under any overlay, on any page and with any inputs, ends for
  // want of a checkpoint or at an unknown action.
  lemma ReplayIsSpared<S(!new)>(t: Tables, r: Result<Draft, CompileError>, o: TenantOverlay, app: Browser.App<S>, start: S, inputs: map<string, string>)
    requires IsCompiled(t, r) && r.Ok?
    ensures forall b, x :: b in Replay(app, start, ResolvedDraft(r.value, o), inputs).blocks && x in b ==> !Malformed(x)
  {
    CompiledIsWellFormed(t, r);
    OverlayKeepsMatched(r.value, o);
    MatchedIsSpared(app, start, ResolvedDraft(r.value, o), inputs);
  }

  lemma MatchedIsSpared<S(!new)>(app: Browser.App<S>, start: S, d: Draft, inputs: map<string, string>)
    requires Matched(d)
    ensures forall b, x :: b in Replay(app, start, d, inputs).blocks && x in b ==> !Malformed(x)
  {
    var env := EnvOf(d, inputs);
    var exec := InterpreterOf(app, d.steps, env);
    forall i: nat, s: S, o: map<string, string> | i < |d.steps| ensures !Malformed(exec(i, s, o).signal) {
      if d.steps[i].actionType == Assert {
        IdListed(d.steps, i);
        CheckpointsFound(d.checkpoints, d.steps[i].stepId);
      }
      StepIsSpared(app, s, d.steps[i], env, o);
    }
    WalkSpared(exec, 0, |d.steps|, start, map[]);
  }

  lemma StepIsSpared<S>(app: Browser.App<S>, s: S, step: CapabilityStep, env: Env, outputs: map<string, string>)
    requires step.actionType != Finish && !step.actionType.Unknown?
    requires step.actionType == Assert ==> step.stepId in env.checkpoints
    ensures !Malformed(ExecuteStep(app, s, step, env, outputs).signal)
  {
  }
}
