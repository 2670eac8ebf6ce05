// What the steps of a compiled draft say of the run they were compiled from, told by the decisions and the
// locators that resolved: order, locator chains, bindings and risk.
module CompiledSteps {
  import opened Prelude
  import opened Schemas
  import opened Sorting
  import opened Browser
  import opened Compiler
  import opened WellFormed
  import opened RegistryStore
  import opened Versioning
  import CompileRace
  import Executor
  import Discovery

  // ----- the chain of one step -----

  // ps lists, in order, the places of all candidates but u;
  ghost predicate ListsOthers(ps: seq<nat>, candidates: seq<string>, u: string) {
    && (forall j :: 0 <= j < |ps| ==> ps[j] < |candidates| && candidates[ps[j]] != u)
    && (forall i, j :: 0 <= i < j < |ps| ==> ps[i] < ps[j])
    && (forall c: nat :: c < |candidates| && candidates[c] != u ==> c in ps)
  }

  // the chain goes on with their strategies.
  ghost predicate GoesOnWith(chain: seq<LocatorStrategy>, candidates: seq<string>, u: string, ps: seq<nat>) {
    && ListsOthers(ps, candidates, u) && |chain| == 1 + |ps|
    && forall j :: 0 <= j < |ps| ==> ps[j] < |candidates| && chain[1 + j] == StrategyOf(candidates[ps[j]])
  }

  // With a locator that resolved: it comes first, every other recorded candidate follows in its recorded order,
  // and nothing else. Without one: the candidates as recorded.
  ghost predicate ChainOf(chain: seq<LocatorStrategy>, candidates: seq<string>, used: Option<string>) {
    if used.Some? && used.value != "" then
      && chain != [] && chain[0] == StrategyOf(used.value)
      && exists ps: seq<nat> :: GoesOnWith(chain, candidates, used.value, ps)
    else
      |chain| == |candidates| && forall j :: 0 <= j < |chain| ==> chain[j] == StrategyOf(candidates[j])
  }

  function Others(candidates: seq<string>, u: string): (ps: seq<nat>) {
    if candidates == [] then []
    else
      var n := |candidates| - 1;
      Others(candidates[..n], u) + if candidates[n] == u then [] else [n]
  }

  lemma {:induction false} OthersAreAll(candidates: seq<string>, u: string)
    ensures ListsOthers(Others(candidates, u), candidates, u)
  {
    if candidates != [] {
      var n := |candidates| - 1;
      OthersAreAll(candidates[..n], u);
      assert forall c: nat :: c < n ==> candidates[..n][c] == candidates[c];
    }
  }

  lemma {:induction false} WithoutAt(candidates: seq<string>, u: string)
    ensures var ps, cs := Others(candidates, u), Without(candidates, u);
            |ps| == |cs| && forall j :: 0 <= j < |ps| ==> ps[j] < |candidates| && cs[j] == candidates[ps[j]]
  {
    if candidates != [] {
      var n := |candidates| - 1;
      WithoutAt(candidates[..n], u);
      assert forall c: nat :: c < n ==> candidates[..n][c] == candidates[c];
    }
  }

  lemma RankedGoesOn(candidates: seq<string>, u: string)
    ensures GoesOnWith(Strategies([u] + Without(candidates, u)), candidates, u, Others(candidates, u))
  {
    var cs := Without(candidates, u);
    OthersAreAll(candidates, u);
    WithoutAt(candidates, u);
    assert forall j :: 0 <= j < |cs| ==> ([u] + cs)[1 + j] == cs[j];
  }

  lemma RankedChain(candidates: seq<string>, used: Option<string>)
    ensures ChainOf(Strategies(Ranked(candidates, used)), candidates, used)
  {
    if used.Some? && used.value != "" { RankedGoesOn(candidates, used.value); }
  }

  // ----- the steps of a draft -----

  // The step with this index, read off what was decided and executed.
  ghost predicate StepTells(t: Tables, i: nat, step: CapabilityStep)
    requires i in t.decided
  {
    var d := t.decided[i];
    && step.stepId == "step_" + Decimal(i) && step.actionType == d.actionType && step.riskTag == d.riskTag && step.paramBindings == d.paramBindings
    && ChainOf(step.strategyChain, d.candidates, if i in t.executed then t.executed[i] else None)
  }

  // The decided indices but those of finish, in order.
  ghost predicate Indices(t: Tables, ks: seq<nat>) {
    && (forall i, j :: 0 <= i < j < |ks| ==> ks[i] < ks[j])
    && (forall j :: 0 <= j < |ks| ==> ks[j] in t.decided && t.decided[ks[j]].actionType != Finish)
    && (forall i :: i in t.decided && t.decided[i].actionType != Finish ==> i in ks)
  }

  ghost predicate StepsTell(t: Tables, ks: seq<nat>, steps: seq<CapabilityStep>) {
    Indices(t, ks) && |steps| == |ks| && forall j :: 0 <= j < |ks| ==> StepTells(t, ks[j], steps[j])
  }

  lemma {:induction false} KeptExactly(t: Tables, keys: seq<nat>)
    requires forall i :: i in keys ==> i in t.decided
    ensures forall i :: i in Kept(t, keys) <==> i in keys && t.decided[i].actionType != Finish
  {
    if keys != [] {
      var n := |keys| - 1;
      KeptExactly(t, keys[..n]);
      assert keys == keys[..n] + [keys[n]];
    }
  }

  lemma StepForTells(t: Tables, i: nat)
    requires i in t.decided
    ensures StepTells(t, i, StepFor(i, t.decided[i], UsedAt(t, i)))
  {
    RankedChain(t.decided[i].candidates, UsedAt(t, i));
  }

  lemma KeptSteps(t: Tables, keys: seq<nat>)
    requires forall i :: i in keys ==> i in t.decided
    requires forall i, j :: 0 <= i < j < |keys| ==> keys[i] < keys[j]
    requires forall i :: i in t.decided ==> i in keys
    ensures StepsTell(t, Kept(t, keys), StepsOf(t, keys))
  {
    var ks, steps := Kept(t, keys), StepsOf(t, keys);
    KeptInOrder(t, keys);
    KeptExactly(t, keys);
    StepsAre(t, keys);
    forall j | 0 <= j < |ks| ensures ks[j] in t.decided && t.decided[ks[j]].actionType != Finish && StepTells(t, ks[j], steps[j]) {
      assert IsStep(t, ks[j], steps[j]);
      StepForTells(t, ks[j]);
    }
  }

  // ----- the draft -----

  predicate SomeRisky(steps: seq<CapabilityStep>) {
    exists j :: 0 <= j < |steps| && steps[j].riskTag == RISKY
  }

  // How many of the first n steps are RISKY.
  function RiskyAmong(steps: seq<CapabilityStep>, n: nat): (r: nat)
    requires n <= |steps|
    ensures r > 0 <==> exists j :: 0 <= j < n && steps[j].riskTag == RISKY
  {
    if n == 0 then 0 else RiskyAmong(steps, n - 1) + if steps[n - 1].riskTag == RISKY then 1 else 0
  }

  lemma {:induction false} RiskyPrefix(steps: seq<CapabilityStep>, more: seq<CapabilityStep>, n: nat)
    requires n <= |steps| && steps <= more
    ensures RiskyAmong(steps, n) == RiskyAmong(more, n)
  {
    if n > 0 { RiskyPrefix(steps, more, n - 1); }
  }

  lemma RiskyOneMore(steps: seq<CapabilityStep>, step: CapabilityStep)
    ensures RiskyAmong(steps + [step], |steps| + 1) == RiskyAmong(steps, |steps|) + if step.riskTag == RISKY then 1 else 0
  {
    RiskyPrefix(steps, steps + [step], |steps|);
  }

  lemma {:induction false} RiskyCounted(t: Tables, keys: seq<nat>)
    requires forall i :: i in keys ==> i in t.decided
    ensures RiskyCount(t, keys) == RiskyAmong(StepsOf(t, keys), |StepsOf(t, keys)|)
  {
    if keys != [] {
      var n := |keys| - 1;
      var d, before := t.decided[keys[n]], StepsOf(t, keys[..n]);
      RiskyCounted(t, keys[..n]);
      if d.actionType == Finish {
        assert StepsOf(t, keys) == before;
      } else {
        var step := StepFor(keys[n], d, UsedAt(t, keys[n]));
        assert StepsOf(t, keys) == before + [step];
        RiskyOneMore(before, step);
      }
    }
  }

  // A checkpoint for each assert and an output for each extract, in the order of the steps.
  ghost predicate CheckpointTells(t: Tables, c: Checkpoint) {
    exists i :: i in t.decided && t.decided[i].actionType == Assert && CheckpointOf(i, t.decided[i], c)
  }

  predicate CheckpointOf(i: nat, d: Discovery.Decision, c: Checkpoint) {
    && c.checkpointId == "chk_" + Decimal(i) && c.stepId == "step_" + Decimal(i)
    && c.assertion == (if "assertion" in d.params then Discovery.Str(d.params["assertion"]) else "")
    && c.expected == (if "expected" in d.params then Discovery.Str(d.params["expected"]) else "")
  }

  ghost predicate OutputTells(t: Tables, o: OutputSpec) {
    exists i :: i in t.decided && t.decided[i].actionType == Extract && OutputOf(i, t.decided[i], o)
  }

  predicate OutputOf(i: nat, d: Discovery.Decision, o: OutputSpec) {
    && o.name == (if "output_name" in d.params then Discovery.Str(d.params["output_name"]) else "output_" + Decimal(i))
    && o.kind == "string" && o.extractionSource == "step_" + Decimal(i)
  }

  lemma {:induction false} CheckpointsTell(t: Tables, keys: seq<nat>)
    requires forall i :: i in keys ==> i in t.decided
    ensures forall c :: c in CheckpointsOf(t, keys) ==> CheckpointTells(t, c)
  {
    if keys != [] {
      var n := |keys| - 1;
      CheckpointsTell(t, keys[..n]);
      var i := keys[n];
      if t.decided[i].actionType == Assert {
        assert CheckpointOf(i, t.decided[i], CheckpointFor(i, t.decided[i]));
        assert CheckpointTells(t, CheckpointFor(i, t.decided[i]));
      }
    }
  }

  lemma {:induction false} OutputsTell(t: Tables, keys: seq<nat>)
    requires forall i :: i in keys ==> i in t.decided
    ensures forall o :: o in OutputsOf(t, keys) ==> OutputTells(t, o)
  {
    if keys != [] {
      var n := |keys| - 1;
      OutputsTell(t, keys[..n]);
      var i := keys[n];
      if t.decided[i].actionType == Extract {
        assert OutputOf(i, t.decided[i], OutputFor(i, t.decided[i]));
        assert OutputTells(t, OutputFor(i, t.decided[i]));
      }
    }
  }

  lemma {:induction false} KeysIncrease(keys: seq<nat>, i: nat, j: nat)
    requires (forall a, b :: 0 <= a < b < |keys| ==> NatLess(keys[a], keys[b])) && i < j < |keys|
    ensures keys[i] < keys[j]
  {
  }

  // Every compiled draft, from the tables it was compiled from: one step for each decision that is not to
  // finish, in index order, with the recorded candidates all kept and the one that resolved first; its
  // checkpoints and outputs are those of the asserts and extracts; and preapproval is asked for exactly when
  // some step is RISKY.
  lemma CompiledStepsExactly(t: Tables, d: Draft)
    requires IsCompiled(t, Ok(d))
    ensures exists ks: seq<nat> :: StepsTell(t, ks, d.steps)
    ensures (forall c :: c in d.checkpoints ==> CheckpointTells(t, c)) && (forall o :: o in d.outputs ==> OutputTells(t, o))
    ensures d.riskSummary.riskyCount == RiskyAmong(d.steps, |d.steps|)
    ensures (d.riskSummary.requiresPreapproval <==> SomeRisky(d.steps)) && (d.riskSummary.highest == RISKY <==> SomeRisky(d.steps))
    ensures t.succeeded == Some(d.successCondition) && forall p :: p in d.inputParams ==> p.kind == "string"
  {
    var keys: seq<nat>, names: seq<string> :| CompiledFrom(t, keys, names, Ok(d));
    assert forall i :: i in keys <==> i in t.decided.Keys;
    forall i, j | 0 <= i < j < |keys| ensures keys[i] < keys[j] { KeysIncrease(keys, i, j); }
    KeptSteps(t, keys);
    CheckpointsTell(t, keys);
    OutputsTell(t, keys);
    RiskyCounted(t, keys);
  }

  // ----- what the fallbacks are for -----

  lemma RendersKnown(c: string)
    requires KnownPrefix(c)
    ensures Executor.Render(StrategyOf(c)) == c
  {
  }

  // Where a recorded candidate stands in the chain.
  lemma CandidateInChain(chain: seq<LocatorStrategy>, candidates: seq<string>, used: Option<string>, k: nat)
    requires ChainOf(chain, candidates, used) && k < |candidates|
    ensures StrategyOf(candidates[k]) in chain
  {
  }

  // On a page whose reads change nothing, a compiled step finds an element as long as any recorded candidate of
  // a known kind still has one, whatever became of the locator that resolved in the run.
  lemma FallbackResolves<S(!new)>(app: App<S>, page: S, chain: seq<LocatorStrategy>, candidates: seq<string>, used: Option<string>, c: string)
    requires Steady(app) && ChainOf(chain, candidates, used) && c in candidates && KnownPrefix(c) && HasElement(app, page, c)
    ensures Resolve(app, page, Executor.RenderAll(chain)).1.Some?
  {
    var k :| 0 <= k < |candidates| && candidates[k] == c;
    CandidateInChain(chain, candidates, used, k);
    RendersKnown(c);
    var cs := Executor.RenderAll(chain);
    var j :| 0 <= j < |chain| && chain[j] == StrategyOf(c);
    assert cs[j] == c;
    SteadyStays(app, page, cs, j);
    var n := FoundOrNot(app, page, cs, |cs|);
    if n < |cs| { ResolveFindsFirst(app, page, cs, n); }
  }

  lemma {:induction false} SteadyStays<S(!new)>(app: App<S>, page: S, cs: seq<string>, n: nat)
    requires Steady(app) && n <= |cs|
    ensures PageAfter(app, page, cs, n) == page
  {
    if n > 0 { SteadyStays(app, page, cs, n - 1); }
  }

  // ----- the artifact stored -----

  // One version after the latest, or the first; of the base scope, from this run; labelled by what it declares.
  lemma RegisteredSays(before: map<CapKey, CapRow>, after: map<CapKey, CapRow>, capabilityId: string, draft: Draft, runId: string, now: int,
                       a: CapabilityArtifact)
    requires IsRegistered(before, after, capabilityId, draft, runId, now, Ok(a))
    ensures a.capabilityId == capabilityId && a.tenantScope == "*" && a.draft == draft && a.discoveryRunId == runId
    ensures after == before[CapKey(capabilityId, a.version, "*") := CapRow(a, now, None, 0)]
    ensures if a.version == 1 then a.compatibility == BACKWARD || CapKey(capabilityId, 0, "*") in before
            else
              var previous := CapKey(capabilityId, a.version - 1, "*");
              && previous in before && (forall v :: CapKey(capabilityId, v, "*") in before ==> v < a.version)
              && (a.compatibility == BREAKING <==> !Covers(before[previous].artifact.draft, draft))
              && (a.compatibility == BACKWARD <==> Covers(before[previous].artifact.draft, draft) && Covers(draft, before[previous].artifact.draft))
  {
    var latest: Option<int> :| IsLatest(before, capabilityId, BASE_SCOPE, latest) && a == CompileRace.Numbered(before, capabilityId, latest, draft, runId)
      && after == before[CompileRace.KeyFor(a) := CapRow(a, now, None, 0)];
    if latest.Some? { LabelExactly(before[CapKey(capabilityId, latest.value, BASE_SCOPE)].artifact.draft, draft); }
  }
}
