// services/capability_registry/compiler.py: folds the events of one discovery run into a draft of a
// capability, and registers it.
module Compiler {
  import opened Prelude
  import opened Schemas
  import opened Sorting
  import opened RegistryStore
  import Discovery
  import CompileRace
  import Executor

  // An event on discovery.events, with the run id every payload carries.
  datatype Record = Record(runId: string, event: Discovery.Event)

  const FETCH_LIMIT := 10_000

  // ----- locators -----

  function StartsWith(s: string, prefix: string): (b: bool) {
    prefix <= s
  }

  function StrategyOf(candidate: string): (l: LocatorStrategy) {
    if StartsWith(candidate, "role=") then LocatorStrategy(Role, candidate[5..])
    else if StartsWith(candidate, "label=") then LocatorStrategy(Label, candidate[6..])
    else if StartsWith(candidate, "text=") then LocatorStrategy(TextContent, candidate[5..])
    else if StartsWith(candidate, "css=") then LocatorStrategy(Css, candidate[4..])
    else LocatorStrategy(Css, candidate)
  }

  predicate KnownPrefix(c: string) {
    StartsWith(c, "role=") || StartsWith(c, "label=") || StartsWith(c, "text=") || StartsWith(c, "css=")
  }

  // The strategy survives being rendered for replay and compiled again, always; the candidate
  // string itself comes back exactly when it carries a known prefix.
  lemma LocatorRoundTrip(c: string)
    ensures StrategyOf(Executor.Render(StrategyOf(c))) == StrategyOf(c)
    ensures Executor.Render(StrategyOf(c)) == c <==> KnownPrefix(c)
  {
    var l := StrategyOf(c);
    var r := Executor.Render(l);
    if StartsWith(c, "role=") {
      assert c == "role=" + c[5..];
    } else if StartsWith(c, "label=") {
      assert c == "label=" + c[6..];
      assert r[0] == 'l';
    } else if StartsWith(c, "text=") {
      assert c == "text=" + c[5..];
      assert r[0] == 't';
    } else {
      if StartsWith(c, "css=") { assert c == "css=" + c[4..]; }
      assert r == "css=" + l.value && r[0] == 'c' && r[4..] == l.value;
    }
  }

  // ----- the fold -----

  datatype Tables = Tables(
    decided: map<nat, Discovery.Decision>, executed: map<nat, Option<string>>, succeeded: Option<string>)

  function Absorb(t: Tables, e: Discovery.Event): (r: Tables) {
    match e
    case ActionDecided(i, d) => t.(decided := t.decided[i := d])
    case ActionExecuted(i, used, _) => t.(executed := t.executed[i := used])
    case RunSucceeded(_, condition) => t.(succeeded := Some(condition))
    case _ => t
  }

  function Fold(events: seq<Record>, runId: string): (t: Tables) {
    if events == [] then Tables(map[], map[], None)
    else
      var before, r := Fold(events[..|events| - 1], runId), events[|events| - 1];
      if r.runId == runId then Absorb(before, r.event) else before
  }

  // ----- one step -----

  function StepIdOf(i: nat): (id: string) {
    "step_" + Decimal(i)
  }

  function Without(cs: seq<string>, c: string): (r: seq<string>) {
    if cs == [] then []
    else Without(cs[..|cs| - 1], c) + if cs[|cs| - 1] == c then [] else [cs[|cs| - 1]]
  }

  // The locator that resolved during discovery goes first.
  function Ranked(candidates: seq<string>, used: Option<string>): (r: seq<string>) {
    if used.Some? && used.value != "" then [used.value] + Without(candidates, used.value) else candidates
  }

  function Strategies(cs: seq<string>): (ls: seq<LocatorStrategy>)
    ensures |ls| == |cs| && forall i :: 0 <= i < |cs| ==> ls[i] == StrategyOf(cs[i])
  {
    seq(|cs|, i requires 0 <= i < |cs| => StrategyOf(cs[i]))
  }

  function UsedAt(t: Tables, i: nat): (u: Option<string>) {
    if i in t.executed then t.executed[i] else None
  }

  function StepFor(i: nat, d: Discovery.Decision, used: Option<string>): (s: CapabilityStep) {
    CapabilityStep(StepIdOf(i), d.actionType, Strategies(Ranked(d.candidates, used)), d.riskTag, d.paramBindings)
  }

  function CheckpointFor(i: nat, d: Discovery.Decision): (c: Checkpoint) {
    Checkpoint("chk_" + Decimal(i), StepIdOf(i), Discovery.StrParam(d.params, "assertion"), Discovery.StrParam(d.params, "expected"))
  }

  function OutputFor(i: nat, d: Discovery.Decision): (o: OutputSpec) {
    OutputSpec(if "output_name" in d.params then Discovery.Str(d.params["output_name"]) else "output_" + Decimal(i),
               "string", StepIdOf(i))
  }

  // What the schema's validation accepts.
  predicate Admissible(d: Discovery.Decision) {
    && !d.actionType.Unknown?
    && (d.actionType == Assert && "assertion" in d.params ==> d.params["assertion"].Text?)
    && (d.actionType == Extract && "output_name" in d.params ==> d.params["output_name"].Text?)
  }

  // ----- the draft, over the sorted step indices -----

  function StepsOf(t: Tables, keys: seq<nat>): (steps: seq<CapabilityStep>)
    requires forall i :: i in keys ==> i in t.decided
  {
    if keys == [] then []
    else
      var n := |keys| - 1;
      var d := t.decided[keys[n]];
      StepsOf(t, keys[..n]) + if d.actionType == Finish then [] else [StepFor(keys[n], d, UsedAt(t, keys[n]))]
  }

  function CheckpointsOf(t: Tables, keys: seq<nat>): (cs: seq<Checkpoint>)
    requires forall i :: i in keys ==> i in t.decided
  {
    if keys == [] then []
    else
      var n := |keys| - 1;
      CheckpointsOf(t, keys[..n]) + if t.decided[keys[n]].actionType == Assert then [CheckpointFor(keys[n], t.decided[keys[n]])] else []
  }

  function OutputsOf(t: Tables, keys: seq<nat>): (os: seq<OutputSpec>)
    requires forall i :: i in keys ==> i in t.decided
  {
    if keys == [] then []
    else
      var n := |keys| - 1;
      OutputsOf(t, keys[..n]) + if t.decided[keys[n]].actionType == Extract then [OutputFor(keys[n], t.decided[keys[n]])] else []
  }

  function InputNames(t: Tables, keys: seq<nat>): (names: set<string>)
    requires forall i :: i in keys ==> i in t.decided
  {
    if keys == [] then {}
    else
      var n := |keys| - 1;
      var d := t.decided[keys[n]];
      InputNames(t, keys[..n]) + if d.actionType == Finish then {} else d.paramBindings.Values
  }

  function RiskyCount(t: Tables, keys: seq<nat>): (n: nat)
    requires forall i :: i in keys ==> i in t.decided
  {
    if keys == [] then 0
    else
      var n := |keys| - 1;
      var d := t.decided[keys[n]];
      RiskyCount(t, keys[..n]) + if d.actionType != Finish && d.riskTag == RISKY then 1 else 0
  }

  function ParamsFor(names: seq<string>): (ps: seq<InputParam>)
    ensures |ps| == |names| && forall i :: 0 <= i < |names| ==> ps[i] == InputParam(names[i], "string")
  {
    seq(|names|, i requires 0 <= i < |names| => InputParam(names[i], "string"))
  }

  function Summary(risky: nat): (r: RiskSummary) {
    RiskSummary(if risky > 0 then RISKY else SAFE, risky, risky > 0)
  }

  datatype CompileError = NoRunSucceeded | ValidationError

  ghost predicate AllAdmissible(t: Tables) {
    forall i :: i in t.decided && t.decided[i].actionType != Finish ==> Admissible(t.decided[i])
  }

  // keys and names are the step indices and the input names in sorted order.
  ghost predicate IsCompiled(t: Tables, r: Result<Draft, CompileError>) {
    if t.succeeded.None? then r == Err(NoRunSucceeded)
    else if !AllAdmissible(t) then r == Err(ValidationError)
    else exists keys: seq<nat>, names: seq<string> :: CompiledFrom(t, keys, names, r)
  }

  ghost predicate CompiledFrom(t: Tables, keys: seq<nat>, names: seq<string>, r: Result<Draft, CompileError>) {
    && SortedBy(keys, t.decided.Keys, NatLess)
    && SortedBy(names, InputNames(t, keys), StrLess)
    && t.succeeded.Some?
    && r == Ok(Draft(ParamsFor(names), StepsOf(t, keys), CheckpointsOf(t, keys), OutputsOf(t, keys),
                     t.succeeded.value, Summary(RiskyCount(t, keys))))
  }

  // The fold determines the draft.
  lemma CompiledOnce(t: Tables, a: Result<Draft, CompileError>, b: Result<Draft, CompileError>)
    requires IsCompiled(t, a) && IsCompiled(t, b)
    ensures a == b
  {
    if t.succeeded.Some? && AllAdmissible(t) {
      var keys: seq<nat>, names: seq<string> :| CompiledFrom(t, keys, names, a);
      var keys': seq<nat>, names': seq<string> :| CompiledFrom(t, keys', names', b);
      NatLessIsStrict();
      SortedUnique(keys, keys', t.decided.Keys, NatLess);
      StrLessIsStrict();
      SortedUnique(names, names', InputNames(t, keys), StrLess);
    }
  }

  // ----- compile_capability, as written -----

  method FoldEvents(events: seq<Record>, runId: string) returns (t: Tables)
    ensures t == Fold(events, runId)
  {
    t := Tables(map[], map[], None);
    for i := 0 to |events|
      invariant t == Fold(events[..i], runId)
    {
      assert events[..i + 1][..i] == events[..i];
      if events[i].runId == runId {
        match events[i].event {
          case ActionDecided(k, d) => t := t.(decided := t.decided[k := d]);
          case ActionExecuted(k, used, _) => t := t.(executed := t.executed[k := used]);
          case RunSucceeded(_, condition) => t := t.(succeeded := Some(condition));
          case _ =>
        }
      }
    }
    assert events[..|events|] == events;
  }

  // The loop over the steps, done for the first j of them.
  ghost predicate Built(t: Tables, keys: seq<nat>, j: nat, steps: seq<CapabilityStep>, checkpoints: seq<Checkpoint>,
                        outputs: seq<OutputSpec>, names: set<string>, risky: nat)
    requires forall i :: i in keys ==> i in t.decided
  {
    && j <= |keys|
    && (forall k :: 0 <= k < j && t.decided[keys[k]].actionType != Finish ==> Admissible(t.decided[keys[k]]))
    && steps == StepsOf(t, keys[..j]) && checkpoints == CheckpointsOf(t, keys[..j]) && outputs == OutputsOf(t, keys[..j])
    && names == InputNames(t, keys[..j]) && risky == RiskyCount(t, keys[..j])
  }

  lemma BuiltOneMore(t: Tables, keys: seq<nat>, j: nat, steps: seq<CapabilityStep>, checkpoints: seq<Checkpoint>,
                     outputs: seq<OutputSpec>, names: set<string>, risky: nat)
    requires (forall i :: i in keys ==> i in t.decided) && j < |keys|
    requires Built(t, keys, j, steps, checkpoints, outputs, names, risky)
    ensures var i := keys[j];
            var d := t.decided[i];
            if d.actionType == Finish then Built(t, keys, j + 1, steps, checkpoints, outputs, names, risky)
            else Admissible(d) ==> Built(t, keys, j + 1, steps + [StepFor(i, d, UsedAt(t, i))],
                                         checkpoints + (if d.actionType == Assert then [CheckpointFor(i, d)] else []),
                                         outputs + (if d.actionType == Extract then [OutputFor(i, d)] else []),
                                         names + d.paramBindings.Values, risky + if d.riskTag == RISKY then 1 else 0)
  {
    assert keys[..j + 1][..j] == keys[..j];
  }

  lemma BuiltAll(t: Tables, keys: seq<nat>, steps: seq<CapabilityStep>, checkpoints: seq<Checkpoint>,
                 outputs: seq<OutputSpec>, names: set<string>, risky: nat, sorted: seq<string>)
    requires t.succeeded.Some? && SortedBy(keys, t.decided.Keys, NatLess)
    requires Built(t, keys, |keys|, steps, checkpoints, outputs, names, risky)
    requires SortedBy(sorted, names, StrLess)
    ensures IsCompiled(t, Ok(Draft(ParamsFor(sorted), steps, checkpoints, outputs, t.succeeded.value, Summary(risky))))
  {
    assert keys[..|keys|] == keys;
    assert CompiledFrom(t, keys, sorted, Ok(Draft(ParamsFor(sorted), steps, checkpoints, outputs, t.succeeded.value, Summary(risky))));
  }

  method CompileDraft(events: seq<Record>, runId: string) returns (r: Result<Draft, CompileError>)
    ensures IsCompiled(Fold(events, runId), r)
  {
    var t := FoldEvents(events, runId);
    if t.succeeded.None? { return Err(NoRunSucceeded); }
    NatLessIsStrict();
    var keys := Sort(t.decided.Keys, NatLess);
    var steps, checkpoints, outputs, names, risky := [], [], [], {}, 0;
    for j := 0 to |keys|
      invariant Built(t, keys, j, steps, checkpoints, outputs, names, risky)
    {
      BuiltOneMore(t, keys, j, steps, checkpoints, outputs, names, risky);
      var i := keys[j];
      var d := t.decided[i];
      if d.actionType != Finish {
        if !Admissible(d) {
          return Err(ValidationError);
        }
        if d.riskTag == RISKY { risky := risky + 1; }
        names := names + d.paramBindings.Values;
        if d.actionType == Assert { checkpoints := checkpoints + [CheckpointFor(i, d)]; }
        if d.actionType == Extract { outputs := outputs + [OutputFor(i, d)]; }
        steps := steps + [StepFor(i, d, UsedAt(t, i))];
      }
    }
    StrLessIsStrict();
    var sorted := Sort(names, StrLess);
    BuiltAll(t, keys, steps, checkpoints, outputs, names, risky, sorted);
    r := Ok(Draft(ParamsFor(sorted), steps, checkpoints, outputs, t.succeeded.value, Summary(risky)));
  }

  ghost predicate IsRegistered(before: map<CapKey, CapRow>, after: map<CapKey, CapRow>, capabilityId: string, draft: Draft, runId: string,
                               now: int, r: Result<CapabilityArtifact, CompileError>) {
    exists latest :: IsLatest(before, capabilityId, BASE_SCOPE, latest)
      && var a := CompileRace.Numbered(before, capabilityId, latest, draft, runId);
         r == Ok(a) && after == before[CompileRace.KeyFor(a) := CapRow(a, now, None, 0)] && CompileRace.KeyFor(a) !in before
  }

  // With nobody else compiling: fetch, fold, number, insert. The key of an insert is then always free.
  method CompileCapability(topic: seq<Record>, runId: string, capabilityId: string, store: Store, now: int)
      returns (r: Result<CapabilityArtifact, CompileError>)
    modifies store`capabilities
    ensures exists d: Result<Draft, CompileError> :: IsCompiled(Fold(Take(topic, 10_000), runId), d) && match d
              case Err(e) => r == Err(e) && store.capabilities == old(store.capabilities)
              case Ok(draft) => IsRegistered(old(store.capabilities), store.capabilities, capabilityId, draft, runId, now, r)
  {
    var d := CompileDraft(Take(topic, FETCH_LIMIT), runId);
    match d {
      case Err(e) => r := Err(e);
      case Ok(draft) =>
        ghost var before := store.capabilities;
        var latest := store.LatestVersion(capabilityId, BASE_SCOPE);
        var a := CompileRace.Numbered(store.capabilities, capabilityId, latest, draft, runId);
        assert CompileRace.KeyFor(a) !in before;
        var ok := store.Insert(a.capabilityId, a.version, BASE_SCOPE, a, now);
        r := Ok(a);
        assert IsRegistered(before, store.capabilities, capabilityId, draft, runId, now, r);
    }
  }
}
