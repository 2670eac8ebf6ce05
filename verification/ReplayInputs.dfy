// When the hypotheses of the simulation hold: the names under which texts are reported, and replays
// with the very inputs a run was given.
module ReplayInputs {
  import opened Prelude
  import opened Schemas
  import opened Browser
  import opened Discovery
  import opened DiscoveryTrace
  import opened Compiler
  import opened Delivery
  import opened Simulation

  // ----- output names -----

  predicate IsNamed(params: map<string, Value>, redact: Redactor) {
    "output_name" in params && (params["output_name"].Text? ==> redact(params["output_name"].s) == params["output_name"].s)
  }

  // A text is reported under the same name by the run and by its replay exactly when the planner
  // named it and redaction leaves the name alone: the two default names never agree.
  lemma NamesAgreeExactly<S>(i: nat, m: Move<S>, redact: Redactor)
    requires m.extracted.Some?
    ensures Recorded(i, m, redact, map[]) == StepOutputs(i, m.decision.params, m.extracted, map[])
       <==> IsNamed(m.decision.params, redact)
  {
    var d := m.decision;
    var compiled := OutputFor(i, RedactDecision(redact, d)).name;
    var live := if "output_name" in d.params then Str(d.params["output_name"]) else "step_" + Decimal(i) + "_output";
    assert compiled in Recorded(i, m, redact, map[]) && live in StepOutputs(i, d.params, m.extracted, map[]);
    if "output_name" !in d.params {
      assert compiled[0] == 'o' && live[0] == 's';
    }
  }

  // What the loop of the run had collected before `finish` replaced it.
  function Collected<S>(moves: seq<Move<S>>, i: nat, outputs: map<string, string>): (o: map<string, string>)
    requires i <= |moves|
    decreases |moves| - i
  {
    if i == |moves| then outputs else Collected(moves, i + 1, StepOutputs(i, moves[i].decision.params, moves[i].extracted, outputs))
  }

  ghost predicate Named<S>(m: Move<S>, redact: Redactor) {
    m.extracted.Some? ==> IsNamed(m.decision.params, redact)
  }

  lemma {:induction false} ReadingsAreCollected<S>(moves: seq<Move<S>>, i: nat, redact: Redactor, outputs: map<string, string>)
    requires i <= |moves| && forall j :: i <= j < |moves| ==> Named(moves[j], redact)
    ensures Readings(moves, i, redact, outputs) == Collected(moves, i, outputs)
    decreases |moves| - i
  {
    if i < |moves| {
      assert Named(moves[i], redact);
      ReadingsAreCollected(moves, i + 1, redact, Recorded(i, moves[i], redact, outputs));
    }
  }

  // ----- the run's own inputs -----

  function InputMap(inputs: seq<(string, string)>): (m: map<string, string>) {
    if inputs == [] then map[] else InputMap(inputs[..|inputs| - 1])[inputs[|inputs| - 1].0 := inputs[|inputs| - 1].1]
  }

  ghost predicate DistinctNames(inputs: seq<(string, string)>) {
    forall i, j :: 0 <= i < j < |inputs| ==> inputs[i].0 != inputs[j].0
  }

  lemma {:induction false} InputsKnown(inputs: seq<(string, string)>, name: string)
    ensures name in InputMap(inputs) <==> exists i :: 0 <= i < |inputs| && inputs[i].0 == name
  {
    if inputs != [] {
      var n := |inputs| - 1;
      InputsKnown(inputs[..n], name);
      if name in InputMap(inputs) && name != inputs[n].0 {
        var i :| 0 <= i < n && inputs[..n][i].0 == name;
        assert inputs[i].0 == name;
      }
      if i :| 0 <= i < |inputs| && inputs[i].0 == name {
        assert i < n ==> inputs[..n][i].0 == name;
      }
    }
  }

  // A binding names an input whose value occurs in the literal.
  lemma {:induction false} BindingOccurs(inputs: seq<(string, string)>, value: string)
    requires DistinctNames(inputs) && MatchingInput(inputs, value).Some?
    ensures var name := MatchingInput(inputs, value).value;
            name in InputMap(inputs) && InputMap(inputs)[name] != "" && Contains(value, InputMap(inputs)[name])
  {
    var n := |inputs| - 1;
    if !(inputs[n].1 != "" && Contains(value, inputs[n].1)) {
      BindingOccurs(inputs[..n], value);
      InputsKnown(inputs[..n], MatchingInput(inputs[..n], value).value);
      var name := MatchingInput(inputs, value).value;
      var i :| 0 <= i < n && inputs[..n][i].0 == name;
      assert inputs[i].0 == name;
    }
  }

  // Replayed with its own inputs, a planned step gets back what it was given exactly when the bound
  // input is the whole literal, and not merely a part of it.
  lemma OwnInputsExactly(cfg: Config, a: PlannedAction)
    requires DistinctNames(cfg.inputs)
    ensures var d, key := DecisionFor(cfg, a), NeededParam(a.actionType);
            key.Some? && Bound(d, InputMap(cfg.inputs)) ==>
              var name := d.paramBindings[key.value];
              && Contains(StrParam(a.params, key.value), InputMap(cfg.inputs)[name])
              && (Faithful(d, InputMap(cfg.inputs)) <==> |InputMap(cfg.inputs)[name]| == |StrParam(a.params, key.value)|)
  {
    var d, key := DecisionFor(cfg, a), NeededParam(a.actionType);
    if key.Some? && Bound(d, InputMap(cfg.inputs)) {
      var value := StrParam(a.params, key.value);
      BindingOccurs(cfg.inputs, value);
      var v := InputMap(cfg.inputs)[d.paramBindings[key.value]];
      var i :| 0 <= i <= |value| && OccursAt(value, v, i);
      if |v| == |value| { assert value[0..|value|] == value; }
    }
  }

  // A step is bound under the run's own inputs exactly when some input occurs in its literal.
  lemma OwnInputsBind(cfg: Config, a: PlannedAction)
    requires DistinctNames(cfg.inputs) && NeededParam(a.actionType).Some?
    ensures var key := NeededParam(a.actionType).value;
            Bound(DecisionFor(cfg, a), InputMap(cfg.inputs)) <==>
              key in a.params && a.params[key].Text? && exists i :: 0 <= i < |cfg.inputs| && Binds(cfg.inputs[i], a.params[key].s)
  {
    var key := NeededParam(a.actionType).value;
    if key in a.params && a.params[key].Text? {
      MatchExists(cfg.inputs, a.params[key].s);
      if MatchingInput(cfg.inputs, a.params[key].s).Some? { BindingOccurs(cfg.inputs, a.params[key].s); }
    }
  }

  predicate Binds(input: (string, string), literal: string) {
    input.1 != "" && Contains(literal, input.1)
  }

  lemma {:induction false} MatchExists(inputs: seq<(string, string)>, literal: string)
    ensures MatchingInput(inputs, literal).Some? <==> exists i :: 0 <= i < |inputs| && Binds(inputs[i], literal)
  {
    if inputs != [] {
      var n := |inputs| - 1;
      MatchExists(inputs[..n], literal);
      if MatchingInput(inputs[..n], literal).Some? {
        var i :| 0 <= i < n && Binds(inputs[..n][i], literal);
        assert Binds(inputs[i], literal);
      }
      if i :| 0 <= i < |inputs| && Binds(inputs[i], literal) {
        assert i < n ==> Binds(inputs[..n][i], literal);
        assert i == n ==> Binds(inputs[n], literal);
      }
    }
  }
}
