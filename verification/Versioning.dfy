// services/capability_registry/versioning.py: schema-registry style compatibility of two versions.
module Versioning {
  import opened Schemas

  datatype Shape = Shape(inputs: set<(string, string)>, outputs: set<(string, string)>, checkpoints: set<(string, string)>)

  function ParamShape(params: seq<InputParam>): (s: set<(string, string)>) {
    set p | p in params :: (p.name, p.kind)
  }

  function OutputShape(outputs: seq<OutputSpec>): (s: set<(string, string)>) {
    set o | o in outputs :: (o.name, o.kind)
  }

  function CheckpointShape(checkpoints: seq<Checkpoint>): (s: set<(string, string)>) {
    set c | c in checkpoints :: (c.stepId, c.assertion)
  }

  function ShapeOf(d: Draft): (s: Shape) {
    Shape(ParamShape(d.inputParams), OutputShape(d.outputs), CheckpointShape(d.checkpoints))
  }

  function Classify(old_: Shape, new_: Shape): (c: Compatibility) {
    if old_.inputs == new_.inputs && old_.outputs == new_.outputs && old_.checkpoints == new_.checkpoints then BACKWARD
    else if old_.inputs <= new_.inputs && old_.outputs <= new_.outputs && old_.checkpoints <= new_.checkpoints then FORWARD
    else BREAKING
  }

  // Everything one draft declares, the other declares too: inputs and outputs by name and type, checkpoints by
  // step and assertion.
  ghost predicate Covers(old_: Draft, new_: Draft) {
    && (forall p :: p in old_.inputParams ==> exists r :: r in new_.inputParams && r.name == p.name && r.kind == p.kind)
    && (forall o :: o in old_.outputs ==> exists r :: r in new_.outputs && r.name == o.name && r.kind == o.kind)
    && (forall c :: c in old_.checkpoints ==> exists r :: r in new_.checkpoints && r.stepId == c.stepId && r.assertion == c.assertion)
  }

  lemma ParamsCovered(a: seq<InputParam>, b: seq<InputParam>)
    ensures ParamShape(a) <= ParamShape(b) <==> forall p :: p in a ==> exists r :: r in b && r.name == p.name && r.kind == p.kind
  {
    if ParamShape(a) <= ParamShape(b) {
      forall p | p in a ensures exists r :: r in b && r.name == p.name && r.kind == p.kind {
        assert (p.name, p.kind) in ParamShape(a);
      }
    }
  }

  lemma OutputsCovered(a: seq<OutputSpec>, b: seq<OutputSpec>)
    ensures OutputShape(a) <= OutputShape(b) <==> forall p :: p in a ==> exists r :: r in b && r.name == p.name && r.kind == p.kind
  {
    if OutputShape(a) <= OutputShape(b) {
      forall p | p in a ensures exists r :: r in b && r.name == p.name && r.kind == p.kind {
        assert (p.name, p.kind) in OutputShape(a);
      }
    }
  }

  lemma CheckpointsCovered(a: seq<Checkpoint>, b: seq<Checkpoint>)
    ensures CheckpointShape(a) <= CheckpointShape(b) <==>
            forall p :: p in a ==> exists r :: r in b && r.stepId == p.stepId && r.assertion == p.assertion
  {
    if CheckpointShape(a) <= CheckpointShape(b) {
      forall p | p in a ensures exists r :: r in b && r.stepId == p.stepId && r.assertion == p.assertion {
        assert (p.stepId, p.assertion) in CheckpointShape(a);
      }
    }
  }

  // The label of a new version, by what the two drafts declare: BREAKING exactly when something is missing or
  // retyped, BACKWARD exactly when neither declares anything the other does not.
  lemma LabelExactly(old_: Draft, new_: Draft)
    ensures var verdict := Classify(ShapeOf(old_), ShapeOf(new_));
            && (verdict == BREAKING <==> !Covers(old_, new_))
            && (verdict == BACKWARD <==> Covers(old_, new_) && Covers(new_, old_))
  {
    ParamsCovered(old_.inputParams, new_.inputParams);
    ParamsCovered(new_.inputParams, old_.inputParams);
    OutputsCovered(old_.outputs, new_.outputs);
    OutputsCovered(new_.outputs, old_.outputs);
    CheckpointsCovered(old_.checkpoints, new_.checkpoints);
    CheckpointsCovered(new_.checkpoints, old_.checkpoints);
  }

  // Everything the old version offered is still there.
  predicate Preserves(old_: Shape, new_: Shape) {
    old_.inputs <= new_.inputs && old_.outputs <= new_.outputs && old_.checkpoints <= new_.checkpoints
  }

  datatype Version = Version(shape: Shape, compat: Compatibility)

  // Each label after the first compares a version with its direct predecessor.
  ghost predicate Labelled(history: seq<Version>) {
    forall i :: 0 < i < |history| ==> history[i].compat == Classify(history[i - 1].shape, history[i].shape)
  }

  ghost predicate NoBreaking(history: seq<Version>, m: nat, n: nat)
    requires n < |history|
  {
    forall i :: m < i <= n ==> history[i].compat != BREAKING
  }

  ghost predicate SomeForward(history: seq<Version>, m: nat, n: nat)
    requires n < |history|
  {
    exists i :: m < i <= n && history[i].compat == FORWARD
  }

  lemma {:induction false} ShapesSurvive(history: seq<Version>, m: nat, n: nat)
    requires m <= n < |history| && Labelled(history) && NoBreaking(history, m, n)
    ensures Preserves(history[m].shape, history[n].shape)
    ensures SomeForward(history, m, n) <==> history[m].shape != history[n].shape
  {
    if m < n {
      ShapesSurvive(history, m, n - 1);
      assert history[n].compat == Classify(history[n - 1].shape, history[n].shape);
      if SomeForward(history, m, n - 1) {
        var i :| m < i <= n - 1 && history[i].compat == FORWARD;
        assert SomeForward(history, m, n);
      }
    }
  }

  // Pairwise labels compose. Over a stretch of history without a BREAKING label, comparing the
  // two ends directly gives FORWARD exactly when some label in between is FORWARD, and BACKWARD
  // otherwise; going back is BREAKING exactly in the first case.
  lemma CompatibilityComposes(history: seq<Version>, m: nat, n: nat)
    requires m <= n < |history| && Labelled(history) && NoBreaking(history, m, n)
    ensures Preserves(history[m].shape, history[n].shape)
    ensures Classify(history[m].shape, history[n].shape) == if SomeForward(history, m, n) then FORWARD else BACKWARD
    ensures Classify(history[n].shape, history[m].shape) == if SomeForward(history, m, n) then BREAKING else BACKWARD
  {
    ShapesSurvive(history, m, n);
  }
}
