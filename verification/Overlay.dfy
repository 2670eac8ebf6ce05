// services/capability_registry/overlay.py: a tenant's overrides applied to a copy of the base artifact.
module Overlay {
  import opened Prelude
  import opened Schemas

  function ResolvedStep(step: CapabilityStep, overlay: TenantOverlay): (r: CapabilityStep) {
    step.(strategyChain := if step.stepId in overlay.locatorOverrides then overlay.locatorOverrides[step.stepId] else step.strategyChain,
          paramBindings := if step.stepId in overlay.paramOverrides then step.paramBindings + overlay.paramOverrides[step.stepId]
                           else step.paramBindings)
  }

  function ResolvedDraft(d: Draft, overlay: TenantOverlay): (r: Draft) {
    d.(steps := seq(|d.steps|, i requires 0 <= i < |d.steps| => ResolvedStep(d.steps[i], overlay)))
  }

  function Resolved(base: CapabilityArtifact, overlay: Option<TenantOverlay>): (r: CapabilityArtifact) {
    if overlay.None? then base
    else base.(tenantScope := overlay.value.tenantId, draft := ResolvedDraft(base.draft, overlay.value))
  }

  // An overridden step has the overlay's chain and no other; an overridden key the overlay's input name; all else
  // is the base's.
  ghost predicate Overlaid(base: CapabilityStep, r: CapabilityStep, o: TenantOverlay) {
    && r.stepId == base.stepId && r.actionType == base.actionType && r.riskTag == base.riskTag
    && (base.stepId in o.locatorOverrides ==> r.strategyChain == o.locatorOverrides[base.stepId])
    && (base.stepId !in o.locatorOverrides ==> r.strategyChain == base.strategyChain)
    && forall key :: if base.stepId in o.paramOverrides && key in o.paramOverrides[base.stepId]
                     then key in r.paramBindings && r.paramBindings[key] == o.paramOverrides[base.stepId][key]
                     else (key in r.paramBindings <==> key in base.paramBindings) && (key in r.paramBindings ==> r.paramBindings[key] == base.paramBindings[key])
  }

  lemma StepIsOverlaid(step: CapabilityStep, o: TenantOverlay)
    ensures Overlaid(step, ResolvedStep(step, o), o)
  {
  }

  // The steps are copied out and changed in place, field by field.
  method Resolve(base: CapabilityArtifact, overlay: Option<TenantOverlay>) returns (r: CapabilityArtifact)
    ensures r == Resolved(base, overlay)
    ensures overlay.None? ==> r == base
    ensures overlay.Some? ==>
              && r.tenantScope == overlay.value.tenantId && r.(tenantScope := base.tenantScope, draft := base.draft) == base
              && r.draft.(steps := base.draft.steps) == base.draft && |r.draft.steps| == |base.draft.steps|
              && forall i :: 0 <= i < |base.draft.steps| ==> Overlaid(base.draft.steps[i], r.draft.steps[i], overlay.value)
  {
    r := base;
    if overlay.None? { return; }
    var o := overlay.value;
    r := r.(tenantScope := o.tenantId);
    var steps := new CapabilityStep[|base.draft.steps|](i requires 0 <= i < |base.draft.steps| => base.draft.steps[i]);
    for i := 0 to steps.Length
      invariant forall k :: 0 <= k < i ==> steps[k] == ResolvedStep(base.draft.steps[k], o)
      invariant forall k :: i <= k < steps.Length ==> steps[k] == base.draft.steps[k]
    {
      if steps[i].stepId in o.locatorOverrides {
        steps[i] := steps[i].(strategyChain := o.locatorOverrides[steps[i].stepId]);
      }
      if steps[i].stepId in o.paramOverrides {
        steps[i] := steps[i].(paramBindings := steps[i].paramBindings + o.paramOverrides[steps[i].stepId]);
      }
    }
    r := r.(draft := base.draft.(steps := steps[..]));
    assert steps[..] == ResolvedDraft(base.draft, o).steps;
    forall i | 0 <= i < |base.draft.steps| ensures Overlaid(base.draft.steps[i], r.draft.steps[i], o) {
      StepIsOverlaid(base.draft.steps[i], o);
    }
  }
}
