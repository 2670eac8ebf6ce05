// shared/schemas.py: the capability artifact and its parts.
module Schemas {
  datatype RiskTag = SAFE | RISKY

  datatype Compatibility = BACKWARD | FORWARD | BREAKING

  // The planner's action types; Unknown is anything outside the schema's Literal.
  datatype ActionType = Click | Fill | SelectOption | Navigate | Assert | Extract | Finish | Unknown(name: string)

  datatype LocatorKind = Role | Label | TextContent | TestId | Css

  datatype LocatorStrategy = LocatorStrategy(kind: LocatorKind, value: string)

  datatype InputParam = InputParam(name: string, kind: string)

  datatype CapabilityStep = CapabilityStep(
    stepId: string, actionType: ActionType, strategyChain: seq<LocatorStrategy>, riskTag: RiskTag,
    paramBindings: map<string, string>)

  datatype Checkpoint = Checkpoint(checkpointId: string, stepId: string, assertion: string, expected: string)

  datatype OutputSpec = OutputSpec(name: string, kind: string, extractionSource: string)

  datatype RiskSummary = RiskSummary(highest: RiskTag, riskyCount: nat, requiresPreapproval: bool)

  // What the fold over a trace yields, before a version is assigned.
  datatype Draft = Draft(
    inputParams: seq<InputParam>, steps: seq<CapabilityStep>, checkpoints: seq<Checkpoint>,
    outputs: seq<OutputSpec>, successCondition: string, riskSummary: RiskSummary)

  datatype CapabilityArtifact = CapabilityArtifact(
    capabilityId: string, version: int, compatibility: Compatibility, tenantScope: string,
    draft: Draft, discoveryRunId: string)

  datatype TenantOverlay = TenantOverlay(
    tenantId: string, capabilityId: string,
    locatorOverrides: map<string, seq<LocatorStrategy>>, paramOverrides: map<string, map<string, string>>)
}
