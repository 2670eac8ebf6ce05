// services/capability_registry/store.py: the registry's tables. `Db` is their value; the class keeps
// them as fields and its methods are the SQL statements.
module RegistryStore {
  import opened Prelude
  import opened Schemas

  const HARD_FAILURE_CONFIDENCE_THRESHOLD := 2
  const BASE_SCOPE := "*"

  datatype Confidence = FRESH | NEEDS_REVIEW

  function ConfidenceOf(lastValidatedAtMs: Option<int>, consecutiveHardFailures: nat): (c: Confidence) {
    if lastValidatedAtMs.None? || consecutiveHardFailures >= HARD_FAILURE_CONFIDENCE_THRESHOLD then NEEDS_REVIEW else FRESH
  }

  datatype CapKey = CapKey(capabilityId: string, version: int, tenantScope: string)

  datatype CapRow = CapRow(
    artifact: CapabilityArtifact, compiledAtMs: int, lastValidatedAtMs: Option<int>, hardFailures: nat)

  datatype RunRow = RunRow(
    kind: string, capabilityId: Option<string>, tenantId: Option<string>, correlationId: string,
    status: string, startedAtMs: int)

  datatype RunEventRow = RunEventRow(runId: string, eventType: string, occurredAtMs: int)

  datatype Db = Db(
    capabilities: map<CapKey, CapRow>, runs: map<string, RunRow>, runEvents: map<(string, int), RunEventRow>)

  datatype Outcome = BUSINESS_OUTCOME | HARD_FAILURE

  // ----- the statements -----

  // ON CONFLICT(run_id) DO NOTHING
  function UpsertRun(db: Db, runId: string, row: RunRow): (r: Db) {
    if runId in db.runs then db else db.(runs := db.runs[runId := row])
  }

  function SetRunStatus(db: Db, runId: string, status: string): (r: Db) {
    if runId in db.runs then db.(runs := db.runs[runId := db.runs[runId].(status := status)]) else db
  }

  // ON CONFLICT(topic, offset) DO NOTHING
  function AppendRunEvent(db: Db, topic: string, offset: int, row: RunEventRow): (r: Db) {
    if (topic, offset) in db.runEvents then db else db.(runEvents := db.runEvents[(topic, offset) := row])
  }

  function Validated(row: CapRow, outcome: Outcome, now: int): (r: CapRow) {
    match outcome
    case BUSINESS_OUTCOME => row.(lastValidatedAtMs := Some(now), hardFailures := 0)
    case HARD_FAILURE => row.(hardFailures := row.hardFailures + 1)
  }

  function RecordValidation(db: Db, key: CapKey, outcome: Outcome, now: int): (r: Db) {
    if key in db.capabilities then db.(capabilities := db.capabilities[key := Validated(db.capabilities[key], outcome, now)]) else db
  }

  // The primary key rejects a second row under the same key.
  function InsertVersion(db: Db, key: CapKey, artifact: CapabilityArtifact, now: int): (r: Result<Db, ()>) {
    if key in db.capabilities then Err(())
    else Ok(db.(capabilities := db.capabilities[key := CapRow(artifact, now, None, 0)]))
  }

  // ORDER BY version DESC LIMIT 1
  ghost predicate IsLatest(caps: map<CapKey, CapRow>, capabilityId: string, scope: string, latest: Option<int>) {
    match latest
    case None => forall v :: CapKey(capabilityId, v, scope) !in caps
    case Some(v) => CapKey(capabilityId, v, scope) in caps && forall u :: CapKey(capabilityId, u, scope) in caps ==> u <= v
  }

  class Store {
    var capabilities: map<CapKey, CapRow>
    var runs: map<string, RunRow>
    var runEvents: map<(string, int), RunEventRow>

    ghost function View(): (db: Db) reads this {
      Db(capabilities, runs, runEvents)
    }

    constructor ()
      ensures View() == Db(map[], map[], map[])
    {
      capabilities, runs, runEvents := map[], map[], map[];
    }

    method LatestVersion(capabilityId: string, scope: string) returns (latest: Option<int>)
      ensures IsLatest(capabilities, capabilityId, scope, latest)
    {
      latest := None;
      var left := capabilities.Keys;
      while left != {}
        invariant left <= capabilities.Keys
        invariant latest.None? ==> forall v :: CapKey(capabilityId, v, scope) in capabilities ==> CapKey(capabilityId, v, scope) in left
        invariant latest.Some? ==> CapKey(capabilityId, latest.value, scope) in capabilities
        invariant latest.Some? ==> forall v :: CapKey(capabilityId, v, scope) in capabilities ==>
                                     CapKey(capabilityId, v, scope) in left || v <= latest.value
        decreases left
      {
        var k :| k in left;
        if k.capabilityId == capabilityId && k.tenantScope == scope && (latest.None? || k.version > latest.value) {
          latest := Some(k.version);
        }
        left := left - {k};
      }
    }

    method Insert(capabilityId: string, version: int, scope: string, artifact: CapabilityArtifact, now: int) returns (ok: bool)
      modifies `capabilities
      ensures var r := InsertVersion(old(View()), CapKey(capabilityId, version, scope), artifact, now);
              ok == r.Ok? && View() == if ok then r.value else old(View())
    {
      ok := CapKey(capabilityId, version, scope) !in capabilities;
      if ok {
        capabilities := capabilities[CapKey(capabilityId, version, scope) := CapRow(artifact, now, None, 0)];
      }
    }

    method UpsertRunRow(runId: string, kind: string, capabilityId: Option<string>, tenantId: Option<string>,
                        correlationId: string, startedAtMs: int)
      modifies `runs
      ensures View() == UpsertRun(old(View()), runId, RunRow(kind, capabilityId, tenantId, correlationId, "IN_PROGRESS", startedAtMs))
    {
      if runId !in runs {
        runs := runs[runId := RunRow(kind, capabilityId, tenantId, correlationId, "IN_PROGRESS", startedAtMs)];
      }
    }

    method SetStatus(runId: string, status: string)
      modifies `runs
      ensures View() == SetRunStatus(old(View()), runId, status)
    {
      if runId in runs {
        runs := runs[runId := runs[runId].(status := status)];
      }
    }

    method AddRunEvent(runId: string, topic: string, offset: int, eventType: string, occurredAtMs: int)
      modifies `runEvents
      ensures View() == AppendRunEvent(old(View()), topic, offset, RunEventRow(runId, eventType, occurredAtMs))
    {
      if (topic, offset) !in runEvents {
        runEvents := runEvents[(topic, offset) := RunEventRow(runId, eventType, occurredAtMs)];
      }
    }

    method AddValidation(capabilityId: string, version: int, scope: string, outcome: Outcome, now: int)
      modifies `capabilities
      ensures View() == RecordValidation(old(View()), CapKey(capabilityId, version, scope), outcome, now)
    {
      var key := CapKey(capabilityId, version, scope);
      if key in capabilities {
        if outcome == BUSINESS_OUTCOME {
          capabilities := capabilities[key := capabilities[key].(lastValidatedAtMs := Some(now), hardFailures := 0)];
        } else {
          capabilities := capabilities[key := capabilities[key].(hardFailures := capabilities[key].hardFailures + 1)];
        }
      }
    }
  }
}
