// services/capability_registry/compiler.py:124-166 under concurrency: gRPC threads read the latest
// version in one lock section and insert the next in another; the primary key decides who wins.
module CompileRace {
  import opened Prelude
  import opened Schemas
  import opened Versioning
  import opened RegistryStore

  // The version number and label a compile decides on after reading the latest row.
  function Numbered(caps: map<CapKey, CapRow>, capabilityId: string, latest: Option<int>, draft: Draft, runId: string): (a: CapabilityArtifact)
    requires latest.Some? ==> CapKey(capabilityId, latest.value, BASE_SCOPE) in caps
  {
    match latest
    case None => CapabilityArtifact(capabilityId, 1, BACKWARD, BASE_SCOPE, draft, runId)
    case Some(v) =>
      var previous := caps[CapKey(capabilityId, v, BASE_SCOPE)].artifact;
      CapabilityArtifact(capabilityId, v + 1, Classify(ShapeOf(previous.draft), ShapeOf(draft)), BASE_SCOPE, draft, runId)
  }

  datatype State = State(db: Db, threads: map<nat, CapabilityArtifact>)

  datatype Action =
    | ReadLatest(t: nat, capabilityId: string, latest: Option<int>, draft: Draft, runId: string)
    | InsertNew(t: nat, now: int)
    | Die(t: nat)
    | Validate(key: CapKey, outcome: Outcome, now: int)  // the projector, at any time

  function KeyFor(a: CapabilityArtifact): (k: CapKey) {
    CapKey(a.capabilityId, a.version, BASE_SCOPE)
  }

  ghost function Next(s: State, a: Action): (r: State) {
    match a
    case ReadLatest(t, cap, latest, draft, runId) =>
      if t !in s.threads && IsLatest(s.db.capabilities, cap, BASE_SCOPE, latest) then
        s.(threads := s.threads[t := Numbered(s.db.capabilities, cap, latest, draft, runId)])
      else s
    case InsertNew(t, now) =>
      if t in s.threads then
        var done := s.(threads := s.threads - {t});
        match InsertVersion(s.db, KeyFor(s.threads[t]), s.threads[t], now)
        case Ok(db) => done.(db := db)
        case Err(_) => done  // IntegrityError: the compile fails, the table is untouched
      else s
    case Die(t) => s.(threads := s.threads - {t})
    case Validate(key, outcome, now) => s.(db := RecordValidation(s.db, key, outcome, now))
  }

  ghost function Run(acts: seq<Action>): (s: State) {
    if acts == [] then State(Db(map[], map[], map[]), map[]) else Next(Run(acts[..|acts| - 1]), acts[|acts| - 1])
  }

  // ----- linearity -----

  function Key(capabilityId: string, v: int): (k: CapKey) {
    CapKey(capabilityId, v, BASE_SCOPE)
  }

  ghost predicate RowOk(caps: map<CapKey, CapRow>, k: CapKey)
    requires k in caps
  {
    var a := caps[k].artifact;
    && k.tenantScope == BASE_SCOPE && KeyFor(a) == k && k.version >= 1
    && (k.version == 1 ==> a.compatibility == BACKWARD)
    && (k.version > 1 ==>
          && Key(k.capabilityId, k.version - 1) in caps
          && a.compatibility == Classify(ShapeOf(caps[Key(k.capabilityId, k.version - 1)].artifact.draft), ShapeOf(a.draft)))
  }

  // A compile in flight compared itself with a version that is still there.
  ghost predicate PendingOk(caps: map<CapKey, CapRow>, a: CapabilityArtifact) {
    && a.version >= 1
    && (a.version == 1 ==> a.compatibility == BACKWARD)
    && (a.version > 1 ==>
          && Key(a.capabilityId, a.version - 1) in caps
          && a.compatibility == Classify(ShapeOf(caps[Key(a.capabilityId, a.version - 1)].artifact.draft), ShapeOf(a.draft)))
  }

  ghost predicate Inv(s: State) {
    && (forall k :: k in s.db.capabilities ==> RowOk(s.db.capabilities, k))
    && (forall t :: t in s.threads ==> PendingOk(s.db.capabilities, s.threads[t]))
  }

  ghost predicate Keeps(caps: map<CapKey, CapRow>, after: map<CapKey, CapRow>) {
    forall k :: k in caps ==> k in after && after[k].artifact == caps[k].artifact
  }

  // Inv survives any change that keeps every stored artifact and adds only well-labelled rows.
  lemma KeptInv(s: State, after: State)
    requires Inv(s) && Keeps(s.db.capabilities, after.db.capabilities)
    requires forall k :: k in after.db.capabilities && k !in s.db.capabilities ==> RowOk(after.db.capabilities, k)
    requires forall t :: t in after.threads ==> t in s.threads && after.threads[t] == s.threads[t]
    ensures Inv(after)
  {
  }

  lemma NewRowOk(caps: map<CapKey, CapRow>, a: CapabilityArtifact, row: CapRow)
    requires PendingOk(caps, a) && KeyFor(a) !in caps && row.artifact == a
    ensures RowOk(caps[KeyFor(a) := row], KeyFor(a))
  {
  }

  lemma InsertKeepsInv(s: State, t: nat, now: int)
    requires Inv(s) && t in s.threads && KeyFor(s.threads[t]) !in s.db.capabilities
    ensures var after := Next(s, InsertNew(t, now)); Inv(after) && Keeps(s.db.capabilities, after.db.capabilities)
  {
    var a := s.threads[t];
    NewRowOk(s.db.capabilities, a, CapRow(a, now, None, 0));
    KeptInv(s, Next(s, InsertNew(t, now)));
  }

  lemma ValidateKeepsInv(s: State, key: CapKey, outcome: Outcome, now: int)
    requires Inv(s)
    ensures var after := Next(s, Validate(key, outcome, now)); Inv(after) && Keeps(s.db.capabilities, after.db.capabilities)
  {
    ValidationKeepsArtifacts(s.db, key, outcome, now);
    KeptInv(s, Next(s, Validate(key, outcome, now)));
  }

  lemma ValidationKeepsArtifacts(db: Db, key: CapKey, outcome: Outcome, now: int)
    ensures var caps := RecordValidation(db, key, outcome, now).capabilities;
            Keeps(db.capabilities, caps) && forall k :: k in caps ==> k in db.capabilities
  {
  }

  lemma ReadKeepsInv(s: State, t: nat, cap: string, latest: Option<int>, draft: Draft, runId: string)
    requires Inv(s)
    ensures var after := Next(s, ReadLatest(t, cap, latest, draft, runId)); Inv(after) && after.db == s.db
  {
  }

  lemma NextKeepsInv(s: State, a: Action)
    requires Inv(s)
    ensures Inv(Next(s, a)) && Keeps(s.db.capabilities, Next(s, a).db.capabilities)
  {
    match a
    case ReadLatest(t, cap, latest, draft, runId) => ReadKeepsInv(s, t, cap, latest, draft, runId);
    case InsertNew(t, now) => if t in s.threads && KeyFor(s.threads[t]) !in s.db.capabilities { InsertKeepsInv(s, t, now); }
    case Die(t) =>
    case Validate(key, outcome, now) => ValidateKeepsInv(s, key, outcome, now);
  }

  lemma {:induction false} RunKeepsInv(acts: seq<Action>)
    ensures Inv(Run(acts))
  {
    if acts != [] {
      RunKeepsInv(acts[..|acts| - 1]);
      NextKeepsInv(Run(acts[..|acts| - 1]), acts[|acts| - 1]);
    }
  }

  lemma PredecessorPresent(s: State, cap: string, v: int)
    requires Inv(s) && Key(cap, v) in s.db.capabilities && v > 1
    ensures Key(cap, v - 1) in s.db.capabilities
  {
    assert RowOk(s.db.capabilities, Key(cap, v));
  }

  lemma {:induction false} PredecessorsPresent(s: State, cap: string, v: int, u: int)
    requires Inv(s) && Key(cap, v) in s.db.capabilities && 1 <= u <= v
    ensures Key(cap, u) in s.db.capabilities
    decreases v - u
  {
    if u < v {
      PredecessorPresent(s, cap, v);
      PredecessorsPresent(s, cap, v - 1, u);
    }
  }

  // However compiles interleave, the stored versions of a capability are exactly 1 .. n.
  lemma VersionsAreLinear(acts: seq<Action>, cap: string, latest: Option<int>)
    requires IsLatest(Run(acts).db.capabilities, cap, BASE_SCOPE, latest)
    ensures var n := if latest.Some? then latest.value else 0;
            forall v :: Key(cap, v) in Run(acts).db.capabilities <==> 1 <= v <= n
  {
    var s := Run(acts);
    RunKeepsInv(acts);
    var n := if latest.Some? then latest.value else 0;
    forall v ensures Key(cap, v) in s.db.capabilities <==> 1 <= v <= n {
      if Key(cap, v) in s.db.capabilities {
        assert RowOk(s.db.capabilities, Key(cap, v));
      } else if 1 <= v <= n {
        PredecessorsPresent(s, cap, n, v);
      }
    }
  }

  // A stored artifact is never removed or replaced, by any continuation.
  lemma {:induction false} NeverOverwritten(acts: seq<Action>, more: seq<Action>)
    ensures Keeps(Run(acts).db.capabilities, Run(acts + more).db.capabilities)
  {
    if more == [] {
      assert acts + more == acts;
    } else {
      var before := acts + more[..|more| - 1];
      NeverOverwritten(acts, more[..|more| - 1]);
      RunKeepsInv(before);
      NextKeepsInv(Run(before), more[|more| - 1]);
      assert (acts + more)[..|acts + more| - 1] == before;
      KeepsTransitive(Run(acts).db.capabilities, Run(before).db.capabilities, Run(acts + more).db.capabilities);
    }
  }

  lemma KeepsTransitive(a: map<CapKey, CapRow>, b: map<CapKey, CapRow>, c: map<CapKey, CapRow>)
    requires Keeps(a, b) && Keeps(b, c)
    ensures Keeps(a, c)
  {
  }

  // The stored versions of a capability as a history.
  ghost function History(caps: map<CapKey, CapRow>, cap: string, n: nat): (h: seq<Version>)
    requires forall v :: 1 <= v <= n ==> Key(cap, v) in caps
    ensures |h| == n
  {
    seq(n, i requires 0 <= i < n && Key(cap, i + 1) in caps =>
      Version(ShapeOf(caps[Key(cap, i + 1)].artifact.draft), caps[Key(cap, i + 1)].artifact.compatibility))
  }

  // In every reachable registry each label after the first compares a version with its stored
  // predecessor, so the labels compose over the whole history of the capability.
  lemma StoredHistoryComposes(acts: seq<Action>, cap: string, n: nat, i: nat, j: nat)
    requires IsLatest(Run(acts).db.capabilities, cap, BASE_SCOPE, Some(n))
    requires i <= j < n
    ensures forall v :: 1 <= v <= n ==> Key(cap, v) in Run(acts).db.capabilities
    ensures var h := History(Run(acts).db.capabilities, cap, n);
            && Labelled(h) && h[0].compat == BACKWARD
            && (NoBreaking(h, i, j) ==>
                  && Preserves(h[i].shape, h[j].shape)
                  && Classify(h[i].shape, h[j].shape) == (if SomeForward(h, i, j) then FORWARD else BACKWARD)
                  && Classify(h[j].shape, h[i].shape) == (if SomeForward(h, i, j) then BREAKING else BACKWARD))
  {
    VersionsAreLinear(acts, cap, Some(n));
    RunKeepsInv(acts);
    var caps := Run(acts).db.capabilities;
    var h := History(caps, cap, n);
    assert RowOk(caps, Key(cap, 1));
    forall k | 0 < k < n ensures h[k].compat == Classify(h[k - 1].shape, h[k].shape) {
      assert RowOk(caps, Key(cap, k + 1));
    }
    if NoBreaking(h, i, j) { CompatibilityComposes(h, i, j); }
  }

  // However compiles interleave: a stored version is labelled BREAKING exactly when something its predecessor
  // declares is missing from it, BACKWARD exactly when the two declare the same, and the first is BACKWARD.
  lemma StoredLabelExactly(acts: seq<Action>, cap: string, v: int)
    requires Key(cap, v) in Run(acts).db.capabilities
    ensures var caps := Run(acts).db.capabilities;
            var verdict := caps[Key(cap, v)].artifact.compatibility;
            && (v == 1 ==> verdict == BACKWARD)
            && (v > 1 ==>
                  && Key(cap, v - 1) in caps
                  && (verdict == BREAKING <==> !Covers(caps[Key(cap, v - 1)].artifact.draft, caps[Key(cap, v)].artifact.draft))
                  && (verdict == BACKWARD <==>
                        && Covers(caps[Key(cap, v - 1)].artifact.draft, caps[Key(cap, v)].artifact.draft)
                        && Covers(caps[Key(cap, v)].artifact.draft, caps[Key(cap, v - 1)].artifact.draft)))
  {
    RunKeepsInv(acts);
    var caps := Run(acts).db.capabilities;
    assert RowOk(caps, Key(cap, v));
    if v > 1 { LabelExactly(caps[Key(cap, v - 1)].artifact.draft, caps[Key(cap, v)].artifact.draft); }
  }
}
