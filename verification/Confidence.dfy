// How far the stored confidence counters can drift from the truth when the projector crashes: a
// validation write that is repeated after a crash counts the same failure again.
module ConfidenceTracking {
  import opened Prelude
  import opened Schemas
  import opened RegistryStore
  import opened Projector

  datatype Effect = Nothing | Succeeded | Failed

  function EffectOn(e: Event, key: CapKey): (x: Effect) {
    if ValidationKey(e) != Some(key) then Nothing
    else if ValidationOutcome(e.eventType) == Some(BUSINESS_OUTCOME) then Succeeded else Failed
  }

  // By the names of the event types: a replay of this version that succeeded, or that failed hard.
  lemma EffectByName(e: Event, key: CapKey)
    ensures var mine := e.payload.runId.Some? && e.payload.runId != Some("") && e.payload.capabilityId == Some(key.capabilityId)
                        && key.capabilityId != "" && e.payload.version == Some(key.version) && key.version != 0 && key.tenantScope == "*";
            && (EffectOn(e, key) == Succeeded <==> mine && e.eventType == "ReplaySucceeded")
            && (EffectOn(e, key) == Failed <==> mine && e.eventType == "ReplayHardFailure")
  {
    if Carrying(e) { KeyTold(e); }
  }

  // The true trailing failure count of a version: failures since the last success, or since its row
  // appeared (position base) if that is later.
  function Trail(events: seq<Event>, key: CapKey, base: nat): (n: nat) {
    if |events| <= base then 0
    else
      var before := events[..|events| - 1];
      match EffectOn(events[|events| - 1], key)
      case Succeeded => 0
      case Failed => 1 + Trail(before, key, base)
      case Nothing => Trail(before, key, base)
  }

  // Just past the last success, 0 if there is none.
  function LastSuccess(events: seq<Event>, key: CapKey): (n: nat)
    ensures n <= |events|
  {
    if events == [] then 0
    else if EffectOn(events[|events| - 1], key) == Succeeded then |events|
    else LastSuccess(events[..|events| - 1], key)
  }

  function CountFrom(marks: seq<nat>, from: nat): (n: nat) {
    if marks == [] then 0
    else CountFrom(marks[..|marks| - 1], from) + if marks[|marks| - 1] >= from then 1 else 0
  }

  // Replay events validated so far.
  function Done(s: State): (events: seq<Event>)
    requires Position(s) <= |s.log.replay|
  {
    s.log.replay[..Position(s)]
  }

  function CrashesSinceSuccess(s: State, key: CapKey): (n: nat)
    requires Position(s) <= |s.log.replay|
  {
    CountFrom(s.crashes, LastSuccess(Done(s), key))
  }

  // The last validated event has not been committed and its validation will be repeated.
  predicate Repeating(s: State) {
    s.reached.replay == WRITES && !(s.work.Working? && s.work.topic == ReplayTopic && s.work.stage == WRITES)
  }

  function Owed(s: State, key: CapKey): (n: nat)
    requires Position(s) <= |s.log.replay|
  {
    if Repeating(s) && Position(s) > 0 && EffectOn(s.log.replay[Position(s) - 1], key) == Failed then 1 else 0
  }

  ghost predicate RowTracks(s: State, key: CapKey)
    requires Position(s) <= |s.log.replay|
    requires key in s.db.capabilities
  {
    && key in s.inserted && s.inserted[key] <= Position(s)
    && var row, base := s.db.capabilities[key], s.inserted[key];
       && Trail(Done(s), key, base) <= row.hardFailures
       && row.hardFailures + Owed(s, key) <= Trail(Done(s), key, base) + CrashesSinceSuccess(s, key)
       && (row.lastValidatedAtMs.Some? ==> LastSuccess(Done(s), key) > 0 && LastSuccess(Done(s), key) >= base)
       && (row.lastValidatedAtMs.Some? ==> LastSuccess(Done(s), key) > base || s.crashes != [])
       && (LastSuccess(Done(s), key) > base ==> row.lastValidatedAtMs.Some?)
  }

  ghost predicate Tracks(s: State) {
    && Position(s) <= |s.log.replay|
    && (forall key :: key in s.db.capabilities ==> RowTracks(s, key))
    && (Repeating(s) ==> Position(s) in s.crashes)
  }

  // ----- bookkeeping -----

  lemma {:induction false} CountHasMark(marks: seq<nat>, from: nat, m: nat)
    requires m in marks && m >= from
    ensures CountFrom(marks, from) >= 1
  {
    var n := |marks| - 1;
    if m != marks[n] {
      assert m in marks[..n];
      CountHasMark(marks[..n], from, m);
    }
  }

  lemma {:induction false} OwedIsCovered(s: State, key: CapKey)
    requires Position(s) <= |s.log.replay| && (Repeating(s) ==> Position(s) in s.crashes)
    ensures Owed(s, key) <= CrashesSinceSuccess(s, key)
  {
    if Owed(s, key) == 1 {
      CountHasMark(s.crashes, LastSuccess(Done(s), key), Position(s));
    }
  }

  lemma TrailAtBase(events: seq<Event>, key: CapKey, base: nat)
    requires |events| <= base
    ensures Trail(events, key, base) == 0
  {
  }

  lemma TrailOneMore(events: seq<Event>, e: Event, key: CapKey, base: nat)
    requires base <= |events|
    ensures Trail(events + [e], key, base) ==
            match EffectOn(e, key) { case Succeeded => 0 case Failed => 1 + Trail(events, key, base) case Nothing => Trail(events, key, base) }
    ensures LastSuccess(events + [e], key) == if EffectOn(e, key) == Succeeded then |events| + 1 else LastSuccess(events, key)
  {
  }

  // Only replay events carry validations.
  lemma OnlyReplayValidates(t: Topic, e: Event)
    requires e.eventType in EmittedOn(t) && t != ReplayTopic
    ensures ValidationKey(e) == None
  {
  }

  lemma PositionInRange(s: State)
    requires WorkOk(s)
    ensures Position(s) <= |s.log.replay|
  {
    assert s.next.At(ReplayTopic) <= |s.log.At(ReplayTopic)|;
    assert s.reached.At(ReplayTopic) > 0 ==> s.next.At(ReplayTopic) < |s.log.At(ReplayTopic)|;
  }

  // Nothing the tracking looks at has changed.
  lemma SameTracks(s: State, after: State)
    requires Tracks(s) && after.db.capabilities == s.db.capabilities && after.inserted == s.inserted && after.crashes == s.crashes
    requires Position(after) == Position(s) <= |after.log.replay| && Done(after) == Done(s)
    requires Repeating(after) ==> Repeating(s)
    ensures Tracks(after)
  {
  }

  // ----- the validation write -----

  // The write for an event that has never been validated before.
  lemma FirstValidation(s: State, now: int)
    requires WorkOk(s) && Tracks(s) && s.work.Working? && s.work.topic == ReplayTopic && s.work.stage == 3
    requires s.reached.replay < WRITES
    ensures Tracks(WriteStep(s, now))
  {
    InHand(s);
    var e, after := s.work.batch[s.work.at], WriteStep(s, now);
    PositionInRange(after);
    assert Position(after) == Position(s) + 1;
    assert Done(after) == Done(s) + [e];
    forall key | key in after.db.capabilities ensures RowTracks(after, key) {
      assert RowTracks(s, key);
      TrailOneMore(Done(s), e, key, s.inserted[key]);
      assert Owed(after, key) == 0;
      ValidationEffect(s.db, e, key, now);
    }
  }

  lemma ValidationEffect(db: Db, e: Event, key: CapKey, now: int)
    requires key in db.capabilities
    ensures var after := Write(db, ReplayTopic, 0, e, 3, now);
            && key in after.capabilities
            && after.capabilities[key] ==
               match EffectOn(e, key) {
                 case Succeeded => Validated(db.capabilities[key], BUSINESS_OUTCOME, now)
                 case Failed => Validated(db.capabilities[key], HARD_FAILURE, now)
                 case Nothing => db.capabilities[key]
               }
  {
  }

  // The same write again, after a crash before the commit.
  lemma RepeatedValidation(s: State, now: int)
    requires WorkOk(s) && Tracks(s) && s.work.Working? && s.work.topic == ReplayTopic && s.work.stage == 3
    requires s.reached.replay == WRITES
    ensures Tracks(WriteStep(s, now))
  {
    InHand(s);
    var e, after := s.work.batch[s.work.at], WriteStep(s, now);
    var v := Position(s);
    assert Position(after) == v && Done(after) == Done(s) && s.log.replay[v - 1] == e;
    assert Done(s) == s.log.replay[..v - 1] + [e];
    assert Repeating(s) && !Repeating(after) && s.crashes != [];
    forall key | key in after.db.capabilities ensures RowTracks(after, key) {
      RepeatedRow(s, after, key, e, now);
    }
  }

  lemma RepeatedRow(s: State, after: State, key: CapKey, e: Event, now: int)
    requires 0 < Position(s) <= |s.log.replay| && s.log.replay[Position(s) - 1] == e && key in s.db.capabilities && RowTracks(s, key)
    requires after.log == s.log && Position(after) == Position(s) && after.inserted == s.inserted && after.crashes == s.crashes
    requires after.db == Write(s.db, ReplayTopic, 0, e, 3, now) && Repeating(s) && !Repeating(after) && s.crashes != []
    ensures key in after.db.capabilities && RowTracks(after, key)
  {
    ValidationEffect(s.db, e, key, now);
    LastEventTrail(s, key, e);
    assert Done(after) == Done(s);
  }

  // What the last validated event says about the counts that end with it.
  lemma LastEventTrail(s: State, key: CapKey, e: Event)
    requires 0 < Position(s) <= |s.log.replay| && s.log.replay[Position(s) - 1] == e
    requires key in s.inserted && s.inserted[key] <= Position(s)
    ensures EffectOn(e, key) == Succeeded ==> LastSuccess(Done(s), key) == Position(s) && Trail(Done(s), key, s.inserted[key]) == 0
  {
    var before := s.log.replay[..Position(s) - 1];
    assert Done(s) == before + [e];
    if s.inserted[key] < Position(s) {
      TrailOneMore(before, e, key, s.inserted[key]);
    } else {
      TrailOneMore(before, e, key, Position(s) - 1);
      TrailAtBase(Done(s), key, s.inserted[key]);
    }
  }

  lemma WriteKeepsTracks(s: State, now: int)
    requires WorkOk(s) && Tracks(s) && s.work.Working? && s.work.stage < WRITES
    ensures Tracks(WriteStep(s, now))
  {
    InHand(s);
    var w, after := s.work, WriteStep(s, now);
    if w.topic == ReplayTopic && w.stage == 3 {
      if s.reached.replay < WRITES { FirstValidation(s, now); } else { RepeatedValidation(s, now); }
    } else {
      if w.topic != ReplayTopic {
        var t := w.topic;
        assert s.log.At(t)[s.next.At(t)].eventType in EmittedOn(t);
        OnlyReplayValidates(t, w.batch[w.at]);
        assert after.reached.At(ReplayTopic) == s.reached.At(ReplayTopic);
      }
      assert after.db.capabilities == s.db.capabilities;
      assert Position(after) == Position(s);
      SameTracks(s, after);
    }
  }

  lemma CommitKeepsTracks(s: State)
    requires WorkOk(s) && Tracks(s) && s.work.Working? && s.work.stage >= WRITES
    ensures Tracks(CommitStep(s))
  {
    InHand(s);
    var after := CommitStep(s);
    assert s.work.topic != ReplayTopic ==>
             after.reached.At(ReplayTopic) == s.reached.At(ReplayTopic) && after.next.At(ReplayTopic) == s.next.At(ReplayTopic);
    assert s.work.topic == ReplayTopic ==> after.next.At(ReplayTopic) == s.next.At(ReplayTopic) + 1 && s.reached.At(ReplayTopic) == WRITES;
    SameTracks(s, after);
  }

  lemma CrashKeepsTracks(s: State)
    requires WorkOk(s) && Tracks(s)
    ensures Tracks(Next(s, Crash))
  {
  }

  lemma SameRowTracks(s: State, after: State, key: CapKey)
    requires Position(s) <= |s.log.replay| && key in s.db.capabilities && RowTracks(s, key)
    requires after.log == s.log && after.next == s.next && after.reached == s.reached && after.work == s.work && after.crashes == s.crashes
    requires key in after.db.capabilities && after.db.capabilities[key] == s.db.capabilities[key]
    requires key in after.inserted && after.inserted[key] == s.inserted[key]
    ensures RowTracks(after, key)
  {
  }

  // Only rows are new, and the new ones track.
  lemma RowsAddedTrack(s: State, after: State, key: CapKey)
    requires Tracks(s) && after.log == s.log && after.next == s.next && after.reached == s.reached && after.work == s.work && after.crashes == s.crashes
    requires forall k :: k in after.db.capabilities && k != key ==> k in s.db.capabilities && after.db.capabilities[k] == s.db.capabilities[k]
    requires forall k :: k in s.inserted && k != key ==> k in after.inserted && after.inserted[k] == s.inserted[k]
    requires key in after.db.capabilities ==> RowTracks(after, key)
    ensures Tracks(after)
  {
    forall k | k in after.db.capabilities ensures RowTracks(after, k) {
      if k != key { SameRowTracks(s, after, k); }
    }
  }

  lemma InsertKeepsTracks(s: State, key: CapKey, artifact: CapabilityArtifact, now: int)
    requires WorkOk(s) && Tracks(s) && key !in s.db.capabilities
    ensures Tracks(Next(s, InsertCapability(key, artifact, now)))
  {
    TrailAtBase(Done(s), key, Position(s));
    OwedIsCovered(s, key);
    RowsAddedTrack(s, Next(s, InsertCapability(key, artifact, now)), key);
  }

  lemma NextKeepsTracks(s: State, a: Action)
    requires WorkOk(s) && Tracks(s)
    ensures Tracks(Next(s, a))
  {
    match a
    case LogAppend(t, e) =>
      if e.eventType in EmittedOn(t) {
        var after := Next(s, a);
        assert after.log.At(ReplayTopic)[..Position(s)] == s.log.At(ReplayTopic)[..Position(s)];
        SameTracks(s, after);
      }
    case Fetch(t) => if s.work.Idle? { SameTracks(s, Next(s, a)); }
    case Proceed(now) =>
      if s.work.Working? {
        if s.work.stage < WRITES { WriteKeepsTracks(s, now); } else { CommitKeepsTracks(s); }
      }
    case Crash => CrashKeepsTracks(s);
    case InsertCapability(key, artifact, now) => if key !in s.db.capabilities { InsertKeepsTracks(s, key, artifact, now); }
  }

  lemma {:induction false} RunKeepsTracks(acts: seq<Action>)
    ensures Tracks(Run(acts))
  {
    if acts != [] {
      var before := acts[..|acts| - 1];
      RunKeepsTracks(before);
      RunKeepsWorkOk(before);
      NextKeepsTracks(Run(before), acts[|acts| - 1]);
    }
  }

  // A success at or after the row's appearance makes it irrelevant where the count starts; so does a
  // version with no unanswered failure before its row appeared, as when it is stored before it is replayed.
  lemma {:induction false} TrailFromStart(events: seq<Event>, key: CapKey, base: nat)
    requires base <= |events|
    requires (LastSuccess(events, key) > 0 && LastSuccess(events, key) >= base) || Trail(events[..base], key, 0) == 0
    ensures Trail(events, key, base) == Trail(events, key, 0)
  {
    if |events| == base {
      assert events[..base] == events;
      if LastSuccess(events, key) == |events| { TrailAtBase(events, key, base); }
    } else {
      var before := events[..|events| - 1];
      assert before[..base] == events[..base];
      if EffectOn(events[|events| - 1], key) != Succeeded { TrailFromStart(before, key, base); }
    }
  }

  // In every crashing run the stored failure count lies between the true trailing count, from the row's
  // appearance on, and that count plus the crashes since the version's last success. A version called
  // FRESH has succeeded, and the replay events projected for it, all of them, end in fewer than two failures.
  lemma ConfidenceIsOneSided(acts: seq<Action>, key: CapKey)
    requires key in Run(acts).db.capabilities
    ensures Position(Run(acts)) <= |Run(acts).log.replay| && key in Run(acts).inserted && Run(acts).inserted[key] <= Position(Run(acts))
    ensures var s := Run(acts);
            var row, base := s.db.capabilities[key], s.inserted[key];
            var truth, whole := Trail(Done(s), key, base), Trail(Done(s), key, 0);
            && truth <= row.hardFailures <= truth + CrashesSinceSuccess(s, key)
            && (row.lastValidatedAtMs.Some? || Trail(Done(s)[..base], key, 0) == 0 ==> whole == truth)
            && (ConfidenceOf(row.lastValidatedAtMs, row.hardFailures) == FRESH ==>
                  LastSuccess(Done(s), key) > 0 && LastSuccess(Done(s), key) >= base && whole < 2)
  {
    RunKeepsTracks(acts);
    var s := Run(acts);
    assert RowTracks(s, key);
    if s.db.capabilities[key].lastValidatedAtMs.Some? || Trail(Done(s)[..s.inserted[key]], key, 0) == 0 {
      TrailFromStart(Done(s), key, s.inserted[key]);
    }
  }

  // Without crashes the counters are exact, and FRESH means just what the documentation says.
  lemma ConfidenceIsExactWithoutCrashes(acts: seq<Action>, key: CapKey)
    requires key in Run(acts).db.capabilities && Run(acts).crashes == []
    ensures Position(Run(acts)) <= |Run(acts).log.replay| && key in Run(acts).inserted
    ensures var s := Run(acts);
            var row, truth := s.db.capabilities[key], Trail(Done(s), key, s.inserted[key]);
            && row.hardFailures == truth
            && (ConfidenceOf(row.lastValidatedAtMs, row.hardFailures) == FRESH <==>
                  LastSuccess(Done(s), key) > s.inserted[key] && truth < 2)
  {
    RunKeepsTracks(acts);
    assert RowTracks(Run(acts), key);
    assert CountFrom(Run(acts).crashes, LastSuccess(Done(Run(acts)), key)) == 0;
  }
}
