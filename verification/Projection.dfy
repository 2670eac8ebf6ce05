// What a crashing projector leaves in run_events and runs, for every schedule of crashes.
module Projection {
  import opened Prelude
  import opened Schemas
  import opened RegistryStore
  import opened Projector

  // The event at this offset has had its k-th write made at least once.
  predicate WriteMade(s: State, t: Topic, offset: nat, k: nat) {
    offset < s.next.At(t) || (offset == s.next.At(t) && s.reached.At(t) >= k)
  }

  // ----- run_events -----

  ghost predicate RowsExact(s: State) {
    && (forall t: Topic, o: nat :: (TopicName(t), o) in s.db.runEvents <==>
          o < |s.log.At(t)| && Carrying(s.log.At(t)[o]) && WriteMade(s, t, o, 2))
    && (forall t: Topic, o: nat :: (TopicName(t), o) in s.db.runEvents ==>
          s.db.runEvents[(TopicName(t), o)] == EventRowOf(s.log.At(t)[o]))
    && (forall k :: k in s.db.runEvents ==> k.1 >= 0 && exists t: Topic :: TopicName(t) == k.0)
  }

  lemma NamesDiffer(t: Topic, u: Topic)
    ensures TopicName(t) == TopicName(u) <==> t == u
  {
  }

  lemma WriteMadeMoves(s: State, now: int, t: Topic, o: nat, k: nat)
    requires WorkOk(s) && s.work.Working? && s.work.stage < WRITES && k > 0
    ensures var here := t == s.work.topic && o == s.next.At(t);
            WriteMade(WriteStep(s, now), t, o, k) <==> WriteMade(s, t, o, k) || (here && s.work.stage + 1 >= k)
  {
  }

  lemma RowsCarryOver(s: State, after: State)
    requires RowsExact(s) && after.log == s.log && after.db.runEvents == s.db.runEvents
    requires forall t: Topic, o: nat :: WriteMade(after, t, o, 2) == WriteMade(s, t, o, 2)
    ensures RowsExact(after)
  {
  }

  lemma OtherWritesKeepRows(s: State, now: int)
    requires WorkOk(s) && s.work.Working? && s.work.stage < WRITES && s.work.stage != 1 && RowsExact(s)
    ensures RowsExact(WriteStep(s, now))
  {
    var after := WriteStep(s, now);
    forall t: Topic, o: nat ensures WriteMade(after, t, o, 2) == WriteMade(s, t, o, 2) {
      WriteMadeMoves(s, now, t, o, 2);
    }
    RowsCarryOver(s, after);
  }

  lemma RowWriteKeepsRows(s: State, now: int)
    requires WorkOk(s) && s.work.Working? && s.work.stage == 1 && RowsExact(s)
    ensures RowsExact(WriteStep(s, now))
  {
    InHand(s);
    var w, after := s.work, WriteStep(s, now);
    var e, here := w.batch[w.at], s.next.At(w.topic);
    assert after.db == if Carrying(e) then AppendRunEvent(s.db, TopicName(w.topic), here, EventRowOf(e)) else s.db;
    forall t: Topic, o: nat
      ensures (TopicName(t), o) in after.db.runEvents <==>
              o < |s.log.At(t)| && Carrying(s.log.At(t)[o]) && WriteMade(after, t, o, 2)
      ensures (TopicName(t), o) in after.db.runEvents ==> after.db.runEvents[(TopicName(t), o)] == EventRowOf(s.log.At(t)[o])
    {
      NamesDiffer(t, w.topic);
      WriteMadeMoves(s, now, t, o, 2);
      assert (TopicName(t), o) in s.db.runEvents <==>
             o < |s.log.At(t)| && Carrying(s.log.At(t)[o]) && WriteMade(s, t, o, 2);
    }
    forall k | k in after.db.runEvents ensures k.1 >= 0 && exists t: Topic :: TopicName(t) == k.0 {
      if k !in s.db.runEvents { assert k.0 == TopicName(w.topic); }
    }
  }

  lemma CommitKeepsRows(s: State)
    requires WorkOk(s) && s.work.Working? && s.work.stage >= WRITES && RowsExact(s)
    ensures RowsExact(CommitStep(s))
  {
  }

  lemma AppendKeepsRows(s: State, t: Topic, e: Event)
    requires WorkOk(s) && RowsExact(s)
    ensures RowsExact(s.(log := s.log.With(t, s.log.At(t) + [e])))
  {
    var after := s.(log := s.log.With(t, s.log.At(t) + [e]));
    forall u: Topic, o: nat
      ensures (TopicName(u), o) in s.db.runEvents <==>
              o < |after.log.At(u)| && Carrying(after.log.At(u)[o]) && WriteMade(after, u, o, 2)
      ensures (TopicName(u), o) in s.db.runEvents ==> s.db.runEvents[(TopicName(u), o)] == EventRowOf(after.log.At(u)[o])
    {
      assert (TopicName(u), o) in s.db.runEvents <==>
             o < |s.log.At(u)| && Carrying(s.log.At(u)[o]) && WriteMade(s, u, o, 2);
      assert WriteMade(after, u, o, 2) == WriteMade(s, u, o, 2);
      assert s.next.At(u) <= |s.log.At(u)| && (s.reached.At(u) > 0 ==> s.next.At(u) < |s.log.At(u)|);
      if o < |s.log.At(u)| { assert after.log.At(u)[o] == s.log.At(u)[o]; }
    }
  }

  lemma WriteKeepsRows(s: State, now: int)
    requires WorkOk(s) && s.work.Working? && s.work.stage < WRITES && RowsExact(s)
    ensures RowsExact(WriteStep(s, now))
  {
    if s.work.stage == 1 { RowWriteKeepsRows(s, now); } else { OtherWritesKeepRows(s, now); }
  }

  lemma NextKeepsRows(s: State, a: Action)
    requires WorkOk(s) && RowsExact(s)
    ensures RowsExact(Next(s, a))
  {
    match a
    case LogAppend(t, e) => if e.eventType in EmittedOn(t) { AppendKeepsRows(s, t, e); }
    case Fetch(t) =>
      var after := Next(s, a);
      assert forall u: Topic, o: nat :: WriteMade(after, u, o, 2) == WriteMade(s, u, o, 2);
    case Proceed(now) =>
      if s.work.Working? {
        if s.work.stage < WRITES { WriteKeepsRows(s, now); } else { CommitKeepsRows(s); }
      }
    case Crash =>
      var after := Next(s, a);
      assert forall u: Topic, o: nat :: WriteMade(after, u, o, 2) == WriteMade(s, u, o, 2);
    case InsertCapability(key, artifact, now) =>
      var after := Next(s, a);
      assert forall u: Topic, o: nat :: WriteMade(after, u, o, 2) == WriteMade(s, u, o, 2);
  }

  lemma {:induction false} RunKeepsRows(acts: seq<Action>)
    ensures RowsExact(Run(acts))
  {
    if acts != [] {
      RunKeepsRows(acts[..|acts| - 1]);
      RunKeepsWorkOk(acts[..|acts| - 1]);
      NextKeepsRows(Run(acts[..|acts| - 1]), acts[|acts| - 1]);
    }
  }

  // For every crash schedule run_events has one row, with the event's own content, for each
  // run-carrying event below the committed offset, none at or above it except possibly the single event
  // whose projection is under way on that topic, and nothing else.
  lemma RunEventsExact(acts: seq<Action>, t: Topic, o: nat)
    ensures var s := Run(acts);
            && (o < s.next.At(t) ==>
                  o < |s.log.At(t)|
                  && ((TopicName(t), o) in s.db.runEvents <==> Carrying(s.log.At(t)[o])))
            && (o > s.next.At(t) ==> (TopicName(t), o) !in s.db.runEvents)
            && ((TopicName(t), o) in s.db.runEvents ==>
                  o < |s.log.At(t)| && Carrying(s.log.At(t)[o])
                  && s.db.runEvents[(TopicName(t), o)] == EventRowOf(s.log.At(t)[o]))
  {
    RunKeepsRows(acts);
    RunKeepsWorkOk(acts);
  }

  // ----- runs -----

  predicate Names(e: Event, r: string) {
    Carrying(e) && e.payload.runId.value == r
  }

  function FirstNaming(order: seq<Begun>, r: string): (i: Option<nat>)
    ensures i.Some? ==> i.value < |order| && Names(order[i.value].event, r)
                        && forall k :: 0 <= k < i.value ==> !Names(order[k].event, r)
    ensures i.None? ==> forall k :: 0 <= k < |order| ==> !Names(order[k].event, r)
  {
    if order == [] then None
    else
      var n := |order| - 1;
      match FirstNaming(order[..n], r)
      case Some(i) => Some(i)
      case None => if Names(order[n].event, r) then Some(n) else None
  }

  ghost predicate BegunOk(s: State, b: Begun) {
    b.offset < |s.log.At(b.topic)| && b.event == s.log.At(b.topic)[b.offset] && Carrying(b.event) && WriteMade(s, b.topic, b.offset, 1)
  }

  ghost predicate ListedOnce(order: seq<Begun>) {
    forall i, j :: 0 <= i < j < |order| ==> order[i].topic != order[j].topic || order[i].offset != order[j].offset
  }

  ghost predicate AllListed(s: State) {
    forall t: Topic, o: nat :: o < |s.log.At(t)| && Carrying(s.log.At(t)[o]) && WriteMade(s, t, o, 1) ==>
      Begun(t, o, s.log.At(t)[o]) in s.order
  }

  // order lists exactly the run-carrying events whose projection has begun, each once.
  ghost predicate OrderExact(s: State) {
    (forall i :: 0 <= i < |s.order| ==> BegunOk(s, s.order[i])) && ListedOnce(s.order) && AllListed(s)
  }

  ghost predicate RunsMatch(s: State) {
    forall r: string ::
      && (r in s.db.runs <==> FirstNaming(s.order, r).Some?)
      && (r in s.db.runs ==>
            var b := s.order[FirstNaming(s.order, r).value];
            s.db.runs[r].(status := "IN_PROGRESS") == RunRowOf(b.topic, b.event))
  }

  lemma FirstWriteMoves(s: State, now: int, t: Topic, o: nat)
    requires WorkOk(s) && s.work.Working? && s.work.stage < WRITES
    ensures WriteMade(WriteStep(s, now), t, o, 1) <==> WriteMade(s, t, o, 1) || (t == s.work.topic && o == s.next.At(t))
  {
  }

  lemma BegunStays(s: State, now: int, b: Begun)
    requires WorkOk(s) && s.work.Working? && s.work.stage < WRITES && BegunOk(s, b)
    ensures BegunOk(WriteStep(s, now), b)
  {
    FirstWriteMoves(s, now, b.topic, b.offset);
  }

  lemma InHandBegins(s: State, now: int)
    requires WorkOk(s) && s.work.Working? && s.work.stage < WRITES && Carrying(s.work.batch[s.work.at])
    ensures BegunOk(WriteStep(s, now), Begun(s.work.topic, s.next.At(s.work.topic), s.work.batch[s.work.at]))
  {
    InHand(s);
    FirstWriteMoves(s, now, s.work.topic, s.next.At(s.work.topic));
  }

  lemma NotYetListed(s: State, i: nat)
    requires OrderExact(s) && s.work.Working? && s.reached.At(s.work.topic) == 0 && i < |s.order|
    ensures s.order[i].topic != s.work.topic || s.order[i].offset != s.next.At(s.work.topic)
  {
    assert BegunOk(s, s.order[i]);
  }

  lemma WriteKeepsListed(s: State, now: int)
    requires WorkOk(s) && s.work.Working? && s.work.stage < WRITES && OrderExact(s)
    ensures AllListed(WriteStep(s, now))
  {
    InHand(s);
    var after := WriteStep(s, now);
    forall t: Topic, o: nat | o < |after.log.At(t)| && Carrying(after.log.At(t)[o]) && WriteMade(after, t, o, 1)
      ensures Begun(t, o, after.log.At(t)[o]) in after.order
    {
      FirstWriteMoves(s, now, t, o);
    }
  }

  lemma WriteKeepsOrder(s: State, now: int)
    requires WorkOk(s) && s.work.Working? && s.work.stage < WRITES && OrderExact(s)
    ensures OrderExact(WriteStep(s, now))
  {
    var after := WriteStep(s, now);
    WriteKeepsListed(s, now);
    forall i | 0 <= i < |s.order| ensures BegunOk(after, s.order[i]) {
      BegunStays(s, now, s.order[i]);
    }
    if after.order != s.order {
      InHandBegins(s, now);
      forall i | 0 <= i < |s.order| ensures s.order[i].topic != s.work.topic || s.order[i].offset != s.next.At(s.work.topic) {
        NotYetListed(s, i);
      }
    }
  }

  lemma CommitKeepsOrder(s: State)
    requires WorkOk(s) && s.work.Working? && s.work.stage >= WRITES && OrderExact(s)
    ensures OrderExact(CommitStep(s))
  {
  }

  lemma AppendKeepsOrder(s: State, t: Topic, e: Event)
    requires WorkOk(s) && OrderExact(s)
    ensures OrderExact(s.(log := s.log.With(t, s.log.At(t) + [e])))
  {
  }

  lemma NextKeepsOrder(s: State, a: Action)
    requires WorkOk(s) && OrderExact(s)
    ensures OrderExact(Next(s, a))
  {
    match a
    case LogAppend(t, e) => if e.eventType in EmittedOn(t) { AppendKeepsOrder(s, t, e); }
    case Fetch(t) => SameHistoryOrder(s, Next(s, a));
    case Proceed(now) =>
      if s.work.Working? {
        if s.work.stage < WRITES { WriteKeepsOrder(s, now); } else { CommitKeepsOrder(s); }
      }
    case Crash => SameHistoryOrder(s, Next(s, a));
    case InsertCapability(key, artifact, now) => SameHistoryOrder(s, Next(s, a));
  }

  lemma SameHistoryOrder(s: State, after: State)
    requires OrderExact(s) && after.log == s.log && after.next == s.next && after.reached == s.reached && after.order == s.order
    ensures OrderExact(after)
  {
  }

  lemma FirstNamingGrows(order: seq<Begun>, b: Begun, r: string)
    ensures FirstNaming(order + [b], r) ==
            if FirstNaming(order, r).Some? then FirstNaming(order, r)
            else if Names(b.event, r) then Some(|order|) else None
  {
  }

  // An event whose projection is being repeated is already listed, so its run has its row.
  lemma RepeatedIsListed(s: State)
    requires WorkOk(s) && s.work.Working? && OrderExact(s) && RunsMatch(s)
    requires Carrying(s.work.batch[s.work.at]) && s.reached.At(s.work.topic) > 0
    ensures s.work.batch[s.work.at].payload.runId.value in s.db.runs
  {
  }

  lemma UpsertKeepsRuns(s: State, now: int)
    requires WorkOk(s) && s.work.Working? && s.work.stage == 0 && OrderExact(s) && RunsMatch(s)
    ensures RunsMatch(WriteStep(s, now))
  {
    var w, after := s.work, WriteStep(s, now);
    var e := w.batch[w.at];
    var b := Begun(w.topic, w.base + w.at, e);
    if Carrying(e) && s.reached.At(w.topic) > 0 {
      RepeatedIsListed(s);
      assert after.db == s.db;
    } else if Carrying(e) {
      var run := e.payload.runId.value;
      forall r: string
        ensures r in after.db.runs <==> FirstNaming(after.order, r).Some?
        ensures r in after.db.runs ==>
                  var f := after.order[FirstNaming(after.order, r).value];
                  after.db.runs[r].(status := "IN_PROGRESS") == RunRowOf(f.topic, f.event)
      {
        FirstNamingGrows(s.order, b, r);
        assert r in s.db.runs <==> FirstNaming(s.order, r).Some?;
        assert Names(e, r) <==> r == run;
      }
    }
  }

  lemma StatusWriteKeepsRuns(s: State, now: int)
    requires WorkOk(s) && s.work.Working? && s.work.stage == 2 && RunsMatch(s)
    ensures RunsMatch(WriteStep(s, now))
  {
  }

  lemma WriteKeepsRuns(s: State, now: int)
    requires WorkOk(s) && s.work.Working? && s.work.stage < WRITES && OrderExact(s) && RunsMatch(s)
    ensures RunsMatch(WriteStep(s, now))
  {
    if s.work.stage == 0 { UpsertKeepsRuns(s, now); }
    else if s.work.stage == 2 { StatusWriteKeepsRuns(s, now); }
    else { assert WriteStep(s, now).db.runs == s.db.runs; }
  }

  lemma NextKeepsRuns(s: State, a: Action)
    requires WorkOk(s) && OrderExact(s) && RunsMatch(s)
    ensures RunsMatch(Next(s, a))
  {
    if a.Proceed? && s.work.Working? && s.work.stage < WRITES { WriteKeepsRuns(s, a.now); }
  }

  lemma {:induction false} RunKeepsRuns(acts: seq<Action>)
    ensures OrderExact(Run(acts)) && RunsMatch(Run(acts))
  {
    if acts != [] {
      var before := acts[..|acts| - 1];
      RunKeepsRuns(before);
      RunKeepsWorkOk(before);
      NextKeepsOrder(Run(before), acts[|acts| - 1]);
      NextKeepsRuns(Run(before), acts[|acts| - 1]);
    }
  }

  // For every crash schedule a run has a row exactly when some event naming it has begun to be
  // projected, and the row (status apart) is that of the first such event, however often events are
  // projected again.
  lemma RunsComeFromFirstEvent(acts: seq<Action>, r: string)
    ensures var s := Run(acts);
            && OrderExact(s)
            && (r in s.db.runs <==> exists i :: 0 <= i < |s.order| && Names(s.order[i].event, r))
            && (r in s.db.runs ==>
                  exists i :: 0 <= i < |s.order| && Names(s.order[i].event, r)
                              && (forall k :: 0 <= k < i ==> !Names(s.order[k].event, r))
                              && s.db.runs[r].(status := "IN_PROGRESS") == RunRowOf(s.order[i].topic, s.order[i].event))
  {
    RunKeepsRuns(acts);
    var s := Run(acts);
    if r in s.db.runs {
      var i := FirstNaming(s.order, r).value;
      assert Names(s.order[i].event, r);
    }
  }

  // ----- status -----

  predicate Ends(e: Event, r: string) {
    Names(e, r) && TerminalStatus(e.eventType).Some?
  }

  // The status the last terminal event for r sets.
  function StatusAfter(events: seq<Event>, r: string): (status: string) {
    if events == [] then "IN_PROGRESS"
    else
      var e := events[|events| - 1];
      if Ends(e, r) then TerminalStatus(e.eventType).value else StatusAfter(events[..|events| - 1], r)
  }

  function StatusPosition(s: State, t: Topic): (n: nat) {
    s.next.At(t) + if s.reached.At(t) >= 3 then 1 else 0
  }

  lemma InBounds(s: State, t: Topic)
    requires WorkOk(s)
    ensures s.next.At(t) <= StatusPosition(s, t) <= s.next.At(t) + 1 && StatusPosition(s, t) <= |s.log.At(t)|
  {
    assert s.next.At(t) <= |s.log.At(t)| && (s.reached.At(t) > 0 ==> s.next.At(t) < |s.log.At(t)|);
  }

  // The status that the events of topic t whose status write has been made would give r.
  function StatusOn(s: State, t: Topic, r: string): (status: string)
    requires StatusPosition(s, t) <= |s.log.At(t)|
  {
    StatusAfter(s.log.At(t)[..StatusPosition(s, t)], r)
  }

  ghost predicate Bounded(s: State) {
    forall t: Topic :: StatusPosition(s, t) <= |s.log.At(t)|
  }

  lemma WorkIsBounded(s: State)
    requires WorkOk(s)
    ensures Bounded(s)
  {
    forall t: Topic ensures StatusPosition(s, t) <= |s.log.At(t)| { InBounds(s, t); }
  }

  // The status comes from topic t, and a run still in progress has no terminal event on any.
  ghost predicate StatusFrom(s: State, status: string, t: Topic, r: string)
    requires Bounded(s)
  {
    && status == StatusOn(s, t, r)
    && (status == "IN_PROGRESS" ==> forall u: Topic :: StatusOn(s, u, r) == "IN_PROGRESS")
  }

  ghost predicate StatusOk(s: State, status: string, r: string)
    requires Bounded(s)
  {
    exists t: Topic :: StatusFrom(s, status, t, r)
  }

  ghost predicate StatusMatches(s: State)
    requires Bounded(s)
  {
    forall r: string :: r in s.db.runs ==> StatusOk(s, s.db.runs[r].status, r)
  }

  lemma {:induction false} NoEndsNoStatus(events: seq<Event>, r: string)
    requires forall i :: 0 <= i < |events| ==> !Ends(events[i], r)
    ensures StatusAfter(events, r) == "IN_PROGRESS"
  {
    if events != [] { NoEndsNoStatus(events[..|events| - 1], r); }
  }

  lemma UnseenRunHasNoStatus(s: State, t: Topic, r: string)
    requires WorkOk(s) && OrderExact(s) && RunsMatch(s) && r !in s.db.runs
    ensures StatusPosition(s, t) <= |s.log.At(t)| && StatusOn(s, t, r) == "IN_PROGRESS"
  {
    InBounds(s, t);
    var events := s.log.At(t)[..StatusPosition(s, t)];
    forall i | 0 <= i < |events| ensures !Ends(events[i], r) {
      assert WriteMade(s, t, i, 1);
    }
    NoEndsNoStatus(events, r);
  }

  // Nothing that the status of r depends on has moved.
  ghost predicate SameStatuses(s: State, after: State, r: string)
    requires Bounded(s) && Bounded(after)
  {
    forall t: Topic :: StatusOn(after, t, r) == StatusOn(s, t, r)
  }

  lemma StatusStays(s: State, after: State, status: string, r: string)
    requires Bounded(s) && Bounded(after) && SameStatuses(s, after, r) && StatusOk(s, status, r)
    ensures StatusOk(after, status, r)
  {
    var t: Topic :| StatusFrom(s, status, t, r);
    assert StatusFrom(after, status, t, r);
  }

  lemma SamePositions(s: State, after: State, r: string)
    requires Bounded(s) && Bounded(after) && after.log == s.log && forall t: Topic :: StatusPosition(after, t) == StatusPosition(s, t)
    ensures SameStatuses(s, after, r)
  {
  }

  lemma OtherStagesStay(s: State, now: int, t: Topic)
    requires WorkOk(s) && s.work.Working? && s.work.stage < WRITES && s.work.stage != 2
    ensures StatusPosition(WriteStep(s, now), t) == StatusPosition(s, t)
  {
  }

  lemma UpsertEffect(s: State, now: int, r: string)
    requires WorkOk(s) && s.work.Working? && s.work.stage == 0
    ensures var after := WriteStep(s, now);
            && (r in s.db.runs ==> r in after.db.runs && after.db.runs[r].status == s.db.runs[r].status)
            && (r in after.db.runs && r !in s.db.runs ==> after.db.runs[r].status == "IN_PROGRESS")
  {
  }

  lemma UnseenIsInProgress(s: State, r: string)
    requires WorkOk(s) && OrderExact(s) && RunsMatch(s) && r !in s.db.runs && Bounded(s)
    ensures StatusOk(s, "IN_PROGRESS", r)
  {
    forall t: Topic ensures StatusOn(s, t, r) == "IN_PROGRESS" { UnseenRunHasNoStatus(s, t, r); }
    assert StatusFrom(s, "IN_PROGRESS", DiscoveryTopic, r);
  }

  lemma UpsertKeepsStatus(s: State, now: int)
    requires WorkOk(s) && s.work.Working? && s.work.stage == 0 && OrderExact(s) && RunsMatch(s) && Bounded(s) && StatusMatches(s)
    requires Bounded(WriteStep(s, now))
    ensures StatusMatches(WriteStep(s, now))
  {
    var after := WriteStep(s, now);
    forall t: Topic ensures StatusPosition(after, t) == StatusPosition(s, t) { OtherStagesStay(s, now, t); }
    forall r: string | r in after.db.runs ensures StatusOk(after, after.db.runs[r].status, r) {
      UpsertEffect(s, now, r);
      SamePositions(s, after, r);
      if r !in s.db.runs { UnseenIsInProgress(s, r); }
      StatusStays(s, after, after.db.runs[r].status, r);
    }
  }

  lemma StatusWriteEffect(s: State, now: int, r: string)
    requires WorkOk(s) && s.work.Working? && s.work.stage == 2
    ensures var e, after := s.work.batch[s.work.at], WriteStep(s, now);
            && (r in after.db.runs <==> r in s.db.runs)
            && (r in s.db.runs ==>
                  after.db.runs[r].status == if Ends(e, r) then TerminalStatus(e.eventType).value else s.db.runs[r].status)
  {
  }

  lemma StatusOneMore(events: seq<Event>, n: nat, r: string)
    requires n < |events|
    ensures StatusAfter(events[..n + 1], r) ==
            if Ends(events[n], r) then TerminalStatus(events[n].eventType).value else StatusAfter(events[..n], r)
  {
    assert events[..n + 1][..n] == events[..n];
  }

  // The write takes the topic in hand past the event at its offset, if it was not past it; the others stay.
  lemma StatusWritePosition(s: State, now: int, t: Topic)
    requires WorkOk(s) && s.work.Working? && s.work.stage == 2
    ensures var here, after := s.next.At(t), StatusPosition(WriteStep(s, now), t);
            if t == s.work.topic then after == here + 1 && here <= StatusPosition(s, t) <= here + 1 else after == StatusPosition(s, t)
  {
  }

  // The event at n has its status written, whether or not for the first time.
  lemma StatusOnePast(s: State, after: State, t: Topic, n: nat, r: string)
    requires after.log == s.log && n < |s.log.At(t)| && StatusPosition(after, t) == n + 1 && n <= StatusPosition(s, t) <= n + 1
    ensures var e := s.log.At(t)[n];
            StatusOn(after, t, r) == if Ends(e, r) then TerminalStatus(e.eventType).value else StatusOn(s, t, r)
  {
    StatusOneMore(s.log.At(t), n, r);
  }

  lemma StatusWriteMoves(s: State, now: int, t: Topic, r: string)
    requires WorkOk(s) && s.work.Working? && s.work.stage == 2 && Bounded(s) && Bounded(WriteStep(s, now))
    ensures var e, after := s.work.batch[s.work.at], WriteStep(s, now);
            StatusOn(after, t, r) == if t == s.work.topic && Ends(e, r) then TerminalStatus(e.eventType).value else StatusOn(s, t, r)
  {
    StatusWritePosition(s, now, t);
    if t == s.work.topic {
      InHand(s);
      StatusOnePast(s, WriteStep(s, now), t, s.next.At(t), r);
    }
  }

  // One topic, and perhaps no other, moves to the status an end leaves, and the run with it.
  lemma StatusFollows(s: State, after: State, topic: Topic, end: Option<string>, was: string, status: string, r: string)
    requires Bounded(s) && Bounded(after) && StatusOk(s, was, r)
    requires forall t: Topic :: StatusOn(after, t, r) == if t == topic && end.Some? then end.value else StatusOn(s, t, r)
    requires status == (if end.Some? then end.value else was) && end != Some("IN_PROGRESS")
    ensures StatusOk(after, status, r)
  {
    if end.Some? {
      assert StatusFrom(after, status, topic, r);
    } else {
      StatusStays(s, after, status, r);
    }
  }

  lemma StatusWriteKeepsStatus(s: State, now: int)
    requires WorkOk(s) && s.work.Working? && s.work.stage == 2 && Bounded(s) && StatusMatches(s) && Bounded(WriteStep(s, now))
    ensures StatusMatches(WriteStep(s, now))
  {
    var after, e := WriteStep(s, now), s.work.batch[s.work.at];
    forall r: string | r in after.db.runs ensures StatusOk(after, after.db.runs[r].status, r) {
      StatusWriteEffect(s, now, r);
      forall t: Topic ensures StatusOn(after, t, r) == if t == s.work.topic && Ends(e, r) then TerminalStatus(e.eventType).value else StatusOn(s, t, r) {
        StatusWriteMoves(s, now, t, r);
      }
      StatusFollows(s, after, s.work.topic, if Ends(e, r) then TerminalStatus(e.eventType) else None, s.db.runs[r].status, after.db.runs[r].status, r);
    }
  }

  // A step that writes no status and passes no status write.
  lemma UnmovedKeepsStatus(s: State, after: State)
    requires Bounded(s) && Bounded(after) && StatusMatches(s) && after.log == s.log && after.db.runs == s.db.runs
    requires forall t: Topic :: StatusPosition(after, t) == StatusPosition(s, t)
    ensures StatusMatches(after)
  {
    forall r: string | r in after.db.runs ensures StatusOk(after, after.db.runs[r].status, r) {
      SamePositions(s, after, r);
      StatusStays(s, after, s.db.runs[r].status, r);
    }
  }

  lemma OtherWritesKeepStatus(s: State, now: int)
    requires WorkOk(s) && s.work.Working? && (s.work.stage == 1 || s.work.stage == 3) && Bounded(s) && StatusMatches(s) && Bounded(WriteStep(s, now))
    ensures StatusMatches(WriteStep(s, now))
  {
    var after := WriteStep(s, now);
    forall t: Topic ensures StatusPosition(after, t) == StatusPosition(s, t) { OtherStagesStay(s, now, t); }
    UnmovedKeepsStatus(s, after);
  }

  lemma CommitKeepsStatus(s: State)
    requires WorkOk(s) && s.work.Working? && s.work.stage >= WRITES && Bounded(s) && StatusMatches(s) && Bounded(CommitStep(s))
    ensures StatusMatches(CommitStep(s))
  {
    var after := CommitStep(s);
    forall t: Topic ensures StatusPosition(after, t) == StatusPosition(s, t) { }
    UnmovedKeepsStatus(s, after);
  }

  lemma AppendKeepsStatus(s: State, t: Topic, e: Event)
    requires Bounded(s) && StatusMatches(s)
    ensures var after := s.(log := s.log.With(t, s.log.At(t) + [e])); Bounded(after) && StatusMatches(after)
  {
    var after := s.(log := s.log.With(t, s.log.At(t) + [e]));
    assert Bounded(after);
    forall r: string | r in s.db.runs ensures StatusOk(after, after.db.runs[r].status, r) {
      forall u: Topic ensures StatusOn(after, u, r) == StatusOn(s, u, r) {
        assert after.log.At(u)[..StatusPosition(s, u)] == s.log.At(u)[..StatusPosition(s, u)];
      }
      StatusStays(s, after, s.db.runs[r].status, r);
    }
  }

  lemma ProceedKeepsStatus(s: State, now: int)
    requires WorkOk(s) && OrderExact(s) && RunsMatch(s) && Bounded(s) && StatusMatches(s) && Bounded(Next(s, Proceed(now)))
    ensures StatusMatches(Next(s, Proceed(now)))
  {
    if s.work.Working? {
      if s.work.stage == 0 { UpsertKeepsStatus(s, now); }
      else if s.work.stage == 2 { StatusWriteKeepsStatus(s, now); }
      else if s.work.stage < WRITES { OtherWritesKeepStatus(s, now); }
      else { CommitKeepsStatus(s); }
    }
  }

  // A fetch, a crash and a new capability touch neither the log nor a run.
  lemma OthersKeepStatus(s: State, a: Action)
    requires Bounded(s) && StatusMatches(s) && (a.Fetch? || a.Crash? || a.InsertCapability?) && Bounded(Next(s, a))
    ensures StatusMatches(Next(s, a))
  {
    UnmovedKeepsStatus(s, Next(s, a));
  }

  lemma NextKeepsStatus(s: State, a: Action)
    requires WorkOk(s) && OrderExact(s) && RunsMatch(s) && Bounded(s) && StatusMatches(s) && Bounded(Next(s, a))
    ensures StatusMatches(Next(s, a))
  {
    match a
    case LogAppend(t, e) => if e.eventType in EmittedOn(t) { AppendKeepsStatus(s, t, e); }
    case Proceed(now) => ProceedKeepsStatus(s, now);
    case _ => OthersKeepStatus(s, a);
  }

  lemma {:induction false} RunKeepsStatus(acts: seq<Action>)
    ensures Bounded(Run(acts)) && StatusMatches(Run(acts))
  {
    RunKeepsWorkOk(acts);
    WorkIsBounded(Run(acts));
    if acts != [] {
      var before := acts[..|acts| - 1];
      RunKeepsStatus(before);
      RunKeepsRuns(before);
      RunKeepsWorkOk(before);
      NextKeepsStatus(Run(before), acts[|acts| - 1]);
    }
  }

  ghost predicate OnlyEndsOn(s: State, t: Topic, r: string) {
    forall u: Topic, i :: u != t && 0 <= i < |s.log.At(u)| ==> !Ends(s.log.At(u)[i], r)
  }

  lemma OtherTopicsSaySo(s: State, t: Topic, u: Topic, r: string)
    requires Bounded(s) && OnlyEndsOn(s, t, r) && u != t
    ensures StatusOn(s, u, r) == "IN_PROGRESS"
  {
    NoEndsNoStatus(s.log.At(u)[..StatusPosition(s, u)], r);
  }

  // For every crash schedule a run's status is that of the last terminal event for it among those projected
  // so far on some topic, and IN_PROGRESS only while there is none on any. Where one topic carries all its
  // terminal events, as for run ids that one service made up, it is that topic.
  lemma StatusIsLastTerminal(acts: seq<Action>, r: string)
    requires r in Run(acts).db.runs
    ensures var s := Run(acts);
            Bounded(s) && forall t: Topic :: s.next.At(t) <= StatusPosition(s, t) <= s.next.At(t) + 1
    ensures var s := Run(acts);
            var status := s.db.runs[r].status;
            && (exists t: Topic :: status == StatusOn(s, t, r))
            && (status == "IN_PROGRESS" ==> forall t: Topic :: StatusOn(s, t, r) == "IN_PROGRESS")
            && (forall t: Topic :: OnlyEndsOn(s, t, r) ==> status == StatusOn(s, t, r))
  {
    var s := Run(acts);
    RunKeepsStatus(acts);
    var t: Topic :| StatusFrom(s, s.db.runs[r].status, t, r);
    forall u: Topic | OnlyEndsOn(s, u, r) ensures s.db.runs[r].status == StatusOn(s, u, r) {
      if t != u { OtherTopicsSaySo(s, u, t, r); }
    }
  }

  // ----- the same, by the names of the event types -----

  // No other topic carries an event that ends r.
  ghost predicate OnlyOn(s: State, t: Topic, r: string) {
    forall u: Topic, i :: u != t && 0 <= i < |s.log.At(u)| ==> !IsEnd(s.log.At(u)[i], r)
  }

  lemma EndsByName(e: Event, r: string)
    ensures IsEnd(e, r) ==> Ends(e, r) && LeavesStatus(e.eventType, TerminalStatus(e.eventType).value)
    ensures Ends(e, r) ==> IsEnd(e, r)
  {
  }

  lemma {:induction false} LastEndDecides(events: seq<Event>, r: string, k: nat)
    requires k < |events| && IsEnd(events[k], r) && forall j :: k < j < |events| ==> !IsEnd(events[j], r)
    ensures LeavesStatus(events[k].eventType, StatusAfter(events, r))
  {
    var n := |events| - 1;
    EndsByName(events[n], r);
    if k < n { LastEndDecides(events[..n], r, k); }
  }

  // For every crash schedule, where one topic carries all the events that end a run: with the k-th event of the
  // topic the last of them whose status has been written, the run is SUCCEEDED after RunSucceeded and after
  // ReplaySucceeded, FAILED after RunFailed, and HARD_FAILURE after ReplayHardFailure.
  lemma StatusByLastEnd(acts: seq<Action>, r: string, t: Topic, k: nat)
    requires r in Run(acts).db.runs && OnlyOn(Run(acts), t, r) && k < StatusPosition(Run(acts), t) && k < |Run(acts).log.At(t)|
    requires IsEnd(Run(acts).log.At(t)[k], r)
    requires forall j :: k < j < StatusPosition(Run(acts), t) && j < |Run(acts).log.At(t)| ==> !IsEnd(Run(acts).log.At(t)[j], r)
    ensures var type_, status := Run(acts).log.At(t)[k].eventType, Run(acts).db.runs[r].status;
            && (type_ == "RunSucceeded" || type_ == "ReplaySucceeded" ==> status == "SUCCEEDED")
            && (type_ == "RunFailed" ==> status == "FAILED")
            && (type_ == "ReplayHardFailure" ==> status == "HARD_FAILURE")
  {
    var s := Run(acts);
    StatusIsLastTerminal(acts, r);
    OnlyByName(s, t, r);
    LastEndDecides(s.log.At(t)[..StatusPosition(s, t)], r, k);
  }

  // With no such event among them, whatever else has been projected, the run is in progress.
  lemma NoEndInProgress(acts: seq<Action>, r: string, t: Topic)
    requires r in Run(acts).db.runs && OnlyOn(Run(acts), t, r)
    requires forall j :: 0 <= j < StatusPosition(Run(acts), t) && j < |Run(acts).log.At(t)| ==> !IsEnd(Run(acts).log.At(t)[j], r)
    ensures Run(acts).db.runs[r].status == "IN_PROGRESS"
  {
    var s := Run(acts);
    StatusIsLastTerminal(acts, r);
    OnlyByName(s, t, r);
    var events := s.log.At(t)[..StatusPosition(s, t)];
    forall i | 0 <= i < |events| ensures !Ends(events[i], r) { EndsByName(events[i], r); }
    NoEndsNoStatus(events, r);
  }

  // The row, status apart, is that of this event, field by field; no earlier event named the run.
  predicate FirstTold(row: RunRow, order: seq<Begun>, r: string, i: nat) {
    && i < |order| && r != "" && order[i].event.payload.runId == Some(r)
    && (forall k :: 0 <= k < i ==> order[k].event.payload.runId != Some(r))
    && (row.kind == "discovery" <==> order[i].topic == DiscoveryTopic)
    && (row.kind == "replay" <==> order[i].topic == ReplayTopic)
    && (row.kind == "escalation" <==> order[i].topic == EscalationTopic)
    && row.capabilityId == order[i].event.payload.capabilityId && row.tenantId == order[i].event.payload.tenantId
    && row.correlationId == order[i].event.correlationId && row.startedAtMs == order[i].event.occurredAtMs
  }

  lemma FirstByName(row: RunRow, order: seq<Begun>, r: string, i: nat)
    requires i < |order| && Names(order[i].event, r) && forall k :: 0 <= k < i ==> !Names(order[k].event, r)
    requires row.(status := "IN_PROGRESS") == RunRowOf(order[i].topic, order[i].event)
    ensures FirstTold(row, order, r, i)
  {
    assert forall k :: 0 <= k < i ==> (order[k].event.payload.runId == Some(r) <==> Names(order[k].event, r));
    KindsDiffer();
  }

  // For every crash schedule: what a run's row says of the first event that named the run.
  lemma RunRowByName(acts: seq<Action>, r: string)
    requires r in Run(acts).db.runs
    ensures exists i :: FirstTold(Run(acts).db.runs[r], Run(acts).order, r, i)
  {
    RunsComeFromFirstEvent(acts, r);
    var s := Run(acts);
    var i :| 0 <= i < |s.order| && Names(s.order[i].event, r)
             && (forall k :: 0 <= k < i ==> !Names(s.order[k].event, r))
             && s.db.runs[r].(status := "IN_PROGRESS") == RunRowOf(s.order[i].topic, s.order[i].event);
    FirstByName(s.db.runs[r], s.order, r, i);
  }

  lemma KindsDiffer()
    ensures KindOf(DiscoveryTopic) == "discovery" && KindOf(ReplayTopic) == "replay" && KindOf(EscalationTopic) == "escalation"
    ensures "discovery" != "replay" && "replay" != "escalation" && "escalation" != "discovery"
  {
  }

  // The rows of run_events are stored under the names of the topics and say what the events said.
  lemma EventRowByName(acts: seq<Action>, name: string, t: Topic, o: nat)
    requires match t
             case DiscoveryTopic => name == "discovery.events"
             case ReplayTopic => name == "replay.events"
             case EscalationTopic => name == "escalation.events"
    requires (name, o) in Run(acts).db.runEvents
    ensures var s := Run(acts);
            && o < |s.log.At(t)|
            && var e, row := s.log.At(t)[o], s.db.runEvents[(name, o)];
               row.runId != "" && e.payload.runId == Some(row.runId) && row.eventType == e.eventType && row.occurredAtMs == e.occurredAtMs
  {
    RunEventsExact(acts, t, o);
  }

  lemma OnlyByName(s: State, t: Topic, r: string)
    requires OnlyOn(s, t, r)
    ensures OnlyEndsOn(s, t, r)
  {
  }
}
