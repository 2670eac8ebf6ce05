// services/capability_registry/projector.py:55-81 as the loop it is, tied to the machine of module
// Projector: with nobody crashing, project_once is a run of it.
module ProjectorLoop {
  import opened Prelude
  import opened Schemas
  import opened RegistryStore
  import opened Projector

  // The log as the consumer group sees it.
  class Broker {
    var log: PerTopic<seq<Event>>
    var next: PerTopic<nat>

    constructor ()
      ensures log == PerTopic([], [], []) && next == PerTopic(0, 0, 0)
    {
      log, next := PerTopic([], [], []), PerTopic(0, 0, 0);
    }

    method FetchEvents(t: Topic, maxEvents: nat) returns (events: seq<Event>)
      ensures events == if next.At(t) <= |log.At(t)| then Take(log.At(t)[next.At(t)..], maxEvents) else []
    {
      events := if next.At(t) <= |log.At(t)| then Take(log.At(t)[next.At(t)..], maxEvents) else [];
    }

    method CommitOffset(t: Topic, offset: nat)
      modifies `next
      ensures next == old(next).With(t, offset + 1)
    {
      next := next.With(t, offset + 1);
    }
  }

  // The first n writes of one event.
  function Writes(db: Db, t: Topic, offset: nat, e: Event, now: int, n: nat): (r: Db)
    requires n <= WRITES
  {
    if n == 0 then db else Write(Writes(db, t, offset, e, now, n - 1), t, offset, e, n - 1, now)
  }

  function AllWrites(db: Db, t: Topic, offset: nat, e: Event, now: int): (r: Db) {
    Writes(db, t, offset, e, now, WRITES)
  }

  lemma WritesUnrolled(db: Db, t: Topic, offset: nat, e: Event, now: int)
    ensures AllWrites(db, t, offset, e, now) ==
            Write(Write(Write(Write(db, t, offset, e, 0, now), t, offset, e, 1, now), t, offset, e, 2, now), t, offset, e, 3, now)
  {
    assert Writes(db, t, offset, e, now, 1) == Write(db, t, offset, e, 0, now);
    assert Writes(db, t, offset, e, now, 2) == Write(Writes(db, t, offset, e, now, 1), t, offset, e, 1, now);
    assert Writes(db, t, offset, e, now, 3) == Write(Writes(db, t, offset, e, now, 2), t, offset, e, 2, now);
  }

  // ----- what one event does to the tables -----

  // The run named by the event has a row, made of the first event that named it; the event's own type decides
  // the status if it ends a run. No other run is touched.
  ghost predicate RunsTold(before: map<string, RunRow>, after: map<string, RunRow>, kind: string, e: Event, r: string) {
    && r in after && after.Keys == before.Keys + {r}
    && (forall q :: q in before && q != r ==> after[q] == before[q])
    && (if IsEnd(e, r) then LeavesStatus(e.eventType, after[r].status)
        else after[r].status == if r in before then before[r].status else "IN_PROGRESS")
    && (if r in before then after[r].(status := before[r].status) == before[r]
        else after[r] == RunRow(kind, e.payload.capabilityId, e.payload.tenantId, e.correlationId, after[r].status, e.occurredAtMs))
  }

  // A success of a replay resets the counter of its version and stamps it, a hard failure adds one, and no
  // other event, version or field is touched.
  ghost predicate CountersTold(before: map<CapKey, CapRow>, after: map<CapKey, CapRow>, e: Event, now: int) {
    && after.Keys == before.Keys
    && forall k :: k in before ==>
         var mine := e.payload.capabilityId == Some(k.capabilityId) && k.capabilityId != ""
                     && e.payload.version == Some(k.version) && k.version != 0 && k.tenantScope == "*";
         if mine && e.eventType == "ReplaySucceeded" then after[k] == before[k].(hardFailures := 0, lastValidatedAtMs := Some(now))
         else if mine && e.eventType == "ReplayHardFailure" then after[k] == before[k].(hardFailures := before[k].hardFailures + 1)
         else after[k] == before[k]
  }

  ghost predicate ProjectsAs(before: Db, after: Db, t: Topic, offset: nat, e: Event, now: int) {
    if e.payload.runId == None || e.payload.runId == Some("") then after == before
    else
      var r := e.payload.runId.value;
      var kind := match t { case DiscoveryTopic => "discovery" case ReplayTopic => "replay" case EscalationTopic => "escalation" };
      && RunsTold(before.runs, after.runs, kind, e, r)
      && after.runEvents == (if (kind + ".events", offset) in before.runEvents then before.runEvents
                             else before.runEvents[(kind + ".events", offset) := RunEventRow(r, e.eventType, e.occurredAtMs)])
      && CountersTold(before.capabilities, after.capabilities, e, now)
  }

  // Which write touches which table.
  lemma RunsAfter(db: Db, t: Topic, offset: nat, e: Event, now: int)
    requires Carrying(e)
    ensures var run, row := e.payload.runId.value, RunRowOf(t, e);
            AllWrites(db, t, offset, e, now).runs ==
            if TerminalStatus(e.eventType).Some? then SetRunStatus(UpsertRun(db, run, row), run, TerminalStatus(e.eventType).value).runs
            else UpsertRun(db, run, row).runs
  {
    WritesUnrolled(db, t, offset, e, now);
  }

  lemma EventsAfter(db: Db, t: Topic, offset: nat, e: Event, now: int)
    requires Carrying(e)
    ensures AllWrites(db, t, offset, e, now).runEvents == AppendRunEvent(db, TopicName(t), offset, EventRowOf(e)).runEvents
  {
    WritesUnrolled(db, t, offset, e, now);
  }

  lemma CountersAfter(db: Db, t: Topic, offset: nat, e: Event, now: int)
    requires Carrying(e)
    ensures AllWrites(db, t, offset, e, now).capabilities ==
            if ValidationKey(e).Some? then RecordValidation(db, ValidationKey(e).value, ValidationOutcome(e.eventType).value, now).capabilities
            else db.capabilities
  {
    WritesUnrolled(db, t, offset, e, now);
  }

  lemma WritesRuns(db: Db, t: Topic, offset: nat, e: Event, now: int)
    requires Carrying(e)
    ensures RunsTold(db.runs, AllWrites(db, t, offset, e, now).runs, KindOf(t), e, e.payload.runId.value)
  {
    var r, after := e.payload.runId.value, AllWrites(db, t, offset, e, now);
    RunsAfter(db, t, offset, e, now);
    EndsTold(e, r);
    var row := if r in db.runs then db.runs[r] else RunRowOf(t, e);
    assert after.runs == db.runs[r := if IsEnd(e, r) then row.(status := TerminalStatus(e.eventType).value) else row];
  }

  lemma WritesEvents(db: Db, t: Topic, offset: nat, e: Event, now: int)
    requires Carrying(e)
    ensures AllWrites(db, t, offset, e, now).runEvents ==
            if (TopicName(t), offset) in db.runEvents then db.runEvents
            else db.runEvents[(TopicName(t), offset) := RunEventRow(e.payload.runId.value, e.eventType, e.occurredAtMs)]
  {
    EventsAfter(db, t, offset, e, now);
  }

  lemma WritesCounters(db: Db, t: Topic, offset: nat, e: Event, now: int)
    requires Carrying(e)
    ensures CountersTold(db.capabilities, AllWrites(db, t, offset, e, now).capabilities, e, now)
  {
    CountersAfter(db, t, offset, e, now);
    KeyTold(e);
  }

  lemma TopicTold(t: Topic)
    ensures TopicName(t) == KindOf(t) + ".events"
    ensures KindOf(t) == match t { case DiscoveryTopic => "discovery" case ReplayTopic => "replay" case EscalationTopic => "escalation" }
  {
  }

  // The four writes, by what they leave in the three tables.
  lemma WritesMean(db: Db, t: Topic, offset: nat, e: Event, now: int)
    ensures ProjectsAs(db, AllWrites(db, t, offset, e, now), t, offset, e, now)
  {
    if Carrying(e) {
      WritesRuns(db, t, offset, e, now);
      WritesEvents(db, t, offset, e, now);
      WritesCounters(db, t, offset, e, now);
      TopicTold(t);
    } else {
      WritesUnrolled(db, t, offset, e, now);
    }
  }

  predicate AtEvent(s: State) {
    s.work.Working? && s.work.at < |s.work.batch| && s.work.stage == 0
  }

  // The four writes of the event in hand and its commit, taken together.
  function Projected(s: State, now: int): (r: State)
    requires AtEvent(s)
  {
    var w := s.work;
    var e, offset := w.batch[w.at], w.base + w.at;
    s.(db := AllWrites(s.db, w.topic, offset, e, now),
       next := s.next.With(w.topic, offset + 1),
       work := if w.at + 1 == |w.batch| then Idle else w.(at := w.at + 1),
       reached := s.reached.With(w.topic, 0),
       order := if s.reached.At(w.topic) == 0 && Carrying(e) then s.order + [Begun(w.topic, offset, e)] else s.order)
  }

  function Proceeds(now: int, n: nat): (acts: seq<Action>) {
    seq(n, i => Proceed(now))
  }

  lemma OneMore(s: State, now: int, n: nat)
    ensures RunFrom(s, Proceeds(now, n + 1)) == Next(RunFrom(s, Proceeds(now, n)), Proceed(now))
  {
    assert Proceeds(now, n + 1)[..n] == Proceeds(now, n);
  }

  // After the first n writes of the event in hand.
  ghost predicate Written(s: State, s': State, now: int, n: nat)
    requires AtEvent(s) && n <= WRITES
  {
    var w := s.work;
    && s'.work == w.(stage := n) && s'.next == s.next && s'.log == s.log
    && s'.db == Writes(s.db, w.topic, w.base + w.at, w.batch[w.at], now, n)
    && s'.inserted == s.inserted && s'.crashes == s.crashes
    && s'.reached.With(w.topic, 0) == s.reached.With(w.topic, 0)
    && (n > 0 ==> s'.reached.At(w.topic) > 0) && (n == 0 ==> s'.reached == s.reached)
    && s'.order == if n > 0 && s.reached.At(w.topic) == 0 && Carrying(w.batch[w.at])
                   then s.order + [Begun(w.topic, w.base + w.at, w.batch[w.at])] else s.order
  }

  lemma FirstWritten(s: State, s': State, now: int)
    requires AtEvent(s) && Written(s, s', now, 0)
    ensures Written(s, Next(s', Proceed(now)), now, 1)
  {
  }

  lemma OneMoreWritten(s: State, s': State, now: int, n: nat)
    requires AtEvent(s) && n < WRITES && Written(s, s', now, n)
    ensures Written(s, Next(s', Proceed(now)), now, n + 1)
  {
    if n == 0 { FirstWritten(s, s', now); }
  }

  lemma {:induction false} WrittenAfter(s: State, now: int, n: nat)
    requires AtEvent(s) && n <= WRITES
    ensures Written(s, RunFrom(s, Proceeds(now, n)), now, n)
  {
    if n > 0 {
      WrittenAfter(s, now, n - 1);
      OneMore(s, now, n - 1);
      OneMoreWritten(s, RunFrom(s, Proceeds(now, n - 1)), now, n - 1);
    }
  }

  lemma ProjectedIsFiveSteps(s: State, now: int)
    requires AtEvent(s)
    ensures RunFrom(s, Proceeds(now, WRITES + 1)) == Projected(s, now)
  {
    WrittenAfter(s, now, WRITES);
    OneMore(s, now, WRITES);
    CommitCompletes(s, RunFrom(s, Proceeds(now, WRITES)), now);
  }

  lemma CommitCompletes(s: State, s': State, now: int)
    requires AtEvent(s) && Written(s, s', now, WRITES)
    ensures Next(s', Proceed(now)) == Projected(s, now)
  {
  }

  function Rounds(s: State, now: int, n: nat): (r: State) {
    if n == 0 then s
    else
      var before := Rounds(s, now, n - 1);
      if AtEvent(before) then Projected(before, now) else before
  }

  lemma {:induction false} RunTogether(s: State, a: seq<Action>, b: seq<Action>)
    ensures RunFrom(s, a + b) == RunFrom(RunFrom(s, a), b)
  {
    if b == [] {
      assert a + b == a;
    } else {
      assert (a + b)[..|a + b| - 1] == a + b[..|b| - 1];
      RunTogether(s, a, b[..|b| - 1]);
    }
  }

  ghost predicate Rounding(s: State, now: int, n: nat) {
    forall i :: 0 <= i < n ==> AtEvent(Rounds(s, now, i))
  }

  // Rounds are runs: n events projected without a crash are 5 n steps of the machine.
  lemma RoundsAreRuns(s: State, now: int, n: nat)
    requires Rounding(s, now, n)
    ensures Rounds(s, now, n) == RunFrom(s, Proceeds(now, (WRITES + 1) * n))
  {
    RoundsAreSteps(s, now, n, (WRITES + 1) * n);
  }

  lemma {:induction false} RoundsAreSteps(s: State, now: int, n: nat, steps: nat)
    requires Rounding(s, now, n) && steps == (WRITES + 1) * n
    ensures Rounds(s, now, n) == RunFrom(s, Proceeds(now, steps))
  {
    if n == 0 {
      NoRounds(s, now);
    } else {
      var m, before: nat := n - 1, steps - WRITES - 1;
      RoundingBefore(s, now, m);
      RoundsAreSteps(s, now, m, before);
      RoundIsFiveMore(s, now, m, before, n, steps);
    }
  }

  lemma RoundingBefore(s: State, now: int, n: nat)
    requires Rounding(s, now, n + 1)
    ensures Rounding(s, now, n) && AtEvent(Rounds(s, now, n))
  {
  }

  lemma NoRounds(s: State, now: int)
    ensures Rounds(s, now, 0) == RunFrom(s, Proceeds(now, 0))
  {
    assert Proceeds(now, 0) == [];
  }

  lemma ProceedsSplit(now: int, n: nat, k: nat)
    ensures Proceeds(now, n + k) == Proceeds(now, n) + Proceeds(now, k)
  {
  }

  lemma RoundIsFiveMore(s: State, now: int, n: nat, steps: nat, rounds: nat, more: nat)
    requires AtEvent(Rounds(s, now, n)) && Rounds(s, now, n) == RunFrom(s, Proceeds(now, steps))
    requires rounds == n + 1 && more == steps + WRITES + 1
    ensures Rounds(s, now, rounds) == RunFrom(s, Proceeds(now, more))
  {
    RoundsOneMore(s, now, n);
    ProjectedIsFiveSteps(Rounds(s, now, n), now);
    ProceedsSplit(now, steps, WRITES + 1);
    RunTogether(s, Proceeds(now, steps), Proceeds(now, WRITES + 1));
  }

  // The machine agrees with the objects, and is about to project event i of the batch.
  ghost predicate Agrees(s: State, db: Db, next: PerTopic<nat>, t: Topic, events: seq<Event>, base: nat, i: nat) {
    && s.db == db && s.next == next
    && s.work == if i == |events| then Idle else Working(t, events, base, i, 0)
  }

  lemma RoundAgrees(s: State, now: int, db: Db, next: PerTopic<nat>, t: Topic, events: seq<Event>, base: nat, i: nat)
    requires i < |events| && Agrees(s, db, next, t, events, base, i)
    ensures AtEvent(s)
    ensures Agrees(Projected(s, now), AllWrites(db, t, base + i, events[i], now), next.With(t, base + i + 1), t, events, base, i + 1)
  {
  }

  lemma RoundsOneMore(s: State, now: int, n: nat)
    requires AtEvent(Rounds(s, now, n))
    ensures Rounds(s, now, n + 1) == Projected(Rounds(s, now, n), now)
  {
  }

  // i rounds are over, and the objects agree with where they led.
  ghost predicate RoundsDone(fetched: State, now: int, i: nat, db: Db, next: PerTopic<nat>, t: Topic, events: seq<Event>, base: nat) {
    && (forall k :: 0 <= k < i ==> AtEvent(Rounds(fetched, now, k)))
    && i <= |events| && Agrees(Rounds(fetched, now, i), db, next, t, events, base, i)
  }

  lemma OneMoreRound(fetched: State, now: int, i: nat, db: Db, next: PerTopic<nat>, t: Topic, events: seq<Event>, base: nat)
    requires RoundsDone(fetched, now, i, db, next, t, events, base) && i < |events|
    ensures RoundsDone(fetched, now, i + 1, AllWrites(db, t, base + i, events[i], now), next.With(t, base + i + 1), t, events, base)
  {
    RoundAgrees(Rounds(fetched, now, i), now, db, next, t, events, base, i);
    RoundsOneMore(fetched, now, i);
  }

  lemma AllRoundsDone(fetched: State, now: int, db: Db, next: PerTopic<nat>, t: Topic, events: seq<Event>, base: nat)
    requires RoundsDone(fetched, now, |events|, db, next, t, events, base)
    ensures forall k :: 0 <= k < |events| ==> AtEvent(Rounds(fetched, now, k))
    ensures var after := Rounds(fetched, now, |events|); after.db == db && after.next == next && after.work == Idle
  {
  }

  lemma NoneDone(fetched: State, now: int, db: Db, next: PerTopic<nat>, t: Topic, events: seq<Event>, base: nat)
    requires Agrees(fetched, db, next, t, events, base, 0)
    ensures RoundsDone(fetched, now, 0, db, next, t, events, base)
  {
  }

  lemma FetchAgrees(before: State, t: Topic)
    requires before.work == Idle
    ensures var events := if before.next.At(t) <= |before.log.At(t)| then Take(before.log.At(t)[before.next.At(t)..], FETCH) else [];
            Agrees(Next(before, Fetch(t)), before.db, before.next, t, events, before.next.At(t), 0)
  {
  }

  // ----- what a round leaves of the runs -----

  ghost predicate LastEndAt(events: seq<Event>, r: string, k: nat) {
    k < |events| && IsEnd(events[k], r) && forall j :: k < j < |events| ==> !IsEnd(events[j], r)
  }

  ghost predicate NoEnd(events: seq<Event>, r: string) {
    forall j :: 0 <= j < |events| ==> !IsEnd(events[j], r)
  }

  // A run's status is what the last of these events that ended it left; a run that none ended keeps what it had.
  ghost predicate StatusesTold(before: map<string, RunRow>, after: map<string, RunRow>, events: seq<Event>) {
    && (forall r, k: nat :: LastEndAt(events, r, k) ==> r in after && LeavesStatus(events[k].eventType, after[r].status))
    && (forall r :: r in before ==> r in after)
    && (forall r :: r in after && NoEnd(events, r) ==> after[r].status == if r in before then before[r].status else "IN_PROGRESS")
  }

  lemma OneMoreEvent(events: seq<Event>, e: Event, r: string, k: nat)
    ensures NoEnd(events + [e], r) <==> NoEnd(events, r) && !IsEnd(e, r)
    ensures LastEndAt(events + [e], r, k) <==> if k == |events| then IsEnd(e, r) else LastEndAt(events, r, k) && !IsEnd(e, r)
  {
    assert (events + [e])[|events|] == e;
    assert forall j :: 0 <= j < |events| ==> (events + [e])[j] == events[j];
  }

  lemma StatusesOneMore(before: map<string, RunRow>, mid: Db, after: Db, events: seq<Event>, t: Topic, offset: nat, e: Event, now: int)
    requires StatusesTold(before, mid.runs, events) && ProjectsAs(mid, after, t, offset, e, now)
    ensures StatusesTold(before, after.runs, events + [e])
  {
    forall r, k: nat | LastEndAt(events + [e], r, k) ensures r in after.runs && LeavesStatus((events + [e])[k].eventType, after.runs[r].status) {
      OneMoreEvent(events, e, r, k);
    }
    forall r | r in after.runs && NoEnd(events + [e], r)
      ensures after.runs[r].status == if r in before then before[r].status else "IN_PROGRESS"
    {
      OneMoreEvent(events, e, r, 0);
    }
  }

  // At most 200 events, from the committed offset on.
  function BatchAt(s: State, t: Topic): (events: seq<Event>) {
    if s.next.At(t) <= |s.log.At(t)| then Take(s.log.At(t)[s.next.At(t)..], 200) else []
  }

  lemma NothingTold(runs: map<string, RunRow>)
    ensures StatusesTold(runs, runs, [])
  {
  }

  // The first i events are projected.
  ghost predicate Progress(fetched: State, now: int, i: nat, db: Db, next: PerTopic<nat>, t: Topic, events: seq<Event>, base: nat,
                           runs: map<string, RunRow>) {
    RoundsDone(fetched, now, i, db, next, t, events, base) && StatusesTold(runs, db.runs, events[..i])
  }

  lemma NoProgress(fetched: State, now: int, db: Db, next: PerTopic<nat>, t: Topic, events: seq<Event>, base: nat)
    requires Agrees(fetched, db, next, t, events, base, 0)
    ensures Progress(fetched, now, 0, db, next, t, events, base, db.runs)
  {
    NoneDone(fetched, now, db, next, t, events, base);
    NothingTold(db.runs);
  }

  lemma OneMoreProgress(fetched: State, now: int, i: nat, db: Db, next: PerTopic<nat>, t: Topic, events: seq<Event>, base: nat,
                        runs: map<string, RunRow>)
    requires i < |events| && Progress(fetched, now, i, db, next, t, events, base, runs)
    ensures Progress(fetched, now, i + 1, AllWrites(db, t, base + i, events[i], now), next.With(t, base + i + 1), t, events, base, runs)
  {
    OneMoreRound(fetched, now, i, db, next, t, events, base);
    WritesTellStatuses(runs, db, events[..i], t, base + i, events[i], now);
    assert events[..i + 1] == events[..i] + [events[i]];
  }

  lemma WritesTellStatuses(before: map<string, RunRow>, mid: Db, events: seq<Event>, t: Topic, offset: nat, e: Event, now: int)
    requires StatusesTold(before, mid.runs, events)
    ensures StatusesTold(before, AllWrites(mid, t, offset, e, now).runs, events + [e])
  {
    WritesMean(mid, t, offset, e, now);
    StatusesOneMore(before, mid, AllWrites(mid, t, offset, e, now), events, t, offset, e, now);
  }

  lemma {:induction false} RoundsProgress(fetched: State, now: int, n: nat, t: Topic, events: seq<Event>, base: nat)
    requires n <= |events| && Agrees(fetched, fetched.db, fetched.next, t, events, base, 0)
    ensures Progress(fetched, now, n, Rounds(fetched, now, n).db, Rounds(fetched, now, n).next, t, events, base, fetched.db.runs)
  {
    if n == 0 {
      NoProgress(fetched, now, fetched.db, fetched.next, t, events, base);
    } else {
      var m := n - 1;
      var r := Rounds(fetched, now, m);
      RoundsProgress(fetched, now, m, t, events, base);
      OneMoreProgress(fetched, now, m, r.db, r.next, t, events, base, fetched.db.runs);
      SameProgress(fetched, now, n, AllWrites(r.db, t, base + m, events[m], now), r.next.With(t, base + n), t, events, base, fetched.db.runs);
    }
  }

  lemma SameProgress(fetched: State, now: int, n: nat, db: Db, next: PerTopic<nat>, t: Topic, events: seq<Event>, base: nat, runs: map<string, RunRow>)
    requires Progress(fetched, now, n, db, next, t, events, base, runs)
    ensures db == Rounds(fetched, now, n).db && next == Rounds(fetched, now, n).next
  {
  }

  lemma RoundsTellStatuses(fetched: State, now: int, t: Topic, events: seq<Event>, base: nat)
    requires Agrees(fetched, fetched.db, fetched.next, t, events, base, 0)
    ensures StatusesTold(fetched.db.runs, Rounds(fetched, now, |events|).db.runs, events)
  {
    RoundsProgress(fetched, now, |events|, t, events, base);
    assert events[..|events|] == events;
  }

  class ProjectorService {
    const store: Store
    const broker: Broker

    constructor (store: Store, broker: Broker)
      ensures this.store == store && this.broker == broker
    {
      this.store, this.broker := store, broker;
    }

    // WritesMean says what these writes leave in the tables.
    method ProjectEvent(t: Topic, offset: nat, e: Event, now: int)
      modifies store, broker`next
      ensures store.View() == AllWrites(old(store.View()), t, offset, e, now)
      ensures broker.next == old(broker.next).With(t, offset + 1)
    {
      WritesUnrolled(store.View(), t, offset, e, now);
      if e.payload.runId.Some? && e.payload.runId.value != "" {
        var runId := e.payload.runId.value;
        store.UpsertRunRow(runId, KindOf(t), e.payload.capabilityId, e.payload.tenantId, e.correlationId, e.occurredAtMs);
        store.AddRunEvent(runId, TopicName(t), offset, e.eventType, e.occurredAtMs);
        if TerminalStatus(e.eventType).Some? {
          store.SetStatus(runId, TerminalStatus(e.eventType).value);
        }
        if ValidationOutcome(e.eventType).Some? {
          if e.payload.capabilityId.Some? && e.payload.capabilityId.value != ""
             && e.payload.version.Some? && e.payload.version.value != 0 {
            store.AddValidation(e.payload.capabilityId.value, e.payload.version.value, BASE_SCOPE,
                                ValidationOutcome(e.eventType).value, now);
          }
        }
      }
      broker.CommitOffset(t, offset);
    }

    // `before` is any state of the machine that agrees with the objects; afterwards they agree with the
    // state reached by one fetch and one round for each event fetched, and the runs say what those events say.
    method ProjectOnce(t: Topic, now: int, ghost before: State) returns (count: nat)
      requires before.log == broker.log && before.next == broker.next && before.db == store.View() && before.work == Idle
      modifies store, broker`next
      ensures count == |BatchAt(before, t)|
      ensures var fetched := Next(before, Fetch(t));
              && (forall i :: 0 <= i < count ==> AtEvent(Rounds(fetched, now, i)))
              && var after := Rounds(fetched, now, count);
                 after.db == store.View() && after.next == broker.next && after.work == Idle
      ensures StatusesTold(old(store.runs), store.runs, BatchAt(before, t))
    {
      var events := broker.FetchEvents(t, FETCH);
      var base := broker.next.At(t);
      ghost var fetched := Next(before, Fetch(t));
      FetchAgrees(before, t);
      ghost var db, next := before.db, before.next;
      NoneDone(fetched, now, db, next, t, events, base);
      for i := 0 to |events|
        invariant db == store.View() && next == broker.next && RoundsDone(fetched, now, i, db, next, t, events, base)
      {
        OneMoreRound(fetched, now, i, db, next, t, events, base);
        ProjectEvent(t, base + i, events[i], now);
        db, next := AllWrites(db, t, base + i, events[i], now), next.With(t, base + i + 1);
      }
      AllRoundsDone(fetched, now, db, next, t, events, base);
      RoundsTellStatuses(fetched, now, t, events, base);
      count := |events|;
    }
  }
}
