// From the outbox of the discovery service to the compiler's fetch: whatever the dispatchers go through,
// once a run's rows are published its topic holds the run's events and nothing else under its id.
module Publication {
  import opened Prelude
  import opened Schemas
  import opened EventLog
  import opened Outbox
  import opened Compiler
  import opened CompilerOrder
  import opened Browser
  import Discovery
  import DiscoveryTrace
  import Delivery
  import Simulation
  import Executor

  const TOPIC := "discovery.events"

  // What the discovery service put into its outbox for a run: its events, redacted once, each of them.
  ghost predicate Emitted(rows: seq<Row<Record>>, runId: string, events: seq<Discovery.Event>, redact: Delivery.Redactor) {
    && (forall x :: x in events ==> HasRecord(rows, Record(runId, Delivery.RedactEvent(redact, x))))
    && (forall j :: 0 <= j < |rows| && OfRun(rows[j].topic, rows[j].payload, runId) ==>
          Delivery.IsDelivered(events, redact, rows[j].payload.event))
  }

  predicate OfRun(topic: string, r: Record, runId: string) {
    topic == TOPIC && r.runId == runId
  }

  ghost predicate HasRecord(rows: seq<Row<Record>>, r: Record) {
    exists j :: 0 <= j < |rows| && rows[j].topic == TOPIC && rows[j].payload == r
  }

  ghost predicate AllPublished(rows: seq<Row<Record>>, runId: string) {
    forall j :: 0 <= j < |rows| && OfRun(rows[j].topic, rows[j].payload, runId) ==> rows[j].published
  }

  // Nobody else writes events of this run.
  predicate Elsewhere(a: Action<Record>, runId: string) {
    a.Foreign? && a.request.payload.Utf8? ==> !OfRun(a.request.topic, a.request.payload.text, runId)
  }

  // ----- the rows of a run are its events, redacted as they were enqueued -----

  // What the service enqueues: the row says the event of the run after one redaction, whatever its id and stamps.
  ghost predicate EnqueuesEvent(a: Action<Record>, runId: string, x: Discovery.Event, redact: Delivery.Redactor) {
    && a.Enqueue? && a.row.topic == TOPIC && !a.row.published && a.row.attempts == 0
    && a.row.payload == Record(runId, Delivery.RedactEvent(redact, x))
  }

  ghost predicate FromTheRun(a: Action<Record>, runId: string, events: seq<Discovery.Event>, redact: Delivery.Redactor) {
    a.Enqueue? && OfRun(a.row.topic, a.row.payload, runId) ==> exists x :: x in events && EnqueuesEvent(a, runId, x, redact)
  }

  // Each event of the run is enqueued under an id of its own, and nothing else under the run's id.
  ghost predicate Emits(acts: seq<Action<Record>>, runId: string, events: seq<Discovery.Event>, redact: Delivery.Redactor) {
    && (forall k :: 0 <= k < |acts| ==> FromTheRun(acts[k], runId, events, redact))
    && (forall x :: x in events ==> IsEmitted(acts, runId, x, redact))
  }

  ghost predicate IsEmitted(acts: seq<Action<Record>>, runId: string, x: Discovery.Event, redact: Delivery.Redactor) {
    exists k :: 0 <= k < |acts| && EnqueuesEvent(acts[k], runId, x, redact) && FreshRow(RunFrom(Start<Record>(), acts[..k]), acts[k].row)
  }

  lemma NextKeepsMessages(s: Sys<Record>, a: Action<Record>)
    ensures |s.rows| <= |Next(s, a).rows| && forall j :: 0 <= j < |s.rows| ==> SameMessage(s.rows[j], Next(s, a).rows[j])
    ensures if a.Enqueue? && FreshRow(s, a.row) then Next(s, a).rows == s.rows + [a.row] else |Next(s, a).rows| == |s.rows|
  {
  }

  lemma {:induction false} RecordIsStored(acts: seq<Action<Record>>, k: nat)
    requires k < |acts| && acts[k].Enqueue? && acts[k].row.topic == TOPIC && FreshRow(RunFrom(Start<Record>(), acts[..k]), acts[k].row)
    ensures HasRecord(RunFrom(Start<Record>(), acts).rows, acts[k].row.payload)
  {
    var n := |acts| - 1;
    var s := RunFrom(Start<Record>(), acts[..n]);
    NextKeepsMessages(s, acts[n]);
    if k < n {
      assert acts[..n][..k] == acts[..k];
      RecordIsStored(acts[..n], k);
      RecordStays(s.rows, Next(s, acts[n]).rows, acts[k].row.payload);
    } else {
      assert Next(s, acts[n]).rows[|s.rows|] == acts[n].row;
    }
  }

  lemma {:induction false} StoredWasEnqueued(acts: seq<Action<Record>>, j: nat) returns (k: nat)
    requires j < |RunFrom(Start<Record>(), acts).rows|
    ensures k < |acts| && acts[k].Enqueue? && SameMessage(acts[k].row, RunFrom(Start<Record>(), acts).rows[j])
  {
    var n := |acts| - 1;
    var s := RunFrom(Start<Record>(), acts[..n]);
    NextKeepsMessages(s, acts[n]);
    if j < |s.rows| { k := StoredWasEnqueued(acts[..n], j); } else { k := n; }
  }

  // So the table of any run of the outbox holds of a discovery run what was emitted, and Emitted need not be taken
  // on trust.
  lemma EmitsIsEmitted(acts: seq<Action<Record>>, runId: string, events: seq<Discovery.Event>, redact: Delivery.Redactor)
    requires Emits(acts, runId, events, redact)
    ensures Emitted(RunFrom(Start<Record>(), acts).rows, runId, events, redact)
  {
    var rows := RunFrom(Start<Record>(), acts).rows;
    forall x | x in events ensures HasRecord(rows, Record(runId, Delivery.RedactEvent(redact, x))) {
      assert IsEmitted(acts, runId, x, redact);
      var k :| 0 <= k < |acts| && EnqueuesEvent(acts[k], runId, x, redact) && FreshRow(RunFrom(Start<Record>(), acts[..k]), acts[k].row);
      RecordIsStored(acts, k);
    }
    forall j | 0 <= j < |rows| && OfRun(rows[j].topic, rows[j].payload, runId) ensures Delivery.IsDelivered(events, redact, rows[j].payload.event) {
      var k := StoredWasEnqueued(acts, j);
      assert FromTheRun(acts[k], runId, events, redact);
    }
  }

  // ----- every event of the run in the log has its row -----

  ghost predicate EventsHaveRows(s: Sys<Record>, runId: string) {
    forall i :: 0 <= i < |s.log.events| && OfRun(s.log.events[i].topic, s.log.events[i].payload, runId) ==>
      HasRecord(s.rows, s.log.events[i].payload)
  }

  lemma RecordStays(rows: seq<Row<Record>>, rows': seq<Row<Record>>, r: Record)
    requires HasRecord(rows, r) && |rows| <= |rows'| && forall j :: 0 <= j < |rows| ==> SameMessage(rows[j], rows'[j])
    ensures HasRecord(rows', r)
  {
    var j :| 0 <= j < |rows| && rows[j].topic == TOPIC && rows[j].payload == r;
    assert SameMessage(rows[j], rows'[j]);
  }

  lemma SameLogHasRows(s: Sys<Record>, s': Sys<Record>, runId: string)
    requires EventsHaveRows(s, runId) && s'.log == s.log && |s.rows| <= |s'.rows|
    requires forall j :: 0 <= j < |s.rows| ==> SameMessage(s.rows[j], s'.rows[j])
    ensures EventsHaveRows(s', runId)
  {
    forall i | 0 <= i < |s'.log.events| && OfRun(s'.log.events[i].topic, s'.log.events[i].payload, runId)
      ensures HasRecord(s'.rows, s'.log.events[i].payload)
    {
      RecordStays(s.rows, s'.rows, s.log.events[i].payload);
    }
  }

  // An append adds one event at most, which says what its request says.
  lemma AppendHasRows(s: Sys<Record>, s': Sys<Record>, r: Request<Record>, id: string, now: int, runId: string)
    requires EventsHaveRows(s, runId) && s'.rows == s.rows && s'.log == EventLog.Append(s.log, r, id, now).0
    requires r.payload.Utf8? && OfRun(r.topic, r.payload.text, runId) ==> HasRecord(s.rows, r.payload.text)
    ensures EventsHaveRows(s', runId)
  {
  }

  lemma DispatchHasRows(s: Sys<Record>, s': Sys<Record>, w: nat, id: string, now: int, runId: string)
    requires Inv(s) && EventsHaveRows(s, runId) && InPhase(s, w, Appending)
    requires s'.rows == s.rows && s'.log == EventLog.Append(s.log, RequestFor(Current(s, w)), id, now).0
    ensures EventsHaveRows(s', runId)
  {
    var r := Current(s, w);
    assert WorkerOk(s.rows, s.log, s.workers[w]) && HasRow(s.rows, r);
    if OfRun(r.topic, r.payload, runId) {
      var j :| 0 <= j < |s.rows| && SameMessage(r, s.rows[j]);
      assert HasRecord(s.rows, r.payload);
    }
    AppendHasRows(s, s', RequestFor(r), id, now, runId);
  }

  lemma StraggleHasRows(s: Sys<Record>, s': Sys<Record>, j: nat, id: string, now: int, runId: string)
    requires EventsHaveRows(s, runId) && j < |s.rows| && s'.rows == s.rows && s'.log == EventLog.Append(s.log, RequestFor(s.rows[j]), id, now).0
    ensures EventsHaveRows(s', runId)
  {
    if OfRun(s.rows[j].topic, s.rows[j].payload, runId) { assert HasRecord(s.rows, s.rows[j].payload); }
    AppendHasRows(s, s', RequestFor(s.rows[j]), id, now, runId);
  }

  lemma NextHasRows(s: Sys<Record>, a: Action<Record>, runId: string)
    requires Inv(s) && EventsHaveRows(s, runId) && Elsewhere(a, runId)
    ensures EventsHaveRows(Next(s, a), runId)
  {
    match a
    case Deliver(w, id, now) => if InPhase(s, w, Appending) { DispatchHasRows(s, Next(s, a), w, id, now, runId); }
    case DeliverUnacked(w, id, now) => if InPhase(s, w, Appending) { DispatchHasRows(s, Next(s, a), w, id, now, runId); }
    case Straggle(j, id, now) => if j < |s.rows| { StraggleHasRows(s, Next(s, a), j, id, now, runId); }
    case Foreign(request, id, now) => if NotAnOutboxKey(s, request) { AppendHasRows(s, Next(s, a), request, id, now, runId); }
    case _ => SameLogHasRows(s, Next(s, a), runId);
  }

  lemma {:induction false} RunHasRows(acts: seq<Action<Record>>, runId: string)
    requires forall k :: 0 <= k < |acts| ==> Elsewhere(acts[k], runId)
    ensures EventsHaveRows(RunFrom(Start<Record>(), acts), runId)
  {
    if acts != [] {
      var before := acts[..|acts| - 1];
      RunHasRows(before, runId);
      RunKeepsInv(Start<Record>(), before);
      NextHasRows(RunFrom(Start<Record>(), before), acts[|acts| - 1], runId);
    }
  }

  // ----- what is on the topic -----

  function Payloads(events: seq<StoredEvent<Record>>): (r: seq<Record>)
    ensures |r| == |events| && forall i :: 0 <= i < |r| ==> r[i] == events[i].payload
  {
    seq(|events|, i requires 0 <= i < |events| => events[i].payload)
  }

  // The whole topic, and what the compiler gets of it: a new consumer group's first page.
  function TopicOf(log: Log<Record>): (topic: seq<Record>) {
    Payloads(From(log.events, TOPIC, 0))
  }

  function Fetched(log: Log<Record>): (records: seq<Record>) {
    Payloads(Page(log.events, TOPIC, 0, 10_000))
  }

  lemma FetchedIsTheStart(log: Log<Record>)
    ensures Fetched(log) == Take(TopicOf(log), 10_000)
  {
  }

  lemma OnTopic(log: Log<Record>, r: Record)
    ensures r in TopicOf(log) <==> exists i :: 0 <= i < |log.events| && log.events[i].topic == TOPIC && log.events[i].payload == r
  {
    var es := From(log.events, TOPIC, 0);
    if r in TopicOf(log) {
      var k :| 0 <= k < |es| && TopicOf(log)[k] == r;
      FromMembers(log.events, TOPIC, 0, es[k]);
      var i :| 0 <= i < |log.events| && log.events[i] == es[k];
    }
    if i :| 0 <= i < |log.events| && log.events[i].topic == TOPIC && log.events[i].payload == r {
      FromMembers(log.events, TOPIC, 0, log.events[i]);
      var k :| 0 <= k < |es| && es[k] == log.events[i];
      assert TopicOf(log)[k] == r;
    }
  }

  lemma PublishedIsOnTopic(s: Sys<Record>, runId: string, r: Record)
    requires LogMatches(s.rows, s.log) && AllPublished(s.rows, runId) && r.runId == runId && HasRecord(s.rows, r)
    ensures r in TopicOf(s.log)
  {
    var j :| 0 <= j < |s.rows| && s.rows[j].topic == TOPIC && s.rows[j].payload == r;
    assert Outbox.Delivered(s.log, s.rows[j]);
    var i :| 0 <= i < |s.log.events| && Carries(s.log.events[i], s.rows[j]);
    OnTopic(s.log, r);
  }

  lemma TopicHasRows(s: Sys<Record>, runId: string, r: Record)
    requires EventsHaveRows(s, runId) && r.runId == runId && r in TopicOf(s.log)
    ensures HasRecord(s.rows, r)
  {
    OnTopic(s.log, r);
  }

  lemma EmittedIsDelivered(s: Sys<Record>, runId: string, events: seq<Discovery.Event>, redact: Delivery.Redactor)
    requires LogMatches(s.rows, s.log) && EventsHaveRows(s, runId) && Emitted(s.rows, runId, events, redact) && AllPublished(s.rows, runId)
    ensures Delivery.Delivered(TopicOf(s.log), runId, events, redact)
  {
    forall x | x in events ensures Record(runId, Delivery.RedactEvent(redact, x)) in TopicOf(s.log) {
      PublishedIsOnTopic(s, runId, Record(runId, Delivery.RedactEvent(redact, x)));
    }
    forall e | Record(runId, e) in TopicOf(s.log) ensures Delivery.IsDelivered(events, redact, e) {
      TopicHasRows(s, runId, Record(runId, e));
      RowIsEmitted(s.rows, runId, events, redact, e);
    }
  }

  lemma RowIsEmitted(rows: seq<Row<Record>>, runId: string, events: seq<Discovery.Event>, redact: Delivery.Redactor, e: Discovery.Event)
    requires Emitted(rows, runId, events, redact) && HasRecord(rows, Record(runId, e))
    ensures Delivery.IsDelivered(events, redact, e)
  {
  }

  // Whatever the dispatchers, the network, the crashes and the other producers do: once the rows of a run
  // are published, the topic holds the events of the run, redacted, and nothing else under its id.
  lemma PublishedIsDelivered(acts: seq<Action<Record>>, runId: string, events: seq<Discovery.Event>, redact: Delivery.Redactor)
    requires forall k :: 0 <= k < |acts| ==> Elsewhere(acts[k], runId)
    requires Emits(acts, runId, events, redact) && AllPublished(RunFrom(Start<Record>(), acts).rows, runId)
    ensures Delivery.Delivered(TopicOf(RunFrom(Start<Record>(), acts).log), runId, events, redact)
  {
    RunMatches(acts, runId);
    EmitsIsEmitted(acts, runId, events, redact);
    EmittedIsDelivered(RunFrom(Start<Record>(), acts), runId, events, redact);
  }

  lemma RunMatches(acts: seq<Action<Record>>, runId: string)
    requires forall k :: 0 <= k < |acts| ==> Elsewhere(acts[k], runId)
    ensures var s := RunFrom(Start<Record>(), acts); LogMatches(s.rows, s.log) && EventsHaveRows(s, runId)
  {
    RunKeepsInv(Start<Record>(), acts);
    RunHasRows(acts, runId);
  }

  // ----- discovered, published, fetched, compiled, replayed -----

  lemma DeliveredSaysOneThing<S>(topic: seq<Record>, runId: string, events: seq<Discovery.Event>, redact: Delivery.Redactor,
                                 moves: seq<Discovery.Move<S>>, last: Discovery.Decision, outputs: map<string, string>, condition: string)
    requires Delivery.Delivered(topic, runId, events, redact) && DiscoveryTrace.Tells(events, 0, moves, last, outputs, condition)
    ensures SaysOneThing(topic, runId)
  {
    forall x: Discovery.Event, y: Discovery.Event | Record(runId, x) in topic && Record(runId, y) in topic ensures !Conflict(x, y) {
      assert Delivery.IsDelivered(events, redact, x) && Delivery.IsDelivered(events, redact, y);
      var u :| u in events && Delivery.RedactEvent(redact, u) == x;
      var v :| v in events && Delivery.RedactEvent(redact, v) == y;
      OneStory(events, moves, last, outputs, condition, u, v, redact);
    }
  }

  lemma OneStory<S>(events: seq<Discovery.Event>, moves: seq<Discovery.Move<S>>, last: Discovery.Decision, outputs: map<string, string>,
                    condition: string, u: Discovery.Event, v: Discovery.Event, redact: Delivery.Redactor)
    requires DiscoveryTrace.Tells(events, 0, moves, last, outputs, condition) && u in events && v in events
    ensures !Conflict(Delivery.RedactEvent(redact, u), Delivery.RedactEvent(redact, v))
  {
  }

  // The page the compiler fetches gives the tables of the whole topic exactly when every step and the
  // success of the run are reported on it.
  lemma FetchedExactly<S(!new)>(app: App<S>, cfg: Discovery.Config, planner: Discovery.Planner, start: S, redact: Delivery.Redactor,
                                log: Log<Record>, runId: string)
    requires var f := Discovery.Discover(app, cfg, planner, start);
             f.status == Discovery.SUCCEEDED && Delivery.Delivered(TopicOf(log), runId, f.events, redact)
    ensures Fold(Fetched(log), runId) == Fold(TopicOf(log), runId) <==> SaysAll(TopicOf(log), Fetched(log), runId)
  {
    var f := Discovery.Discover(app, cfg, planner, start);
    DiscoveryTrace.DiscoverTells(app, cfg, planner, start);
    var last, condition :| DiscoveryTrace.Tells(f.events, 0, f.moves, last, f.outputs, condition);
    DeliveredSaysOneThing(TopicOf(log), runId, f.events, redact, f.moves, last, f.outputs, condition);
    FetchedIsTheStart(log);
    FetchLimitExactly(TopicOf(log), runId);
  }

  // From the page of the run to the page of the replay: a successful discovery whose rows have been published,
  // through any crashes and repetitions, and whose story lies within the first 10,000 events of the topic,
  // compiles from what the compiler fetches, and the capability then repeats the run.
  lemma PublishedRunIsRepeated<S(!new)>(app: App<S>, cfg: Discovery.Config, planner: Discovery.Planner, start: S, redact: Delivery.Redactor,
                                        acts: seq<Action<Record>>, runId: string, r: Result<Draft, CompileError>, inputs: map<string, string>)
    requires Steady(app) && forall k :: 0 <= k < |acts| ==> Elsewhere(acts[k], runId)
    requires var f := Discovery.Discover(app, cfg, planner, start);
             && f.status == Discovery.SUCCEEDED
             && forall m :: m in f.moves ==> Simulation.Survives(redact, m) && Simulation.Faithful(m.decision, inputs)
    requires var s := RunFrom(Start<Record>(), acts);
             && Emits(acts, runId, Discovery.Discover(app, cfg, planner, start).events, redact) && AllPublished(s.rows, runId)
             && SaysAll(TopicOf(s.log), Fetched(s.log), runId) && IsCompiled(Fold(Fetched(s.log), runId), r)
    ensures var f := Discovery.Discover(app, cfg, planner, start);
            && (r.Ok? <==> Simulation.NamesAreStrings(f.moves))
            && (r.Ok? ==> |r.value.steps| == |f.moves|
                          && Simulation.Repeats(r.value, Executor.Replay(app, start, r.value, inputs), f, inputs, redact))
  {
    var s := RunFrom(Start<Record>(), acts);
    PublishedIsDelivered(acts, runId, Discovery.Discover(app, cfg, planner, start).events, redact);
    FetchedExactly(app, cfg, planner, start, redact, s.log, runId);
    Simulation.ReplayRepeatsDiscovery(app, cfg, planner, start, redact, TopicOf(s.log), runId, r, inputs);
  }
}
