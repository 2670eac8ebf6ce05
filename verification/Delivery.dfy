// From a discovery run to the compiler's tables: every string is redacted as an event is enqueued, the
// outbox and the log deliver the events in some order among other runs' events, and the fold puts
// together what the run did.
module Delivery {
  import opened Prelude
  import opened Schemas
  import opened Discovery
  import opened DiscoveryTrace
  import opened Compiler
  import opened CompilerOrder
  import opened Browser

  // The regular expressions of shared/safety.py, as any function on strings.
  type Redactor = string -> string

  function RedactValue(redact: Redactor, v: Value): (r: Value) {
    match v case Text(s) => Text(redact(s)) case Other(_) => v
  }

  function RedactAll(redact: Redactor, cs: seq<string>): (r: seq<string>)
    ensures |r| == |cs| && forall i :: 0 <= i < |cs| ==> r[i] == redact(cs[i])
  {
    seq(|cs|, i requires 0 <= i < |cs| => redact(cs[i]))
  }

  function RedactMap(redact: Redactor, m: map<string, string>): (r: map<string, string>) {
    map k | k in m :: redact(m[k])
  }

  function RedactDecision(redact: Redactor, d: Decision): (r: Decision) {
    d.(candidates := RedactAll(redact, d.candidates),
       params := (map k | k in d.params :: RedactValue(redact, d.params[k])),
       paramBindings := RedactMap(redact, d.paramBindings))
  }

  function RedactUsed(redact: Redactor, used: Option<string>): (r: Option<string>) {
    if used.None? then None else Some(redact(used.value))
  }

  // redact_payload on each kind of event; keys, numbers and run ids stay as they are.
  function RedactEvent(redact: Redactor, e: Event): (r: Event) {
    match e
    case ObservationCaptured(i, snapshot, url) => ObservationCaptured(i, redact(snapshot), redact(url))
    case ActionDecided(i, d) => ActionDecided(i, RedactDecision(redact, d))
    case ActionExecuted(i, used, ok) => ActionExecuted(i, RedactUsed(redact, used), ok)
    case RunSucceeded(outputs, condition) => RunSucceeded(RedactMap(redact, outputs), redact(condition))
    case _ => e
  }

  ghost predicate IsDelivered(events: seq<Event>, redact: Redactor, e: Event) {
    exists x :: x in events && RedactEvent(redact, x) == e
  }

  // The topic holds this run's events and, under this run id, nothing else.
  ghost predicate Delivered(topic: seq<Record>, runId: string, events: seq<Event>, redact: Redactor) {
    && (forall x :: x in events ==> Record(runId, RedactEvent(redact, x)) in topic)
    && (forall e :: Record(runId, e) in topic ==> IsDelivered(events, redact, e))
  }

  // ----- the tables of a successful run -----

  ghost predicate TablesOf<S>(t: Tables, moves: seq<Move<S>>, last: Decision, condition: string, redact: Redactor) {
    && (forall i :: i in t.decided <==> 0 <= i <= |moves|)
    && (forall i :: 0 <= i < |moves| ==> t.decided[i] == RedactDecision(redact, moves[i].decision))
    && t.decided[|moves|] == RedactDecision(redact, last)
    && (forall i :: i in t.executed <==> 0 <= i < |moves|)
    && (forall i :: 0 <= i < |moves| ==> t.executed[i] == RedactUsed(redact, moves[i].locatorUsed))
    && t.succeeded == Some(redact(condition))
  }

  lemma DecidedTable<S>(topic: seq<Record>, runId: string, events: seq<Event>, redact: Redactor, t: Tables, moves: seq<Move<S>>,
                        last: Decision, outputs: map<string, string>, condition: string, i: nat)
    requires Delivered(topic, runId, events, redact) && Tells(events, 0, moves, last, outputs, condition)
    requires KnowsDecided(topic, runId, t)
    ensures i in t.decided <==> i <= |moves|
    ensures i < |moves| ==> t.decided[i] == RedactDecision(redact, moves[i].decision)
    ensures i == |moves| ==> t.decided[i] == RedactDecision(redact, last)
  {
    if i <= |moves| {
      var d := if i < |moves| then moves[i].decision else last;
      assert ActionDecided(i, d) in events;
      assert Record(runId, RedactEvent(redact, ActionDecided(i, d))) in topic;
    }
    if i in t.decided {
      assert Record(runId, ActionDecided(i, t.decided[i])) in topic;
      assert IsDelivered(events, redact, ActionDecided(i, t.decided[i]));
      var x :| x in events && RedactEvent(redact, x) == ActionDecided(i, t.decided[i]);
      assert ActionDecided(i, x.decision) in events;
    }
  }

  lemma ExecutedTable<S>(topic: seq<Record>, runId: string, events: seq<Event>, redact: Redactor, t: Tables, moves: seq<Move<S>>,
                         last: Decision, outputs: map<string, string>, condition: string, i: nat)
    requires Delivered(topic, runId, events, redact) && Tells(events, 0, moves, last, outputs, condition)
    requires KnowsExecuted(topic, runId, t)
    ensures i in t.executed <==> i < |moves|
    ensures i < |moves| ==> t.executed[i] == RedactUsed(redact, moves[i].locatorUsed)
  {
    if i < |moves| {
      var x := ActionExecuted(i, moves[i].locatorUsed, true);
      assert x in events;
      assert Record(runId, RedactEvent(redact, x)) in topic;
    }
    if i in t.executed {
      assert WasExecuted(topic, runId, i, t.executed[i]);
      var ok :| Record(runId, ActionExecuted(i, t.executed[i], ok)) in topic;
      assert IsDelivered(events, redact, ActionExecuted(i, t.executed[i], ok));
      var x :| x in events && RedactEvent(redact, x) == ActionExecuted(i, t.executed[i], ok);
      assert ActionExecuted(i, x.locatorUsed, ok) in events;
    }
  }

  lemma SucceededTable<S>(topic: seq<Record>, runId: string, events: seq<Event>, redact: Redactor, t: Tables, moves: seq<Move<S>>,
                          last: Decision, outputs: map<string, string>, condition: string)
    requires Delivered(topic, runId, events, redact) && Tells(events, 0, moves, last, outputs, condition)
    requires KnowsSucceeded(topic, runId, t)
    ensures t.succeeded == Some(redact(condition))
  {
    var x := RunSucceeded(outputs, condition);
    assert x in events;
    assert Record(runId, RedactEvent(redact, x)) in topic;
    var o :| Record(runId, RunSucceeded(o, t.succeeded.value)) in topic;
    assert IsDelivered(events, redact, RunSucceeded(o, t.succeeded.value));
    var y :| y in events && RedactEvent(redact, y) == RunSucceeded(o, t.succeeded.value);
    assert RunSucceeded(y.outputs, y.successCondition) in events;
  }

  lemma DeliveredTables<S>(topic: seq<Record>, runId: string, events: seq<Event>, redact: Redactor, moves: seq<Move<S>>,
                           last: Decision, outputs: map<string, string>, condition: string)
    requires Delivered(topic, runId, events, redact) && Tells(events, 0, moves, last, outputs, condition)
    ensures TablesOf(Fold(topic, runId), moves, last, condition, redact)
  {
    var t := Fold(topic, runId);
    FoldKnows(topic, runId);
    forall i: nat ensures (i in t.decided <==> i <= |moves|)
                       && (i < |moves| ==> t.decided[i] == RedactDecision(redact, moves[i].decision))
                       && (i == |moves| ==> t.decided[i] == RedactDecision(redact, last)) {
      DecidedTable(topic, runId, events, redact, t, moves, last, outputs, condition, i);
    }
    forall i: nat ensures (i in t.executed <==> i < |moves|)
                       && (i < |moves| ==> t.executed[i] == RedactUsed(redact, moves[i].locatorUsed)) {
      ExecutedTable(topic, runId, events, redact, t, moves, last, outputs, condition, i);
    }
    SucceededTable(topic, runId, events, redact, t, moves, last, outputs, condition);
  }

  lemma NoSuccessDelivered(topic: seq<Record>, runId: string, events: seq<Event>, redact: Redactor)
    requires Delivered(topic, runId, events, redact) && NoSuccess(events)
    ensures Fold(topic, runId).succeeded == None
  {
    FoldKnows(topic, runId);
    forall e | Record(runId, e) in topic ensures !e.RunSucceeded? {
      assert IsDelivered(events, redact, e);
      var x :| x in events && RedactEvent(redact, x) == e;
    }
  }

  // However the events of a discovery run reach the topic, in any order, more than once, amid the
  // events of any other runs, they compile to the same result, whether the run succeeded or not.
  lemma DeliveryOrderIsHarmless<S(!new)>(app: App<S>, cfg: Config, planner: Planner, start: S, redact: Redactor, runId: string,
                                         a: seq<Record>, b: seq<Record>, da: Result<Draft, CompileError>, db: Result<Draft, CompileError>)
    requires var events := Discover(app, cfg, planner, start).events;
             Delivered(a, runId, events, redact) && Delivered(b, runId, events, redact)
    requires IsCompiled(Fold(a, runId), da) && IsCompiled(Fold(b, runId), db)
    ensures da == db
  {
    DiscoverTells(app, cfg, planner, start);
    SameTables(Discover(app, cfg, planner, start), redact, runId, a, b);
    if Fold(a, runId) == Fold(b, runId) { CompiledOnce(Fold(a, runId), da, db); }
  }

  lemma SameTables<S>(f: Found<S>, redact: Redactor, runId: string, a: seq<Record>, b: seq<Record>)
    requires Delivered(a, runId, f.events, redact) && Delivered(b, runId, f.events, redact)
    requires if f.status == SUCCEEDED then exists last, condition :: Tells(f.events, 0, f.moves, last, f.outputs, condition)
             else NoSuccess(f.events)
    ensures Fold(a, runId) == Fold(b, runId) || (Fold(a, runId).succeeded == None && Fold(b, runId).succeeded == None)
  {
    if f.status == SUCCEEDED {
      var last, condition :| Tells(f.events, 0, f.moves, last, f.outputs, condition);
      DeliveredTables(a, runId, f.events, redact, f.moves, last, f.outputs, condition);
      DeliveredTables(b, runId, f.events, redact, f.moves, last, f.outputs, condition);
      TablesEqual(Fold(a, runId), Fold(b, runId), f.moves, last, condition, redact);
    } else {
      NoSuccessDelivered(a, runId, f.events, redact);
      NoSuccessDelivered(b, runId, f.events, redact);
    }
  }

  lemma TablesEqual<S>(t: Tables, u: Tables, moves: seq<Move<S>>, last: Decision, condition: string, redact: Redactor)
    requires TablesOf(t, moves, last, condition, redact) && TablesOf(u, moves, last, condition, redact)
    ensures t == u
  {
  }
}
