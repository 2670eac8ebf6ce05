// services/event_log/storage.py and server.py: the append-only log. Every other service reaches it
// through these operations only. P is the decoded payload; uuid and clock readings are parameters.
module EventLog {
  import opened Prelude

  datatype StoredEvent<P> = StoredEvent(
    eventId: string, topic: string, offset: nat, correlationId: string, eventType: string,
    occurredAtMs: int, payload: P, dedupeKey: Option<string>)

  // payload_json arrives as bytes and is decoded only when the row is built.
  datatype Bytes<P> = Utf8(text: P) | Malformed

  datatype Request<P> = Request(
    topic: string, correlationId: string, eventType: string, payload: Bytes<P>, dedupeKey: Option<string>)

  datatype Reply = Acked(eventId: string, offset: nat) | Raised

  // The events table in insertion order, topic_offsets, consumer_offsets.
  datatype Log<P> = Log(
    events: seq<StoredEvent<P>>, next: map<string, nat>, committed: map<(string, string), int>)

  function NextOf(next: map<string, nat>, topic: string): (n: nat) {
    if topic in next then next[topic] else 0
  }

  // ----- append -----

  // SELECT ... WHERE topic = ? AND producer_dedupe_key = ?
  function FindKey<P>(events: seq<StoredEvent<P>>, topic: string, key: string): (r: Option<nat>)
    ensures r.Some? ==> r.value < |events| && events[r.value].topic == topic && events[r.value].dedupeKey == Some(key)
    ensures r.None? ==> forall i :: 0 <= i < |events| ==> !(events[i].topic == topic && events[i].dedupeKey == Some(key))
  {
    if events == [] then None
    else
      var n := |events| - 1;
      match FindKey(events[..n], topic, key)
      case Some(i) => Some(i)
      case None => if events[n].topic == topic && events[n].dedupeKey == Some(key) then Some(n) else None
  }

  // The INSERT raises on undecodable bytes, on a repeated uuid, and on UNIQUE(topic, dedupe key): the
  // look-up above it skips the empty key, the index does not.
  ghost predicate InsertRaises<P>(events: seq<StoredEvent<P>>, r: Request<P>, eventId: string) {
    || r.payload.Malformed?
    || (exists i :: 0 <= i < |events| && events[i].eventId == eventId)
    || (exists i :: 0 <= i < |events| && r.dedupeKey.Some? && events[i].topic == r.topic && events[i].dedupeKey == r.dedupeKey)
  }

  ghost predicate Deduped<P>(log: Log<P>, r: Request<P>) {
    r.dedupeKey.Some? && r.dedupeKey.value != "" && FindKey(log.events, r.topic, r.dedupeKey.value).Some?
  }

  // The counter is bumped before the INSERT and nothing rolls it back when the INSERT raises.
  ghost function Append<P>(log: Log<P>, r: Request<P>, eventId: string, now: int): (s: (Log<P>, Reply)) {
    if Deduped(log, r) then
      var e := log.events[FindKey(log.events, r.topic, r.dedupeKey.value).value];
      (log, Acked(e.eventId, e.offset))
    else
      var offset := NextOf(log.next, r.topic);
      var bumped := log.(next := log.next[r.topic := offset + 1]);
      if InsertRaises(log.events, r, eventId) then (bumped, Raised)
      else
        var e := StoredEvent(eventId, r.topic, offset, r.correlationId, r.eventType, now, r.payload.text, r.dedupeKey);
        (bumped.(events := log.events + [e]), Acked(eventId, offset))
  }

  // ----- reads -----

  // The events of a topic at or after an offset; the table is already in offset order.
  function From<P>(events: seq<StoredEvent<P>>, topic: string, start: int): (r: seq<StoredEvent<P>>) {
    if events == [] then []
    else
      var n := |events| - 1;
      From(events[..n], topic, start) +
      if events[n].topic == topic && events[n].offset >= start then [events[n]] else []
  }

  // LIMIT: a negative limit means no limit.
  function Page<P>(events: seq<StoredEvent<P>>, topic: string, start: int, limit: int): (r: seq<StoredEvent<P>>) {
    var all := From(events, topic, start);
    if limit < 0 then all else Take(all, limit)
  }

  function StartOf(committed: map<(string, string), int>, topic: string, group: string): (o: int) {
    if (topic, group) in committed then committed[(topic, group)] + 1 else 0
  }

  class EventStore<P(==)> {
    var events: seq<StoredEvent<P>>
    var next: map<string, nat>
    var committed: map<(string, string), int>

    ghost function View(): (log: Log<P>) reads this {
      Log(events, next, committed)
    }

    constructor ()
      ensures View() == Log([], map[], map[]) && WellFormed(View())
    {
      events, next, committed := [], map[], map[];
    }

    method AppendEvent(r: Request<P>, eventId: string, now: int) returns (reply: Reply)
      modifies `events, `next
      ensures (View(), reply) == Append(old(View()), r, eventId, now)
      ensures old(WellFormed(View())) ==> WellFormed(View())
      ensures reply.Acked? && events != old(events) ==>
                && r.payload.Utf8? && events == old(events) + [StoredEvent(eventId, r.topic, if r.topic in old(next) then old(next)[r.topic] else 0,
                                                                           r.correlationId, r.eventType, now, r.payload.text, r.dedupeKey)]
                && reply == Acked(eventId, if r.topic in old(next) then old(next)[r.topic] else 0)
    {
      KeepsWellFormed(View(), r, eventId, now);
      if r.dedupeKey.Some? && r.dedupeKey.value != "" {
        var existing := FindKey(events, r.topic, r.dedupeKey.value);
        if existing.Some? {
          return Acked(events[existing.value].eventId, events[existing.value].offset);
        }
      }
      if r.topic !in next {
        next := next[r.topic := 0];
      }
      next := next[r.topic := next[r.topic] + 1];
      var offset := next[r.topic] - 1;
      assert next == old(next)[r.topic := NextOf(old(next), r.topic) + 1];
      var raises := r.payload.Malformed?;
      for i := 0 to |events|
        invariant raises <==> (
          || r.payload.Malformed?
          || (exists j :: 0 <= j < i && events[j].eventId == eventId)
          || (exists j :: 0 <= j < i && r.dedupeKey.Some? && events[j].topic == r.topic && events[j].dedupeKey == r.dedupeKey))
      {
        raises := raises || events[i].eventId == eventId
          || (r.dedupeKey.Some? && events[i].topic == r.topic && events[i].dedupeKey == r.dedupeKey);
      }
      if raises {
        return Raised;
      }
      events := events + [StoredEvent(eventId, r.topic, offset, r.correlationId, r.eventType, now, r.payload.text, r.dedupeKey)];
      reply := Acked(eventId, offset);
    }

    // The page starts right after the group's committed offset; IsPage says what is on it.
    method Fetch(topic: string, group: string, maxEvents: int) returns (page: seq<StoredEvent<P>>)
      ensures page == Page(events, topic, StartOf(committed, topic, group), maxEvents)
      ensures WellFormed(View()) ==>
                IsPage(events, topic, if (topic, group) in committed then committed[(topic, group)] + 1 else 0, maxEvents, page)
    {
      page := Page(events, topic, StartOf(committed, topic, group), maxEvents);
      if WellFormed(View()) {
        PageIsPage(View(), topic, StartOf(committed, topic, group), maxEvents);
      }
    }

    method CommitOffset(topic: string, group: string, offset: int)
      modifies `committed
      ensures committed == old(committed)[(topic, group) := offset]
      ensures StartOf(committed, topic, group) == offset + 1
    {
      committed := committed[(topic, group) := offset];
    }
  }

  // ----- every reachable log -----

  datatype Op<P> = AppendOp(request: Request<P>, eventId: string, now: int) | CommitOp(topic: string, group: string, offset: int)

  ghost function Step<P>(log: Log<P>, op: Op<P>): (r: Log<P>) {
    match op
    case AppendOp(r, id, now) => Append(log, r, id, now).0
    case CommitOp(t, g, o) => log.(committed := log.committed[(t, g) := o])
  }

  ghost function Exec<P>(ops: seq<Op<P>>): (r: Log<P>) {
    if ops == [] then Log([], map[], map[]) else Step(Exec(ops[..|ops| - 1]), ops[|ops| - 1])
  }

  ghost predicate WellFormed<P>(log: Log<P>) {
    && (forall i :: 0 <= i < |log.events| ==> log.events[i].offset < NextOf(log.next, log.events[i].topic))
    && (forall i, j :: 0 <= i < j < |log.events| && log.events[i].topic == log.events[j].topic ==>
          && log.events[i].offset < log.events[j].offset
          && (log.events[i].dedupeKey.Some? ==> log.events[i].dedupeKey != log.events[j].dedupeKey))
    && (forall i, j :: 0 <= i < j < |log.events| ==> log.events[i].eventId != log.events[j].eventId)
  }

  lemma InsertKeepsWellFormed<P>(log: Log<P>, e: StoredEvent<P>)
    requires WellFormed(log) && e.offset == NextOf(log.next, e.topic)
    requires forall i :: 0 <= i < |log.events| ==> log.events[i].eventId != e.eventId
    requires e.dedupeKey.Some? ==> forall i :: 0 <= i < |log.events| && log.events[i].topic == e.topic ==> log.events[i].dedupeKey != e.dedupeKey
    ensures WellFormed(log.(events := log.events + [e], next := log.next[e.topic := e.offset + 1]))
  {
  }

  lemma AppendKeepsWellFormed<P>(log: Log<P>, r: Request<P>, eventId: string, now: int)
    requires WellFormed(log)
    ensures var after := Append(log, r, eventId, now).0;
            WellFormed(after) && log.events <= after.events && log.committed == after.committed
  {
    if !Deduped(log, r) && !InsertRaises(log.events, r, eventId) {
      InsertKeepsWellFormed(log, StoredEvent(eventId, r.topic, NextOf(log.next, r.topic), r.correlationId, r.eventType, now,
                                             r.payload.text, r.dedupeKey));
    }
  }

  lemma KeepsWellFormed<P>(log: Log<P>, r: Request<P>, eventId: string, now: int)
    ensures WellFormed(log) ==> WellFormed(Append(log, r, eventId, now).0)
  {
    if WellFormed(log) { AppendKeepsWellFormed(log, r, eventId, now); }
  }

  lemma {:induction false} ReachableWellFormed<P>(ops: seq<Op<P>>)
    ensures WellFormed(Exec(ops))
  {
    if ops != [] {
      var n := |ops| - 1;
      ReachableWellFormed(ops[..n]);
      if ops[n].AppendOp? {
        AppendKeepsWellFormed(Exec(ops[..n]), ops[n].request, ops[n].eventId, ops[n].now);
      }
    }
  }

  // Appends to a topic that raised, counted along the run.
  ghost function RaisedOn<P>(ops: seq<Op<P>>, topic: string): (n: nat) {
    if ops == [] then 0
    else
      var before, op := ops[..|ops| - 1], ops[|ops| - 1];
      RaisedOn(before, topic) +
      if op.AppendOp? && op.request.topic == topic && Append(Exec(before), op.request, op.eventId, op.now).1.Raised?
      then 1 else 0
  }

  // Offsets of the topic are exactly 0 .. next - 1, in order.
  ghost predicate Gapless<P>(log: Log<P>, topic: string) {
    var es := From(log.events, topic, 0);
    NextOf(log.next, topic) == |es| && forall i :: 0 <= i < |es| ==> es[i].offset == i
  }

  lemma FromAppended<P>(events: seq<StoredEvent<P>>, e: StoredEvent<P>, topic: string, start: int)
    ensures From(events + [e], topic, start) == From(events, topic, start) + if e.topic == topic && e.offset >= start then [e] else []
  {
    assert (events + [e])[..|events|] == events;
  }

  // An append that raises advances the counter alone.
  lemma AppendSkips<P>(log: Log<P>, r: Request<P>, id: string, now: int, topic: string)
    ensures var (after, reply) := Append(log, r, id, now);
            NextOf(after.next, topic) - |From(after.events, topic, 0)|
            == NextOf(log.next, topic) - |From(log.events, topic, 0)| + if r.topic == topic && reply.Raised? then 1 else 0
  {
    if !Deduped(log, r) && !InsertRaises(log.events, r, id) {
      FromAppended(log.events, Append(log, r, id, now).0.events[|log.events|], topic, 0);
    }
  }

  lemma {:induction false} OffsetsSkipped<P>(ops: seq<Op<P>>, topic: string)
    ensures var log := Exec(ops);
            NextOf(log.next, topic) == |From(log.events, topic, 0)| + RaisedOn(ops, topic)
  {
    if ops != [] {
      var n := |ops| - 1;
      OffsetsSkipped(ops[..n], topic);
      if ops[n].AppendOp? {
        AppendSkips(Exec(ops[..n]), ops[n].request, ops[n].eventId, ops[n].now, topic);
      }
    }
  }

  // A reading is exactly the events of the topic at or after its start.
  lemma {:induction false} FromMembers<P>(events: seq<StoredEvent<P>>, topic: string, start: int, e: StoredEvent<P>)
    ensures e in From(events, topic, start) <==> e in events && e.topic == topic && e.offset >= start
  {
    if events != [] {
      var n := |events| - 1;
      FromMembers(events[..n], topic, start, e);
      assert events == events[..n] + [events[n]];
    }
  }

  lemma {:induction false} FromWithin<P>(events: seq<StoredEvent<P>>, topic: string, start: int, bound: int)
    requires forall k :: 0 <= k < |events| && events[k].topic == topic ==> events[k].offset < bound
    ensures forall i :: 0 <= i < |From(events, topic, start)| ==>
                          start <= From(events, topic, start)[i].offset < bound
    ensures bound <= start ==> From(events, topic, start) == []
  {
    if events != [] { FromWithin(events[..|events| - 1], topic, start, bound); }
  }

  // One event more in the log, one more, or none, in the reading.
  lemma FromOneMore<P>(log: Log<P>, m: nat, topic: string, start: int)
    requires m < |log.events|
    ensures var e := log.events[m];
            From(log.events[..m + 1], topic, start)
            == From(log.events[..m], topic, start) + if e.topic == topic && e.offset >= start then [e] else []
  {
    assert log.events[..m + 1][..m] == log.events[..m];
  }

  // What a reading of a shorter log holds comes before the next event of the topic.
  lemma LastIsLatest<P>(log: Log<P>, m: nat, topic: string, start: int)
    requires WellFormed(log) && m < |log.events| && log.events[m].topic == topic
    ensures var es := From(log.events[..m], topic, start);
            && (forall i :: 0 <= i < |es| ==> es[i].offset < log.events[m].offset)
            && (start > log.events[m].offset ==> es == [])
  {
    assert forall k :: 0 <= k < m ==> log.events[..m][k] == log.events[k];
    FromWithin(log.events[..m], topic, start, log.events[m].offset);
  }

  ghost predicate Increasing<P>(es: seq<StoredEvent<P>>) {
    forall i, j :: 0 <= i < j < |es| ==> es[i].offset < es[j].offset
  }

  lemma {:induction false} FromIncreases<P>(log: Log<P>, n: nat, topic: string, start: int)
    requires WellFormed(log) && n <= |log.events|
    ensures Increasing(From(log.events[..n], topic, start))
  {
    if n > 0 {
      FromIncreases(log, n - 1, topic, start);
      FromOneMore(log, n - 1, topic, start);
      if log.events[n - 1].topic == topic { LastIsLatest(log, n - 1, topic, start); }
    }
  }

  lemma {:induction false} Pigeonhole<P>(es: seq<StoredEvent<P>>, bound: nat, i: nat)
    requires |es| == bound && forall k, l :: 0 <= k < l < |es| ==> es[k].offset < es[l].offset
    requires forall k :: 0 <= k < |es| ==> es[k].offset < bound
    requires i < |es|
    ensures es[i].offset == i
  {
    AtLeast(es, i);
    AtMost(es, bound, i);
  }

  lemma {:induction false} AtLeast<P>(es: seq<StoredEvent<P>>, i: nat)
    requires i < |es| && forall k, l :: 0 <= k < l < |es| ==> es[k].offset < es[l].offset
    ensures es[i].offset >= i
  {
    if i > 0 { AtLeast(es, i - 1); }
  }

  lemma {:induction false} AtMost<P>(es: seq<StoredEvent<P>>, bound: nat, i: nat)
    requires i < |es| && forall k, l :: 0 <= k < l < |es| ==> es[k].offset < es[l].offset
    requires forall k :: 0 <= k < |es| ==> es[k].offset < bound
    ensures es[i].offset <= bound - (|es| - i)
    decreases |es| - i
  {
    if i + 1 < |es| { AtMost(es, bound, i + 1); }
  }

  // The guard of the branch that leaves a gap: no stored event absorbs the append, and its INSERT raises.
  ghost predicate LeavesGap<P>(log: Log<P>, op: Op<P>, topic: string) {
    op.AppendOp? && op.request.topic == topic && !Deduped(log, op.request) && InsertRaises(log.events, op.request, op.eventId)
  }

  ghost predicate NoGapLeft<P>(ops: seq<Op<P>>, topic: string) {
    forall i :: 0 <= i < |ops| ==> !LeavesGap(Exec(ops[..i]), ops[i], topic)
  }

  lemma {:induction false} RaisedExactly<P>(ops: seq<Op<P>>, topic: string)
    ensures RaisedOn(ops, topic) == 0 <==> NoGapLeft(ops, topic)
  {
    if ops != [] {
      var n := |ops| - 1;
      RaisedExactly(ops[..n], topic);
      NoGapOneMore(ops, topic);
      RaisesByGuard(Exec(ops[..n]), ops[n], topic);
    }
  }

  lemma RaisesByGuard<P>(log: Log<P>, op: Op<P>, topic: string)
    ensures LeavesGap(log, op, topic) <==>
            op.AppendOp? && op.request.topic == topic && Append(log, op.request, op.eventId, op.now).1.Raised?
  {
  }

  lemma NoGapOneMore<P>(ops: seq<Op<P>>, topic: string)
    requires ops != []
    ensures var n := |ops| - 1;
            NoGapLeft(ops, topic) <==> NoGapLeft(ops[..n], topic) && !LeavesGap(Exec(ops[..n]), ops[n], topic)
  {
    var n := |ops| - 1;
    assert forall i :: 0 <= i < n ==> ops[..n][..i] == ops[..i] && ops[..n][i] == ops[i];
    if NoGapLeft(ops, topic) {
      forall i | 0 <= i < n ensures !LeavesGap(Exec(ops[..n][..i]), ops[..n][i], topic) {
        assert !LeavesGap(Exec(ops[..i]), ops[i], topic);
      }
    }
    if NoGapLeft(ops[..n], topic) && !LeavesGap(Exec(ops[..n]), ops[n], topic) {
      forall i | 0 <= i < |ops| ensures !LeavesGap(Exec(ops[..i]), ops[i], topic) {
        if i < n { assert !LeavesGap(Exec(ops[..n][..i]), ops[..n][i], topic); }
      }
    }
  }

  // In every reachable log a topic is gapless exactly when every append to it met a stored event under its
  // key, or could be inserted.
  lemma GaplessExactly<P>(ops: seq<Op<P>>, topic: string)
    ensures Gapless(Exec(ops), topic) <==> NoGapLeft(ops, topic)
  {
    var log := Exec(ops);
    var es := From(log.events, topic, 0);
    RaisedExactly(ops, topic);
    OffsetsSkipped(ops, topic);
    ReachableWellFormed(ops);
    FromIncreases(log, |log.events|, topic, 0);
    FromWithin(log.events, topic, 0, NextOf(log.next, topic));
    assert log.events[..|log.events|] == log.events;
    if RaisedOn(ops, topic) == 0 {
      forall i | 0 <= i < |es| ensures es[i].offset == i {
        Pigeonhole(es, NextOf(log.next, topic), i);
      }
    }
  }

  // What the server passes on: an empty key becomes none, and every event id is a new uuid.
  ghost predicate FromServer<P>(ops: seq<Op<P>>) {
    && (forall i :: 0 <= i < |ops| && ops[i].AppendOp? ==> ops[i].request.dedupeKey != Some(""))
    && (forall i, j :: 0 <= i < j < |ops| && ops[i].AppendOp? && ops[j].AppendOp? ==> ops[i].eventId != ops[j].eventId)
  }

  ghost predicate IdUsed<P>(ops: seq<Op<P>>, id: string) {
    exists j :: 0 <= j < |ops| && ops[j].AppendOp? && ops[j].eventId == id
  }

  lemma {:induction false} IdsComeFromAppends<P>(ops: seq<Op<P>>, k: nat)
    requires k < |Exec(ops).events|
    ensures IdUsed(ops, Exec(ops).events[k].eventId)
  {
    var n := |ops| - 1;
    if k < |Exec(ops[..n]).events| {
      IdsComeFromAppends(ops[..n], k);
      var j :| 0 <= j < n && ops[..n][j].AppendOp? && ops[..n][j].eventId == Exec(ops[..n]).events[k].eventId;
      assert ops[j].AppendOp? && Exec(ops).events[k] == Exec(ops[..n]).events[k];
    } else {
      assert ops[n].AppendOp?;
    }
  }

  // With new ids and no empty keys only an undecodable payload can make the INSERT raise.
  lemma OnlyMalformedRaises<P>(ops: seq<Op<P>>, i: nat)
    requires FromServer(ops) && i < |ops| && ops[i].AppendOp? && !Deduped(Exec(ops[..i]), ops[i].request)
    ensures InsertRaises(Exec(ops[..i]).events, ops[i].request, ops[i].eventId) <==> ops[i].request.payload.Malformed?
  {
    var log := Exec(ops[..i]);
    forall k | 0 <= k < |log.events| ensures log.events[k].eventId != ops[i].eventId {
      IdsComeFromAppends(ops[..i], k);
      var j :| 0 <= j < i && ops[..i][j].AppendOp? && ops[..i][j].eventId == log.events[k].eventId;
      assert ops[j].eventId != ops[i].eventId;
    }
  }

  // Through the server a topic is gapless exactly when each payload sent to it decodes, or belongs to an
  // append that an event already stored absorbs.
  lemma GaplessThroughServer<P>(ops: seq<Op<P>>, topic: string)
    requires FromServer(ops)
    ensures Gapless(Exec(ops), topic) <==>
            forall i :: 0 <= i < |ops| && ops[i].AppendOp? && ops[i].request.topic == topic && ops[i].request.payload.Malformed? ==>
              Deduped(Exec(ops[..i]), ops[i].request)
  {
    GaplessExactly(ops, topic);
    forall i | 0 <= i < |ops| && ops[i].AppendOp? && !Deduped(Exec(ops[..i]), ops[i].request)
      ensures LeavesGap(Exec(ops[..i]), ops[i], topic) <==> ops[i].request.topic == topic && ops[i].request.payload.Malformed?
    {
      OnlyMalformedRaises(ops, i);
    }
  }

  lemma KeylessAppend<P>(log: Log<P>, r: Request<P>, eventId: string, now: int)
    requires r.dedupeKey.None? && forall i :: 0 <= i < |log.events| ==> log.events[i].eventId != eventId
    ensures var offset := NextOf(log.next, r.topic);
            Append(log, r, eventId, now).0 == log.(
              next := log.next[r.topic := offset + 1],
              events := if r.payload.Malformed? then log.events
                        else log.events + [StoredEvent(eventId, r.topic, offset, r.correlationId, r.eventType, now, r.payload.text, None)])
  {
  }

  lemma ExecTwo<P>(a: Op<P>, b: Op<P>)
    ensures Exec([a, b]) == Step(Step(Log([], map[], map[]), a), b)
  {
    assert [a, b][..1] == [a] && [a][..0] == [];
    assert Exec([a]) == Step(Log([], map[], map[]), a);
  }

  // Such runs exist: one undecodable payload, and the topic's first event is at offset 1.
  lemma MalformedPayloadLeavesGap<P>(bad: Op<P>, good: Op<P>)
    requires bad.AppendOp? && bad.request.dedupeKey.None? && bad.request.payload.Malformed?
    requires good.AppendOp? && good.request.dedupeKey.None? && good.request.payload.Utf8? && good.request.topic == bad.request.topic
    ensures var log := Exec([bad, good]);
            |log.events| == 1 && log.events[0].offset == 1 && !Gapless(log, bad.request.topic)
  {
    var topic := bad.request.topic;
    var empty: Log<P> := Log([], map[], map[]);
    KeylessAppend(empty, bad.request, bad.eventId, bad.now);
    var one := Log([], map[topic := 1], map[]);
    assert Step(empty, bad) == one;
    KeylessAppend(one, good.request, good.eventId, good.now);
    var two := Step(one, good);
    ExecTwo(bad, good);
    assert two.events == [two.events[0]];
    OnlyEvent(two.events[0], topic);
  }

  lemma OnlyEvent<P>(e: StoredEvent<P>, topic: string)
    requires e.topic == topic
    ensures From([e], topic, 0) == [e]
  {
  }

  // ----- deduplication -----

  // Once an append with a non-empty key is acknowledged, repeating it on any later log returns
  // the same id and offset and changes nothing.
  lemma RepeatIsAbsorbed<P>(log: Log<P>, later: Log<P>, r: Request<P>, again: Request<P>, id: string, id': string, now: int, now': int)
    requires WellFormed(log) && WellFormed(later)
    requires r.dedupeKey.Some? && r.dedupeKey.value != "" && again.topic == r.topic && again.dedupeKey == r.dedupeKey
    requires Append(log, r, id, now).1.Acked?
    requires Append(log, r, id, now).0.events <= later.events
    ensures Append(later, again, id', now') == (later, Append(log, r, id, now).1)
  {
    var k := AckedAt(log, r, id, now);
    var after := Append(log, r, id, now).0;
    assert later.events[k] == after.events[k];
    KeyFoundAt(later, k, again.dedupeKey.value);
  }

  // Where the acknowledged event is.
  lemma AckedAt<P>(log: Log<P>, r: Request<P>, id: string, now: int) returns (k: nat)
    requires r.dedupeKey.Some? && r.dedupeKey.value != "" && Append(log, r, id, now).1.Acked?
    ensures var after, reply := Append(log, r, id, now).0, Append(log, r, id, now).1;
            && k < |after.events| && after.events[k].topic == r.topic && after.events[k].dedupeKey == r.dedupeKey
            && reply == Acked(after.events[k].eventId, after.events[k].offset)
  {
    k := if Deduped(log, r) then FindKey(log.events, r.topic, r.dedupeKey.value).value else |log.events|;
  }

  lemma KeyFoundAt<P>(log: Log<P>, k: nat, key: string)
    requires WellFormed(log) && k < |log.events| && log.events[k].dedupeKey == Some(key)
    ensures FindKey(log.events, log.events[k].topic, key) == Some(k)
  {
  }

  // ----- paging -----

  // Events of the topic at or after start, in increasing offset, at most `limit` of them (any number for a
  // negative limit), and none left out before the last.
  ghost predicate IsPage<P>(events: seq<StoredEvent<P>>, topic: string, start: int, limit: int, page: seq<StoredEvent<P>>) {
    && (forall e :: e in page ==> e in events && e.topic == topic && e.offset >= start)
    && Increasing(page)
    && (limit >= 0 ==> |page| <= limit)
    && (forall e :: e in events && e.topic == topic && e.offset >= start && e !in page ==>
          limit >= 0 && |page| == limit && forall i :: 0 <= i < |page| ==> page[i].offset < e.offset)
  }

  // The reading a page is taken from.
  ghost predicate IsReading<P>(events: seq<StoredEvent<P>>, topic: string, start: int, all: seq<StoredEvent<P>>) {
    && Increasing(all)
    && (forall e :: e in all ==> e in events && e.topic == topic && e.offset >= start)
    && (forall e :: e in events && e.topic == topic && e.offset >= start ==> e in all)
  }

  lemma FromIsReading<P>(log: Log<P>, topic: string, start: int)
    requires WellFormed(log)
    ensures IsReading(log.events, topic, start, From(log.events, topic, start))
  {
    var all := From(log.events, topic, start);
    FromIncreases(log, |log.events|, topic, start);
    assert log.events[..|log.events|] == log.events;
    forall e | e in all ensures e in log.events && e.topic == topic && e.offset >= start {
      FromMembers(log.events, topic, start, e);
    }
    forall e | e in log.events && e.topic == topic && e.offset >= start ensures e in all {
      FromMembers(log.events, topic, start, e);
    }
  }

  lemma TakeIsPage<P>(events: seq<StoredEvent<P>>, topic: string, start: int, limit: int, all: seq<StoredEvent<P>>)
    requires IsReading(events, topic, start, all)
    ensures IsPage(events, topic, start, limit, if limit < 0 then all else Take(all, limit))
  {
    var page := if limit < 0 then all else Take(all, limit);
    assert page <= all;
    assert forall m :: 0 <= m < |page| ==> page[m] == all[m];
    forall e | e in all && e !in page ensures limit >= 0 && |page| == limit && forall i :: 0 <= i < |page| ==> page[i].offset < e.offset {
      var k :| 0 <= k < |all| && all[k] == e;
      assert k >= |page|;
    }
  }

  lemma PageIsPage<P>(log: Log<P>, topic: string, start: int, limit: int)
    requires WellFormed(log)
    ensures IsPage(log.events, topic, start, limit, Page(log.events, topic, start, limit))
  {
    FromIsReading(log, topic, start);
    TakeIsPage(log.events, topic, start, limit, From(log.events, topic, start));
  }

  // A page is the topic's events from `start` in offset order with nothing skipped: what is not
  // on it lies beyond its last event, and the next page starts right there.
  lemma {:induction false} PagesConcatenate<P>(log: Log<P>, topic: string, start: int, limit: int)
    requires WellFormed(log) && Page(log.events, topic, start, limit) != []
    ensures var page := Page(log.events, topic, start, limit);
            From(log.events, topic, start) == page + From(log.events, topic, page[|page| - 1].offset + 1)
  {
    var page := Page(log.events, topic, start, limit);
    assert log.events[..|log.events|] == log.events;
    var all := From(log.events, topic, start);
    assert page == all[..|page|];
    FromSuffix(log, |log.events|, topic, start, |page| - 1);
  }

  // Asking again from just past the i-th event of a reading gives the rest of that reading.
  lemma {:induction false} FromSuffix<P>(log: Log<P>, n: nat, topic: string, start: int, i: nat)
    requires WellFormed(log) && n <= |log.events| && i < |From(log.events[..n], topic, start)|
    ensures From(log.events[..n], topic, From(log.events[..n], topic, start)[i].offset + 1)
            == From(log.events[..n], topic, start)[i + 1..]
    decreases n
  {
    var m := n - 1;
    FromOneMore(log, m, topic, start);
    if i < |From(log.events[..m], topic, start)| {
      FromSuffix(log, m, topic, start, i);
      SuffixStep(log, m, topic, start, i);
    } else {
      SuffixEnds(log, m, topic, start);
    }
  }

  // The next event of the topic comes after all of the reading, so it extends both sides alike.
  lemma SuffixStep<P>(log: Log<P>, m: nat, topic: string, start: int, i: nat)
    requires WellFormed(log) && m < |log.events| && i < |From(log.events[..m], topic, start)|
    requires var es := From(log.events[..m], topic, start); From(log.events[..m], topic, es[i].offset + 1) == es[i + 1..]
    ensures var es := From(log.events[..m + 1], topic, start);
            i < |es| && From(log.events[..m + 1], topic, es[i].offset + 1) == es[i + 1..]
  {
    var e, es := log.events[m], From(log.events[..m], topic, start);
    FromOneMore(log, m, topic, start);
    FromOneMore(log, m, topic, es[i].offset + 1);
    if e.topic == topic {
      LastIsLatest(log, m, topic, start);
      FromWithinStart(log.events[..m], topic, start);
      assert (es + [e])[i] == es[i] && (es + [e])[i + 1..] == es[i + 1..] + [e];
    }
  }

  lemma FromWithinStart<P>(events: seq<StoredEvent<P>>, topic: string, start: int)
    ensures forall k :: 0 <= k < |From(events, topic, start)| ==> From(events, topic, start)[k].offset >= start
  {
    forall k | 0 <= k < |From(events, topic, start)| ensures From(events, topic, start)[k].offset >= start {
      FromMembers(events, topic, start, From(events, topic, start)[k]);
    }
  }

  lemma SuffixEnds<P>(log: Log<P>, m: nat, topic: string, start: int)
    requires WellFormed(log) && m < |log.events| && |From(log.events[..m + 1], topic, start)| > |From(log.events[..m], topic, start)|
    ensures var es := From(log.events[..m + 1], topic, start);
            From(log.events[..m + 1], topic, es[|es| - 1].offset + 1) == []
  {
    var e := log.events[m];
    FromOneMore(log, m, topic, start);
    FromOneMore(log, m, topic, e.offset + 1);
    LastIsLatest(log, m, topic, e.offset + 1);
  }

  // Growth of the log only extends a reading at its end.
  lemma {:induction false} FromGrows<P>(a: seq<StoredEvent<P>>, b: seq<StoredEvent<P>>, topic: string, start: int)
    requires a <= b
    ensures From(a, topic, start) <= From(b, topic, start)
    decreases |b|
  {
    if |a| < |b| {
      FromGrows(a, b[..|b| - 1], topic, start);
    } else {
      assert a == b;
    }
  }

  // ----- StreamTopic -----

  const STREAM_PAGE := 1000

  // Poll i of the generator reads snapshots[i]; other threads append in between, so each snapshot
  // extends the one before.
  method StreamTopic<P>(snapshots: seq<Log<P>>, topic: string, fromOffset: int)
      returns (yielded: seq<StoredEvent<P>>, offset: int)
    requires Growing(snapshots)
    ensures snapshots == [] ==> yielded == []
    ensures snapshots != [] ==> Streamed(snapshots[|snapshots| - 1].events, topic, fromOffset, yielded, offset)
    ensures snapshots != [] ==>
              |yielded| >= Min(1000 * |snapshots|, |From(snapshots[0].events, topic, fromOffset)|)
  {
    yielded, offset := [], fromOffset;
    for poll := 0 to |snapshots|
      invariant StreamedTo(snapshots, poll, STREAM_PAGE, topic, fromOffset, yielded, offset)
    {
      var events := Page(snapshots[poll].events, topic, offset, STREAM_PAGE);
      PollAdvances(snapshots, poll, STREAM_PAGE, topic, fromOffset, yielded, offset);
      ghost var before, start := yielded, offset;
      for i := 0 to |events|
        invariant yielded == before + events[..i]
        invariant offset == if i == 0 then start else events[i - 1].offset + 1
      {
        yielded := yielded + [events[i]];
        offset := events[i].offset + 1;
      }
      assert yielded == before + events;
    }
  }

  ghost predicate Growing<P>(snapshots: seq<Log<P>>) {
    && (forall i :: 0 <= i < |snapshots| ==> WellFormed(snapshots[i]))
    && (forall i :: 0 < i < |snapshots| ==> snapshots[i - 1].events <= snapshots[i].events)
  }

  ghost predicate StreamedTo<P>(snapshots: seq<Log<P>>, polls: nat, limit: nat, topic: string, start: int, done: seq<StoredEvent<P>>, offset: int)
    requires polls <= |snapshots|
  {
    if polls == 0 then done == [] && offset == start
    else
      && Streamed(snapshots[polls - 1].events, topic, start, done, offset)
      && |done| >= Min(limit * polls, |From(snapshots[0].events, topic, start)|)
  }

  lemma PollAdvances<P>(snapshots: seq<Log<P>>, poll: nat, limit: nat, topic: string, start: int, done: seq<StoredEvent<P>>, offset: int)
    requires Growing(snapshots) && poll < |snapshots| && StreamedTo(snapshots, poll, limit, topic, start, done, offset)
    ensures var events := Page(snapshots[poll].events, topic, offset, limit);
            StreamedTo(snapshots, poll + 1, limit, topic, start, done + events,
                       if events == [] then offset else events[|events| - 1].offset + 1)
  {
    var log := snapshots[poll];
    if poll > 0 {
      ReadingSplits(snapshots[poll - 1], log, topic, start, done, offset);
    } else {
      assert From(log.events, topic, start) == done + From(log.events, topic, offset);
    }
    StreamedPage(log, limit, topic, start, done, offset);
    FirstReadingIsShorter(snapshots, poll, topic, start);
    var events := Page(log.events, topic, offset, limit);
    MinAdvances(limit, |done|, |done + events|, poll, |From(snapshots[0].events, topic, start)|, |From(log.events, topic, start)|);
  }

  lemma MinAdvances(limit: nat, before: nat, after: nat, polls: nat, first: nat, now: nat)
    requires polls > 0 ==> before >= Min(limit * polls, first)
    requires after >= Min(before + limit, now) && first <= now
    ensures after >= Min(limit * (polls + 1), first)
  {
    assert limit * (polls + 1) == limit * polls + limit;
  }

  lemma FirstReadingIsShorter<P>(snapshots: seq<Log<P>>, i: nat, topic: string, start: int)
    requires i < |snapshots| && Growing(snapshots)
    ensures |From(snapshots[0].events, topic, start)| <= |From(snapshots[i].events, topic, start)|
  {
    SnapshotsGrow(snapshots, i);
    FromGrows(snapshots[0].events, snapshots[i].events, topic, start);
  }

  // The stream has delivered exactly the events before its position, in order, and the rest of the
  // reading is what lies at or after the position.
  ghost predicate Streamed<P>(table: seq<StoredEvent<P>>, topic: string, start: int, done: seq<StoredEvent<P>>, offset: int) {
    && From(table, topic, start) == done + From(table, topic, offset)
    && offset == if done == [] then start else done[|done| - 1].offset + 1
  }

  lemma StreamedPage<P>(log: Log<P>, limit: nat, topic: string, start: int, done: seq<StoredEvent<P>>, offset: int)
    requires WellFormed(log) && Streamed(log.events, topic, start, done, offset)
    ensures var events := Page(log.events, topic, offset, limit);
            && Streamed(log.events, topic, start, done + events,
                        if events == [] then offset else events[|events| - 1].offset + 1)
            && |done + events| >= Min(|done| + limit, |From(log.events, topic, start)|)
  {
    var events := Page(log.events, topic, offset, limit);
    if events != [] {
      PagesConcatenate(log, topic, offset, limit);
      assert (done + events) + From(log.events, topic, events[|events| - 1].offset + 1)
          == done + (events + From(log.events, topic, events[|events| - 1].offset + 1));
    } else {
      assert done + events == done;
    }
  }

  lemma {:induction false} SnapshotsGrow<P>(snapshots: seq<Log<P>>, i: nat)
    requires i < |snapshots| && Growing(snapshots)
    ensures snapshots[0].events <= snapshots[i].events
  {
    if i > 0 { SnapshotsGrow(snapshots, i - 1); }
  }

  // What has been yielded and what is left still make up the whole reading after the log has grown.
  lemma ReadingSplits<P>(a: Log<P>, b: Log<P>, topic: string, start: int, done: seq<StoredEvent<P>>, offset: int)
    requires WellFormed(a) && WellFormed(b) && a.events <= b.events
    requires Streamed(a.events, topic, start, done, offset)
    ensures Streamed(b.events, topic, start, done, offset)
  {
    if done != [] {
      FromGrows(a.events, b.events, topic, start);
      PrefixSplits(b, topic, start, done);
    }
  }

  lemma PrefixSplits<P>(log: Log<P>, topic: string, start: int, done: seq<StoredEvent<P>>)
    requires WellFormed(log) && done != [] && done <= From(log.events, topic, start)
    ensures From(log.events, topic, start) == done + From(log.events, topic, done[|done| - 1].offset + 1)
  {
    var i, es := |done| - 1, From(log.events, topic, start);
    assert log.events[..|log.events|] == log.events;
    FromSuffix(log, |log.events|, topic, start, i);
    assert es == es[..i + 1] + es[i + 1..] && es[..i + 1] == done;
  }

  // ----- reading without gaps -----

  // On a gapless topic a reading from any offset is the rest of the topic from there.
  lemma GaplessReading<P>(log: Log<P>, topic: string, start: nat)
    requires WellFormed(log) && Gapless(log, topic)
    ensures var all := From(log.events, topic, 0);
            From(log.events, topic, start) == if start <= |all| then all[start..] else []
  {
    var all := From(log.events, topic, 0);
    assert log.events[..|log.events|] == log.events;
    if 0 < start <= |all| {
      FromSuffix(log, |log.events|, topic, 0, start - 1);
    } else if start > |all| {
      FromWithin(log.events, topic, start, NextOf(log.next, topic));
    }
  }

  // What a stream has yielded on a gapless topic carries consecutive offsets from its start.
  lemma StreamedConsecutively<P>(log: Log<P>, topic: string, start: nat, done: seq<StoredEvent<P>>, offset: int)
    requires WellFormed(log) && Gapless(log, topic) && Streamed(log.events, topic, start, done, offset)
    ensures offset == start + |done| && forall i :: 0 <= i < |done| ==> done[i].offset == start + i
  {
    var all, rest := From(log.events, topic, 0), From(log.events, topic, offset);
    GaplessReading(log, topic, start);
    forall i | 0 <= i < |done| ensures done[i].offset == start + i {
      assert (done + rest)[i] == done[i];
      assert all[start..][i] == all[start + i];
    }
  }

  // ----- a consumer group -----

  function After(committed: Option<int>): (start: int) {
    if committed.Some? then committed.value + 1 else 0
  }

  // One page: each event is handled and its offset committed.
  method HandlePage<P>(page: seq<StoredEvent<P>>, committed: Option<int>)
      returns (handled: seq<StoredEvent<P>>, last: Option<int>)
    ensures handled == page
    ensures After(last) == if page == [] then After(committed) else page[|page| - 1].offset + 1
  {
    handled, last := [], committed;
    for i := 0 to |page|
      invariant handled == page[..i]
      invariant last == if i == 0 then committed else Some(page[i - 1].offset)
    {
      handled := handled + [page[i]];
      last := Some(page[i].offset);
    }
  }

  // A consumer that fetches, handles each event and commits its offset, round after round while the log
  // grows: it sees the topic from its first event on, each event once and none skipped.
  method ConsumeInOrder<P>(snapshots: seq<Log<P>>, topic: string, maxEvents: nat)
      returns (seen: seq<StoredEvent<P>>, committed: Option<int>)
    requires Growing(snapshots)
    ensures snapshots == [] ==> seen == []
    ensures snapshots != [] ==> Streamed(snapshots[|snapshots| - 1].events, topic, 0, seen, After(committed))
    ensures snapshots != [] ==> |seen| >= Min(maxEvents * |snapshots|, |From(snapshots[0].events, topic, 0)|)
  {
    seen, committed := [], None;
    for round := 0 to |snapshots|
      invariant StreamedTo(snapshots, round, maxEvents, topic, 0, seen, After(committed))
    {
      var page := Page(snapshots[round].events, topic, After(committed), maxEvents);
      PollAdvances(snapshots, round, maxEvents, topic, 0, seen, After(committed));
      var handled;
      handled, committed := HandlePage(page, committed);
      seen := seen + handled;
    }
  }
}
