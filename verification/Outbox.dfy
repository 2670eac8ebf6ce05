// shared/outbox.py: the outbox table and the dispatchers that publish it.
//
// A service has several dispatchers over one table (the polling thread, and dispatch_once called from
// request handlers), so the protocol is a state machine in which one committed statement or one remote
// call is one step, and a dispatcher may stop dead between any two.
module Outbox {
  import opened Prelude
  import opened EventLog

  const BATCH := 50

  datatype Row<P> = Row(
    id: string, topic: string, correlationId: string, eventType: string, payload: P,
    published: bool, attempts: nat, createdAtMs: int)

  // enqueue: the payload is redacted once, here.
  function NewRow<P>(id: string, topic: string, correlationId: string, eventType: string, payload: P,
                     redact: P -> P, now: int): (r: Row<P>) {
    Row(id, topic, correlationId, eventType, redact(payload), false, 0, now)
  }

  // What dispatch_once sends for a row: the row id is the producer's dedupe key.
  function RequestFor<P>(r: Row<P>): (q: Request<P>) {
    Request(r.topic, r.correlationId, r.eventType, Utf8(r.payload), if r.id == "" then None else Some(r.id))
  }

  function PendingCount<P>(rows: seq<Row<P>>): (n: nat) {
    if rows == [] then 0
    else PendingCount(rows[..|rows| - 1]) + if rows[|rows| - 1].published then 0 else 1
  }

  // SELECT ... WHERE status = 'pending' ORDER BY created_at_ms ASC LIMIT 50; ties come in any order.
  ghost predicate IsBatch<P>(rows: seq<Row<P>>, batch: seq<Row<P>>) {
    && |batch| == Min(BATCH, PendingCount(rows))
    && (forall i :: 0 <= i < |batch| ==> batch[i] in rows && !batch[i].published)
    && (forall i, j :: 0 <= i < j < |batch| ==> batch[i].createdAtMs <= batch[j].createdAtMs && batch[i].id != batch[j].id)
    && (forall r, i :: r in rows && !r.published && r !in batch && 0 <= i < |batch| ==> batch[i].createdAtMs <= r.createdAtMs)
  }

  function Publish<P>(r: Row<P>, id: string): (s: Row<P>) {
    if r.id == id then r.(published := true) else r
  }

  function Retry<P>(r: Row<P>, id: string): (s: Row<P>) {
    if r.id == id then r.(attempts := r.attempts + 1) else r
  }

  // UPDATE outbox SET status = 'published' / attempts = attempts + 1 WHERE id = ?
  function PublishIn<P>(rows: seq<Row<P>>, id: string): (r: seq<Row<P>>)
    ensures |r| == |rows| && forall i :: 0 <= i < |rows| ==> r[i] == Publish(rows[i], id)
  {
    seq(|rows|, i requires 0 <= i < |rows| => Publish(rows[i], id))
  }

  function RetryIn<P>(rows: seq<Row<P>>, id: string): (r: seq<Row<P>>)
    ensures |r| == |rows| && forall i :: 0 <= i < |rows| ==> r[i] == Retry(rows[i], id)
  {
    seq(|rows|, i requires 0 <= i < |rows| => Retry(rows[i], id))
  }

  // ----- the protocol -----

  datatype Phase = Appending | Marking | Bumping

  datatype Worker<P> = Idle | Busy(batch: seq<Row<P>>, at: nat, phase: Phase)

  datatype Sys<P> = Sys(rows: seq<Row<P>>, log: Log<P>, workers: map<nat, Worker<P>>)

  datatype Action<P> =
    | Enqueue(row: Row<P>)
    | Select(w: nat, batch: seq<Row<P>>)
    | Deliver(w: nat, eventId: string, now: int)         // the append returns, or raises as EventLog.Append says
    | DeliverUnacked(w: nat, eventId: string, now: int)  // the log appended, the dispatcher saw an error
    | Lose(w: nat)                                       // the call has not reached the log
    | Straggle(j: nat, eventId: string, now: int)        // an append of row j that was given up reaches it now
    | Mark(w: nat)
    | MarkFails(w: nat)
    | Bump(w: nat)
    | Crash(w: nat)
    | Foreign(request: Request<P>, eventId: string, now: int)  // another producer's append

  function WorkerAt<P>(s: Sys<P>, w: nat): (k: Worker<P>) {
    if w in s.workers then s.workers[w] else Idle
  }

  function InPhase<P>(s: Sys<P>, w: nat, p: Phase): (b: bool) {
    WorkerAt(s, w).Busy? && WorkerAt(s, w).phase == p && WorkerAt(s, w).at < |WorkerAt(s, w).batch|
  }

  function Current<P>(s: Sys<P>, w: nat): (r: Row<P>)
    requires exists p :: InPhase(s, w, p)
  {
    WorkerAt(s, w).batch[WorkerAt(s, w).at]
  }

  function GoTo<P>(s: Sys<P>, w: nat, p: Phase): (r: Sys<P>)
    requires WorkerAt(s, w).Busy?
  {
    s.(workers := s.workers[w := WorkerAt(s, w).(phase := p)])
  }

  function Advance<P>(s: Sys<P>, w: nat): (r: Sys<P>)
    requires WorkerAt(s, w).Busy?
  {
    var k := WorkerAt(s, w);
    s.(workers := s.workers[w := if k.at + 1 == |k.batch| then Idle else Busy(k.batch, k.at + 1, Appending)])
  }

  // uuid4 ids are fresh; nobody else uses an outbox row's id as its dedupe key.
  ghost predicate FreshRow<P>(s: Sys<P>, row: Row<P>) {
    && row.id != "" && !row.published && row.attempts == 0
    && (forall i :: 0 <= i < |s.rows| ==> s.rows[i].id != row.id)
    && (forall i :: 0 <= i < |s.log.events| ==> s.log.events[i].dedupeKey != Some(row.id))
  }

  ghost predicate NotAnOutboxKey<P>(s: Sys<P>, r: Request<P>) {
    forall i :: 0 <= i < |s.rows| ==> r.dedupeKey != Some(s.rows[i].id)
  }

  // A step that is not enabled changes nothing.
  ghost function Next<P>(s: Sys<P>, a: Action<P>): (r: Sys<P>) {
    match a
    case Enqueue(row) => if FreshRow(s, row) then s.(rows := s.rows + [row]) else s
    case Select(w, batch) =>
      if WorkerAt(s, w).Idle? && IsBatch(s.rows, batch) && batch != [] then
        s.(workers := s.workers[w := Busy(batch, 0, Appending)])
      else s
    case Deliver(w, id, now) =>
      if InPhase(s, w, Appending) then
        var (log, reply) := EventLog.Append(s.log, RequestFor(Current(s, w)), id, now);
        GoTo(s.(log := log), w, if reply.Acked? then Marking else Bumping)
      else s
    case DeliverUnacked(w, id, now) =>
      if InPhase(s, w, Appending) then
        GoTo(s.(log := EventLog.Append(s.log, RequestFor(Current(s, w)), id, now).0), w, Bumping)
      else s
    case Lose(w) => if InPhase(s, w, Appending) then GoTo(s, w, Bumping) else s
    case Straggle(j, id, now) =>
      if j < |s.rows| then s.(log := EventLog.Append(s.log, RequestFor(s.rows[j]), id, now).0) else s
    case Mark(w) =>
      if InPhase(s, w, Marking) then Advance(s.(rows := PublishIn(s.rows, Current(s, w).id)), w) else s
    case MarkFails(w) => if InPhase(s, w, Marking) then GoTo(s, w, Bumping) else s
    case Bump(w) =>
      if InPhase(s, w, Bumping) then Advance(s.(rows := RetryIn(s.rows, Current(s, w).id)), w) else s
    case Crash(w) => s.(workers := s.workers[w := Idle])
    case Foreign(request, id, now) =>
      if NotAnOutboxKey(s, request) then s.(log := EventLog.Append(s.log, request, id, now).0) else s
  }

  ghost function RunFrom<P>(s: Sys<P>, acts: seq<Action<P>>): (r: Sys<P>) {
    if acts == [] then s else Next(RunFrom(s, acts[..|acts| - 1]), acts[|acts| - 1])
  }

  ghost function Start<P>(): (s: Sys<P>) {
    Sys([], Log([], map[], map[]), map[])
  }

  // ----- exactly once -----

  predicate SameMessage<P(==)>(a: Row<P>, b: Row<P>) {
    && a.id == b.id && a.topic == b.topic && a.correlationId == b.correlationId
    && a.eventType == b.eventType && a.payload == b.payload && a.createdAtMs == b.createdAtMs
  }

  ghost predicate Carries<P>(e: StoredEvent<P>, r: Row<P>) {
    && e.dedupeKey == Some(r.id) && e.topic == r.topic && e.correlationId == r.correlationId
    && e.eventType == r.eventType && e.payload == r.payload
  }

  ghost predicate Delivered<P>(log: Log<P>, r: Row<P>) {
    exists i :: 0 <= i < |log.events| && Carries(log.events[i], r)
  }

  ghost predicate RowsOk<P>(rows: seq<Row<P>>) {
    && (forall i :: 0 <= i < |rows| ==> rows[i].id != "")
    && (forall i, j :: 0 <= i < j < |rows| ==> rows[i].id != rows[j].id)
  }

  // Every event under a row's id carries that row; every published row has been delivered.
  ghost predicate LogMatches<P>(rows: seq<Row<P>>, log: Log<P>) {
    && (forall i, j :: 0 <= i < |log.events| && 0 <= j < |rows| && log.events[i].dedupeKey == Some(rows[j].id) ==>
          Carries(log.events[i], rows[j]))
    && (forall j :: 0 <= j < |rows| && rows[j].published ==> Delivered(log, rows[j]))
  }

  ghost predicate HasRow<P>(rows: seq<Row<P>>, r: Row<P>) {
    exists j :: 0 <= j < |rows| && SameMessage(r, rows[j])
  }

  ghost predicate WorkerOk<P>(rows: seq<Row<P>>, log: Log<P>, k: Worker<P>) {
    k.Busy? ==>
      && k.at < |k.batch|
      && (forall i :: 0 <= i < |k.batch| ==> HasRow(rows, k.batch[i]))
      && (k.phase == Marking ==> Delivered(log, k.batch[k.at]))
  }

  ghost predicate Inv<P>(s: Sys<P>) {
    && WellFormed(s.log) && RowsOk(s.rows) && LogMatches(s.rows, s.log)
    && forall w :: w in s.workers ==> WorkerOk(s.rows, s.log, s.workers[w])
  }

  // Appending a row's message: it is delivered afterwards (unless the append raised), once.
  lemma AppendRow<P>(rows: seq<Row<P>>, log: Log<P>, r: Row<P>, j: nat, id: string, now: int)
    requires WellFormed(log) && RowsOk(rows) && LogMatches(rows, log)
    requires j < |rows| && SameMessage(r, rows[j])
    ensures var (after, reply) := EventLog.Append(log, RequestFor(r), id, now);
            && WellFormed(after) && LogMatches(rows, after) && log.events <= after.events
            && (reply.Acked? ==> Delivered(after, r))
  {
    AppendKeepsWellFormed(log, RequestFor(r), id, now);
    var (after, reply) := EventLog.Append(log, RequestFor(r), id, now);
    if Deduped(log, RequestFor(r)) {
      var k := FindKey(log.events, r.topic, r.id).value;
      assert Carries(log.events[k], rows[j]);
      assert Carries(after.events[k], r);
    } else if reply.Acked? {
      assert Carries(after.events[|log.events|], r);
      forall i, m | 0 <= i < |after.events| && 0 <= m < |rows| && after.events[i].dedupeKey == Some(rows[m].id)
        ensures Carries(after.events[i], rows[m])
      {
        if i == |log.events| { assert m == j; }
      }
      DeliveredStays(rows, log, after);
    }
  }

  lemma DeliveredStays<P>(rows: seq<Row<P>>, log: Log<P>, after: Log<P>)
    requires log.events <= after.events
    ensures forall r: Row<P> :: Delivered(log, r) ==> Delivered(after, r)
  {
    forall r: Row<P> | Delivered(log, r) ensures Delivered(after, r) {
      var i :| 0 <= i < |log.events| && Carries(log.events[i], r);
      assert Carries(after.events[i], r);
    }
  }

  lemma WorkersStay<P>(s: Sys<P>, rows: seq<Row<P>>, log: Log<P>)
    requires forall w :: w in s.workers ==> WorkerOk(s.rows, s.log, s.workers[w])
    requires s.log.events <= log.events && |s.rows| <= |rows|
    requires forall j :: 0 <= j < |s.rows| ==> SameMessage(s.rows[j], rows[j])
    ensures forall w :: w in s.workers ==> WorkerOk(rows, log, s.workers[w])
  {
    DeliveredStays(s.rows, s.log, log);
    forall w | w in s.workers ensures WorkerOk(rows, log, s.workers[w]) {
      WorkerStays(s.rows, rows, s.log, log, s.workers[w]);
    }
  }

  lemma WorkerStays<P>(rows: seq<Row<P>>, rows': seq<Row<P>>, log: Log<P>, log': Log<P>, k: Worker<P>)
    requires WorkerOk(rows, log, k) && |rows| <= |rows'|
    requires forall j :: 0 <= j < |rows| ==> SameMessage(rows[j], rows'[j])
    requires forall r: Row<P> :: Delivered(log, r) ==> Delivered(log', r)
    ensures WorkerOk(rows', log', k)
  {
    if k.Busy? {
      forall i | 0 <= i < |k.batch| ensures HasRow(rows', k.batch[i]) {
        assert HasRow(rows, k.batch[i]);
        var j :| 0 <= j < |rows| && SameMessage(k.batch[i], rows[j]);
        assert SameMessage(rows[j], rows'[j]);
        assert SameMessage(k.batch[i], rows'[j]);
      }
    }
  }

  lemma DeliverKeepsInv<P>(s: Sys<P>, w: nat, id: string, now: int)
    requires Inv(s) && InPhase(s, w, Appending)
    ensures var (log, reply) := EventLog.Append(s.log, RequestFor(Current(s, w)), id, now);
            && Inv(GoTo(s.(log := log), w, Bumping))
            && (reply.Acked? ==> Inv(GoTo(s.(log := log), w, Marking)))
  {
    var r := Current(s, w);
    assert WorkerOk(s.rows, s.log, s.workers[w]) && HasRow(s.rows, r);
    var j :| 0 <= j < |s.rows| && SameMessage(r, s.rows[j]);
    AppendRow(s.rows, s.log, r, j, id, now);
    WorkersStay(s, s.rows, EventLog.Append(s.log, RequestFor(r), id, now).0);
  }

  lemma EnqueueKeepsInv<P>(s: Sys<P>, row: Row<P>)
    requires Inv(s) && FreshRow(s, row)
    ensures Inv(s.(rows := s.rows + [row]))
  {
    WorkersStay(s, s.rows + [row], s.log);
  }

  lemma MarkKeepsInv<P>(s: Sys<P>, w: nat)
    requires Inv(s) && InPhase(s, w, Marking)
    ensures Inv(Advance(s.(rows := PublishIn(s.rows, Current(s, w).id)), w))
  {
    var r, rows := Current(s, w), PublishIn(s.rows, Current(s, w).id);
    assert WorkerOk(s.rows, s.log, s.workers[w]);
    forall j | 0 <= j < |rows| && rows[j].published ensures Delivered(s.log, rows[j]) {
      var i :| 0 <= i < |s.log.events| && if s.rows[j].id == r.id then Carries(s.log.events[i], r) else Carries(s.log.events[i], s.rows[j]);
      assert Carries(s.log.events[i], rows[j]);
    }
    WorkersStay(s, rows, s.log);
  }

  lemma BumpKeepsInv<P>(s: Sys<P>, w: nat)
    requires Inv(s) && InPhase(s, w, Bumping)
    ensures Inv(Advance(s.(rows := RetryIn(s.rows, Current(s, w).id)), w))
  {
    var rows := RetryIn(s.rows, Current(s, w).id);
    assert WorkerOk(s.rows, s.log, s.workers[w]);
    forall j | 0 <= j < |rows| && rows[j].published ensures Delivered(s.log, rows[j]) {
      var i :| 0 <= i < |s.log.events| && Carries(s.log.events[i], s.rows[j]);
      assert Carries(s.log.events[i], rows[j]);
    }
    WorkersStay(s, rows, s.log);
  }

  lemma ForeignKeepsInv<P>(s: Sys<P>, request: Request<P>, id: string, now: int)
    requires Inv(s) && NotAnOutboxKey(s, request)
    ensures Inv(s.(log := EventLog.Append(s.log, request, id, now).0))
  {
    AppendKeepsWellFormed(s.log, request, id, now);
    var log := EventLog.Append(s.log, request, id, now).0;
    DeliveredStays(s.rows, s.log, log);
    WorkersStay(s, s.rows, log);
  }

  lemma StraggleKeepsInv<P>(s: Sys<P>, j: nat, id: string, now: int)
    requires Inv(s) && j < |s.rows|
    ensures Inv(s.(log := EventLog.Append(s.log, RequestFor(s.rows[j]), id, now).0))
  {
    AppendRow(s.rows, s.log, s.rows[j], j, id, now);
    WorkersStay(s, s.rows, EventLog.Append(s.log, RequestFor(s.rows[j]), id, now).0);
  }

  lemma SelectKeepsInv<P>(s: Sys<P>, w: nat, batch: seq<Row<P>>)
    requires Inv(s) && IsBatch(s.rows, batch) && batch != []
    ensures Inv(s.(workers := s.workers[w := Busy(batch, 0, Appending)]))
  {
    forall i | 0 <= i < |batch| ensures HasRow(s.rows, batch[i]) {
      var j :| 0 <= j < |s.rows| && s.rows[j] == batch[i];
      assert SameMessage(batch[i], s.rows[j]);
    }
  }

  lemma NextKeepsInv<P>(s: Sys<P>, a: Action<P>)
    requires Inv(s)
    ensures Inv(Next(s, a))
  {
    match a
    case Enqueue(row) => if FreshRow(s, row) { EnqueueKeepsInv(s, row); }
    case Select(w, batch) => if IsBatch(s.rows, batch) && batch != [] { SelectKeepsInv(s, w, batch); }
    case Deliver(w, id, now) => if InPhase(s, w, Appending) { DeliverKeepsInv(s, w, id, now); }
    case DeliverUnacked(w, id, now) => if InPhase(s, w, Appending) { DeliverKeepsInv(s, w, id, now); }
    case Lose(w) =>
    case Straggle(j, id, now) => if j < |s.rows| { StraggleKeepsInv(s, j, id, now); }
    case Mark(w) => if InPhase(s, w, Marking) { MarkKeepsInv(s, w); }
    case MarkFails(w) =>
    case Bump(w) => if InPhase(s, w, Bumping) { BumpKeepsInv(s, w); }
    case Crash(w) =>
    case Foreign(request, id, now) => if NotAnOutboxKey(s, request) { ForeignKeepsInv(s, request, id, now); }
  }

  lemma {:induction false} RunKeepsInv<P>(s: Sys<P>, acts: seq<Action<P>>)
    requires Inv(s)
    ensures Inv(RunFrom(s, acts))
  {
    if acts != [] {
      RunKeepsInv(s, acts[..|acts| - 1]);
      NextKeepsInv(RunFrom(s, acts[..|acts| - 1]), acts[|acts| - 1]);
    }
  }

  function Occurrences<P>(events: seq<StoredEvent<P>>, key: string): (n: nat) {
    if events == [] then 0
    else Occurrences(events[..|events| - 1], key) + if events[|events| - 1].dedupeKey == Some(key) then 1 else 0
  }

  lemma {:induction false} AtMostOne<P>(events: seq<StoredEvent<P>>, key: string)
    requires forall i, j :: 0 <= i < j < |events| && events[i].dedupeKey == Some(key) ==> events[j].dedupeKey != Some(key)
    ensures Occurrences(events, key) <= 1
    ensures Occurrences(events, key) == 1 <==> exists i :: 0 <= i < |events| && events[i].dedupeKey == Some(key)
  {
    if events != [] {
      var n := |events| - 1;
      AtMostOne(events[..n], key);
      if events[n].dedupeKey == Some(key) {
        assert forall i :: 0 <= i < n ==> events[..n][i].dedupeKey != Some(key);
      } else if i :| 0 <= i < |events| && events[i].dedupeKey == Some(key) {
        assert events[..n][i].dedupeKey == Some(key);
      }
    }
  }

  // Whatever the interleaving of dispatchers, lost calls, lost replies, failed updates and
  // crashes, and however late an append arrives, a row gives at most one event, carrying its own message; a
  // published row gives exactly one.
  lemma ExactlyOnce<P>(acts: seq<Action<P>>, j: nat)
    requires j < |RunFrom(Start<P>(), acts).rows|
    ensures var s := RunFrom(Start<P>(), acts);
            && Occurrences(s.log.events, s.rows[j].id) <= 1
            && (s.rows[j].published ==> Occurrences(s.log.events, s.rows[j].id) == 1)
            && (Occurrences(s.log.events, s.rows[j].id) == 1 <==> Delivered(s.log, s.rows[j]))
  {
    var s := RunFrom(Start<P>(), acts);
    RunKeepsInv(Start<P>(), acts);
    var es, key := s.log.events, s.rows[j].id;
    assert forall a :: 0 <= a < |es| && es[a].dedupeKey == Some(key) ==> Carries(es[a], s.rows[j]);
    AtMostOne(es, key);
    if Delivered(s.log, s.rows[j]) {
      var i :| 0 <= i < |es| && Carries(es[i], s.rows[j]);
      assert es[i].dedupeKey == Some(key);
    }
    if i :| 0 <= i < |es| && es[i].dedupeKey == Some(key) {
      assert Carries(es[i], s.rows[j]);
    }
  }
}
