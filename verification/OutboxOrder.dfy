// shared/outbox.py, continued: publication order, and draining.
module OutboxOrder {
  import opened Prelude
  import opened EventLog
  import opened Outbox

  // ----- in-order publication -----

  // No append fails from the dispatcher's point of view, and rows are committed in timestamp order.
  // Dispatchers may still crash, and marking may still fail.
  ghost predicate Smooth<P>(s: Sys<P>, a: Action<P>) {
    match a
    case Lose(_) => false
    case DeliverUnacked(_, _, _) => false
    case Straggle(_, _, _) => false
    case Deliver(w, id, now) =>
      InPhase(s, w, Appending) ==> EventLog.Append(s.log, RequestFor(Current(s, w)), id, now).1.Acked?
    case Enqueue(row) => forall i :: 0 <= i < |s.rows| ==> s.rows[i].createdAtMs <= row.createdAtMs
    case _ => true
  }

  ghost predicate SmoothRun<P>(acts: seq<Action<P>>) {
    acts != [] ==>
      && SmoothRun(acts[..|acts| - 1])
      && Smooth(RunFrom(Start<P>(), acts[..|acts| - 1]), acts[|acts| - 1])
  }

  // Before the event of a row come the events of all rows stamped earlier.
  ghost predicate Ordered<P>(rows: seq<Row<P>>, log: Log<P>) {
    forall i, a, b :: 0 <= i < |log.events| && 0 <= a < |rows| && 0 <= b < |rows|
                      && Carries(log.events[i], rows[b]) && rows[a].createdAtMs < rows[b].createdAtMs ==>
                        DeliveredBefore(log, i, rows[a])
  }

  ghost predicate DeliveredBefore<P>(log: Log<P>, i: nat, r: Row<P>)
    requires i <= |log.events|
  {
    exists k :: 0 <= k < i && Carries(log.events[k], r)
  }

  ghost predicate EarlierInBatch<P>(batch: seq<Row<P>>, k: nat, r: Row<P>)
    requires k <= |batch|
  {
    exists m :: 0 <= m < k && SameMessage(batch[m], r)
  }

  function DoneBy<P>(k: Worker<P>): (n: nat)
    requires k.Busy?
  {
    if k.phase == Appending then k.at else k.at + 1
  }

  ghost predicate Downward<P>(rows: seq<Row<P>>, log: Log<P>, k: Worker<P>) {
    k.Busy? ==>
      && (forall m :: 0 <= m < DoneBy(k) && m < |k.batch| ==> Delivered(log, k.batch[m]))
      && (forall j, m :: 0 <= j < |rows| && 0 <= m < |k.batch| && rows[j].createdAtMs < k.batch[m].createdAtMs ==>
            Delivered(log, rows[j]) || EarlierInBatch(k.batch, m, rows[j]))
  }

  ghost predicate OrderInv<P>(s: Sys<P>) {
    && Inv(s) && Ordered(s.rows, s.log)
    && forall w :: w in s.workers ==> Downward(s.rows, s.log, s.workers[w])
  }

  lemma OthersStayDownward<P>(s: Sys<P>, rows: seq<Row<P>>, log: Log<P>)
    requires forall w :: w in s.workers ==> Downward(s.rows, s.log, s.workers[w])
    requires |s.rows| == |rows| && s.log.events <= log.events
    requires forall j :: 0 <= j < |rows| ==> SameMessage(s.rows[j], rows[j])
    ensures forall w :: w in s.workers ==> Downward(rows, log, s.workers[w])
  {
  }

  // The event just appended for a worker's current row comes after those of all rows stamped earlier.
  lemma NewestIsOrdered<P>(s: Sys<P>, w: nat, e: StoredEvent<P>, a: nat, b: nat)
    requires OrderInv(s) && InPhase(s, w, Appending) && e.dedupeKey == Some(Current(s, w).id)
    requires a < |s.rows| && b < |s.rows| && Carries(e, s.rows[b]) && s.rows[a].createdAtMs < s.rows[b].createdAtMs
    ensures Delivered(s.log, s.rows[a])
  {
  }

  lemma OrderedAfterDeliver<P>(s: Sys<P>, w: nat, id: string, now: int)
    requires OrderInv(s) && InPhase(s, w, Appending)
    requires EventLog.Append(s.log, RequestFor(Current(s, w)), id, now).1.Acked?
    ensures Ordered(s.rows, EventLog.Append(s.log, RequestFor(Current(s, w)), id, now).0)
  {
    var r, log := Current(s, w), EventLog.Append(s.log, RequestFor(Current(s, w)), id, now).0;
    var events, n := log.events, |s.log.events|;
    assert s.log.events <= events && |events| <= n + 1;
    assert |events| == n + 1 ==> RequestFor(r).dedupeKey == events[n].dedupeKey;
    OrderedOneMore(s, w, log);
  }

  lemma OrderedOneMore<P>(s: Sys<P>, w: nat, log: Log<P>)
    requires OrderInv(s) && InPhase(s, w, Appending) && s.log.events <= log.events && |log.events| <= |s.log.events| + 1
    requires |log.events| == |s.log.events| + 1 ==> log.events[|s.log.events|].dedupeKey == RequestFor(Current(s, w)).dedupeKey
    ensures Ordered(s.rows, log)
  {
    var n := |s.log.events|;
    forall i, a, b | 0 <= i < |log.events| && 0 <= a < |s.rows| && 0 <= b < |s.rows|
                     && Carries(log.events[i], s.rows[b]) && s.rows[a].createdAtMs < s.rows[b].createdAtMs
      ensures DeliveredBefore(log, i, s.rows[a])
    {
      if i < n {
        assert log.events[i] == s.log.events[i];
        assert DeliveredBefore(s.log, i, s.rows[a]);
      } else {
        NewestIsOrdered(s, w, log.events[n], a, b);
      }
      var k :| 0 <= k < n && k < i && Carries(s.log.events[k], s.rows[a]);
      assert Carries(log.events[k], s.rows[a]);
    }
  }

  // A worker's own part after it has delivered, or moved on from, its current row.
  lemma MarkingDownward<P>(rows: seq<Row<P>>, log: Log<P>, k: Worker<P>, p: Phase)
    requires k.Busy? && Downward(rows, log, k)
    requires k.at < |k.batch| ==> k.phase != Appending || Delivered(log, k.batch[k.at])
    ensures Downward(rows, log, k.(phase := p))
    ensures Downward(rows, log, Busy(k.batch, k.at + 1, Appending))
  {
  }

  lemma LogOnlyGrows<P>(s: Sys<P>, w: nat, id: string, now: int)
    requires Inv(s) && InPhase(s, w, Appending)
    ensures s.log.events <= EventLog.Append(s.log, RequestFor(Current(s, w)), id, now).0.events
  {
    AppendKeepsWellFormed(s.log, RequestFor(Current(s, w)), id, now);
  }

  lemma DeliverKeepsOrder<P>(s: Sys<P>, w: nat, id: string, now: int)
    requires OrderInv(s) && InPhase(s, w, Appending) && Smooth(s, Deliver(w, id, now))
    ensures OrderInv(Next(s, Deliver(w, id, now)))
  {
    var log := EventLog.Append(s.log, RequestFor(Current(s, w)), id, now).0;
    NextKeepsInv(s, Deliver(w, id, now));
    OrderedAfterDeliver(s, w, id, now);
    LogOnlyGrows(s, w, id, now);
    OthersStayDownward(s, s.rows, log);
    DeliveredNow(s, w, id, now);
    MarkingDownward(s.rows, log, s.workers[w], Marking);
    OneMoved(s, Next(s, Deliver(w, id, now)), w, s.workers[w].(phase := Marking));
  }

  // One worker has moved to k; nobody's part has come undone.
  lemma OneMoved<P>(s: Sys<P>, s': Sys<P>, w: nat, k: Worker<P>)
    requires Inv(s') && s'.workers == s.workers[w := k] && Ordered(s'.rows, s'.log) && Downward(s'.rows, s'.log, k)
    requires forall u :: u in s.workers ==> Downward(s'.rows, s'.log, s.workers[u])
    ensures OrderInv(s')
  {
  }

  lemma DeliveredNow<P>(s: Sys<P>, w: nat, id: string, now: int)
    requires Inv(s) && InPhase(s, w, Appending)
    requires EventLog.Append(s.log, RequestFor(Current(s, w)), id, now).1.Acked?
    ensures Delivered(EventLog.Append(s.log, RequestFor(Current(s, w)), id, now).0, Current(s, w))
  {
    var r := Current(s, w);
    assert WorkerOk(s.rows, s.log, s.workers[w]) && HasRow(s.rows, r);
    var j :| 0 <= j < |s.rows| && SameMessage(r, s.rows[j]);
    AppendRow(s.rows, s.log, r, j, id, now);
  }

  // A row just committed is the youngest, and nothing has been sent for it.
  ghost predicate Youngest<P>(s: Sys<P>, row: Row<P>) {
    FreshRow(s, row) && forall i :: 0 <= i < |s.rows| ==> s.rows[i].createdAtMs <= row.createdAtMs
  }

  lemma OrderedWithRow<P>(s: Sys<P>, row: Row<P>)
    requires Ordered(s.rows, s.log) && Youngest(s, row)
    ensures Ordered(s.rows + [row], s.log)
  {
    var rows := s.rows + [row];
    forall i, a, b | 0 <= i < |s.log.events| && 0 <= a < |rows| && 0 <= b < |rows|
                     && Carries(s.log.events[i], rows[b]) && rows[a].createdAtMs < rows[b].createdAtMs
      ensures DeliveredBefore(s.log, i, rows[a])
    {
      assert b < |s.rows| && a < |s.rows|;
    }
  }

  lemma DownwardWithRow<P>(s: Sys<P>, row: Row<P>, k: Worker<P>)
    requires Downward(s.rows, s.log, k) && WorkerOk(s.rows, s.log, k) && Youngest(s, row)
    ensures Downward(s.rows + [row], s.log, k)
  {
    var rows := s.rows + [row];
    if k.Busy? {
      forall j, m | 0 <= j < |rows| && 0 <= m < |k.batch| && rows[j].createdAtMs < k.batch[m].createdAtMs
        ensures Delivered(s.log, rows[j]) || EarlierInBatch(k.batch, m, rows[j])
      {
        assert HasRow(s.rows, k.batch[m]);
        assert j < |s.rows|;
      }
    }
  }

  lemma EnqueueKeepsOrder<P>(s: Sys<P>, row: Row<P>)
    requires OrderInv(s) && Smooth(s, Enqueue(row)) && FreshRow(s, row)
    ensures OrderInv(Next(s, Enqueue(row)))
  {
    NextKeepsInv(s, Enqueue(row));
    OrderedWithRow(s, row);
    forall w | w in s.workers ensures Downward(s.rows + [row], s.log, s.workers[w]) {
      DownwardWithRow(s, row, s.workers[w]);
    }
  }

  lemma SelectKeepsOrder<P>(s: Sys<P>, w: nat, batch: seq<Row<P>>)
    requires OrderInv(s) && IsBatch(s.rows, batch) && batch != []
    ensures Downward(s.rows, s.log, Busy(batch, 0, Appending))
  {
    forall j, m | 0 <= j < |s.rows| && 0 <= m < |batch| && s.rows[j].createdAtMs < batch[m].createdAtMs
      ensures Delivered(s.log, s.rows[j]) || EarlierInBatch(batch, m, s.rows[j])
    {
      if !s.rows[j].published {
        assert s.rows[j] in batch;
        var n :| 0 <= n < |batch| && batch[n] == s.rows[j];
        assert SameMessage(batch[n], s.rows[j]);
      }
    }
  }

  lemma OrderedUnderUpdate<P>(rows: seq<Row<P>>, rows': seq<Row<P>>, log: Log<P>)
    requires Ordered(rows, log) && |rows| == |rows'|
    requires forall j :: 0 <= j < |rows| ==> SameMessage(rows[j], rows'[j])
    ensures Ordered(rows', log)
  {
  }

  lemma UpdateKeepsOrder<P>(s: Sys<P>, w: nat, rows: seq<Row<P>>)
    requires OrderInv(s) && (InPhase(s, w, Marking) || InPhase(s, w, Bumping))
    requires |s.rows| == |rows| && forall j :: 0 <= j < |rows| ==> SameMessage(s.rows[j], rows[j])
    requires Inv(Advance(s.(rows := rows), w))
    ensures OrderInv(Advance(s.(rows := rows), w))
  {
    OrderedUnderUpdate(s.rows, rows, s.log);
    OthersStayDownward(s, rows, s.log);
    var k := s.workers[w];
    TurnsToNext(rows, s.log, k);
    OneMoved(s, Advance(s.(rows := rows), w), w, if k.at + 1 == |k.batch| then Idle else Busy(k.batch, k.at + 1, Appending));
  }

  lemma TurnsToNext<P>(rows: seq<Row<P>>, log: Log<P>, k: Worker<P>)
    requires k.Busy? && k.phase != Appending && Downward(rows, log, k)
    ensures Downward(rows, log, if k.at + 1 == |k.batch| then Idle else Busy(k.batch, k.at + 1, Appending))
  {
  }

  lemma OrderedUnderForeign<P>(s: Sys<P>, log: Log<P>)
    requires Ordered(s.rows, s.log) && s.log.events <= log.events && |log.events| <= |s.log.events| + 1
    requires forall i, j :: |s.log.events| <= i < |log.events| && 0 <= j < |s.rows| ==> log.events[i].dedupeKey != Some(s.rows[j].id)
    ensures Ordered(s.rows, log)
  {
  }

  lemma ForeignKeepsOrder<P>(s: Sys<P>, request: Request<P>, id: string, now: int)
    requires OrderInv(s) && NotAnOutboxKey(s, request)
    ensures OrderInv(Next(s, Foreign(request, id, now)))
  {
    NextKeepsInv(s, Foreign(request, id, now));
    AppendKeepsWellFormed(s.log, request, id, now);
    var log := EventLog.Append(s.log, request, id, now).0;
    OthersStayDownward(s, s.rows, log);
    OrderedUnderForeign(s, log);
  }

  // Nothing happened but to the workers.
  lemma WorkersKeepOrder<P>(s: Sys<P>, s': Sys<P>)
    requires OrderInv(s) && Inv(s') && s'.rows == s.rows && s'.log == s.log
    requires forall w :: w in s'.workers ==> Downward(s.rows, s.log, s'.workers[w])
    ensures OrderInv(s')
  {
  }

  lemma IdleIsDownward<P>(rows: seq<Row<P>>, log: Log<P>)
    ensures Downward(rows, log, Idle)
  {
  }

  lemma NextKeepsOrder<P>(s: Sys<P>, a: Action<P>)
    requires OrderInv(s) && Smooth(s, a)
    ensures OrderInv(Next(s, a))
  {
    match a
    case Enqueue(row) => if FreshRow(s, row) { EnqueueKeepsOrder(s, row); }
    case Select(w, batch) => SelectsKeepOrder(s, w, batch);
    case Deliver(w, id, now) => if InPhase(s, w, Appending) { DeliverKeepsOrder(s, w, id, now); }
    case DeliverUnacked(_, _, _) =>
    case Lose(_) =>
    case Mark(w) => UpdatesKeepOrder(s, w, a);
    case MarkFails(w) => MarkFailsKeepsOrder(s, w);
    case Bump(w) => UpdatesKeepOrder(s, w, a);
    case Crash(w) => CrashKeepsOrder(s, w);
    case Foreign(request, id, now) => if NotAnOutboxKey(s, request) { ForeignKeepsOrder(s, request, id, now); }
  }

  lemma SelectsKeepOrder<P>(s: Sys<P>, w: nat, batch: seq<Row<P>>)
    requires OrderInv(s)
    ensures OrderInv(Next(s, Select(w, batch)))
  {
    NextKeepsInv(s, Select(w, batch));
    if WorkerAt(s, w).Idle? && IsBatch(s.rows, batch) && batch != [] {
      SelectKeepsOrder(s, w, batch);
      WorkersKeepOrder(s, Next(s, Select(w, batch)));
    }
  }

  lemma UpdatesKeepOrder<P>(s: Sys<P>, w: nat, a: Action<P>)
    requires OrderInv(s) && (a == Mark(w) || a == Bump(w))
    ensures OrderInv(Next(s, a))
  {
    NextKeepsInv(s, a);
    if a.Mark? && InPhase(s, w, Marking) {
      UpdateKeepsOrder(s, w, PublishIn(s.rows, Current(s, w).id));
    } else if a.Bump? && InPhase(s, w, Bumping) {
      UpdateKeepsOrder(s, w, RetryIn(s.rows, Current(s, w).id));
    }
  }

  lemma CrashKeepsOrder<P>(s: Sys<P>, w: nat)
    requires OrderInv(s)
    ensures OrderInv(Next(s, Crash(w)))
  {
    NextKeepsInv(s, Crash(w));
    IdleIsDownward(s.rows, s.log);
    WorkersKeepOrder(s, Next(s, Crash(w)));
  }

  lemma MarkFailsKeepsOrder<P>(s: Sys<P>, w: nat)
    requires OrderInv(s)
    ensures OrderInv(Next(s, MarkFails(w)))
  {
    NextKeepsInv(s, MarkFails(w));
    if InPhase(s, w, Marking) {
      BumpsAfterMark(s.rows, s.log, s.workers[w]);
      OneMoved(s, Next(s, MarkFails(w)), w, s.workers[w].(phase := Bumping));
    }
  }

  lemma BumpsAfterMark<P>(rows: seq<Row<P>>, log: Log<P>, k: Worker<P>)
    requires k.Busy? && k.phase == Marking && Downward(rows, log, k)
    ensures Downward(rows, log, k.(phase := Bumping))
  {
  }

  lemma {:induction false} SmoothRunsOrdered<P>(acts: seq<Action<P>>)
    requires SmoothRun(acts)
    ensures OrderInv(RunFrom(Start<P>(), acts))
  {
    if acts != [] {
      SmoothRunsOrdered(acts[..|acts| - 1]);
      NextKeepsOrder(RunFrom(Start<P>(), acts[..|acts| - 1]), acts[|acts| - 1]);
    }
  }

  // When no append fails and rows are committed in timestamp order, no row is appended before a
  // row stamped earlier, however the dispatchers interleave, crash and repeat each other's work.
  lemma PublishedInOrder<P>(acts: seq<Action<P>>, i: nat, a: nat, b: nat)
    requires SmoothRun(acts)
    requires var s := RunFrom(Start<P>(), acts);
             && i < |s.log.events| && a < |s.rows| && b < |s.rows|
             && Carries(s.log.events[i], s.rows[b]) && s.rows[a].createdAtMs < s.rows[b].createdAtMs
    ensures var s := RunFrom(Start<P>(), acts);
            exists k :: 0 <= k < i && Carries(s.log.events[k], s.rows[a])
  {
    SmoothRunsOrdered(acts);
    var s := RunFrom(Start<P>(), acts);
    assert DeliveredBefore(s.log, i, s.rows[a]);
  }

  // ----- draining -----

  // The rest of a pass in which every append succeeds and every row gets marked.
  ghost function DeliverRest<P>(s: Sys<P>, w: nat, uuids: seq<string>, now: int): (r: Sys<P>)
    decreases |uuids|
  {
    if uuids == [] then s
    else DeliverRest(Next(Next(s, Deliver(w, uuids[0], now)), Mark(w)), w, uuids[1..], now)
  }

  ghost predicate FreshUuids<P>(log: Log<P>, uuids: seq<string>) {
    && (forall i, j :: 0 <= i < j < |uuids| ==> uuids[i] != uuids[j])
    && (forall i, k :: 0 <= i < |uuids| && 0 <= k < |log.events| ==> log.events[k].eventId != uuids[i])
  }

  ghost predicate IsPending<P>(rows: seq<Row<P>>, id: string) {
    exists j :: 0 <= j < |rows| && rows[j].id == id && !rows[j].published
  }

  ghost predicate StillPending<P>(rows: seq<Row<P>>, batch: seq<Row<P>>, at: nat) {
    && (forall m :: at <= m < |batch| ==> IsPending(rows, batch[m].id))
    && (forall m, n :: 0 <= m < n < |batch| ==> batch[m].id != batch[n].id)
  }

  lemma {:induction false} PublishCounts<P>(rows: seq<Row<P>>, j: nat)
    requires RowsOk(rows) && j < |rows| && !rows[j].published
    ensures PendingCount(PublishIn(rows, rows[j].id)) == PendingCount(rows) - 1
  {
    var n := |rows| - 1;
    var after := PublishIn(rows, rows[j].id);
    assert RowsOk(rows[..n]);
    if j < n {
      PublishCounts(rows[..n], j);
      assert after[..n] == PublishIn(rows[..n], rows[..n][j].id);
    } else {
      assert after[..n] == rows[..n];
    }
  }

  // The append of a delivering pass is acknowledged and adds at most the fresh event.
  lemma FreshDeliver<P>(s: Sys<P>, w: nat, uuid: string, now: int)
    requires Inv(s) && InPhase(s, w, Appending) && FreshUuids(s.log, [uuid])
    ensures var mid := Next(s, Deliver(w, uuid, now));
            && Inv(mid) && mid.rows == s.rows && WorkerAt(mid, w) == s.workers[w].(phase := Marking)
            && |mid.log.events| <= |s.log.events| + 1
            && (forall i :: 0 <= i < |mid.log.events| ==>
                  mid.log.events[i].eventId == uuid || (i < |s.log.events| && mid.log.events[i] == s.log.events[i]))
  {
    var r := Current(s, w);
    assert WorkerOk(s.rows, s.log, s.workers[w]) && HasRow(s.rows, r);
    assert [uuid][0] == uuid;
    var j :| 0 <= j < |s.rows| && SameMessage(r, s.rows[j]);
    assert RequestFor(r).dedupeKey == Some(r.id);
    NextKeepsInv(s, Deliver(w, uuid, now));
  }

  lemma PendingMoves<P>(rows: seq<Row<P>>, batch: seq<Row<P>>, at: nat)
    requires RowsOk(rows) && at < |batch| && StillPending(rows, batch, at)
    ensures StillPending(PublishIn(rows, batch[at].id), batch, at + 1)
    ensures PendingCount(PublishIn(rows, batch[at].id)) == PendingCount(rows) - 1
  {
    assert IsPending(rows, batch[at].id);
    var j :| 0 <= j < |rows| && rows[j].id == batch[at].id && !rows[j].published;
    PublishCounts(rows, j);
    var after := PublishIn(rows, batch[at].id);
    forall m | at + 1 <= m < |batch| ensures IsPending(after, batch[m].id) {
      assert IsPending(rows, batch[m].id);
      var i :| 0 <= i < |rows| && rows[i].id == batch[m].id && !rows[i].published;
      assert after[i] == rows[i];
    }
  }

  ghost predicate Delivering<P>(s: Sys<P>, w: nat, uuids: seq<string>) {
    && Inv(s) && FreshUuids(s.log, uuids)
    && (uuids != [] ==>
          && InPhase(s, w, Appending) && |uuids| == |s.workers[w].batch| - s.workers[w].at
          && StillPending(s.rows, s.workers[w].batch, s.workers[w].at))
    && (uuids == [] ==> WorkerAt(s, w).Idle?)
  }

  lemma DeliverThenMark<P>(s: Sys<P>, w: nat, uuids: seq<string>, now: int)
    requires uuids != [] && Delivering(s, w, uuids)
    ensures var after := Next(Next(s, Deliver(w, uuids[0], now)), Mark(w));
            Delivering(after, w, uuids[1..]) && PendingCount(after.rows) == PendingCount(s.rows) - 1
  {
    assert FreshUuids(s.log, [uuids[0]]);
    FreshDeliver(s, w, uuids[0], now);
    var mid := Next(s, Deliver(w, uuids[0], now));
    RestStaysFresh(s.log, mid.log, uuids);
    MarkGoesOn(mid, w, uuids[1..]);
  }

  // The row just delivered is marked, and the pass turns to the next.
  lemma MarkGoesOn<P>(mid: Sys<P>, w: nat, rest: seq<string>)
    requires Inv(mid) && InPhase(mid, w, Marking) && FreshUuids(mid.log, rest)
    requires var k := WorkerAt(mid, w); |rest| == |k.batch| - k.at - 1 && StillPending(mid.rows, k.batch, k.at)
    ensures var after := Next(mid, Mark(w)); Delivering(after, w, rest) && PendingCount(after.rows) == PendingCount(mid.rows) - 1
  {
    var k := WorkerAt(mid, w);
    PendingMoves(mid.rows, k.batch, k.at);
    NextKeepsInv(mid, Mark(w));
  }

  lemma RestStaysFresh<P>(log: Log<P>, after: Log<P>, uuids: seq<string>)
    requires uuids != [] && FreshUuids(log, uuids)
    requires forall i :: 0 <= i < |after.events| ==>
                           after.events[i].eventId == uuids[0] || (i < |log.events| && after.events[i] == log.events[i])
    ensures FreshUuids(after, uuids[1..]) && FreshUuids(log, [uuids[0]])
  {
  }

  lemma {:induction false} DeliverRestDrains<P>(s: Sys<P>, w: nat, uuids: seq<string>, now: int)
    requires Delivering(s, w, uuids)
    ensures var after := DeliverRest(s, w, uuids, now);
            Delivering(after, w, []) && PendingCount(after.rows) == PendingCount(s.rows) - |uuids|
    decreases |uuids|
  {
    if uuids != [] {
      DeliverThenMark(s, w, uuids, now);
      DeliverRestDrains(Next(Next(s, Deliver(w, uuids[0], now)), Mark(w)), w, uuids[1..], now);
    }
  }

  // One whole undisturbed dispatch_once.
  ghost predicate Pass<P(!new)>(s: Sys<P>, after: Sys<P>) {
    exists w, batch: seq<Row<P>>, uuids, now ::
      && WorkerAt(s, w).Idle? && IsBatch(s.rows, batch) && |uuids| == |batch| && FreshUuids(s.log, uuids)
      && after == DeliverRest(Next(s, Select(w, batch)), w, uuids, now)
  }

  lemma BatchIsPending<P>(rows: seq<Row<P>>, batch: seq<Row<P>>)
    requires IsBatch(rows, batch)
    ensures StillPending(rows, batch, 0)
  {
    forall m | 0 <= m < |batch| ensures IsPending(rows, batch[m].id) {
      assert batch[m] in rows;
      var j :| 0 <= j < |rows| && rows[j] == batch[m];
      assert rows[j].id == batch[m].id;
    }
  }

  lemma PassDrains<P>(s: Sys<P>, w: nat, batch: seq<Row<P>>, uuids: seq<string>, now: int)
    requires Inv(s) && WorkerAt(s, w).Idle? && IsBatch(s.rows, batch) && |uuids| == |batch| && FreshUuids(s.log, uuids)
    ensures var after := DeliverRest(Next(s, Select(w, batch)), w, uuids, now);
            Inv(after) && PendingCount(after.rows) == PendingCount(s.rows) - |batch|
  {
    if batch != [] {
      NextKeepsInv(s, Select(w, batch));
      BatchIsPending(s.rows, batch);
      DeliverRestDrains(Next(s, Select(w, batch)), w, uuids, now);
    }
  }

  lemma PassPublishes<P(!new)>(s: Sys<P>, after: Sys<P>)
    requires Inv(s) && Pass(s, after)
    ensures Inv(after) && PendingCount(after.rows) == PendingCount(s.rows) - Min(50, PendingCount(s.rows))
  {
    var w, batch: seq<Row<P>>, uuids, now :|
      && WorkerAt(s, w).Idle? && IsBatch(s.rows, batch) && |uuids| == |batch| && FreshUuids(s.log, uuids)
      && after == DeliverRest(Next(s, Select(w, batch)), w, uuids, now);
    PassDrains(s, w, batch, uuids, now);
  }

  // K undisturbed passes in a row publish exactly min(50 k, pending) rows. In particular the one
  // pass of a final flush leaves pending - 50 rows behind whenever more than 50 are waiting.
  lemma {:induction false} PassesDrain<P(!new)>(states: seq<Sys<P>>, k: nat)
    requires k < |states| && Inv(states[0])
    requires forall i :: 0 < i < |states| ==> Pass(states[i - 1], states[i])
    ensures Inv(states[k])
    ensures PendingCount(states[k].rows) == PendingCount(states[0].rows) - Min(50 * k, PendingCount(states[0].rows))
  {
    if k > 0 {
      PassesDrain(states, k - 1);
      PassPublishes(states[k - 1], states[k]);
    }
  }
}
