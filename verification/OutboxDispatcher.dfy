// shared/outbox.py: the table and OutboxDispatcher as objects, tied to the protocol of module Outbox.
module OutboxDispatcher {
  import opened Prelude
  import opened EventLog
  import opened Outbox
  import opened OutboxOrder

  class OutboxDb<P(==)> {
    var rows: seq<Row<P>>

    constructor ()
      ensures rows == []
    {
      rows := [];
    }

    method Insert(id: string, topic: string, correlationId: string, eventType: string, payload: P, redact: P -> P, now: int)
      modifies this
      ensures rows == old(rows) + [NewRow(id, topic, correlationId, eventType, payload, redact, now)]
      ensures var n := |old(rows)|;
              && |rows| == n + 1 && rows[..n] == old(rows)
              && rows[n].id == id && rows[n].topic == topic && rows[n].correlationId == correlationId && rows[n].eventType == eventType
              && rows[n].payload == redact(payload) && !rows[n].published && rows[n].attempts == 0 && rows[n].createdAtMs == now
    {
      rows := rows + [NewRow(id, topic, correlationId, eventType, payload, redact, now)];
    }

    method MarkPublished(id: string)
      modifies this
      ensures rows == PublishIn(old(rows), id)
      ensures |rows| == |old(rows)| && forall i :: 0 <= i < |rows| ==>
                rows[i] == if old(rows)[i].id == id then old(rows)[i].(published := true) else old(rows)[i]
    {
      rows := PublishIn(rows, id);
    }

    method BumpAttempts(id: string)
      modifies this
      ensures rows == RetryIn(old(rows), id)
      ensures |rows| == |old(rows)| && forall i :: 0 <= i < |rows| ==>
                rows[i] == if old(rows)[i].id == id then old(rows)[i].(attempts := old(rows)[i].attempts + 1) else old(rows)[i]
    {
      rows := RetryIn(rows, id);
    }

    // The SELECT of dispatch_once: repeatedly the oldest pending row not taken yet, up to the limit.
    method SelectPending() returns (batch: seq<Row<P>>)
      requires RowsOk(rows)
      ensures IsBatch(rows, batch)
    {
      var rest := Pending(rows);
      PendingCounts(rows);
      batch := [];
      while |batch| < BATCH && rest != []
        invariant |batch| <= BATCH
        invariant Splits(rows, batch, rest)
        decreases |rest|
      {
        var m := 0;
        for i := 1 to |rest|
          invariant m < |rest| && forall k :: 0 <= k < i ==> rest[m].createdAtMs <= rest[k].createdAtMs
        {
          if rest[i].createdAtMs < rest[m].createdAtMs { m := i; }
        }
        TakeOldest(rows, batch, rest, m);
        batch := batch + [rest[m]];
        rest := rest[..m] + rest[m + 1..];
      }
    }
  }

  function Pending<P>(rows: seq<Row<P>>): (r: seq<Row<P>>) {
    if rows == [] then []
    else Pending(rows[..|rows| - 1]) + if rows[|rows| - 1].published then [] else [rows[|rows| - 1]]
  }

  // batch is sorted and older than rest; together they are the pending rows, each once.
  ghost predicate Splits<P>(rows: seq<Row<P>>, batch: seq<Row<P>>, rest: seq<Row<P>>) {
    && |batch| + |rest| == PendingCount(rows)
    && (forall r :: r in rows && !r.published ==> r in batch || r in rest)
    && (forall r :: r in batch + rest ==> r in rows && !r.published)
    && (forall i, j :: 0 <= i < j < |batch| ==> batch[i].createdAtMs <= batch[j].createdAtMs && batch[i].id != batch[j].id)
    && (forall i, j :: 0 <= i < j < |rest| ==> rest[i].id != rest[j].id)
    && (forall i, j :: 0 <= i < |batch| && 0 <= j < |rest| ==> batch[i].createdAtMs <= rest[j].createdAtMs && batch[i].id != rest[j].id)
  }

  lemma {:induction false} PendingCounts<P>(rows: seq<Row<P>>)
    requires RowsOk(rows)
    ensures Splits(rows, [], Pending(rows))
  {
    if rows != [] {
      var n := |rows| - 1;
      var prefix := rows[..n];
      assert RowsOk(prefix);
      PendingCounts(prefix);
      assert rows == prefix + [rows[n]];
      forall i | 0 <= i < |Pending(prefix)| ensures Pending(prefix)[i].id != rows[n].id {
        assert Pending(prefix)[i] in Pending(prefix);
        assert Pending(prefix)[i] in prefix;
      }
    }
  }

  lemma TakeOldest<P>(rows: seq<Row<P>>, batch: seq<Row<P>>, rest: seq<Row<P>>, m: nat)
    requires Splits(rows, batch, rest) && m < |rest|
    requires forall k :: 0 <= k < |rest| ==> rest[m].createdAtMs <= rest[k].createdAtMs
    ensures Splits(rows, batch + [rest[m]], rest[..m] + rest[m + 1..])
  {
  }

  // What becomes of one append, seen from the dispatcher.
  datatype Fate = Answered | NeverSent | AnswerLost

  function Sending<P>(w: nat, fate: Fate, uuid: string, now: int): (a: Action<P>) {
    match fate
    case Answered => Deliver(w, uuid, now)
    case NeverSent => Lose(w)
    case AnswerLost => DeliverUnacked(w, uuid, now)
  }

  // The pass sends the first n rows of its batch, each meeting the fate the network has for it.
  ghost predicate Sends<P>(acts: seq<Action<P>>, w: nat, batch: seq<Row<P>>, n: nat, fate: nat -> Fate, uuid: nat -> string, now: int) {
    && |acts| == 1 + 2 * n && acts[0] == Select(w, batch)
    && forall i :: 0 <= i < n ==> acts[1 + 2 * i] == Sending(w, fate(i), uuid(i), now)
  }

  lemma SendsOneMore<P>(acts: seq<Action<P>>, w: nat, batch: seq<Row<P>>, n: nat, fate: nat -> Fate, uuid: nat -> string, now: int, second: Action<P>)
    requires Sends(acts, w, batch, n, fate, uuid, now)
    ensures Sends(acts + [Sending(w, fate(n), uuid(n), now)] + [second], w, batch, n + 1, fate, uuid, now)
  {
  }

  class Dispatcher<P(==)> {
    const db: OutboxDb<P>
    const store: EventStore<P>

    constructor (db: OutboxDb<P>, store: EventStore<P>)
      ensures this.db == db && this.store == store
    {
      this.db, this.store := db, store;
    }

    // The try/except around one row: two steps of the protocol.
    method DispatchRow(ghost s: Sys<P>, ghost w: nat, batch: seq<Row<P>>, i: nat, fate: Fate, uuid: string, now: int)
        returns (ok: bool, ghost first: Action<P>, ghost second: Action<P>)
      requires s.rows == db.rows && s.log == store.View()
      requires i < |batch| && WorkerAt(s, w) == Busy(batch, i, Appending)
      modifies db, store
      ensures db.rows == if ok then PublishIn(old(db.rows), batch[i].id) else RetryIn(old(db.rows), batch[i].id)
      ensures first == Sending(w, fate, uuid, now)
      ensures var after := Next(Next(s, first), second);
              && after.rows == db.rows && after.log == store.View()
              && WorkerAt(after, w) == if i + 1 == |batch| then Idle else Busy(batch, i + 1, Appending)
    {
      ok, first := false, Lose(w);
      if fate != NeverSent {
        var reply := store.AppendEvent(RequestFor(batch[i]), uuid, now);
        ok := fate == Answered && reply.Acked?;
        first := if fate == Answered then Deliver(w, uuid, now) else DeliverUnacked(w, uuid, now);
      }
      ghost var mid := Next(s, first);
      assert mid.rows == db.rows && mid.log == store.View();
      assert WorkerAt(mid, w) == Busy(batch, i, if ok then Marking else Bumping);
      if ok {
        db.MarkPublished(batch[i].id);
        second := Mark(w);
      } else {
        db.BumpAttempts(batch[i].id);
        second := Bump(w);
      }
    }

    // One pass with nobody else at work: a run of the protocol in which worker w takes a batch and sends
    // every row of it, and the count returned is the number of rows that left the pending state.
    method DispatchOnce(ghost w: nat, fate: nat -> Fate, uuid: nat -> string, now: int)
        returns (published: nat, ghost batch: seq<Row<P>>, ghost acts: seq<Action<P>>)
      requires RowsOk(db.rows)
      modifies db, store
      ensures RowsOk(db.rows) && |db.rows| == |old(db.rows)|
      ensures var after := RunFrom(Sys(old(db.rows), old(store.View()), map[]), acts);
              && after.rows == db.rows && after.log == store.View() && WorkerAt(after, w).Idle?
      ensures IsBatch(old(db.rows), batch) && Sends(acts, w, batch, |batch|, fate, uuid, now)
      ensures published == PendingCount(old(db.rows)) - PendingCount(db.rows)
    {
      ghost var start := Sys(db.rows, store.View(), map[]);
      var rows := db.SelectPending();
      batch := rows;
      acts := [Select(w, batch)];
      ghost var s := Next(start, Select(w, batch));
      PassBegins(start, w, batch);
      published := 0;
      for i := 0 to |rows|
        invariant Passing(start, acts, s, w, batch, i, published) && Sends(acts, w, batch, i, fate, uuid, now)
        invariant s.rows == db.rows && s.log == store.View()
      {
        ghost var first, second;
        var ok;
        ok, first, second := DispatchRow(s, w, rows, i, fate(i), uuid(i), now);
        RowDone(start, acts, s, w, batch, i, published, first, second, ok);
        SendsOneMore(acts, w, batch, i, fate, uuid, now, second);
        if ok { published := published + 1; }
        s := Next(Next(s, first), second);
        acts := acts + [first] + [second];
      }
    }
  }

  // A pass that has dealt with the first i rows of its batch.
  ghost predicate Passing<P>(start: Sys<P>, acts: seq<Action<P>>, s: Sys<P>, w: nat, batch: seq<Row<P>>, i: nat, published: int) {
    && s == RunFrom(start, acts) && RowsOk(s.rows) && |s.rows| == |start.rows|
    && WorkerAt(s, w) == (if i == |batch| then Idle else Busy(batch, i, Appending))
    && StillPending(s.rows, batch, i) && published == PendingCount(start.rows) - PendingCount(s.rows)
  }

  lemma PassBegins<P>(start: Sys<P>, w: nat, batch: seq<Row<P>>)
    requires RowsOk(start.rows) && IsBatch(start.rows, batch) && start.workers == map[]
    ensures Passing(start, [Select(w, batch)], Next(start, Select(w, batch)), w, batch, 0, 0)
  {
  }

  lemma RowDone<P>(start: Sys<P>, acts: seq<Action<P>>, s: Sys<P>, w: nat, batch: seq<Row<P>>, i: nat, published: int,
                   first: Action<P>, second: Action<P>, ok: bool)
    requires Passing(start, acts, s, w, batch, i, published) && i < |batch|
    requires var after := Next(Next(s, first), second);
             && after.rows == (if ok then PublishIn(s.rows, batch[i].id) else RetryIn(s.rows, batch[i].id))
             && WorkerAt(after, w) == if i + 1 == |batch| then Idle else Busy(batch, i + 1, Appending)
    ensures Passing(start, acts + [first] + [second], Next(Next(s, first), second), w, batch, i + 1, if ok then published + 1 else published)
  {
    EitherKeepsPending(s.rows, batch, i);
    RunTwoMore(start, acts, s, first, second);
  }

  lemma RunOneMore<P>(s: Sys<P>, acts: seq<Action<P>>, a: Action<P>)
    ensures RunFrom(s, acts + [a]) == Next(RunFrom(s, acts), a)
  {
  }

  lemma RunTwoMore<P>(start: Sys<P>, acts: seq<Action<P>>, s: Sys<P>, a: Action<P>, b: Action<P>)
    requires s == RunFrom(start, acts)
    ensures RunFrom(start, acts + [a] + [b]) == Next(Next(s, a), b)
  {
  }

  lemma EitherKeepsPending<P>(rows: seq<Row<P>>, batch: seq<Row<P>>, at: nat)
    requires RowsOk(rows) && at < |batch| && StillPending(rows, batch, at)
    ensures var marked, bumped := PublishIn(rows, batch[at].id), RetryIn(rows, batch[at].id);
            && RowsOk(marked) && StillPending(marked, batch, at + 1) && PendingCount(marked) == PendingCount(rows) - 1
            && RowsOk(bumped) && StillPending(bumped, batch, at + 1) && PendingCount(bumped) == PendingCount(rows)
  {
    PendingMoves(rows, batch, at);
    RetryKeepsPending(rows, batch, at);
    assert forall i :: 0 <= i < |rows| ==> PublishIn(rows, batch[at].id)[i].id == rows[i].id && RetryIn(rows, batch[at].id)[i].id == rows[i].id;
  }

  lemma {:induction false} RetryKeepsCount<P>(rows: seq<Row<P>>, id: string)
    ensures PendingCount(RetryIn(rows, id)) == PendingCount(rows)
  {
    if rows != [] {
      RetryKeepsCount(rows[..|rows| - 1], id);
      assert RetryIn(rows, id)[..|rows| - 1] == RetryIn(rows[..|rows| - 1], id);
    }
  }

  lemma RetryKeepsPending<P>(rows: seq<Row<P>>, batch: seq<Row<P>>, at: nat)
    requires at < |batch| && StillPending(rows, batch, at)
    ensures StillPending(RetryIn(rows, batch[at].id), batch, at + 1)
    ensures PendingCount(RetryIn(rows, batch[at].id)) == PendingCount(rows)
  {
    RetryKeepsCount(rows, batch[at].id);
    var after := RetryIn(rows, batch[at].id);
    forall m | at + 1 <= m < |batch| ensures IsPending(after, batch[m].id) {
      assert IsPending(rows, batch[m].id);
      var i :| 0 <= i < |rows| && rows[i].id == batch[m].id && !rows[i].published;
      assert after[i].id == batch[m].id && !after[i].published;
    }
  }
}
