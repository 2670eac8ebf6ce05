// The compiler reads the log as a set: in what order the events of a run arrive, how often, and among
// which other runs' events does not matter, as long as the run says one thing per step.
module CompilerOrder {
  import opened Prelude
  import opened Schemas
  import opened Compiler
  import opened Discovery

  // b holds the same records of this run as a, in any order, any number of times, amid anything else.
  ghost predicate SameRun(a: seq<Record>, b: seq<Record>, runId: string) {
    forall e: Event :: Record(runId, e) in a <==> Record(runId, e) in b
  }

  // Whether two events of one run contradict each other for the compiler.
  predicate Conflict(x: Event, y: Event) {
    || (x.ActionDecided? && y.ActionDecided? && x.step == y.step && x.decision != y.decision)
    || (x.ActionExecuted? && y.ActionExecuted? && x.step == y.step && x.locatorUsed != y.locatorUsed)
    || (x.RunSucceeded? && y.RunSucceeded? && x.successCondition != y.successCondition)
  }

  ghost predicate SaysOneThing(a: seq<Record>, runId: string) {
    forall x: Event, y: Event :: Record(runId, x) in a && Record(runId, y) in a ==> !Conflict(x, y)
  }

  // ----- what the fold knows -----

  ghost predicate KnowsDecided(a: seq<Record>, runId: string, t: Tables) {
    && (forall i :: i in t.decided ==> Record(runId, ActionDecided(i, t.decided[i])) in a)
    && (forall i, d :: Record(runId, ActionDecided(i, d)) in a ==> i in t.decided)
  }

  ghost predicate WasExecuted(a: seq<Record>, runId: string, i: nat, used: Option<string>) {
    exists ok :: Record(runId, ActionExecuted(i, used, ok)) in a
  }

  ghost predicate KnowsExecuted(a: seq<Record>, runId: string, t: Tables) {
    && (forall i :: i in t.executed ==> WasExecuted(a, runId, i, t.executed[i]))
    && (forall i, u, ok :: Record(runId, ActionExecuted(i, u, ok)) in a ==> i in t.executed)
  }

  ghost predicate Succeeded(a: seq<Record>, runId: string, condition: string) {
    exists o :: Record(runId, RunSucceeded(o, condition)) in a
  }

  ghost predicate KnowsSucceeded(a: seq<Record>, runId: string, t: Tables) {
    && (t.succeeded.Some? ==> Succeeded(a, runId, t.succeeded.value))
    && (forall o, c :: Record(runId, RunSucceeded(o, c)) in a ==> t.succeeded.Some?)
  }

  lemma AbsorbKnows(a: seq<Record>, x: Record, runId: string, before: Tables)
    requires KnowsDecided(a, runId, before) && KnowsExecuted(a, runId, before) && KnowsSucceeded(a, runId, before)
    ensures var t := if x.runId == runId then Absorb(before, x.event) else before;
            KnowsDecided(a + [x], runId, t) && KnowsExecuted(a + [x], runId, t) && KnowsSucceeded(a + [x], runId, t)
  {
    var b := a + [x];
    assert b[|a|] == x;
    assert forall r :: r in a ==> r in b;
    assert forall r :: r in b ==> r in a || r == x;
    var t := if x.runId == runId then Absorb(before, x.event) else before;
    forall i | i in t.executed ensures WasExecuted(b, runId, i, t.executed[i]) {
      if i in before.executed && t.executed[i] == before.executed[i] {
        var ok :| Record(runId, ActionExecuted(i, before.executed[i], ok)) in a;
        assert Record(runId, ActionExecuted(i, t.executed[i], ok)) in b;
      } else {
        assert Record(runId, ActionExecuted(i, t.executed[i], x.event.ok)) in b;
      }
    }
    if t.succeeded.Some? {
      if before.succeeded == t.succeeded {
        var o :| Record(runId, RunSucceeded(o, t.succeeded.value)) in a;
        assert Record(runId, RunSucceeded(o, t.succeeded.value)) in b;
      } else {
        assert Record(runId, RunSucceeded(x.event.outputs, t.succeeded.value)) in b;
      }
    }
  }

  // Every entry of the fold comes from a record, and every record left an entry.
  lemma {:induction false} FoldKnows(a: seq<Record>, runId: string)
    ensures KnowsDecided(a, runId, Fold(a, runId)) && KnowsExecuted(a, runId, Fold(a, runId)) && KnowsSucceeded(a, runId, Fold(a, runId))
  {
    if a != [] {
      var n := |a| - 1;
      FoldKnows(a[..n], runId);
      AbsorbKnows(a[..n], a[n], runId, Fold(a[..n], runId));
      assert a[..n] + [a[n]] == a;
    }
  }

  // ----- order does not matter -----

  lemma SameDecided(a: seq<Record>, b: seq<Record>, runId: string, t: Tables, u: Tables)
    requires SameRun(a, b, runId) && SaysOneThing(a, runId)
    requires KnowsDecided(a, runId, t) && KnowsDecided(b, runId, u)
    ensures t.decided == u.decided
  {
  }

  lemma SameExecuted(a: seq<Record>, b: seq<Record>, runId: string, t: Tables, u: Tables)
    requires SameRun(a, b, runId) && SaysOneThing(a, runId)
    requires KnowsExecuted(a, runId, t) && KnowsExecuted(b, runId, u)
    ensures t.executed == u.executed
  {
  }

  lemma SameSucceeded(a: seq<Record>, b: seq<Record>, runId: string, t: Tables, u: Tables)
    requires SameRun(a, b, runId) && SaysOneThing(a, runId)
    requires KnowsSucceeded(a, runId, t) && KnowsSucceeded(b, runId, u)
    ensures t.succeeded == u.succeeded
  {
  }

  lemma FoldIgnoresOrder(a: seq<Record>, b: seq<Record>, runId: string)
    requires SameRun(a, b, runId) && SaysOneThing(a, runId)
    ensures Fold(b, runId) == Fold(a, runId)
  {
    FoldKnows(a, runId);
    FoldKnows(b, runId);
    SameDecided(a, b, runId, Fold(a, runId), Fold(b, runId));
    SameExecuted(a, b, runId, Fold(a, runId), Fold(b, runId));
    SameSucceeded(a, b, runId, Fold(a, runId), Fold(b, runId));
  }

  lemma FoldOneMore(a: seq<Record>, x: Event, runId: string)
    ensures Fold(a + [Record(runId, x)], runId) == Absorb(Fold(a, runId), x)
  {
  }

  ghost predicate OrderFree(a: seq<Record>, runId: string) {
    forall b :: SameRun(a, b, runId) ==> Fold(b, runId) == Fold(a, runId)
  }

  // The order of a run's events is irrelevant exactly when no two of them contradict each other.
  lemma OrderFreeExactly(a: seq<Record>, runId: string)
    ensures OrderFree(a, runId) <==> SaysOneThing(a, runId)
  {
    if SaysOneThing(a, runId) {
      forall b | SameRun(a, b, runId) ensures Fold(b, runId) == Fold(a, runId) {
        FoldIgnoresOrder(a, b, runId);
      }
    } else {
      var x: Event, y: Event :| Record(runId, x) in a && Record(runId, y) in a && Conflict(x, y);
      LastOneWins(a, x, y, runId);
    }
  }

  // Of two conflicting records the one delivered last decides.
  lemma LastOneWins(a: seq<Record>, x: Event, y: Event, runId: string)
    requires Record(runId, x) in a && Record(runId, y) in a && Conflict(x, y)
    ensures var b, c := a + [Record(runId, x)], a + [Record(runId, y)];
            SameRun(a, b, runId) && SameRun(a, c, runId) && Fold(b, runId) != Fold(c, runId)
  {
    FoldOneMore(a, x, runId);
    FoldOneMore(a, y, runId);
    var t := Fold(a, runId);
    if x.ActionDecided? {
      assert Absorb(t, x).decided[x.step] != Absorb(t, y).decided[x.step];
    } else if x.ActionExecuted? {
      assert Absorb(t, x).executed[x.step] != Absorb(t, y).executed[x.step];
    }
  }

  // So however the topic is arranged, the draft is the same.
  lemma DraftIgnoresOrder(a: seq<Record>, b: seq<Record>, runId: string, da: Result<Draft, CompileError>, db: Result<Draft, CompileError>)
    requires SameRun(a, b, runId) && SaysOneThing(a, runId)
    requires IsCompiled(Fold(a, runId), da) && IsCompiled(Fold(b, runId), db)
    ensures da == db
  {
    FoldIgnoresOrder(a, b, runId);
    CompiledOnce(Fold(a, runId), da, db);
  }

  // ----- the fetch limit -----

  // An event the compiler does not look at.
  predicate Ignored(e: Event) {
    !e.ActionDecided? && !e.ActionExecuted? && !e.RunSucceeded?
  }

  // The step, or the success, that e reports has been reported already.
  ghost predicate SaidAlready(a: seq<Record>, runId: string, e: Event) {
    match e
    case ActionDecided(i, d) => exists d' :: Record(runId, ActionDecided(i, d')) in a
    case ActionExecuted(i, u, ok) => exists u', ok' :: Record(runId, ActionExecuted(i, u', ok')) in a
    case RunSucceeded(o, c) => exists o', c' :: Record(runId, RunSucceeded(o', c')) in a
    case _ => true
  }

  // All that the topic says about the run, its part a says too.
  ghost predicate SaysAll(topic: seq<Record>, a: seq<Record>, runId: string) {
    forall e: Event {:trigger SaidAlready(a, runId, e)} :: Record(runId, e) in topic && !Ignored(e) ==> SaidAlready(a, runId, e)
  }

  lemma TakeIsIncluded(topic: seq<Record>)
    ensures forall r :: r in Take(topic, FETCH_LIMIT) ==> r in topic
  {
  }

  // The compiler fetches FETCH_LIMIT records from the start of the topic. It sees all of a run
  // exactly when every step and the success of the run are reported among those.
  lemma FetchLimitExactly(topic: seq<Record>, runId: string)
    requires SaysOneThing(topic, runId)
    ensures Fold(Take(topic, 10_000), runId) == Fold(topic, runId) <==> SaysAll(topic, Take(topic, 10_000), runId)
  {
    var a := Take(topic, FETCH_LIMIT);
    TakeIsIncluded(topic);
    FoldKnows(a, runId);
    FoldKnows(topic, runId);
    if Fold(a, runId) == Fold(topic, runId) {
      forall e: Event | Record(runId, e) in topic && !Ignored(e) ensures SaidAlready(a, runId, e) {
        FoldSays(topic, a, runId, e);
      }
    }
    if SaysAll(topic, a, runId) {
      Complete(topic, a, runId);
    }
  }

  lemma FoldSays(topic: seq<Record>, a: seq<Record>, runId: string, e: Event)
    requires Record(runId, e) in topic && !Ignored(e) && Fold(a, runId) == Fold(topic, runId)
    ensures SaidAlready(a, runId, e)
  {
    FoldKnows(a, runId);
    FoldKnows(topic, runId);
    var t := Fold(a, runId);
    match e {
      case ActionDecided(i, d) =>
        assert Record(runId, ActionDecided(i, t.decided[i])) in a;
      case ActionExecuted(i, u, ok) =>
        assert WasExecuted(a, runId, i, t.executed[i]);
        var ok' :| Record(runId, ActionExecuted(i, t.executed[i], ok')) in a;
      case RunSucceeded(o, c) =>
        assert Succeeded(a, runId, t.succeeded.value);
        var o' :| Record(runId, RunSucceeded(o', t.succeeded.value)) in a;
    }
  }

  ghost predicate Within(a: seq<Record>, topic: seq<Record>) {
    forall r :: r in a ==> r in topic
  }

  lemma Complete(topic: seq<Record>, a: seq<Record>, runId: string)
    requires SaysOneThing(topic, runId) && Within(a, topic) && SaysAll(topic, a, runId)
    ensures Fold(a, runId) == Fold(topic, runId)
  {
    var t, u := Fold(topic, runId), Fold(a, runId);
    FoldKnows(a, runId);
    FoldKnows(topic, runId);
    forall i | i in t.decided || i in u.decided ensures i in t.decided && i in u.decided && t.decided[i] == u.decided[i] {
      if i in t.decided { DecidedKept(topic, a, runId, t, u, i); }
      DecidedAgrees(topic, a, runId, t, u, i);
    }
    forall i | i in t.executed || i in u.executed ensures i in t.executed && i in u.executed && t.executed[i] == u.executed[i] {
      if i in t.executed { ExecutedKept(topic, a, runId, t, u, i); }
      ExecutedAgrees(topic, a, runId, t, u, i);
    }
    assert t.decided == u.decided && t.executed == u.executed;
    CompleteSucceeded(topic, a, runId, t, u);
  }

  lemma DecidedKept(topic: seq<Record>, a: seq<Record>, runId: string, t: Tables, u: Tables, i: nat)
    requires SaysAll(topic, a, runId) && KnowsDecided(topic, runId, t) && KnowsDecided(a, runId, u) && i in t.decided
    ensures i in u.decided
  {
    var e := ActionDecided(i, t.decided[i]);
    assert Record(runId, e) in topic && !Ignored(e);
    assert SaidAlready(a, runId, e);
    var d' :| Record(runId, ActionDecided(i, d')) in a;
  }

  lemma DecidedAgrees(topic: seq<Record>, a: seq<Record>, runId: string, t: Tables, u: Tables, i: nat)
    requires SaysOneThing(topic, runId) && Within(a, topic)
    requires KnowsDecided(topic, runId, t) && KnowsDecided(a, runId, u) && i in u.decided
    ensures i in t.decided && t.decided[i] == u.decided[i]
  {
  }

  lemma ExecutedKept(topic: seq<Record>, a: seq<Record>, runId: string, t: Tables, u: Tables, i: nat)
    requires SaysAll(topic, a, runId) && KnowsExecuted(topic, runId, t) && KnowsExecuted(a, runId, u) && i in t.executed
    ensures i in u.executed
  {
    assert WasExecuted(topic, runId, i, t.executed[i]);
    var ok :| Record(runId, ActionExecuted(i, t.executed[i], ok)) in topic;
    var e := ActionExecuted(i, t.executed[i], ok);
    assert Record(runId, e) in topic && !Ignored(e);
    assert SaidAlready(a, runId, e);
    var u', ok' :| Record(runId, ActionExecuted(i, u', ok')) in a;
  }

  lemma ExecutedAgrees(topic: seq<Record>, a: seq<Record>, runId: string, t: Tables, u: Tables, i: nat)
    requires SaysOneThing(topic, runId) && Within(a, topic)
    requires KnowsExecuted(topic, runId, t) && KnowsExecuted(a, runId, u) && i in u.executed
    ensures i in t.executed && t.executed[i] == u.executed[i]
  {
  }

  lemma CompleteSucceeded(topic: seq<Record>, a: seq<Record>, runId: string, t: Tables, u: Tables)
    requires SaysOneThing(topic, runId) && Within(a, topic) && SaysAll(topic, a, runId)
    requires KnowsSucceeded(topic, runId, t) && KnowsSucceeded(a, runId, u)
    ensures t.succeeded == u.succeeded
  {
    if t.succeeded.Some? {
      var o :| Record(runId, RunSucceeded(o, t.succeeded.value)) in topic;
      var e := RunSucceeded(o, t.succeeded.value);
      assert Record(runId, e) in topic && !Ignored(e);
      assert SaidAlready(a, runId, e);
      var o', c' :| Record(runId, RunSucceeded(o', c')) in a;
    }
    if u.succeeded.Some? {
      var o' :| Record(runId, RunSucceeded(o', u.succeeded.value)) in a;
      var x := RunSucceeded(o', u.succeeded.value);
      assert Record(runId, x) in topic;
      var o :| Record(runId, RunSucceeded(o, t.succeeded.value)) in topic;
      var y := RunSucceeded(o, t.succeeded.value);
      assert Record(runId, y) in topic;
      assert !Conflict(x, y);
    }
  }
}
