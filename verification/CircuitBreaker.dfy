// services/replay_runtime/circuit_breaker.py: one row per target, three states, a 30 s cooldown.
// `now` is int(time.time() * 1000), read under the lock; that clock need not be monotone.
module CircuitBreaker {

  const FAILURE_THRESHOLD := 3
  const COOLDOWN_MS := 30_000

  datatype State = CLOSED | OPEN | HALF_OPEN
  datatype Row = Row(state: State, failures: nat, cooldownUntil: int)

  const FRESH_ROW := Row(CLOSED, 0, 0)

  // What happens to one target, in lock order.
  datatype Event = Probe(now: int) | Success | Failure(now: int)

  predicate Admits(row: Row, now: int) {
    !(row.state == OPEN && now < row.cooldownUntil)
  }

  function Apply(row: Row, e: Event): (r: Row) {
    match e
    case Probe(now) => if row.state == OPEN && Admits(row, now) then row.(state := HALF_OPEN) else row
    case Success => row.(state := CLOSED, failures := 0)
    case Failure(now) =>
      if row.failures + 1 >= FAILURE_THRESHOLD then Row(OPEN, row.failures + 1, now + COOLDOWN_MS)
      else row.(failures := row.failures + 1)
  }

  function After(h: seq<Event>): (r: Row) {
    if h == [] then FRESH_ROW else Apply(After(h[..|h| - 1]), h[|h| - 1])
  }

  datatype Gate = Proceed | CircuitOpen(cooldownUntil: int)

  function Lookup(rows: map<string, Row>, target: string): (r: Row) {
    if target in rows then rows[target] else FRESH_ROW
  }

  function Past(history: map<string, seq<Event>>, target: string): (h: seq<Event>) {
    if target in history then history[target] else []
  }

  ghost predicate Consistent(rows: map<string, Row>, history: map<string, seq<Event>>) {
    forall t: string :: Lookup(rows, t) == After(Past(history, t))
  }

  lemma ConsistentStep(rows: map<string, Row>, history: map<string, seq<Event>>, target: string, e: Event)
    requires Consistent(rows, history)
    ensures var h := Past(history, target) + [e];
            Consistent(rows[target := Apply(Lookup(rows, target), e)], history[target := h])
            && Apply(Lookup(rows, target), e) == After(h)
  {
    AfterOneMore(Past(history, target), e);
    var rows', history' := rows[target := Apply(Lookup(rows, target), e)],
                           history[target := Past(history, target) + [e]];
    forall t: string ensures Lookup(rows', t) == After(Past(history', t)) {
      assert Lookup(rows, t) == After(Past(history, t));
    }
  }

  class Breaker {
    var rows: map<string, Row>
    ghost var history: map<string, seq<Event>>

    ghost predicate Valid() reads this {
      Consistent(rows, history)
    }

    constructor ()
      ensures Valid() && rows == map[] && history == map[]
    {
      rows, history := map[], map[];
    }

    // _get: reading a target inserts its default row.
    method Get(target: string) returns (row: Row)
      requires Valid()
      modifies `rows
      ensures Valid() && row == After(Past(history, target))
      ensures rows == old(rows)[target := row]
    {
      if target !in rows {
        rows := rows[target := FRESH_ROW];
      }
      row := rows[target];
      assert row == Lookup(old(rows), target);
      forall t: string ensures Lookup(rows, t) == After(Past(history, t)) {
        assert Lookup(rows, t) == Lookup(old(rows), t);
      }
    }

    method BeforeRun(target: string, now: int) returns (gate: Gate)
      requires Valid()
      modifies this
      ensures Valid()
      ensures history == old(history)[target := Past(old(history), target) + [Probe(now)]]
      ensures gate.Proceed? <==> Admits(After(Past(old(history), target)), now)
      ensures gate.CircuitOpen? ==> gate.cooldownUntil == After(Past(old(history), target)).cooldownUntil
      ensures rows == old(rows)[target := After(Past(history, target))]
    {
      var row := Get(target);
      ghost var read := rows;
      ConsistentStep(rows, history, target, Probe(now));
      gate := Proceed;
      if row.state == OPEN {
        if now < row.cooldownUntil {
          gate := CircuitOpen(row.cooldownUntil);
        } else {
          rows := rows[target := row.(state := HALF_OPEN)];
        }
      }
      assert rows == read[target := Apply(row, Probe(now))];
      history := history[target := Past(history, target) + [Probe(now)]];
    }

    // An UPDATE: a target without a row stays without one, which reads as CLOSED, 0, 0.
    method RecordSuccess(target: string)
      requires Valid()
      modifies this
      ensures Valid()
      ensures history == old(history)[target := Past(old(history), target) + [Success]]
      ensures rows == if target in old(rows) then old(rows)[target := After(Past(history, target))] else old(rows)
    {
      ghost var stepped := rows[target := Apply(Lookup(rows, target), Success)];
      ConsistentStep(rows, history, target, Success);
      if target in rows {
        rows := rows[target := rows[target].(state := CLOSED, failures := 0)];
      }
      history := history[target := Past(history, target) + [Success]];
      forall t: string ensures Lookup(rows, t) == After(Past(history, t)) {
        assert Lookup(rows, t) == Lookup(stepped, t);
      }
    }

    method RecordFailure(target: string, now: int)
      requires Valid()
      modifies this
      ensures Valid()
      ensures history == old(history)[target := Past(old(history), target) + [Failure(now)]]
      ensures rows == old(rows)[target := After(Past(history, target))]
    {
      var row := Get(target);
      ConsistentStep(rows, history, target, Failure(now));
      var failures := row.failures + 1;
      var updated := row.(failures := failures);
      if failures >= FAILURE_THRESHOLD {
        updated := Row(OPEN, failures, now + COOLDOWN_MS);
      }
      assert updated == Apply(row, Failure(now));
      rows := rows[target := updated];
      history := history[target := Past(history, target) + [Failure(now)]];
    }
  }

  lemma AfterOneMore(h: seq<Event>, e: Event)
    ensures After(h + [e]) == Apply(After(h), e)
  {
  }

  // ----- the specification: a question about the history alone -----

  // Times of the failures recorded since the last success, oldest first.
  function Streak(h: seq<Event>): (times: seq<int>) {
    if h == [] then []
    else
      match h[|h| - 1]
      case Probe(_) => Streak(h[..|h| - 1])
      case Success => []
      case Failure(now) => Streak(h[..|h| - 1]) + [now]
  }

  // Some call since the last recorded failure already came COOLDOWN_MS or more after it.
  function CooledOff(h: seq<Event>): (b: bool) {
    if h == [] then false
    else
      var before := h[..|h| - 1];
      match h[|h| - 1]
      case Probe(now) => CooledOff(before) || (Streak(before) != [] && now >= Last(Streak(before)) + COOLDOWN_MS)
      case Success => false
      case Failure(_) => false
  }

  function Last(times: seq<int>): (t: int)
    requires times != []
  {
    times[|times| - 1]
  }

  function TimeOf(e: Event): (t: int)
    requires !e.Success?
  {
    e.now
  }

  ghost predicate Monotone(h: seq<Event>) {
    forall i, j :: 0 <= i < j < |h| && !h[i].Success? && !h[j].Success? ==> TimeOf(h[i]) <= TimeOf(h[j])
  }

  lemma {:induction false} RowMeaning(h: seq<Event>)
    ensures var row := After(h);
            && row.failures == |Streak(h)|
            && (|Streak(h)| < FAILURE_THRESHOLD ==> row.state == CLOSED)
            && (|Streak(h)| >= FAILURE_THRESHOLD ==>
                  && row.cooldownUntil == Last(Streak(h)) + COOLDOWN_MS
                  && row.state == if CooledOff(h) then HALF_OPEN else OPEN)
  {
    if h != [] { RowMeaning(h[..|h| - 1]); }
  }

  // The k-th call is a failure that is the third or a later one of its streak.
  predicate Opens(h: seq<Event>, k: nat) {
    k < |h| && h[k].Failure? && |Streak(h[..k + 1])| >= 3
  }

  lemma OpensBefore(h: seq<Event>, n: nat, k: nat)
    requires k < n <= |h|
    ensures Opens(h[..n], k) <==> Opens(h, k)
  {
    assert h[..n][..k + 1] == h[..k + 1];
  }

  // The cooldown is 30 s from the last failure that opened the breaker; successes and probes never touch it.
  lemma {:induction false} CooldownIsKept(h: seq<Event>, k: nat)
    requires Opens(h, k) && forall j: nat :: k < j < |h| ==> !Opens(h, j)
    ensures After(h).cooldownUntil == h[k].now + 30_000
  {
    var n := |h| - 1;
    RowMeaning(h[..n]);
    assert h[..n + 1] == h;
    if k < n {
      OpensBefore(h, n, k);
      forall j: nat | k < j < n ensures !Opens(h[..n], j) { OpensBefore(h, n, j); }
      CooldownIsKept(h[..n], k);
      assert !Opens(h, n);
    }
  }

  lemma {:induction false} NeverOpenedNoCooldown(h: seq<Event>)
    requires forall k: nat :: k < |h| ==> !Opens(h, k)
    ensures After(h).cooldownUntil == 0
  {
    if h != [] {
      var n := |h| - 1;
      RowMeaning(h[..n]);
      assert h[..n + 1] == h && !Opens(h, n);
      forall j: nat | j < n ensures !Opens(h[..n], j) { OpensBefore(h, n, j); }
      NeverOpenedNoCooldown(h[..n]);
    }
  }

  // With any clock: a run is admitted exactly when the streak is short, the cooldown since the
  // last recorded failure has passed, or an earlier call since then already saw it pass.
  lemma AdmitsExactly(h: seq<Event>, now: int)
    ensures Admits(After(h), now) <==>
            |Streak(h)| < FAILURE_THRESHOLD || now >= Last(Streak(h)) + COOLDOWN_MS || CooledOff(h)
  {
    RowMeaning(h);
  }

  lemma {:induction false} CooledOffMeansLater(h: seq<Event>, now: int)
    requires Monotone(h + [Probe(now)]) && CooledOff(h)
    ensures Streak(h) != [] && now >= Last(Streak(h)) + COOLDOWN_MS
  {
    var all, n := h + [Probe(now)], |h| - 1;
    assert all[|h|] == Probe(now) && all[n] == h[n];
    if CooledOff(h[..n]) {
      var shorter := h[..n] + [Probe(now)];
      forall i, j | 0 <= i < j < |shorter| && !shorter[i].Success? && !shorter[j].Success?
        ensures TimeOf(shorter[i]) <= TimeOf(shorter[j])
      {
        assert shorter[i] == all[i] && (if j < n then shorter[j] == all[j] else shorter[j] == all[|h|]);
      }
      CooledOffMeansLater(h[..n], now);
    } else {
      assert TimeOf(all[n]) <= TimeOf(all[|h|]);
    }
  }

  // With a monotone clock: admitted exactly when fewer than 3 failures were recorded since the last
  // success, or 30,000 ms have passed since the last recorded failure.
  lemma AdmitsExactlyMonotone(h: seq<Event>, now: int)
    requires Monotone(h + [Probe(now)])
    ensures Admits(After(h), now) <==> |Streak(h)| < 3 || now >= Last(Streak(h)) + 30_000
  {
    AdmitsExactly(h, now);
    if CooledOff(h) { CooledOffMeansLater(h, now); }
  }

  // A rejected call changes nothing at all.
  lemma RejectionLeavesRow(h: seq<Event>, now: int)
    requires !Admits(After(h), now)
    ensures After(h + [Probe(now)]) == After(h) && Streak(h + [Probe(now)]) == Streak(h)
    ensures CooledOff(h + [Probe(now)]) == CooledOff(h)
  {
    AfterOneMore(h, Probe(now));
    RowMeaning(h);
    assert (h + [Probe(now)])[..|h|] == h;
  }

  // ----- spacing of failures when runs are submitted one at a time -----

  // Each failure closes the run opened by the admitted call just before it.
  ghost predicate OneAtATime(h: seq<Event>) {
    forall i :: 0 <= i < |h| && h[i].Failure? ==>
                  i > 0 && h[i - 1].Probe? && h[i - 1].now <= h[i].now && Admits(After(h[..i - 1]), h[i - 1].now)
  }

  lemma PrefixKeeps(h: seq<Event>, n: nat)
    requires n <= |h| && Monotone(h) && OneAtATime(h)
    ensures Monotone(h[..n]) && OneAtATime(h[..n])
  {
    forall i | 0 <= i < n && h[..n][i].Failure?
      ensures i > 0 && h[..n][i - 1].Probe? && h[..n][i - 1].now <= h[..n][i].now
              && Admits(After(h[..n][..i - 1]), h[..n][i - 1].now)
    {
      assert h[i].Failure?;
      assert h[..n][..i - 1] == h[..i - 1];
    }
  }

  // The last failure of a run: it closes the run that the call before it opened.
  lemma LastFailureSpaced(h: seq<Event>)
    requires Monotone(h) && OneAtATime(h) && h != [] && h[|h| - 1].Failure? && |Streak(h)| > FAILURE_THRESHOLD
    ensures Last(Streak(h)) >= Last(Streak(h[..|h| - 1])) + COOLDOWN_MS
  {
    var n := |h| - 1;
    assert h[n - 1].Probe?;
    var before, p := h[..n - 1], h[n - 1].now;
    PrefixKeeps(h, n);
    assert h[..n] == before + [Probe(p)];
    OneMore(before, Probe(p));
    AdmitsExactlyMonotone(before, p);
  }

  // From the 4th on, each failure of a streak comes a whole cooldown after the one before.
  lemma {:induction false} ConsecutiveFailuresSpaced(h: seq<Event>, k: nat)
    requires Monotone(h) && OneAtATime(h)
    requires FAILURE_THRESHOLD <= k < |Streak(h)|
    ensures Streak(h)[k] >= Streak(h)[k - 1] + COOLDOWN_MS
  {
    var n := |h| - 1;
    if h[n].Failure? && k == |Streak(h)| - 1 {
      LastFailureSpaced(h);
    } else {
      PrefixKeeps(h, n);
      ConsecutiveFailuresSpaced(h[..n], k);
    }
  }

  // In a success-free streak the k-th recorded failure (counting from 1, k > 3) comes at least
  // (k - 3) cooldowns after the third.
  lemma {:induction false} StreakSpacing(h: seq<Event>, k: nat)
    requires Monotone(h) && OneAtATime(h)
    requires FAILURE_THRESHOLD <= k <= |Streak(h)|
    ensures Streak(h)[k - 1] >= Streak(h)[FAILURE_THRESHOLD - 1] + (k - FAILURE_THRESHOLD) * COOLDOWN_MS
  {
    if k > FAILURE_THRESHOLD {
      StreakSpacing(h, k - 1);
      ConsecutiveFailuresSpaced(h, k - 1);
    }
  }

  // ----- what the documentation promises and the code does not keep -----

  lemma OneMore(h: seq<Event>, e: Event)
    ensures Streak(h + [e]) == if e.Probe? then Streak(h) else if e.Success? then [] else Streak(h) + [e.now]
    ensures e.Probe? && Streak(h) != [] && e.now >= Last(Streak(h)) + COOLDOWN_MS ==> CooledOff(h + [e])
  {
  }

  const TRIPPED := [Failure(0), Failure(0), Failure(0)]

  lemma TrippedStreak()
    ensures Streak(TRIPPED) == [0, 0, 0]
    ensures Streak(TRIPPED + [Probe(30_000)]) == [0, 0, 0] && CooledOff(TRIPPED + [Probe(30_000)])
  {
    OneMore([], Failure(0));
    OneMore([Failure(0)], Failure(0));
    OneMore([Failure(0), Failure(0)], Failure(0));
    assert [] + [Failure(0)] == [Failure(0)];
    assert [Failure(0)] + [Failure(0)] == [Failure(0), Failure(0)];
    assert [Failure(0), Failure(0)] + [Failure(0)] == TRIPPED;
    OneMore(TRIPPED, Probe(30_000));
  }

  // HALF_OPEN does not limit probes: two runs in flight both pass, and their failures can be recorded
  // 1 ms apart, so the spacing needs runs to be submitted one at a time.
  lemma ConcurrentProbesBreakSpacing()
    ensures var h := TRIPPED + [Probe(30_000)];
            && Admits(After(TRIPPED), 30_000) && Admits(After(h), 30_000)
            && Streak(h + [Probe(30_000)] + [Failure(30_001)] + [Failure(30_002)]) == [0, 0, 0, 30_001, 30_002]
  {
    var h := TRIPPED + [Probe(30_000)];
    TrippedStreak();
    AdmitsExactly(TRIPPED, 30_000);
    AdmitsExactly(h, 30_000);
    OneMore(h, Probe(30_000));
    OneMore(h + [Probe(30_000)], Failure(30_001));
    OneMore(h + [Probe(30_000)] + [Failure(30_001)], Failure(30_002));
  }

  // With a clock that steps back, a call inside the cooldown can be admitted after all.
  lemma ClockStepBackAdmitsEarly()
    ensures var h := TRIPPED + [Probe(30_000)];
            |Streak(h)| == FAILURE_THRESHOLD && 1 < Last(Streak(h)) + COOLDOWN_MS && Admits(After(h), 1)
  {
    TrippedStreak();
    AdmitsExactly(TRIPPED + [Probe(30_000)], 1);
  }
}
