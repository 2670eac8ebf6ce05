// shared/rate_limit.py: a sliding-window limiter, one deque of admission times per key.
//
// Times are reals: rounding is not the point. `check` reads the clock before it takes the
// lock, so the readings need not arrive in order; `Skewed(calls, d)` says by how much they may
// be out of order (d = 0 is the single-threaded, monotone case).
module RateLimit {

  datatype Verdict =
    | Admitted
    | Refused(retryAfter: real)  // RateLimitExceeded
    | IndexFault                 // hits[0] on an empty deque: IndexError

  // ----- one call on one deque -----

  function Prune(hits: seq<real>, now: real, window: real): (kept: seq<real>) {
    if hits != [] && now - hits[0] > window then Prune(hits[1..], now, window) else hits
  }

  datatype Ledger = Ledger(hits: seq<real>, admitted: seq<real>)

  function Decide(hits: seq<real>, now: real, window: real, limit: int): (r: (seq<real>, Verdict)) {
    var kept := Prune(hits, now, window);
    if |kept| >= limit then
      (kept, if kept == [] then IndexFault else Refused(window - (now - kept[0])))
    else
      (kept + [now], Admitted)
  }

  function Next(before: Ledger, now: real, window: real, limit: int): (r: Ledger) {
    var (hits, verdict) := Decide(before.hits, now, window, limit);
    Ledger(hits, if verdict.Admitted? then before.admitted + [now] else before.admitted)
  }

  // The deque, and every admission ever made, after the calls on one key in lock order.
  function After(calls: seq<real>, window: real, limit: int): (r: Ledger) {
    if calls == [] then Ledger([], [])
    else Next(After(calls[..|calls| - 1], window, limit), calls[|calls| - 1], window, limit)
  }

  lemma AfterOneMore(calls: seq<real>, now: real, window: real, limit: int)
    ensures After(calls + [now], window, limit) == Next(After(calls, window, limit), now, window, limit)
  {
  }

  function KeyOf(capabilityId: string, tenantId: string): (key: string) {
    tenantId + ":" + capabilityId
  }

  function Past(calls: map<string, seq<real>>, key: string): (r: seq<real>) {
    if key in calls then calls[key] else []
  }

  // Every deque is what the calls on its key made of it.
  ghost predicate Tracks(hits: map<string, seq<real>>, calls: map<string, seq<real>>, window: real, limit: int) {
    && hits.Keys == calls.Keys
    && forall k :: k in hits ==> hits[k] == After(calls[k], window, limit).hits
  }

  lemma OneMoreCall(hits: map<string, seq<real>>, calls: map<string, seq<real>>, key: string, now: real, window: real, limit: int)
    requires Tracks(hits, calls, window, limit)
    ensures var before := if key in hits then hits[key] else [];
            var after := Decide(before, now, window, limit).0;
            && before == After(Past(calls, key), window, limit).hits
            && after == After(Past(calls, key) + [now], window, limit).hits
            && Tracks(hits[key := after], calls[key := Past(calls, key) + [now]], window, limit)
  {
    AfterOneMore(Past(calls, key), now, window, limit);
  }

  class RateLimiter {
    const window: real
    const limit: int
    var hits: map<string, seq<real>>
    ghost var calls: map<string, seq<real>>  // every reading that reached the lock, per key

    ghost predicate Valid() reads this {
      Tracks(hits, calls, window, limit)
    }

    ghost function CallsOn(key: string): (r: seq<real>) reads this {
      Past(calls, key)
    }

    constructor (window: real, limit: int)
      ensures Valid() && hits == map[] && this.window == window && this.limit == limit
    {
      this.window, this.limit := window, limit;
      hits, calls := map[], map[];
    }

    method Check(capabilityId: string, tenantId: string, now: real) returns (verdict: Verdict)
      requires Valid()
      modifies this
      ensures Valid()
      ensures var key := KeyOf(capabilityId, tenantId);
              && calls == old(calls)[key := old(CallsOn(key)) + [now]]
              && verdict == Decide(After(old(CallsOn(key)), window, limit).hits, now, window, limit).1
              && hits == old(hits)[key := After(old(CallsOn(key)) + [now], window, limit).hits]
    {
      var key := tenantId + ":" + capabilityId;
      OneMoreCall(hits, calls, key, now, window, limit);
      var deque := if key in hits then hits[key] else [];
      ghost var before := deque;
      while deque != [] && now - deque[0] > window
        invariant Prune(deque, now, window) == Prune(before, now, window)
        decreases |deque|
      {
        deque := deque[1..];
      }
      assert deque == Prune(before, now, window);
      if |deque| >= limit {
        if deque == [] {
          verdict := IndexFault;
        } else {
          verdict := Refused(window - (now - deque[0]));
        }
      } else {
        deque := deque + [now];
        verdict := Admitted;
      }
      hits := hits[key := deque];
      calls := calls[key := CallsOn(key) + [now]];
    }
  }

  // ----- vocabulary of the specification -----

  ghost predicate Skewed(calls: seq<real>, d: real) {
    forall i, j :: 0 <= i < j < |calls| ==> calls[j] >= calls[i] - d
  }

  function CountIn(times: seq<real>, lo: real, hi: real): (n: nat)
    ensures n <= |times|
  {
    if times == [] then 0
    else
      var t := times[|times| - 1];
      CountIn(times[..|times| - 1], lo, hi) + if lo <= t <= hi then 1 else 0
  }

  // Admissions `limit` places apart are more than `gap` apart in time.
  ghost predicate Spaced(times: seq<real>, limit: int, gap: real) {
    forall i, j :: 0 <= i <= j < |times| && i + limit <= j ==> times[j] - times[i] > gap
  }

  // ----- counting -----

  lemma {:induction false} CountOfConcat(a: seq<real>, b: seq<real>, lo: real, hi: real)
    ensures CountIn(a + b, lo, hi) == CountIn(a, lo, hi) + CountIn(b, lo, hi)
  {
    if b == [] {
      assert a + b == a;
    } else {
      var last := |b| - 1;
      assert (a + b)[..|a + b| - 1] == a + b[..last];
      CountOfConcat(a, b[..last], lo, hi);
    }
  }

  lemma {:induction false} CountNone(a: seq<real>, lo: real, hi: real)
    requires forall i :: 0 <= i < |a| ==> !(lo <= a[i] <= hi)
    ensures CountIn(a, lo, hi) == 0
  {
    if a != [] { CountNone(a[..|a| - 1], lo, hi); }
  }

  lemma {:induction false} CountEvery(a: seq<real>, lo: real, hi: real)
    requires forall i :: 0 <= i < |a| ==> lo <= a[i] <= hi
    ensures CountIn(a, lo, hi) == |a|
  {
    if a != [] { CountEvery(a[..|a| - 1], lo, hi); }
  }

  // A count is at least the length of a suffix that lies inside, at most that of one that covers it.
  lemma CountAtLeastSuffix(a: seq<real>, cut: nat, lo: real, hi: real)
    requires cut <= |a| && forall i :: cut <= i < |a| ==> lo <= a[i] <= hi
    ensures CountIn(a, lo, hi) >= |a| - cut
  {
  }

  lemma CountAtMostSuffix(a: seq<real>, cut: nat, lo: real, hi: real)
    requires cut <= |a| && forall i :: 0 <= i < cut ==> !(lo <= a[i] <= hi)
    ensures CountIn(a, lo, hi) <= |a| - cut
  {
    assert a == a[..cut] + a[cut..];
    CountNone(a[..cut], lo, hi);
    CountOfConcat(a[..cut], a[cut..], lo, hi);
  }

  lemma {:induction false} SpacedBoundsWindow(a: seq<real>, limit: int, gap: real, t: real)
    requires Spaced(a, limit, gap) && (limit <= 0 ==> a == [])
    ensures CountIn(a, t, t + gap) <= if limit <= 0 then 0 else limit
  {
    if a == [] {
    } else {
      var n := |a| - 1;
      if t <= a[n] <= t + gap && limit <= n {
        // Everything `limit` or more places before the last one is outside the window.
        forall i | 0 <= i < n + 1 - limit ensures !(t <= a[i] <= t + gap) {
          assert a[n] - a[i] > gap;
        }
        CountAtMostSuffix(a, n + 1 - limit, t, t + gap);
      } else if t <= a[n] <= t + gap {
      } else {
        SpacedBoundsWindow(a[..n], limit, gap, t);
      }
    }
  }

  // ----- what the deque holds -----

  lemma {:induction false} PruneDropsStale(hits: seq<real>, now: real, window: real)
    ensures var kept := Prune(hits, now, window);
            && |kept| <= |hits| && kept == hits[|hits| - |kept|..]
            && (forall i :: 0 <= i < |hits| - |kept| ==> now - hits[i] > window)
            && (kept != [] ==> now - kept[0] <= window)
  {
    if hits != [] && now - hits[0] > window {
      PruneDropsStale(hits[1..], now, window);
      var kept := Prune(hits, now, window);
      forall i | 0 <= i < |hits| - |kept| ensures now - hits[i] > window {
        if i > 0 { assert hits[i] == hits[1..][i - 1]; }
      }
    }
  }

  // A dropped admission was judged stale by some reading.
  ghost predicate Stale(calls: seq<real>, a: real, window: real) {
    exists p :: 0 <= p < |calls| && calls[p] - a > window
  }

  ghost predicate Newest(l: Ledger, limit: int) {
    && |l.hits| <= |l.admitted| && l.hits == l.admitted[|l.admitted| - |l.hits|..]
    && |l.hits| <= (if limit <= 0 then 0 else limit)
    && (limit <= 0 ==> l.admitted == [])
  }

  ghost predicate Expired(calls: seq<real>, admitted: seq<real>, n: nat, window: real)
    requires n <= |admitted|
  {
    forall i :: 0 <= i < n ==> Stale(calls, admitted[i], window)
  }

  ghost predicate Called(calls: seq<real>, admitted: seq<real>) {
    forall i :: 0 <= i < |admitted| ==> admitted[i] in calls
  }

  ghost predicate Holds(calls: seq<real>, l: Ledger, window: real, limit: int) {
    Newest(l, limit) && Called(calls, l.admitted) && Expired(calls, l.admitted, |l.admitted| - |l.hits|, window)
  }

  // What has left the deque once a call has pruned it.
  lemma PrunedAreStale(calls: seq<real>, l: Ledger, now: real, window: real, limit: int)
    requires Holds(calls, l, window, limit)
    ensures var kept := Prune(l.hits, now, window);
            && |kept| <= |l.hits| && kept == l.admitted[|l.admitted| - |kept|..]
            && Expired(calls + [now], l.admitted, |l.admitted| - |kept|, window)
  {
    PruneDropsStale(l.hits, now, window);
    var kept, shift := Prune(l.hits, now, window), |l.admitted| - |l.hits|;
    forall i | 0 <= i < |l.admitted| - |kept| ensures Stale(calls + [now], l.admitted[i], window) {
      if i < shift {
        var p :| 0 <= p < |calls| && calls[p] - l.admitted[i] > window;
        assert (calls + [now])[p] - l.admitted[i] > window;
      } else {
        assert l.admitted[i] == l.hits[i - shift];
        assert (calls + [now])[|calls|] - l.admitted[i] > window;
      }
    }
  }

  lemma CalledOneMore(calls: seq<real>, admitted: seq<real>, now: real)
    requires Called(calls, admitted)
    ensures Called(calls + [now], admitted) && Called(calls + [now], admitted + [now])
  {
    assert (calls + [now])[|calls|] == now;
    assert forall a :: a in calls ==> a in calls + [now];
  }

  lemma NewestOneMore(l: Ledger, now: real, window: real, limit: int)
    requires Newest(l, limit)
    ensures Newest(Next(l, now, window, limit), limit)
  {
    PruneDropsStale(l.hits, now, window);
    var kept, m := Prune(l.hits, now, window), |l.admitted|;
    assert l.admitted[m - |kept|..] == kept;
    if |kept| < limit {
      assert (l.admitted + [now])[m - |kept|..] == kept + [now];
    }
  }

  lemma HoldsOneMore(calls: seq<real>, l: Ledger, now: real, window: real, limit: int)
    requires Holds(calls, l, window, limit)
    ensures Holds(calls + [now], Next(l, now, window, limit), window, limit)
  {
    PrunedAreStale(calls, l, now, window, limit);
    CalledOneMore(calls, l.admitted, now);
    NewestOneMore(l, now, window, limit);
  }

  // The deque is exactly the newest admissions, and whatever left it had expired for some call.
  lemma {:induction false} DequeIsNewestAdmissions(calls: seq<real>, window: real, limit: int)
    ensures Holds(calls, After(calls, window, limit), window, limit)
  {
    if calls != [] {
      var n := |calls| - 1;
      DequeIsNewestAdmissions(calls[..n], window, limit);
      HoldsOneMore(calls[..n], After(calls[..n], window, limit), calls[n], window, limit);
      assert calls[..n] + [calls[n]] == calls;
    }
  }

  lemma {:induction false} AdmissionsSpaced(calls: seq<real>, window: real, limit: int, d: real)
    requires d >= 0.0 && Skewed(calls, d)
    ensures Spaced(After(calls, window, limit).admitted, limit, window - d)
  {
    if calls != [] {
      var n := |calls| - 1;
      var before, after, now := After(calls[..n], window, limit), After(calls, window, limit), calls[n];
      AdmissionsSpaced(calls[..n], window, limit, d);
      DequeIsNewestAdmissions(calls[..n], window, limit);
      PruneDropsStale(before.hits, now, window);
      var kept := Prune(before.hits, now, window);
      if |kept| < limit {
        var m := |before.admitted|;
        forall i | 0 <= i && i + limit <= m ensures now - before.admitted[i] > window - d {
          var shift := m - |before.hits|;
          if i < shift {
            var p :| 0 <= p < n && calls[..n][p] - before.admitted[i] > window;
            assert calls[n] >= calls[p] - d;
          } else {
            assert before.admitted[i] == before.hits[i - shift];
          }
        }
      }
    }
  }

  lemma NoneAdmitted(calls: seq<real>, window: real, limit: int)
    ensures limit <= 0 ==> After(calls, window, limit).admitted == []
    ensures |After(calls, window, limit).hits| <= if limit <= 0 then 0 else limit
  {
    DequeIsNewestAdmissions(calls, window, limit);
  }

  // With readings at most d out of order, no closed interval of length window - d holds more
  // than `limit` admissions. For d = 0 this is the documented bound on every closed window.
  lemma {:induction false} NoWindowOverLimit(calls: seq<real>, window: real, limit: int, d: real, t: real)
    requires d >= 0.0 && Skewed(calls, d)
    ensures CountIn(After(calls, window, limit).admitted, t, t + (window - d))
            <= if limit <= 0 then 0 else limit
  {
    AdmissionsSpaced(calls, window, limit, d);
    NoneAdmitted(calls, window, limit);
    SpacedBoundsWindow(After(calls, window, limit).admitted, limit, window - d, t);
  }

  // ----- how long an interval is safe -----

  function Cap(limit: int): (n: nat) {
    if limit <= 0 then 0 else limit
  }

  ghost predicate Keeps(calls: seq<real>, window: real, limit: int, length: real, t: real) {
    CountIn(After(calls, window, limit).admitted, t, t + length) <= Cap(limit)
  }

  // However the calls come, with readings at most d out of order, no closed interval of this length sees
  // more admissions than the limit.
  ghost predicate AlwaysKeeps(window: real, limit: int, d: real, length: real) {
    forall calls: seq<real>, t: real :: Skewed(calls, d) ==> Keeps(calls, window, limit, length, t)
  }

  lemma {:induction false} ShorterHoldsLess(times: seq<real>, lo: real, hi: real, wider: real)
    requires hi <= wider
    ensures CountIn(times, lo, hi) <= CountIn(times, lo, wider)
  {
    if times != [] { ShorterHoldsLess(times[..|times| - 1], lo, hi, wider); }
  }

  // With limit 1 the call that admits has itself seen the admission before it expire, whatever the skew.
  ghost predicate Lone(l: Ledger, window: real) {
    && (if l.admitted == [] then l.hits == [] else l.hits == [l.admitted[|l.admitted| - 1]])
    && (forall i, j :: 0 <= i < j < |l.admitted| ==> l.admitted[j] - l.admitted[i] > window)
  }

  lemma LoneOneMore(l: Ledger, now: real, window: real)
    requires window >= 0.0 && Lone(l, window)
    ensures Lone(Next(l, now, window, 1), window)
  {
    var after := Next(l, now, window, 1);
    if l.admitted != [] && now - l.hits[0] > window {
      assert Prune(l.hits, now, window) == [];
      var n := |l.admitted|;
      forall i | 0 <= i < n ensures now - after.admitted[i] > window {
        assert i == n - 1 || l.admitted[n - 1] - l.admitted[i] > window;
      }
    }
  }

  lemma {:induction false} LoneAdmissions(calls: seq<real>, window: real)
    requires window >= 0.0
    ensures Lone(After(calls, window, 1), window)
  {
    if calls != [] {
      LoneAdmissions(calls[..|calls| - 1], window);
      LoneOneMore(After(calls[..|calls| - 1], window, 1), calls[|calls| - 1], window);
    }
  }

  function Copies(n: nat, a: real): (s: seq<real>)
    ensures |s| == n && forall i :: 0 <= i < n ==> s[i] == a
  {
    if n == 0 then [] else Copies(n - 1, a) + [a]
  }

  ghost predicate Filled(l: Ledger, n: nat, a: real) {
    l.admitted == Copies(n, a) && |l.hits| <= n && forall i :: 0 <= i < |l.hits| ==> l.hits[i] == a
  }

  lemma FilledOneMore(l: Ledger, n: nat, a: real, window: real, limit: int)
    requires n < limit && Filled(l, n, a)
    ensures Filled(Next(l, a, window, limit), n + 1, a)
  {
    PruneDropsStale(l.hits, a, window);
    var kept := Prune(l.hits, a, window);
    assert forall i :: 0 <= i < |kept| ==> kept[i] == l.hits[|l.hits| - |kept| + i];
    assert Next(l, a, window, limit) == Ledger(kept + [a], l.admitted + [a]);
  }

  // The first `limit` calls are admitted.
  lemma {:induction false} FirstAreAdmitted(n: nat, a: real, window: real, limit: int)
    requires n <= limit
    ensures Filled(After(Copies(n, a), window, limit), n, a)
  {
    if n > 0 {
      FirstAreAdmitted(n - 1, a, window, limit);
      FilledOneMore(After(Copies(n - 1, a), window, limit), n - 1, a, window, limit);
      AfterOneMore(Copies(n - 1, a), a, window, limit);
    }
  }

  // A call that finds the whole deque expired is admitted and is then alone in it,
  lemma ExpiredAll(l: Ledger, n: nat, a: real, now: real, window: real, limit: int)
    requires limit >= 1 && now - a > window && Filled(l, n, a)
    ensures Next(l, now, window, limit) == Ledger([now], Copies(n, a) + [now])
  {
    PruneDropsStale(l.hits, now, window);
    assert Prune(l.hits, now, window) == [];
  }

  // and leaves room for another.
  lemma RoomForOne(l: Ledger, now: real, window: real, limit: int)
    requires limit >= 2 && |l.hits| <= 1
    ensures Next(l, now, window, limit).admitted == l.admitted + [now]
  {
    PruneDropsStale(l.hits, now, window);
  }

  // `limit` calls at 0, one reading ahead of the others, and one d before it.
  function Overfill(limit: nat, length: real, d: real): (calls: seq<real>) {
    Copies(limit, 0.0) + [length + d] + [length]
  }

  // The reading that is ahead empties the deque, so all of them are admitted.
  lemma AheadIsAlone(window: real, limit: nat, ahead: real)
    requires limit >= 2 && ahead > window
    ensures After(Copies(limit, 0.0) + [ahead], window, limit) == Ledger([ahead], Copies(limit, 0.0) + [ahead])
  {
    var first := Copies(limit, 0.0);
    FirstAreAdmitted(limit, 0.0, window, limit);
    ExpiredAll(After(first, window, limit), limit, 0.0, ahead, window, limit);
    AfterOneMore(first, ahead, window, limit);
  }

  lemma OverfillIsAdmitted(window: real, limit: nat, d: real, length: real)
    requires limit >= 2 && length > window - d
    ensures After(Overfill(limit, length, d), window, limit).admitted == Overfill(limit, length, d)
  {
    var before := Copies(limit, 0.0) + [length + d];
    AheadIsAlone(window, limit, length + d);
    RoomForOne(Ledger([length + d], before), length, window, limit);
    AfterOneMore(before, length, window, limit);
  }

  lemma OverfillCount(limit: nat, d: real, length: real)
    requires d >= 0.0 && length >= 0.0
    ensures CountIn(Overfill(limit, length, d), 0.0, length) > limit
  {
    CountEvery(Copies(limit, 0.0), 0.0, length);
    CountOfConcat(Copies(limit, 0.0), [length + d], 0.0, length);
    CountOfConcat(Copies(limit, 0.0) + [length + d], [length], 0.0, length);
    CountEvery([length], 0.0, length);
  }

  lemma OverfillSkew(limit: nat, d: real, length: real)
    requires d >= 0.0 && length >= 0.0
    ensures Skewed(Overfill(limit, length, d), d)
  {
    var calls := Overfill(limit, length, d);
    assert forall i :: 0 <= i < limit ==> calls[i] == 0.0;
    assert calls[limit] == length + d && calls[limit + 1] == length;
  }

  lemma EarlyPruneOverfills(window: real, limit: int, d: real, length: real)
    requires d >= 0.0 && length >= 0.0 && limit >= 2 && length > window - d
    ensures !AlwaysKeeps(window, limit, d, length)
  {
    OverfillIsAdmitted(window, limit, d, length);
    OverfillCount(limit, d, length);
    OverfillSkew(limit, d, length);
    assert !Keeps(Overfill(limit, length, d), window, limit, length, 0.0);
  }

  lemma LonePairIsAdmitted(window: real, length: real)
    requires length > window
    ensures After([0.0, length], window, 1).admitted == [0.0, length]
  {
    var first := Copies(1, 0.0);
    FirstAreAdmitted(1, 0.0, window, 1);
    ExpiredAll(After(first, window, 1), 1, 0.0, length, window, 1);
    AfterOneMore(first, length, window, 1);
    assert first + [length] == [0.0, length];
  }

  lemma LoneOverfills(window: real, d: real, length: real)
    requires d >= 0.0 && length >= 0.0 && length > window
    ensures !AlwaysKeeps(window, 1, d, length)
  {
    LonePairIsAdmitted(window, length);
    CountEvery([0.0, length], 0.0, length);
    PairSkew([0.0, length], d);
    assert !Keeps([0.0, length], window, 1, length, 0.0);
  }

  lemma PairSkew(calls: seq<real>, d: real)
    requires |calls| == 2 && calls[0] <= calls[1] && d >= 0.0
    ensures Skewed(calls, d)
  {
  }

  lemma KeptWhenEmpty(calls: seq<real>, window: real, limit: int, length: real, t: real)
    requires limit <= 0 || length < 0.0
    ensures Keeps(calls, window, limit, length, t)
  {
    NoneAdmitted(calls, window, limit);
    if length < 0.0 { CountNone(After(calls, window, limit).admitted, t, t + length); }
  }

  lemma KeptWithSkew(calls: seq<real>, window: real, limit: int, d: real, length: real, t: real)
    requires d >= 0.0 && Skewed(calls, d) && length <= window - d
    ensures Keeps(calls, window, limit, length, t)
  {
    NoWindowOverLimit(calls, window, limit, d, t);
    ShorterHoldsLess(After(calls, window, limit).admitted, t, t + length, t + (window - d));
  }

  lemma LoneIsSpaced(calls: seq<real>, window: real)
    requires window >= 0.0
    ensures Spaced(After(calls, window, 1).admitted, 1, window)
  {
    LoneAdmissions(calls, window);
  }

  lemma KeptAlone(calls: seq<real>, window: real, length: real, t: real)
    requires 0.0 <= length <= window
    ensures Keeps(calls, window, 1, length, t)
  {
    var times := After(calls, window, 1).admitted;
    LoneIsSpaced(calls, window);
    assert CountIn(times, t, t + window) <= 1 by { SpacedBoundsWindow(times, 1, window, t); }
    ShorterHoldsLess(times, t, t + length, t + window);
  }

  predicate Safe(window: real, limit: int, d: real, length: real) {
    limit <= 0 || length < 0.0 || (limit == 1 && length <= window) || length <= window - d
  }

  lemma KeptWithin(calls: seq<real>, window: real, limit: int, d: real, length: real, t: real)
    requires d >= 0.0 && Skewed(calls, d) && Safe(window, limit, d, length)
    ensures Keeps(calls, window, limit, length, t)
  {
    if limit <= 0 || length < 0.0 {
      KeptWhenEmpty(calls, window, limit, length, t);
    } else if length <= window - d {
      KeptWithSkew(calls, window, limit, d, length, t);
    } else {
      KeptAlone(calls, window, length, t);
    }
  }

  // The bound is exact: with readings up to d out of order a limiter keeps its promise on all closed
  // intervals of a length exactly up to window - d, or up to the whole window when it admits one call only.
  lemma SafeLengthExactly(window: real, limit: int, d: real, length: real)
    requires d >= 0.0
    ensures AlwaysKeeps(window, limit, d, length) <==>
            limit <= 0 || length < 0.0 || (limit == 1 && length <= window) || length <= window - d
  {
    if Safe(window, limit, d, length) {
      forall calls: seq<real>, t: real | Skewed(calls, d) ensures Keeps(calls, window, limit, length, t) {
        KeptWithin(calls, window, limit, d, length, t);
      }
    } else if limit == 1 {
      LoneOverfills(window, d, length);
    } else {
      EarlyPruneOverfills(window, limit, d, length);
    }
  }

  lemma StaleForLatest(calls: seq<real>, now: real, a: real, window: real, d: real)
    requires d >= 0.0 && Skewed(calls + [now], d) && Stale(calls + [now], a, window)
    ensures a < now - window + d
  {
    var all := calls + [now];
    var p :| 0 <= p < |all| && all[p] - a > window;
    assert p == |calls| || all[|calls|] >= all[p] - d;
  }

  lemma {:induction false} AdmissionsSkew(calls: seq<real>, window: real, limit: int, d: real)
    requires d >= 0.0 && Skewed(calls, d)
    ensures Skewed(After(calls, window, limit).admitted, d)
  {
    if calls != [] {
      var n := |calls| - 1;
      assert calls[..n] + [calls[n]] == calls;
      AdmissionsBeforeNow(calls[..n], calls[n], window, limit, d);
      AdmissionsSkew(calls[..n], window, limit, d);
    }
  }

  lemma AdmissionsBeforeNow(calls: seq<real>, now: real, window: real, limit: int, d: real)
    requires Skewed(calls + [now], d)
    ensures Skewed(calls, d)
    ensures forall i :: 0 <= i < |After(calls, window, limit).admitted|
                        ==> After(calls, window, limit).admitted[i] <= now + d
  {
    var all, a := calls + [now], After(calls, window, limit).admitted;
    assert forall i :: 0 <= i < |calls| ==> all[i] == calls[i];
    DequeIsNewestAdmissions(calls, window, limit);
    forall i | 0 <= i < |a| ensures a[i] <= now + d {
      var p :| 0 <= p < |calls| && calls[p] == a[i];
      assert all[|calls|] >= all[p] - d;
    }
  }

  // Which admissions a call keeps: those that were still inside the window, up to the skew.
  lemma KeptAreInWindow(calls: seq<real>, now: real, window: real, limit: int, d: real)
    requires d >= 0.0 && Skewed(calls + [now], d)
    ensures var l := After(calls, window, limit);
            var n := |Prune(l.hits, now, window)|;
            && n <= |l.admitted|
            && (forall i :: 0 <= i < |l.admitted| - n ==> l.admitted[i] < now - window + d)
            && (forall i :: |l.admitted| - n <= i < |l.admitted| ==> now - window - d <= l.admitted[i] <= now + d)
  {
    var l := After(calls, window, limit);
    DequeIsNewestAdmissions(calls, window, limit);
    PruneDropsStale(l.hits, now, window);
    PrunedAreStale(calls, l, now, window, limit);
    AdmissionsBeforeNow(calls, now, window, limit, d);
    AdmissionsSkew(calls, window, limit, d);
    var kept, a := Prune(l.hits, now, window), l.admitted;
    var cut := |a| - |kept|;
    forall i | 0 <= i < cut ensures a[i] < now - window + d {
      StaleForLatest(calls, now, a[i], window, d);
    }
    forall i | cut <= i < |a| ensures now - window - d <= a[i] {
      assert a[cut] == kept[0];
      assert i == cut || a[i] >= a[cut] - d;
    }
  }

  // A refusal means `limit` admissions really lie in the (d-widened) window, and that many
  // admissions in the (d-narrowed) window mean a refusal.
  lemma RefusalIsJustified(calls: seq<real>, now: real, window: real, limit: int, d: real)
    requires d >= 0.0 && Skewed(calls + [now], d)
    ensures var l := After(calls, window, limit);
            var verdict := Decide(l.hits, now, window, limit).1;
            && (!verdict.Admitted? ==> CountIn(l.admitted, now - window - d, now + d) >= limit)
            && (CountIn(l.admitted, now - window + d, now + d) >= limit ==> !verdict.Admitted?)
  {
    var l := After(calls, window, limit);
    KeptAreInWindow(calls, now, window, limit, d);
    var cut := |l.admitted| - |Prune(l.hits, now, window)|;
    CountAtLeastSuffix(l.admitted, cut, now - window - d, now + d);
    CountAtMostSuffix(l.admitted, cut, now - window + d, now + d);
  }

  // In order (d = 0), a call is refused exactly when `limit` admissions lie in the closed
  // window that ends at it.
  lemma {:induction false} RefusedExactlyWhenFull(calls: seq<real>, now: real, window: real, limit: int)
    requires limit > 0 && Skewed(calls + [now], 0.0)
    ensures var l := After(calls, window, limit);
            Decide(l.hits, now, window, limit).1.Refused?
            <==> CountIn(l.admitted, now - window, now) >= limit
  {
    FaultExactlyWhenNoneAllowed(calls, now, window, limit);
    RefusalIsJustified(calls, now, window, limit, 0.0);
  }

  // The IndexError branch is reached exactly by limiters configured to admit nothing.
  lemma {:induction false} FaultExactlyWhenNoneAllowed(calls: seq<real>, now: real, window: real, limit: int)
    ensures Decide(After(calls, window, limit).hits, now, window, limit).1 == IndexFault <==> limit <= 0
  {
    NoneAdmitted(calls, window, limit);
    PruneDropsStale(After(calls, window, limit).hits, now, window);
  }

  // After a refusal, with no other call on the key, a retry is admitted exactly when it comes
  // strictly later than the advertised delay.
  lemma {:induction false} RetryAfterIsExact(calls: seq<real>, now: real, later: real, window: real, limit: int)
    requires Decide(After(calls, window, limit).hits, now, window, limit).1.Refused?
    ensures var wait := Decide(After(calls, window, limit).hits, now, window, limit).1.retryAfter;
            var hits := After(calls + [now], window, limit).hits;
            Decide(hits, later, window, limit).1.Admitted? <==> later > now + wait
  {
    AfterOneMore(calls, now, window, limit);
    var all := calls + [now];
    NoneAdmitted(calls, window, limit);
    var hits := After(all, window, limit).hits;
    PruneDropsStale(After(calls, window, limit).hits, now, window);
    PruneDropsStale(hits, later, window);
  }

  // Two different (tenant, capability) pairs share a deque exactly when one tenant id extends the
  // other by ":" and the rest is the other's capability prefix.
  ghost predicate Aliases(c1: string, t1: string, c2: string, t2: string) {
    exists m: string :: t2 == t1 + ":" + m && c1 == m + ":" + c2
  }

  lemma {:induction false} KeysCollideExactly(c1: string, t1: string, c2: string, t2: string)
    ensures KeyOf(c1, t1) == KeyOf(c2, t2)
            <==> (c1 == c2 && t1 == t2) || Aliases(c1, t1, c2, t2) || Aliases(c2, t2, c1, t1)
  {
    if KeyOf(c1, t1) == KeyOf(c2, t2) {
      if |t1| == |t2| {
        assert t1 == KeyOf(c1, t1)[..|t1|] && c1 == KeyOf(c1, t1)[|t1| + 1..];
        assert t2 == KeyOf(c2, t2)[..|t1|] && c2 == KeyOf(c2, t2)[|t1| + 1..];
      } else if |t1| < |t2| {
        CollisionSplits(c1, t1, c2, t2);
      } else {
        CollisionSplits(c2, t2, c1, t1);
      }
    }
    if Aliases(c1, t1, c2, t2) {
      var m: string :| t2 == t1 + ":" + m && c1 == m + ":" + c2;
      assert KeyOf(c1, t1) == t1 + ":" + (m + ":" + c2) == (t1 + ":" + m) + ":" + c2;
    }
    if Aliases(c2, t2, c1, t1) {
      var m: string :| t1 == t2 + ":" + m && c2 == m + ":" + c1;
      assert KeyOf(c2, t2) == t2 + ":" + (m + ":" + c1) == (t2 + ":" + m) + ":" + c1;
    }
  }

  lemma CollisionSplits(c1: string, t1: string, c2: string, t2: string)
    requires KeyOf(c1, t1) == KeyOf(c2, t2) && |t1| < |t2|
    ensures Aliases(c1, t1, c2, t2)
  {
    var k := KeyOf(c1, t1);
    var m := t2[|t1| + 1..];
    assert t2 == k[..|t2|] && c2 == k[|t2| + 1..] && c1 == k[|t1| + 1..] && t1 == k[..|t1|];
    assert k[|t1|] == ':' && k[|t2|] == ':';
    assert t2 == t1 + ":" + m;
    assert c1 == m + ":" + c2;
  }
}
