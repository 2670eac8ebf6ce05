// The page behind Playwright, as an arbitrary machine with hidden state S: every call, reads included,
// may move it. S can hold time, the network and the bank's own state, so an App is any page behaviour
// at all; `Steady` singles out the pages whose reads change nothing.
module Browser {
  import opened Prelude

  datatype Act = Done | TimedOut | Failed

  datatype App<!S> = App(
    goto: (S, string) -> (S, Act),
    click: (S, string) -> (S, Act),
    fill: (S, string, string) -> (S, Act),
    choose: (S, string, string) -> (S, Act),
    count: (S, string) -> (S, Option<nat>),         // page.locator(c).count(); None: raised
    innerText: (S, string) -> (S, Option<string>),
    bodyText: S -> (S, Option<string>),
    url: S -> (S, Option<string>),
    textCount: (S, string) -> (S, Option<nat>),     // page.get_by_text(t).count()
    visible: (S, string) -> (S, Option<bool>),      // page.locator(c).first.is_visible()
    snapshot: S -> (S, Option<string>))             // aria_snapshot()

  ghost predicate Steady<S(!new)>(app: App<S>) {
    && (forall s: S, c: string :: app.count(s, c).0 == s)
    && (forall s: S, c: string :: app.innerText(s, c).0 == s)
    && (forall s: S :: app.bodyText(s).0 == s)
    && (forall s: S :: app.url(s).0 == s)
    && (forall s: S, t: string :: app.textCount(s, t).0 == s)
    && (forall s: S, c: string :: app.visible(s, c).0 == s)
    && (forall s: S :: app.snapshot(s).0 == s)
  }

  // The first candidate that resolves to at least one element; one that raises is skipped.
  // services/discovery_plane/actor.py:26-34 and services/replay_runtime/executor.py:68-77.
  function Resolve<S>(app: App<S>, s: S, candidates: seq<string>): (r: (S, Option<string>)) {
    if candidates == [] then (s, None)
    else
      var (s', n) := app.count(s, candidates[0]);
      if n.Some? && n.value >= 1 then (s', Some(candidates[0]))
      else Resolve(app, s', candidates[1..])
  }

  // On a steady page resolving moves nothing, and its answer resolves at once when put first.
  lemma {:induction false} ResolveSteady<S(!new)>(app: App<S>, s: S, candidates: seq<string>)
    requires Steady(app)
    ensures var (s', c) := Resolve(app, s, candidates);
            && s' == s
            && (c.Some? ==> c.value in candidates && app.count(s, c.value).1.Some? && app.count(s, c.value).1.value >= 1)
    decreases |candidates|
  {
    if candidates != [] {
      assert app.count(s, candidates[0]).0 == s;
      ResolveSteady(app, s, candidates[1..]);
    }
  }

  // ----- resolving, by the page's own answers -----

  predicate HasElement<S>(app: App<S>, s: S, c: string) {
    var n := app.count(s, c).1;
    n.Some? && n.value >= 1
  }

  // The page after it was asked for the first n candidates.
  function PageAfter<S>(app: App<S>, s: S, candidates: seq<string>, n: nat): (r: S)
    requires n <= |candidates|
  {
    if n == 0 then s else app.count(PageAfter(app, s, candidates, n - 1), candidates[n - 1]).0
  }

  // Asked in turn, the n-th candidate is the first that has an element when its turn comes.
  ghost predicate FirstFound<S>(app: App<S>, s: S, candidates: seq<string>, n: nat) {
    && n < |candidates| && HasElement(app, PageAfter(app, s, candidates, n), candidates[n])
    && forall k :: 0 <= k < n ==> !HasElement(app, PageAfter(app, s, candidates, k), candidates[k])
  }

  predicate NoneFound<S>(app: App<S>, s: S, candidates: seq<string>) {
    forall k :: 0 <= k < |candidates| ==> !HasElement(app, PageAfter(app, s, candidates, k), candidates[k])
  }

  lemma {:induction false} PageAfterFirst<S>(app: App<S>, s: S, candidates: seq<string>, n: nat)
    requires n < |candidates|
    ensures PageAfter(app, s, candidates, n + 1) == PageAfter(app, app.count(s, candidates[0]).0, candidates[1..], n)
  {
    if n > 0 {
      PageAfterFirst(app, s, candidates, n - 1);
      assert candidates[n] == candidates[1..][n - 1];
    } else {
      assert PageAfter(app, s, candidates, 0) == s;
    }
  }

  // For any page, resolving asks for the candidates in turn and takes the first that has an element then;
  // it finds none exactly when none has.
  lemma {:induction false} ResolveFindsFirst<S>(app: App<S>, s: S, candidates: seq<string>, n: nat)
    ensures FirstFound(app, s, candidates, n) ==>
              Resolve(app, s, candidates) == (PageAfter(app, s, candidates, n + 1), Some(candidates[n]))
    ensures NoneFound(app, s, candidates) ==> Resolve(app, s, candidates) == (PageAfter(app, s, candidates, |candidates|), None)
    decreases |candidates|
  {
    if candidates != [] {
      var s', rest := app.count(s, candidates[0]).0, candidates[1..];
      assert PageAfter(app, s, candidates, 0) == s;
      forall k | 0 <= k < |rest|
        ensures PageAfter(app, s, candidates, k + 1) == PageAfter(app, s', rest, k) && candidates[k + 1] == rest[k]
      {
        PageAfterFirst(app, s, candidates, k);
      }
      PageAfterFirst(app, s, candidates, |rest|);
      if n > 0 && n < |candidates| {
        PageAfterFirst(app, s, candidates, n);
        ResolveFindsFirst(app, s', rest, n - 1);
        FirstFoundLater(app, s, candidates, n);
      } else {
        ResolveFindsFirst(app, s', rest, 0);
      }
      if NoneFound(app, s, candidates) { NoneFoundLater(app, s, candidates); }
    }
  }

  lemma FirstFoundLater<S>(app: App<S>, s: S, candidates: seq<string>, n: nat)
    requires candidates != [] && n > 0
    ensures FirstFound(app, s, candidates, n) ==> FirstFound(app, app.count(s, candidates[0]).0, candidates[1..], n - 1) && !HasElement(app, s, candidates[0])
  {
    if FirstFound(app, s, candidates, n) {
      assert !HasElement(app, PageAfter(app, s, candidates, 0), candidates[0]);
      PageAfterFirst(app, s, candidates, n - 1);
      forall k | 0 <= k < n - 1
        ensures !HasElement(app, PageAfter(app, app.count(s, candidates[0]).0, candidates[1..], k), candidates[1..][k])
      {
        PageAfterFirst(app, s, candidates, k);
        assert !HasElement(app, PageAfter(app, s, candidates, k + 1), candidates[k + 1]);
      }
    }
  }

  lemma NoneFoundLater<S>(app: App<S>, s: S, candidates: seq<string>)
    requires candidates != [] && NoneFound(app, s, candidates)
    ensures NoneFound(app, app.count(s, candidates[0]).0, candidates[1..]) && !HasElement(app, s, candidates[0])
  {
    assert !HasElement(app, PageAfter(app, s, candidates, 0), candidates[0]);
    forall k | 0 <= k < |candidates| - 1
      ensures !HasElement(app, PageAfter(app, app.count(s, candidates[0]).0, candidates[1..], k), candidates[1..][k])
    {
      PageAfterFirst(app, s, candidates, k);
      assert !HasElement(app, PageAfter(app, s, candidates, k + 1), candidates[k + 1]);
    }
  }

  // Some candidate is the first found, or none is.
  lemma {:induction false} FoundOrNot<S>(app: App<S>, s: S, candidates: seq<string>, n: nat) returns (k: nat)
    requires n <= |candidates|
    ensures if k < n then FirstFound(app, s, candidates, k)
            else forall j :: 0 <= j < n ==> !HasElement(app, PageAfter(app, s, candidates, j), candidates[j])
  {
    k := 0;
    if n > 0 {
      k := FoundOrNot(app, s, candidates, n - 1);
      if k >= n - 1 {
        k := if HasElement(app, PageAfter(app, s, candidates, n - 1), candidates[n - 1]) then n - 1 else n;
      }
    }
  }

  // The three assertions both interpreters know; None: the page call raised. An assertion neither
  // knows does not hold.
  function Holds<S>(app: App<S>, s: S, assertion: string, expected: string): (r: (S, Option<bool>)) {
    if assertion == "url_contains" then
      var (s', u) := app.url(s);
      (s', if u.Some? then Some(Contains(u.value, expected)) else None)
    else if assertion == "text_present" then
      var (s', n) := app.textCount(s, expected);
      (s', if n.Some? then Some(n.value > 0) else None)
    else if assertion == "element_visible" then
      var (s', v) := app.visible(s, expected);
      (s', Some(v.Some? && v.value))
    else (s, Some(false))
  }
}
