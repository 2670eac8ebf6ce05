// The allowlist in a discovery run: at which page and for which action it is asked, and what its answer
// does to the run. Told by the urls read and the planner's actions.
module DiscoveryGate {
  import opened Prelude
  import opened Schemas
  import opened Browser
  import opened Discovery

  // ----- where the run stands -----

  datatype Here<S> = Here(page: S, outputs: map<string, string>)

  // Where turn i begins, if the run gets there: where the entry page was opened, or after a turn that moved.
  function TurnStart<S>(turns: Turns<S>, entry: Option<Here<S>>, i: nat): (h: Option<Here<S>>) {
    if i == 0 || i >= 15 then None
    else if i == 1 then entry
    else
      var before := TurnStart(turns, entry, i - 1);
      if before.None? then None
      else
        var t := turns(i - 1, before.value.page, before.value.outputs);
        if t.move.Some? then Some(Here(t.state, t.outputs)) else None
  }

  function EntryOf<S>(app: App<S>, cfg: Config, start: S): (h: Option<Here<S>>) {
    var (entered, act) := app.goto(start, cfg.baseUrl);
    if act == Done then Some(Here(entered, map[])) else None
  }

  datatype Gate<S> = Gate(action: PlannedAction, url: string, page: S)

  // What a turn knows when it asks the allowlist: the planner's action and the url read after it, on the page
  // that one read of the tree and three of the url have left. None of the reads may have failed.
  function GateFrom<S>(app: App<S>, planner: Planner, i: nat, page: S): (g: Option<Gate<S>>) {
    var (s1, tree) := app.snapshot(page);
    var (s2, observed) := app.url(s1);
    var (s3, told) := app.url(s2);
    var (s4, url) := app.url(s3);
    if tree.Some? && observed.Some? && told.Some? && planner(i).Some? && url.Some? then Some(Gate(planner(i).value, url.value, s4)) else None
  }

  type Gates<!S> = (nat, S) -> Option<Gate<S>>

  function GatesOf<S>(app: App<S>, planner: Planner): (gates: Gates<S>) {
    (i: nat, page: S) => GateFrom(app, planner, i, page)
  }

  function GateAt<S>(turns: Turns<S>, gates: Gates<S>, entry: Option<Here<S>>, i: nat): (g: Option<Gate<S>>) {
    var h := TurnStart(turns, entry, i);
    if h.None? then None else gates(i, h.value.page)
  }

  // Reading a text and finishing count as assertions; every other action as itself.
  predicate Permitted<S>(cfg: Config, g: Gate<S>) {
    var asked := if g.action.actionType == Extract || g.action.actionType == Finish then ActionType.Assert else g.action.actionType;
    cfg.allowed(cfg.hostnameOf(g.url), asked)
  }

  // ----- one turn -----

  // What the last part of a turn says, after observation and decision.
  ghost predicate TailOk<S>(cfg: Config, i: nat, events: seq<Event>, g: Option<Gate<S>>) {
    if g.None? then events == []
    else if !Permitted(cfg, g.value) then events == [ActionBlocked(i)]
    else if g.value.action.actionType == Finish then
      events == if "error" in g.value.action.finishOutputs then []
                else [RunSucceeded(g.value.action.finishOutputs, g.value.action.successCondition)]
    else |events| == 2 && events[0].ActionExecuted? && events[0].step == i && (events[1] == StepSucceeded(i) || events[1] == StepFailed(i))
  }

  lemma DecideAtGate<S>(app: App<S>, cfg: Config, i: nat, page: S, outputs: map<string, string>, observed: Event, a: PlannedAction)
    ensures var t, (s, url) := Decide(app, cfg, i, page, outputs, [observed], a), app.url(page);
            && |t.events| >= 2 && t.events[..2] == [observed, ActionDecided(i, DecisionFor(cfg, a))]
            && TailOk(cfg, i, t.events[2..], if url.Some? then Some(Gate(a, url.value, s)) else None)
            && (url.Some? && !Permitted(cfg, Gate(a, url.value, s)) ==> t.state == s && t.status == FAILED && t.move.None? && t.outputs == outputs)
  {
  }

  lemma TurnAtGate<S>(app: App<S>, cfg: Config, planner: Planner, i: nat, page: S, outputs: map<string, string>)
    ensures var t, g := TakeTurn(app, cfg, planner, i, page, outputs), GateFrom(app, planner, i, page);
            if |t.events| < 2 then g.None? && (forall e :: e in t.events ==> e.ObservationCaptured?)
            else t.events[0].ObservationCaptured? && t.events[1].ActionDecided? && TailOk(cfg, i, t.events[2..], g)
    ensures var t, g := TakeTurn(app, cfg, planner, i, page, outputs), GateFrom(app, planner, i, page);
            g.Some? && !Permitted(cfg, g.value) ==> t.state == g.value.page && t.status == FAILED && t.move.None? && t.outputs == outputs
  {
    var (s1, tree) := app.snapshot(page);
    if tree.Some? {
      var (s2, observed) := app.url(s1);
      if observed.Some? {
        var (s3, told) := app.url(s2);
        if told.Some? && planner(i).Some? {
          DecideAtGate(app, cfg, i, s3, outputs, ObservationCaptured(i, tree.value, observed.value), planner(i).value);
        }
      }
    }
  }

  // ----- what may be looked for in the events -----

  datatype Sign = Blocked | Executed | Succeeded(outputs: map<string, string>, condition: string)

  predicate Shows(e: Event, i: nat, sign: Sign) {
    match sign
    case Blocked => e == ActionBlocked(i)
    case Executed => e.ActionExecuted? && e.step == i
    case Succeeded(o, c) => e == RunSucceeded(o, c)
  }

  ghost predicate Signed(events: seq<Event>, i: nat, sign: Sign) {
    exists k :: 0 <= k < |events| && Shows(events[k], i, sign)
  }

  // What the allowlist's answer entitles turn i to.
  predicate Due<S>(cfg: Config, g: Option<Gate<S>>, sign: Sign) {
    g.Some? && match sign
      case Blocked => !Permitted(cfg, g.value)
      case Executed => Permitted(cfg, g.value) && g.value.action.actionType != Finish
      case Succeeded(o, c) =>
        Permitted(cfg, g.value) && g.value.action.actionType == Finish && "error" !in g.value.action.finishOutputs
        && o == g.value.action.finishOutputs && c == g.value.action.successCondition
  }

  lemma SignedTogether(a: seq<Event>, b: seq<Event>, i: nat, sign: Sign)
    ensures Signed(a + b, i, sign) <==> Signed(a, i, sign) || Signed(b, i, sign)
  {
    if k :| 0 <= k < |a| && Shows(a[k], i, sign) { assert (a + b)[k] == a[k]; }
    if k :| 0 <= k < |b| && Shows(b[k], i, sign) { assert (a + b)[|a| + k] == b[k]; }
  }

  lemma TailSigns<S>(cfg: Config, i: nat, events: seq<Event>, g: Option<Gate<S>>, j: nat, sign: Sign)
    requires TailOk(cfg, i, events, g)
    ensures Signed(events, j, sign) <==> (j == i || sign.Succeeded?) && Due(cfg, g, sign)
  {
    if events != [] { assert Shows(events[0], j, sign) <==> (j == i || sign.Succeeded?) && Due(cfg, g, sign); }
  }

  // The signs of one turn.
  lemma TurnSigns<S>(app: App<S>, cfg: Config, planner: Planner, i: nat, page: S, outputs: map<string, string>, j: nat, sign: Sign)
    ensures Signed(TakeTurn(app, cfg, planner, i, page, outputs).events, j, sign) <==>
            (j == i || sign.Succeeded?) && Due(cfg, GateFrom(app, planner, i, page), sign)
  {
    var events := TakeTurn(app, cfg, planner, i, page, outputs).events;
    TurnAtGate(app, cfg, planner, i, page, outputs);
    if |events| >= 2 {
      assert events == [events[0], events[1]] + events[2..];
      SignedTogether([events[0], events[1]], events[2..], j, sign);
      TailSigns(cfg, i, events[2..], GateFrom(app, planner, i, page), j, sign);
    }
  }

  // ----- the run, for any turns that keep the gates -----

  ghost predicate KeepsGates<S(!new)>(cfg: Config, turns: Turns<S>, gates: Gates<S>) {
    && (forall i: nat, s: S, o: map<string, string>, j: nat, sign :: Signed(turns(i, s, o).events, j, sign) <==>
          (j == i || sign.Succeeded?) && Due(cfg, gates(i, s), sign))
    && (forall i: nat, s: S, o: map<string, string> :: Due(cfg, gates(i, s), Blocked) ==>
          turns(i, s, o).state == gates(i, s).value.page && turns(i, s, o).status == FAILED && turns(i, s, o).move.None?)
  }

  lemma TurnsKeepGates<S(!new)>(app: App<S>, cfg: Config, planner: Planner)
    ensures KeepsGates(cfg, TurnsOf(app, cfg, planner), GatesOf(app, planner))
  {
    var turns, gates := TurnsOf(app, cfg, planner), GatesOf(app, planner);
    forall i: nat, s: S, o: map<string, string>, j: nat, sign: Sign
      ensures Signed(turns(i, s, o).events, j, sign) <==> (j == i || sign.Succeeded?) && Due(cfg, gates(i, s), sign)
    {
      TurnSigns(app, cfg, planner, i, s, o, j, sign);
    }
    forall i: nat, s: S, o: map<string, string> | Due(cfg, gates(i, s), Blocked)
      ensures turns(i, s, o).state == gates(i, s).value.page && turns(i, s, o).status == FAILED && turns(i, s, o).move.None?
    {
      TurnAtGate(app, cfg, planner, i, s, o);
    }
  }

  ghost predicate DueAt<S>(cfg: Config, turns: Turns<S>, gates: Gates<S>, entry: Option<Here<S>>, i: nat, sign: Sign) {
    Due(cfg, GateAt(turns, gates, entry, i), sign)
  }

  // The sign is due to turn j, or for the run's success to some turn, from turn i on.
  ghost predicate DueFrom<S>(cfg: Config, turns: Turns<S>, gates: Gates<S>, entry: Option<Here<S>>, i: nat, j: nat, sign: Sign) {
    if sign.Succeeded? then exists k: nat :: k >= i && DueAt(cfg, turns, gates, entry, k, sign)
    else j >= i && DueAt(cfg, turns, gates, entry, j, sign)
  }

  lemma {:induction false} NothingAfter<S>(turns: Turns<S>, entry: Option<Here<S>>, i: nat, k: nat)
    requires 1 <= i <= k && TurnStart(turns, entry, i).None?
    ensures TurnStart(turns, entry, k).None?
    decreases k
  {
    if k > i { NothingAfter(turns, entry, i, k - 1); }
  }

  lemma DueSplits<S>(cfg: Config, turns: Turns<S>, gates: Gates<S>, entry: Option<Here<S>>, i: nat, j: nat, sign: Sign)
    ensures DueFrom(cfg, turns, gates, entry, i, j, sign) <==>
            ((j == i || sign.Succeeded?) && DueAt(cfg, turns, gates, entry, i, sign)) || DueFrom(cfg, turns, gates, entry, i + 1, j, sign)
  {
  }

  lemma NothingDueAfter<S>(cfg: Config, turns: Turns<S>, gates: Gates<S>, entry: Option<Here<S>>, i: nat, j: nat, sign: Sign)
    requires i >= 1 && TurnStart(turns, entry, i).None?
    ensures !DueFrom(cfg, turns, gates, entry, i, j, sign)
  {
    forall k: nat | k >= i ensures !DueAt(cfg, turns, gates, entry, k, sign) {
      NothingAfter(turns, entry, i, k);
    }
  }

  lemma {:induction false} ExploreSigns<S(!new)>(cfg: Config, turns: Turns<S>, gates: Gates<S>, entry: Option<Here<S>>, i: nat, h: Here<S>, j: nat, sign: Sign)
    requires KeepsGates(cfg, turns, gates) && i >= 1 && TurnStart(turns, entry, i) == Some(h)
    ensures Signed(Explore(turns, i, h.page, h.outputs).events, j, sign) <==> DueFrom(cfg, turns, gates, entry, i, j, sign)
    decreases 15 - i
  {
    var t := turns(i, h.page, h.outputs);
    assert Signed(t.events, j, sign) <==> (j == i || sign.Succeeded?) && Due(cfg, gates(i, h.page), sign);
    DueSplits(cfg, turns, gates, entry, i, j, sign);
    if t.move.Some? && i + 1 < 15 {
      ExploreSigns(cfg, turns, gates, entry, i + 1, Here(t.state, t.outputs), j, sign);
      SignedTogether(t.events, Explore(turns, i + 1, t.state, t.outputs).events, j, sign);
    } else {
      NothingDueAfter(cfg, turns, gates, entry, i + 1, j, sign);
      assert Explore(turns, i, h.page, h.outputs).events == t.events;
    }
  }

  lemma {:induction false} ExploreEndsRefused<S(!new)>(cfg: Config, turns: Turns<S>, gates: Gates<S>, entry: Option<Here<S>>, i: nat, j: nat, h: Here<S>)
    requires KeepsGates(cfg, turns, gates)
    requires 1 <= i <= j && TurnStart(turns, entry, i) == Some(h) && DueAt(cfg, turns, gates, entry, j, Blocked)
    ensures var f := Explore(turns, i, h.page, h.outputs);
            f.status == FAILED && f.state == GateAt(turns, gates, entry, j).value.page
    decreases j - i
  {
    var t := turns(i, h.page, h.outputs);
    if i < j {
      if TurnStart(turns, entry, i + 1).None? { NothingAfter(turns, entry, i + 1, j); }
      ExploreEndsRefused(cfg, turns, gates, entry, i + 1, j, Here(t.state, t.outputs));
    }
  }

  // ----- the run -----

  lemma EntryHasNoSign(cfg: Config, j: nat, sign: Sign)
    requires j >= 1
    ensures !Signed([ActionDecided(0, EntryDecision(cfg))], j, sign)
    ensures !Signed([ActionDecided(0, EntryDecision(cfg))] + [ActionExecuted(0, None, true), StepSucceeded(0)], j, sign)
    ensures !Signed([RunFailed], j, sign) && !Signed([], j, sign)
  {
  }

  lemma RunSigns<S>(app: App<S>, cfg: Config, planner: Planner, start: S, j: nat, sign: Sign)
    requires j >= 1
    ensures var entry := EntryOf(app, cfg, start);
            Signed(Discover(app, cfg, planner, start).events, j, sign) <==>
            entry.Some? && Signed(Explore(TurnsOf(app, cfg, planner), 1, entry.value.page, map[]).events, j, sign)
  {
    var (entered, act) := app.goto(start, cfg.baseUrl);
    EntryHasNoSign(cfg, j, sign);
    if act == Done {
      var f := Explore(TurnsOf(app, cfg, planner), 1, entered, map[]);
      var head := [ActionDecided(0, EntryDecision(cfg))] + [ActionExecuted(0, None, true), StepSucceeded(0)];
      var tail := if f.status == FAILED then [RunFailed] else [];
      SignedTogether(head, f.events, j, sign);
      SignedTogether(head + f.events, tail, j, sign);
      assert Discover(app, cfg, planner, start).events == head + f.events + tail;
    }
  }

  // In the events of any run, for any planner and page: turn j is blocked exactly when it came to ask the
  // allowlist and was refused; its action was carried out exactly when it asked, was permitted and was not to
  // finish; and the run reports a success exactly where a permitted action finished without an error.
  lemma AllowlistIsKept<S(!new)>(app: App<S>, cfg: Config, planner: Planner, start: S, j: nat, sign: Sign)
    requires j >= 1
    ensures Signed(Discover(app, cfg, planner, start).events, j, sign) <==>
            DueFrom(cfg, TurnsOf(app, cfg, planner), GatesOf(app, planner), EntryOf(app, cfg, start), 1, j, sign)
  {
    var turns, gates, entry := TurnsOf(app, cfg, planner), GatesOf(app, planner), EntryOf(app, cfg, start);
    TurnsKeepGates(app, cfg, planner);
    RunSigns(app, cfg, planner, start, j, sign);
    if entry.Some? {
      ExploreSigns(cfg, turns, gates, entry, 1, entry.value, j, sign);
    } else {
      NothingDueAfter(cfg, turns, gates, entry, 1, j, sign);
    }
  }

  // A run refused at turn j ends there as a failure, and touches the page no more.
  lemma RefusalEndsTheRun<S(!new)>(app: App<S>, cfg: Config, planner: Planner, start: S, j: nat)
    requires j >= 1 && DueAt(cfg, TurnsOf(app, cfg, planner), GatesOf(app, planner), EntryOf(app, cfg, start), j, Blocked)
    ensures var f := Discover(app, cfg, planner, start);
            && f.status == FAILED && f.events != [] && f.events[|f.events| - 1] == RunFailed
            && f.state == GateAt(TurnsOf(app, cfg, planner), GatesOf(app, planner), EntryOf(app, cfg, start), j).value.page
  {
    var turns, entry := TurnsOf(app, cfg, planner), EntryOf(app, cfg, start);
    TurnsKeepGates(app, cfg, planner);
    if entry.None? { NothingAfter(turns, entry, 1, j); }
    ExploreEndsRefused(cfg, turns, GatesOf(app, planner), entry, 1, j, entry.value);
  }
}
