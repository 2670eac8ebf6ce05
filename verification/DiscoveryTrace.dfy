// What the event stream of a discovery run says, and how the moves it stands for follow each other.
module DiscoveryTrace {
  import opened Prelude
  import opened Schemas
  import opened Browser
  import opened Discovery

  // ----- the events -----

  ghost predicate TellsMove<S>(events: seq<Event>, i: nat, m: Move<S>) {
    && (forall k: nat, d: Decision :: ActionDecided(k, d) in events <==> k == i && d == m.decision)
    && (forall k: nat, u: Option<string>, ok: bool :: ActionExecuted(k, u, ok) in events <==> k == i && u == m.locatorUsed && ok)
    && NoSuccess(events)
  }

  ghost predicate NoSuccess(events: seq<Event>) {
    forall e :: e in events ==> !e.RunSucceeded?
  }

  ghost predicate TellsEnd(events: seq<Event>, i: nat, last: Decision, outputs: map<string, string>, condition: string) {
    && last.actionType == Finish
    && (forall k: nat, d: Decision :: ActionDecided(k, d) in events <==> k == i && d == last)
    && (forall k: nat, u: Option<string>, ok: bool :: ActionExecuted(k, u, ok) !in events)
    && (forall o, c :: RunSucceeded(o, c) in events <==> o == outputs && c == condition)
  }

  ghost predicate TellsTurn<S>(t: Turn<S>, i: nat) {
    && (t.move.Some? ==> t.status == FAILED && TellsMove(t.events, i, t.move.value))
    && (t.status == SUCCEEDED ==> exists last, condition :: TellsEnd(t.events, i, last, t.outputs, condition))
    && (t.status != SUCCEEDED ==> NoSuccess(t.events))
  }

  lemma TurnTells<S>(app: App<S>, cfg: Config, planner: Planner, i: nat, s: S, outputs: map<string, string>)
    ensures TellsTurn(TakeTurn(app, cfg, planner, i, s, outputs), i)
  {
    var (s1, snap) := app.snapshot(s);
    if snap.Some? {
      var (s2, url) := app.url(s1);
      if url.Some? && planner(i).Some? {
        var observed := [ObservationCaptured(i, snap.value, url.value)];
        DecideTells(app, cfg, i, app.url(s2).0, outputs, observed[0], planner(i).value);
      }
    }
  }

  lemma DecideTells<S>(app: App<S>, cfg: Config, i: nat, s: S, outputs: map<string, string>, observed: Event, a: PlannedAction)
    requires observed.ObservationCaptured?
    ensures TellsTurn(Decide(app, cfg, i, s, outputs, [observed], a), i)
  {
    var d := DecisionFor(cfg, a);
    var t := Decide(app, cfg, i, s, outputs, [observed], a);
    if t.status == SUCCEEDED {
      EndEvents(observed, i, d, t.outputs, a.successCondition);
      assert [observed] + [ActionDecided(i, d)] + [RunSucceeded(t.outputs, a.successCondition)]
          == [observed, ActionDecided(i, d), RunSucceeded(t.outputs, a.successCondition)];
    } else if t.move.Some? {
      MoveEvents(observed, i, t.move.value);
      assert [observed] + [ActionDecided(i, d)] + [ActionExecuted(i, t.move.value.locatorUsed, true)] + [StepSucceeded(i)]
          == [observed, ActionDecided(i, d), ActionExecuted(i, t.move.value.locatorUsed, true), StepSucceeded(i)];
    }
  }

  lemma EndEvents(observed: Event, i: nat, d: Decision, outputs: map<string, string>, condition: string)
    requires observed.ObservationCaptured? && d.actionType == Finish
    ensures TellsEnd([observed, ActionDecided(i, d), RunSucceeded(outputs, condition)], i, d, outputs, condition)
  {
  }

  lemma MoveEvents<S>(observed: Event, i: nat, m: Move<S>)
    requires observed.ObservationCaptured?
    ensures TellsMove([observed, ActionDecided(i, m.decision), ActionExecuted(i, m.locatorUsed, true), StepSucceeded(i)], i, m)
  {
  }

  ghost predicate TurnsTell<S(!new)>(turns: Turns<S>) {
    forall i: nat, s: S, o: map<string, string> :: TellsTurn(turns(i, s, o), i)
  }

  // From step i on: one decision and one successful execution for each move, then one last decision
  // and the success of the run.
  ghost predicate Tells<S>(events: seq<Event>, i: nat, moves: seq<Move<S>>, last: Decision, outputs: map<string, string>, condition: string) {
    && last.actionType == Finish
    && (forall k: nat, d: Decision :: ActionDecided(k, d) in events <==>
          (i <= k < i + |moves| && d == moves[k - i].decision) || (k == i + |moves| && d == last))
    && (forall k: nat, u: Option<string>, ok: bool :: ActionExecuted(k, u, ok) in events <==> i <= k < i + |moves| && u == moves[k - i].locatorUsed && ok)
    && (forall o, c :: RunSucceeded(o, c) in events <==> o == outputs && c == condition)
  }

  lemma MoveThenRest<S>(first: seq<Event>, m: Move<S>, rest: seq<Event>, i: nat, moves: seq<Move<S>>,
                        last: Decision, outputs: map<string, string>, condition: string)
    requires TellsMove(first, i, m) && Tells(rest, i + 1, moves, last, outputs, condition)
    ensures Tells(first + rest, i, [m] + moves, last, outputs, condition)
  {
  }

  lemma {:induction false} ExploreTells<S(!new)>(turns: Turns<S>, i: nat, s: S, outputs: map<string, string>)
    requires TurnsTell(turns)
    ensures var f := Explore(turns, i, s, outputs);
            if f.status == SUCCEEDED then exists last, condition :: Tells(f.events, i, f.moves, last, f.outputs, condition)
            else NoSuccess(f.events)
    decreases MAX_STEPS - i
  {
    if i < MAX_STEPS {
      var t := turns(i, s, outputs);
      assert TellsTurn(t, i);
      if t.move.Some? {
        ExploreTells(turns, i + 1, t.state, t.outputs);
        var rest := Explore(turns, i + 1, t.state, t.outputs);
        if rest.status == SUCCEEDED {
          var last, condition :| Tells(rest.events, i + 1, rest.moves, last, rest.outputs, condition);
          MoveThenRest(t.events, t.move.value, rest.events, i, rest.moves, last, rest.outputs, condition);
        }
      } else if t.status == SUCCEEDED {
        var last, condition :| TellsEnd(t.events, i, last, t.outputs, condition);
        var none: seq<Move<S>> := [];
        assert Tells(t.events, i, none, last, t.outputs, condition);
      }
    }
  }

  // The stream of a run that succeeded is exactly the story of its moves, in whatever order it is
  // read; the stream of any other run reports no success.
  lemma DiscoverTells<S(!new)>(app: App<S>, cfg: Config, planner: Planner, start: S)
    ensures var f := Discover(app, cfg, planner, start);
            if f.status == SUCCEEDED then exists last, condition :: Tells(f.events, 0, f.moves, last, f.outputs, condition)
            else NoSuccess(f.events)
  {
    var (s1, act) := app.goto(start, cfg.baseUrl);
    if act == Done {
      var turns := TurnsOf(app, cfg, planner);
      forall i: nat, s: S, o: map<string, string> ensures TellsTurn(turns(i, s, o), i) {
        TurnTells(app, cfg, planner, i, s, o);
      }
      ExploreTells(turns, 1, s1, map[]);
      EntryThenRest(cfg, start, s1, Explore(turns, 1, s1, map[]));
    }
  }

  lemma EntryThenRest<S>(cfg: Config, start: S, s1: S, f: Found<S>)
    requires if f.status == SUCCEEDED then exists last, condition :: Tells(f.events, 1, f.moves, last, f.outputs, condition)
             else NoSuccess(f.events)
    ensures var events := EntryEvents(cfg) + f.events + (if f.status == FAILED then [RunFailed] else []);
            var moves := [Move(EntryDecision(cfg), None, None, start, s1)] + f.moves;
            if f.status == SUCCEEDED then exists last, condition :: Tells(events, 0, moves, last, f.outputs, condition)
            else NoSuccess(events)
  {
    if f.status == SUCCEEDED {
      var entry := Move(EntryDecision(cfg), None, None, start, s1);
      EntryTells(cfg, entry);
      var last, condition :| Tells(f.events, 1, f.moves, last, f.outputs, condition);
      MoveThenRest(EntryEvents(cfg), entry, f.events, 0, f.moves, last, f.outputs, condition);
      assert EntryEvents(cfg) + f.events + [] == EntryEvents(cfg) + f.events;
      assert Tells(EntryEvents(cfg) + f.events, 0, [entry] + f.moves, last, f.outputs, condition);
    }
  }

  function EntryEvents(cfg: Config): (es: seq<Event>) {
    [ActionDecided(0, EntryDecision(cfg))] + [ActionExecuted(0, None, true), StepSucceeded(0)]
  }

  lemma EntryTells<S>(cfg: Config, entry: Move<S>)
    requires entry.decision == EntryDecision(cfg) && entry.locatorUsed == None
    ensures TellsMove(EntryEvents(cfg), 0, entry)
  {
  }

  // ----- the moves -----

  // Each move is one successful action on the page the move before it left.
  ghost predicate Chained<S>(app: App<S>, s: S, moves: seq<Move<S>>, end: S)
    decreases |moves|
  {
    if moves == [] then end == s
    else moves[0].before == s && Carried(app, moves[0]) && Chained(app, moves[0].after, moves[1..], end)
  }

  ghost predicate Carried<S>(app: App<S>, m: Move<S>) {
    Execute(app, m.before, m.decision) == Execution(m.after, true, m.locatorUsed, m.extracted)
  }

  // On a steady page nothing but the moves moves it.
  lemma TurnChains<S(!new)>(app: App<S>, cfg: Config, planner: Planner, i: nat, s: S, outputs: map<string, string>)
    requires Steady(app)
    ensures var t := TakeTurn(app, cfg, planner, i, s, outputs);
            && (t.move.Some? ==> t.move.value.before == s && t.move.value.after == t.state && Carried(app, t.move.value))
            && (t.status == SUCCEEDED ==> t.move.None? && t.state == s)
  {
  }

  lemma {:induction false} ExploreChains<S(!new)>(app: App<S>, cfg: Config, planner: Planner, i: nat, s: S, outputs: map<string, string>)
    requires Steady(app)
    ensures var f := Explore(TurnsOf(app, cfg, planner), i, s, outputs);
            f.status == SUCCEEDED ==> Chained(app, s, f.moves, f.state)
    decreases MAX_STEPS - i
  {
    if i < MAX_STEPS {
      var turns := TurnsOf(app, cfg, planner);
      var t := turns(i, s, outputs);
      assert t == TakeTurn(app, cfg, planner, i, s, outputs);
      TurnChains(app, cfg, planner, i, s, outputs);
      if t.move.Some? {
        ExploreChains(app, cfg, planner, i + 1, t.state, t.outputs);
        var rest := Explore(turns, i + 1, t.state, t.outputs);
        assert ([t.move.value] + rest.moves)[1..] == rest.moves;
      }
    }
  }

  lemma DiscoverChains<S(!new)>(app: App<S>, cfg: Config, planner: Planner, start: S)
    requires Steady(app) && Discover(app, cfg, planner, start).status == SUCCEEDED
    ensures var f := Discover(app, cfg, planner, start); f.moves != [] && Chained(app, start, f.moves, f.state)
  {
    var (s1, act) := app.goto(start, cfg.baseUrl);
    var f := Explore(TurnsOf(app, cfg, planner), 1, s1, map[]);
    ExploreChains(app, cfg, planner, 1, s1, map[]);
    var entry := Move(EntryDecision(cfg), None, None, start, s1);
    assert ([entry] + f.moves)[1..] == f.moves;
  }
}
