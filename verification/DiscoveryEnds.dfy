// How a discovery run begins and ends: the entry navigation, at most fourteen planned steps, and one last word.
module DiscoveryEnds {
  import opened Prelude
  import opened Schemas
  import opened Browser
  import opened Discovery

  // A turn first tells what it saw, the page's text and then its url; without both there is nothing to tell.
  lemma ObservationSays<S>(app: App<S>, cfg: Config, planner: Planner, i: nat, s: S, outputs: map<string, string>)
    ensures var t, seen := TakeTurn(app, cfg, planner, i, s, outputs), app.snapshot(s);
            var url := app.url(seen.0).1;
            if seen.1.Some? && url.Some? then
              && |t.events| >= 1 && t.events[0].ObservationCaptured? && t.events[0].step == i
              && t.events[0].snapshot == seen.1.value && t.events[0].url == url.value
            else t.events == [] && t.status == ABORTED && t.outputs == outputs
  {
  }

  ghost predicate Succeeds(events: seq<Event>) {
    exists e :: e in events && e.RunSucceeded?
  }

  // A turn never says the run failed, and says it succeeded as its last word, with its outputs, or not at all.
  ghost predicate EndsWell(events: seq<Event>, outputs: map<string, string>, status: Status) {
    && RunFailed !in events && (status == SUCCEEDED <==> Succeeds(events))
    && (status == SUCCEEDED ==> events != [] && events[|events| - 1].RunSucceeded? && events[|events| - 1].outputs == outputs && "error" !in outputs)
  }

  ghost predicate TurnsEndWell<S(!new)>(turns: Turns<S>) {
    forall i, s, o :: EndsWell(turns(i, s, o).events, turns(i, s, o).outputs, turns(i, s, o).status)
                      && (turns(i, s, o).move.Some? ==> turns(i, s, o).status == FAILED)
  }

  lemma DecideEndsWell<S>(app: App<S>, cfg: Config, i: nat, s: S, outputs: map<string, string>, observed: Event, a: PlannedAction)
    requires observed.ObservationCaptured?
    ensures var t := Decide(app, cfg, i, s, outputs, [observed], a);
            EndsWell(t.events, t.outputs, t.status) && (t.move.Some? ==> t.status == FAILED)
  {
    var t := Decide(app, cfg, i, s, outputs, [observed], a);
    assert t.status == SUCCEEDED ==> t.events[2].RunSucceeded? && |t.events| == 3 && t.events[2] in t.events;
  }

  lemma TurnEndsWell<S>(app: App<S>, cfg: Config, planner: Planner, i: nat, s: S, outputs: map<string, string>)
    ensures var t := TakeTurn(app, cfg, planner, i, s, outputs);
            EndsWell(t.events, t.outputs, t.status) && (t.move.Some? ==> t.status == FAILED)
  {
    var (s1, snap) := app.snapshot(s);
    if snap.Some? {
      var (s2, url) := app.url(s1);
      if url.Some? && planner(i).Some? {
        DecideEndsWell(app, cfg, i, app.url(s2).0, outputs, ObservationCaptured(i, snap.value, url.value), planner(i).value);
      }
    }
  }

  lemma WellTogether(a: seq<Event>, before: map<string, string>, b: seq<Event>, outputs: map<string, string>, status: Status)
    requires EndsWell(a, before, FAILED) && EndsWell(b, outputs, status)
    ensures EndsWell(a + b, outputs, status)
  {
  }

  lemma {:induction false} ExploreEndsWell<S(!new)>(turns: Turns<S>, i: nat, s: S, outputs: map<string, string>)
    requires TurnsEndWell(turns) && i <= 15
    ensures var f := Explore(turns, i, s, outputs);
            && EndsWell(f.events, f.outputs, f.status) && |f.moves| <= 15 - i && (|f.moves| == 15 - i ==> f.status == FAILED)
    decreases 15 - i
  {
    var t := turns(i, s, outputs);
    if i < 15 && t.move.Some? {
      ExploreEndsWell(turns, i + 1, t.state, t.outputs);
      var rest := Explore(turns, i + 1, t.state, t.outputs);
      WellTogether(t.events, t.outputs, rest.events, rest.outputs, rest.status);
    }
  }

  predicate EntersAt(d: Decision, url: string) {
    && d.actionType == Navigate && d.candidates == [] && d.params == map["url" := Text(url)] && d.riskTag == SAFE
    && d.paramBindings == map["url" := "entry_url"]
  }

  // The run says RunFailed exactly when it failed and RunSucceeded exactly when it succeeded, in both cases last;
  // an exception ends it without either. It opens the entry page first, and nothing follows if that raises.
  lemma RunEnds<S(!new)>(app: App<S>, cfg: Config, planner: Planner, start: S)
    ensures var f := Discover(app, cfg, planner, start);
            var n := |f.events|;
            && n >= 1 && f.events[0].ActionDecided? && f.events[0].step == 0 && EntersAt(f.events[0].decision, cfg.baseUrl)
            && (f.status == FAILED <==> RunFailed in f.events) && (f.status == FAILED ==> f.events[n - 1] == RunFailed)
            && (f.status == SUCCEEDED <==> Succeeds(f.events))
            && (f.status == SUCCEEDED ==> f.events[n - 1].RunSucceeded? && f.events[n - 1].outputs == f.outputs && "error" !in f.outputs)
            && |f.moves| <= 15 && (|f.moves| == 15 ==> f.status == FAILED)
            && if app.goto(start, cfg.baseUrl).1 == Done then n >= 3 && f.events[1] == ActionExecuted(0, None, true) && f.events[2] == StepSucceeded(0)
               else n == 1 && f.status == ABORTED && f.outputs == map[] && f.state == app.goto(start, cfg.baseUrl).0
  {
    var (entered, act) := app.goto(start, cfg.baseUrl);
    if act == Done {
      var turns := TurnsOf(app, cfg, planner);
      forall i, s, o ensures EndsWell(turns(i, s, o).events, turns(i, s, o).outputs, turns(i, s, o).status)
                             && (turns(i, s, o).move.Some? ==> turns(i, s, o).status == FAILED) {
        TurnEndsWell(app, cfg, planner, i, s, o);
      }
      var f := Explore(turns, 1, entered, map[]);
      ExploreEndsWell(turns, 1, entered, map[]);
      EntryEnds(cfg, f.events, f.outputs, f.status);
    }
  }

  lemma EntryEnds(cfg: Config, events: seq<Event>, outputs: map<string, string>, status: Status)
    requires EndsWell(events, outputs, status)
    ensures var all := [ActionDecided(0, EntryDecision(cfg))] + [ActionExecuted(0, None, true), StepSucceeded(0)] + events
                       + (if status == FAILED then [RunFailed] else []);
            && (status == FAILED <==> RunFailed in all) && (status == FAILED ==> all[|all| - 1] == RunFailed)
            && (status == SUCCEEDED <==> Succeeds(all))
            && (status == SUCCEEDED ==> all[|all| - 1] == events[|events| - 1])
            && all[0] == ActionDecided(0, EntryDecision(cfg)) && all[1] == ActionExecuted(0, None, true) && all[2] == StepSucceeded(0)
  {
  }
}
