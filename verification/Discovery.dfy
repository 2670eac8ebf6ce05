// services/discovery_plane/loop.py and actor.py: a discovery run drives the page action by action and
// its output is the stream of events it emits. The planner is an arbitrary oracle.
module Discovery {
  import opened Prelude
  import opened Schemas
  import opened Browser

  const MAX_STEPS := 15

  // A parameter value: text, or a number, boolean or null with its str().
  datatype Value = Text(s: string) | Other(repr: string)

  function Str(v: Value): (s: string) {
    match v case Text(s) => s case Other(r) => r
  }

  function StrParam(params: map<string, Value>, key: string): (s: string) {
    if key in params then Str(params[key]) else ""
  }

  datatype PlannedAction = PlannedAction(
    actionType: ActionType, target: string, candidates: seq<string>, params: map<string, Value>,
    finishOutputs: map<string, string>, successCondition: string)

  // What one ActionDecided event says about a step.
  datatype Decision = Decision(
    actionType: ActionType, candidates: seq<string>, params: map<string, Value>, riskTag: RiskTag,
    paramBindings: map<string, string>)

  datatype Event =
    | ObservationCaptured(step: nat, snapshot: string, url: string)
    | ActionDecided(step: nat, decision: Decision)
    | ActionExecuted(step: nat, locatorUsed: Option<string>, ok: bool)
    | ActionBlocked(step: nat)
    | StepSucceeded(step: nat)
    | StepFailed(step: nat)
    | RunSucceeded(outputs: map<string, string>, successCondition: string)
    | RunFailed

  // What a run is configured with; hostnameOf, allowed and risky stand for the URL parser, the
  // allowlist and the keyword table.
  datatype Config = Config(
    baseUrl: string, inputs: seq<(string, string)>,
    hostnameOf: string -> string, allowed: (string, ActionType) -> bool, risky: string -> bool)

  function RiskOf(cfg: Config, t: ActionType, target: string): (r: RiskTag) {
    if (t == Click || t == Fill || t == SelectOption) && cfg.risky(target) then RISKY else SAFE
  }

  // ----- input bindings -----

  // The last input whose non-empty value occurs in the parameter wins.
  function MatchingInput(inputs: seq<(string, string)>, value: string): (name: Option<string>) {
    if inputs == [] then None
    else
      var (n, v) := inputs[|inputs| - 1];
      if v != "" && Contains(value, v) then Some(n) else MatchingInput(inputs[..|inputs| - 1], value)
  }

  function Bindings(inputs: seq<(string, string)>, params: map<string, Value>): (b: map<string, string>) {
    map k | k in params && params[k].Text? && MatchingInput(inputs, params[k].s).Some? :: MatchingInput(inputs, params[k].s).value
  }

  method MatchInputBindings(inputs: seq<(string, string)>, params: map<string, Value>) returns (bindings: map<string, string>)
    ensures bindings == Bindings(inputs, params)
  {
    bindings := map[];
    var left := params.Keys;
    while left != {}
      invariant left <= params.Keys
      invariant bindings == map k | k in params && k !in left && params[k].Text? && MatchingInput(inputs, params[k].s).Some?
                              :: MatchingInput(inputs, params[k].s).value
      decreases left
    {
      var key :| key in left;
      ghost var before := bindings;
      if params[key].Text? {
        var value := params[key].s;
        for i := 0 to |inputs|
          invariant bindings == if MatchingInput(inputs[..i], value).Some?
                                then before[key := MatchingInput(inputs[..i], value).value] else before
        {
          assert inputs[..i + 1][..i] == inputs[..i];
          if inputs[i].1 != "" && Contains(value, inputs[i].1) {
            bindings := bindings[key := inputs[i].0];
          }
        }
        assert inputs[..|inputs|] == inputs;
      }
      left := left - {key};
    }
  }

  // ----- the actor -----

  datatype Execution<S> = Execution(state: S, ok: bool, locatorUsed: Option<string>, extracted: Option<string>)

  function Acted<S>(r: (S, Act), used: Option<string>): (e: Execution<S>) {
    Execution(r.0, r.1 == Done, if r.1 == Done then used else None, None)
  }

  function Execute<S>(app: App<S>, s: S, d: Decision): (e: Execution<S>) {
    match d.actionType
    case Navigate =>
      if "url" in d.params && d.params["url"].Text? then Acted(app.goto(s, d.params["url"].s), None)
      else Execution(s, false, None, None)
    case Assert =>
      if "assertion" in d.params && d.params["assertion"].Text? then
        var (s', holds) := Holds(app, s, d.params["assertion"].s, StrParam(d.params, "expected"));
        Execution(s', holds == Some(true), None, None)
      else Execution(s, false, None, None)
    case Finish => Execution(s, false, None, None)
    case Unknown(_) => Execution(s, false, None, None)
    case _ =>
      var (s1, candidate) := Resolve(app, s, d.candidates);
      if candidate.None? then Execution(s1, false, None, None)
      else if d.actionType == Click then Acted(app.click(s1, candidate.value), candidate)
      else if d.actionType == Fill then Acted(app.fill(s1, candidate.value, StrParam(d.params, "value")), candidate)
      else if d.actionType == SelectOption then Acted(app.choose(s1, candidate.value, StrParam(d.params, "value")), candidate)
      else
        var (s2, text) := app.innerText(s1, candidate.value);
        if text.Some? then Execution(s2, true, candidate, text) else Execution(s2, false, None, None)
  }

  // ----- one run, as a function -----

  // A step that was carried out: the decision, the locator that resolved, the page before and after.
  datatype Move<S> = Move(decision: Decision, locatorUsed: Option<string>, extracted: Option<string>, before: S, after: S)

  datatype Status = SUCCEEDED | FAILED | ABORTED  // ABORTED: an exception leaves execute

  // One round of the loop: it goes on after a move, and stops with a status otherwise.
  datatype Turn<S> = Turn(state: S, events: seq<Event>, outputs: map<string, string>, status: Status, move: Option<Move<S>>)

  function GateType(t: ActionType): (g: ActionType) {
    if t == Extract || t == Finish then Assert else t
  }

  function StepOutputs(i: nat, params: map<string, Value>, extracted: Option<string>, outputs: map<string, string>): (o: map<string, string>) {
    if extracted.None? then outputs
    else outputs[(if "output_name" in params then Str(params["output_name"]) else "step_" + Decimal(i) + "_output") := extracted.value]
  }

  function DecisionFor(cfg: Config, a: PlannedAction): (d: Decision) {
    Decision(a.actionType, a.candidates, a.params, RiskOf(cfg, a.actionType, a.target), Bindings(cfg.inputs, a.params))
  }

  // The planner may answer anything, or raise (None). It may depend on all it has seen: an oracle per
  // step index covers every such planner.
  type Planner = nat -> Option<PlannedAction>

  function TakeTurn<S>(app: App<S>, cfg: Config, planner: Planner, i: nat, s: S, outputs: map<string, string>): (t: Turn<S>) {
    var (s1, snap) := app.snapshot(s);
    if snap.None? then Turn(s1, [], outputs, ABORTED, None)
    else
      var (s2, url) := app.url(s1);
      if url.None? then Turn(s2, [], outputs, ABORTED, None)
      else
        var observed := [ObservationCaptured(i, snap.value, url.value)];
        var (s3, told) := app.url(s2);  // read again for the planner
        if told.None? || planner(i).None? then Turn(s3, observed, outputs, ABORTED, None)
        else Decide(app, cfg, i, s3, outputs, observed, planner(i).value)
  }

  function Decide<S>(app: App<S>, cfg: Config, i: nat, s: S, outputs: map<string, string>, observed: seq<Event>, a: PlannedAction): (t: Turn<S>) {
    var d := DecisionFor(cfg, a);
    var begun := observed + [ActionDecided(i, d)];
    var (s1, url) := app.url(s);
    if url.None? then Turn(s1, begun, outputs, ABORTED, None)
    else if !cfg.allowed(cfg.hostnameOf(url.value), GateType(a.actionType)) then
      Turn(s1, begun + [ActionBlocked(i)], outputs, FAILED, None)
    else if a.actionType == Finish then
      if "error" in a.finishOutputs then Turn(s1, begun, a.finishOutputs, FAILED, None)
      else Turn(s1, begun + [RunSucceeded(a.finishOutputs, a.successCondition)], a.finishOutputs, SUCCEEDED, None)
    else
      var e := Execute(app, s1, d);
      var executed := begun + [ActionExecuted(i, e.locatorUsed, e.ok)];
      if !e.ok then Turn(e.state, executed + [StepFailed(i)], outputs, FAILED, None)
      else
        Turn(e.state, executed + [StepSucceeded(i)], StepOutputs(i, a.params, e.extracted, outputs), FAILED,
             Some(Move(d, e.locatorUsed, e.extracted, s1, e.state)))
  }

  type Turns<!S> = (nat, S, map<string, string>) -> Turn<S>

  function TurnsOf<S>(app: App<S>, cfg: Config, planner: Planner): (turns: Turns<S>) {
    (i: nat, s: S, o: map<string, string>) => TakeTurn(app, cfg, planner, i, s, o)
  }

  datatype Found<S> = Found(state: S, events: seq<Event>, outputs: map<string, string>, status: Status, moves: seq<Move<S>>)

  // The loop from step i on.
  function Explore<S>(turns: Turns<S>, i: nat, s: S, outputs: map<string, string>): (f: Found<S>)
    decreases MAX_STEPS - i
  {
    if i >= MAX_STEPS then Found(s, [], outputs, FAILED, [])
    else
      var t := turns(i, s, outputs);
      if t.move.None? then Found(t.state, t.events, t.outputs, t.status, [])
      else
        var rest := Explore(turns, i + 1, t.state, t.outputs);
        rest.(events := t.events + rest.events, moves := [t.move.value] + rest.moves)
  }

  function EntryDecision(cfg: Config): (d: Decision) {
    Decision(Navigate, [], map["url" := Text(cfg.baseUrl)], SAFE, map["url" := "entry_url"])
  }

  // The whole run: the entry navigation, the planned steps, and RunFailed unless it succeeded.
  function Discover<S>(app: App<S>, cfg: Config, planner: Planner, start: S): (f: Found<S>) {
    var (s1, act) := app.goto(start, cfg.baseUrl);
    var decided := [ActionDecided(0, EntryDecision(cfg))];
    if act != Done then Found(s1, decided, map[], ABORTED, [])
    else
      var f := Explore(TurnsOf(app, cfg, planner), 1, s1, map[]);
      Found(f.state,
            decided + [ActionExecuted(0, None, true), StepSucceeded(0)] + f.events + (if f.status == FAILED then [RunFailed] else []),
            f.outputs, f.status, [Move(EntryDecision(cfg), None, None, start, s1)] + f.moves)
  }

  // ----- what one turn may say -----

  predicate Opens(events: seq<Event>, i: nat, d: Decision) {
    |events| >= 2 && events[0].ObservationCaptured? && events[0].step == i && events[1] == ActionDecided(i, d)
  }

  predicate TellsOfMove<S>(t: Turn<S>, i: nat) {
    t.move.Some? ==>
      var m := t.move.value;
      && Opens(t.events, i, m.decision) && t.events[2..] == [ActionExecuted(i, m.locatorUsed, true), StepSucceeded(i)]
      && m.decision.actionType != Finish && !m.decision.actionType.Unknown?
  }

  // An exception: nothing after the decision was reported, and no output is lost or added.
  predicate TellsOfAbort<S>(t: Turn<S>, i: nat, before: map<string, string>) {
    t.status == ABORTED ==>
      t.outputs == before && |t.events| <= 2 && forall e :: e in t.events ==> e.ObservationCaptured? || e.ActionDecided?
  }

  // What the events of a turn, in order, say of how it ended; it goes on exactly after a move.
  predicate Grammatical<S>(t: Turn<S>, i: nat, d: Decision, before: map<string, string>) {
    && TellsOfMove(t, i) && TellsOfAbort(t, i, before)
    && (t.move.Some? ==> t.status == FAILED && (t.move.value.extracted.None? ==> t.outputs == before))
    && (t.status == SUCCEEDED ==>
          Opens(t.events, i, d) && d.actionType == Finish && "error" !in t.outputs && |t.events| == 3
          && t.events[2].RunSucceeded? && t.events[2].outputs == t.outputs)
    && (t.status == FAILED ==> Opens(t.events, i, d))
    && (t.status == FAILED && t.move.None? ==>
          || (t.events[2..] == [ActionBlocked(i)] && t.outputs == before)
          || (t.events[2..] == [] && d.actionType == Finish && "error" in t.outputs)
          || (t.events[2..] == [ActionExecuted(i, None, false), StepFailed(i)] && t.outputs == before))
  }

  lemma FailureUsesNothing<S>(app: App<S>, s: S, d: Decision)
    ensures !Execute(app, s, d).ok ==> Execute(app, s, d).locatorUsed.None?
    ensures d.actionType == Finish || d.actionType.Unknown? ==> !Execute(app, s, d).ok
  {
  }

  lemma DecideIsGrammatical<S>(app: App<S>, cfg: Config, i: nat, s: S, outputs: map<string, string>, observed: seq<Event>, a: PlannedAction)
    requires |observed| == 1 && observed[0].ObservationCaptured? && observed[0].step == i
    ensures Grammatical(Decide(app, cfg, i, s, outputs, observed, a), i, DecisionFor(cfg, a), outputs)
  {
    var d, s1 := DecisionFor(cfg, a), app.url(s).0;
    FailureUsesNothing(app, s1, d);
    var t := Decide(app, cfg, i, s, outputs, observed, a);
    if t.move.Some? {
      var e := Execute(app, s1, d);
      assert t.events == observed + [ActionDecided(i, d), ActionExecuted(i, e.locatorUsed, e.ok), StepSucceeded(i)];
    }
  }

  lemma TurnIsGrammatical<S>(app: App<S>, cfg: Config, planner: Planner, i: nat, s: S, before: map<string, string>)
    ensures var t := TakeTurn(app, cfg, planner, i, s, before);
            if planner(i).Some? then Grammatical(t, i, DecisionFor(cfg, planner(i).value), before)
            else t.status == ABORTED && |t.events| <= 1 && t.outputs == before
  {
    var (s1, snap) := app.snapshot(s);
    if snap.Some? {
      var (s2, url) := app.url(s1);
      if url.Some? && planner(i).Some? {
        DecideIsGrammatical(app, cfg, i, app.url(s2).0, before, [ObservationCaptured(i, snap.value, url.value)], planner(i).value);
      }
    }
  }

  // ----- execute, as written -----

  // The decision is the planner's with the matched bindings; Grammatical says what is told of it.
  method OneTurn<S>(app: App<S>, cfg: Config, planner: Planner, stepIndex: nat, start: S, before: map<string, string>) returns (t: Turn<S>)
    ensures t == TakeTurn(app, cfg, planner, stepIndex, start, before)
    ensures if planner(stepIndex).Some? then Grammatical(t, stepIndex, DecisionFor(cfg, planner(stepIndex).value), before)
            else t.status == ABORTED && |t.events| <= 1 && t.outputs == before
  {
    TurnIsGrammatical(app, cfg, planner, stepIndex, start, before);
    var page, events, action := Observe(app, cfg, planner, stepIndex, start, before);
    if action.None? { return Turn(page, events, before, ABORTED, None); }
    t := ActOnPlan(app, cfg, stepIndex, page, before, events, action.value);
  }

  // The page is read and the planner asked; no action: an exception.
  method Observe<S>(app: App<S>, ghost cfg: Config, planner: Planner, stepIndex: nat, start: S, ghost before: map<string, string>)
      returns (page: S, events: seq<Event>, action: Option<PlannedAction>)
    ensures TakeTurn(app, cfg, planner, stepIndex, start, before) ==
            if action.None? then Turn(page, events, before, ABORTED, None)
            else Decide(app, cfg, stepIndex, page, before, events, action.value)
  {
    events, action := [], None;
    var (s1, snap) := app.snapshot(start);
    if snap.None? { return s1, events, action; }
    var (s2, url) := app.url(s1);
    if url.None? { return s2, events, action; }
    events := events + [ObservationCaptured(stepIndex, snap.value, url.value)];
    var (s3, again) := app.url(s2);
    page := s3;
    if again.Some? { action := planner(stepIndex); }
  }

  // The rest of the turn: the decision with the matched bindings, the allowlist, and the act.
  method ActOnPlan<S>(app: App<S>, cfg: Config, stepIndex: nat, start: S, before: map<string, string>, observed: seq<Event>, action: PlannedAction)
      returns (t: Turn<S>)
    ensures t == Decide(app, cfg, stepIndex, start, before, observed, action)
  {
    var bindings := MatchInputBindings(cfg.inputs, action.params);
    var d := Decision(action.actionType, action.candidates, action.params, RiskOf(cfg, action.actionType, action.target), bindings);
    var events := observed + [ActionDecided(stepIndex, d)];
    var (page, current) := app.url(start);
    if current.None? { return Turn(page, events, before, ABORTED, None); }
    if !cfg.allowed(cfg.hostnameOf(current.value), GateType(action.actionType)) {
      return Turn(page, events + [ActionBlocked(stepIndex)], before, FAILED, None);
    }
    if action.actionType == Finish {
      if "error" in action.finishOutputs { return Turn(page, events, action.finishOutputs, FAILED, None); }
      return Turn(page, events + [RunSucceeded(action.finishOutputs, action.successCondition)], action.finishOutputs, SUCCEEDED, None);
    }
    var result := Execute(app, page, d);
    events := events + [ActionExecuted(stepIndex, result.locatorUsed, result.ok)];
    if !result.ok {
      return Turn(result.state, events + [StepFailed(stepIndex)], before, FAILED, None);
    }
    events := events + [StepSucceeded(stepIndex)];
    t := Turn(result.state, events, StepOutputs(stepIndex, action.params, result.extracted, before), FAILED,
              Some(Move(d, result.locatorUsed, result.extracted, page, result.state)));
  }

  // The `for` over the step indices, each round being one turn.
  method ExploreLoop<S>(turns: Turns<S>, start: S, before: seq<Event>)
      returns (end: S, events: seq<Event>, outputs: map<string, string>, status: Status)
    ensures var f := Explore(turns, 1, start, map[]);
            end == f.state && events == before + f.events && outputs == f.outputs && status == f.status
  {
    end, events, outputs, status := start, before, map[], FAILED;
    ghost var goal := Explore(turns, 1, end, map[]);
    for stepIndex := 1 to MAX_STEPS
      invariant status == FAILED && Ahead(goal, before, events, Explore(turns, stepIndex, end, outputs))
    {
      OneMoreTurn(turns, goal, before, events, stepIndex, end, outputs);
      var t := turns(stepIndex, end, outputs);
      events, end, outputs := events + t.events, t.state, t.outputs;
      if t.move.None? {
        status := t.status;
        return;
      }
    }
  }

  method ExecuteRun<S>(app: App<S>, cfg: Config, planner: Planner, start: S)
      returns (end: S, events: seq<Event>, outputs: map<string, string>, status: Status)
    ensures var f := Discover(app, cfg, planner, start);
            end == f.state && events == f.events && outputs == f.outputs && status == f.status
  {
    events := [ActionDecided(0, EntryDecision(cfg))];
    var (entered, act) := app.goto(start, cfg.baseUrl);
    if act != Done {
      return entered, events, map[], ABORTED;
    }
    events := events + [ActionExecuted(0, None, true), StepSucceeded(0)];
    end, events, outputs, status := ExploreLoop(TurnsOf(app, cfg, planner), entered, events);
    if status == FAILED {
      events := events + [RunFailed];
    }
  }

  // What is left to find, after these events, completes the goal.
  ghost predicate Ahead<S>(goal: Found<S>, prefix: seq<Event>, events: seq<Event>, rest: Found<S>) {
    && goal.state == rest.state && goal.outputs == rest.outputs && goal.status == rest.status
    && prefix + goal.events == events + rest.events
  }

  lemma OneMoreTurn<S>(turns: Turns<S>, goal: Found<S>, prefix: seq<Event>, events: seq<Event>, i: nat, s: S, outputs: map<string, string>)
    requires i < MAX_STEPS && Ahead(goal, prefix, events, Explore(turns, i, s, outputs))
    ensures var t := turns(i, s, outputs);
            if t.move.Some? then Ahead(goal, prefix, events + t.events, Explore(turns, i + 1, t.state, t.outputs))
            else goal.state == t.state && goal.outputs == t.outputs && goal.status == t.status && events + t.events == prefix + goal.events
  {
  }
}
