// services/replay_runtime/executor.py: the retrying interpreter of a resolved artifact.
module Executor {
  import opened Prelude
  import opened Schemas
  import opened Browser

  const MAX_RETRIES_PER_STEP := 2

  const MARKERS := ["Member Not Found", "Permission Denied"]

  datatype Why = NavigateTimeout | NavigateFailed | NoLocator | ActionTimeout | ActionFailed

  datatype Reason = UnboundParam(key: string) | NoCheckpoint | CheckpointFailed | UnsupportedAction

  // How one attempt at a step ends: normally, or by one of the exceptions `run` tells apart.
  datatype Signal =
    | Success
    | Recoverable(why: Why)
    | Business(marker: string)
    | Hard(reason: Reason)
    | Unhandled

  function KindName(k: LocatorKind): (s: string) {
    match k
    case Role => "role"
    case Label => "label"
    case TextContent => "text"
    case TestId => "test_id"
    case Css => "css"
  }

  function Render(l: LocatorStrategy): (c: string) {
    KindName(l.kind) + "=" + l.value
  }

  function RenderAll(chain: seq<LocatorStrategy>): (cs: seq<string>)
    ensures |cs| == |chain| && forall i :: 0 <= i < |chain| ==> cs[i] == Render(chain[i])
  {
    seq(|chain|, i requires 0 <= i < |chain| => Render(chain[i]))
  }

  // What `run` builds before it starts: later entries of the same key win.
  datatype Env = Env(inputs: map<string, string>, checkpoints: map<string, Checkpoint>, outputNames: map<string, string>)

  function CheckpointMap(cs: seq<Checkpoint>): (m: map<string, Checkpoint>) {
    if cs == [] then map[] else CheckpointMap(cs[..|cs| - 1])[cs[|cs| - 1].stepId := cs[|cs| - 1]]
  }

  function OutputNames(os: seq<OutputSpec>): (m: map<string, string>) {
    if os == [] then map[] else OutputNames(os[..|os| - 1])[os[|os| - 1].extractionSource := os[|os| - 1].name]
  }

  function EnvOf(d: Draft, inputs: map<string, string>): (env: Env) {
    Env(inputs, CheckpointMap(d.checkpoints), OutputNames(d.outputs))
  }

  // _resolve_param; None is HardFailureError.
  function Param(step: CapabilityStep, key: string, inputs: map<string, string>): (v: Option<string>) {
    if key in step.paramBindings && step.paramBindings[key] in inputs then Some(inputs[step.paramBindings[key]]) else None
  }

  function BusinessMarker<S>(app: App<S>, s: S): (r: (S, Option<string>)) {
    var (s', body) := app.bodyText(s);
    (s', if body.None? then None
         else if Contains(body.value, MARKERS[0]) then Some(MARKERS[0])
         else if Contains(body.value, MARKERS[1]) then Some(MARKERS[1])
         else None)
  }

  datatype Attempt<S> = Attempt(state: S, outputs: map<string, string>, signal: Signal)

  function AfterAct<S>(r: (S, Act), outputs: map<string, string>, timeout: Why, failed: Why): (a: Attempt<S>) {
    Attempt(r.0, outputs, match r.1 case Done => Success case TimedOut => Recoverable(timeout) case Failed => Recoverable(failed))
  }

  // The broad except turns the HardFailureError of an unbound value into a RecoverableError.
  function WithValue<S>(s: S, value: Option<string>, outputs: map<string, string>, act: string -> (S, Act)): (a: Attempt<S>) {
    if value.None? then Attempt(s, outputs, Recoverable(ActionFailed))
    else AfterAct(act(value.value), outputs, ActionTimeout, ActionFailed)
  }

  function ActOn<S>(app: App<S>, s: S, step: CapabilityStep, env: Env, outputs: map<string, string>, c: string): (a: Attempt<S>) {
    if step.actionType == Click then AfterAct(app.click(s, c), outputs, ActionTimeout, ActionFailed)
    else if step.actionType == Fill then
      WithValue(s, Param(step, "value", env.inputs), outputs, v => app.fill(s, c, v))
    else if step.actionType == SelectOption then
      WithValue(s, Param(step, "value", env.inputs), outputs, v => app.choose(s, c, v))
    else
      var name := if step.stepId in env.outputNames then env.outputNames[step.stepId] else step.stepId;
      var (s', text) := app.innerText(s, c);
      if text.Some? then Attempt(s', outputs[name := text.value], Success) else Attempt(s', outputs, Recoverable(ActionFailed))
  }

  function ExecuteStep<S>(app: App<S>, s: S, step: CapabilityStep, env: Env, outputs: map<string, string>): (a: Attempt<S>) {
    match step.actionType
    case Navigate =>
      var url := Param(step, "url", env.inputs);
      if url.None? then Attempt(s, outputs, Hard(UnboundParam("url")))
      else AfterAct(app.goto(s, url.value), outputs, NavigateTimeout, NavigateFailed)
    case Assert =>
      if step.stepId !in env.checkpoints then Attempt(s, outputs, Hard(NoCheckpoint))
      else
        var c := env.checkpoints[step.stepId];
        var (s1, passed) := Holds(app, s, c.assertion, c.expected);
        if passed.None? then Attempt(s1, outputs, Unhandled)
        else if passed.value then Attempt(s1, outputs, Success)
        else
          var (s2, marker) := BusinessMarker(app, s1);
          Attempt(s2, outputs, if marker.Some? then Business(marker.value) else Hard(CheckpointFailed))
    case Finish => Attempt(s, outputs, Hard(UnsupportedAction))
    case Unknown(_) => Attempt(s, outputs, Hard(UnsupportedAction))
    case _ =>
      var (s1, candidate) := Resolve(app, s, RenderAll(step.strategyChain));
      if candidate.None? then
        var (s2, marker) := BusinessMarker(app, s1);
        Attempt(s2, outputs, if marker.Some? then Business(marker.value) else Recoverable(NoLocator))
      else ActOn(app, s1, step, env, outputs, candidate.value)
  }

  // _execute_step for the i-th step, closed over the page, the artifact and the inputs.
  type Interpreter<!S> = (nat, S, map<string, string>) -> Attempt<S>

  function InterpreterOf<S>(app: App<S>, steps: seq<CapabilityStep>, env: Env): (exec: Interpreter<S>) {
    (i: nat, s: S, o: map<string, string>) => if i < |steps| then ExecuteStep(app, s, steps[i], env, o) else Attempt(s, o, Success)
  }

  // ----- the specification of run: what happens step by step -----

  // The attempts at one step: retries while recoverable, at most MAX_RETRIES_PER_STEP of them.
  datatype Block<S> = Block(state: S, outputs: map<string, string>, signals: seq<Signal>)

  function Attempts<S>(exec: Interpreter<S>, i: nat, s: S, outputs: map<string, string>, tried: nat): (b: Block<S>)
    requires tried <= MAX_RETRIES_PER_STEP
    ensures b.signals != []
    decreases MAX_RETRIES_PER_STEP - tried
  {
    var a := exec(i, s, outputs);
    if a.signal.Recoverable? && tried < MAX_RETRIES_PER_STEP then
      var rest := Attempts(exec, i, a.state, a.outputs, tried + 1);
      rest.(signals := [a.signal] + rest.signals)
    else Block(a.state, a.outputs, [a.signal])
  }

  // The signals of each step begun, from step i on, until one does not end in success.
  datatype Trace<S> = Trace(state: S, outputs: map<string, string>, blocks: seq<seq<Signal>>)

  function Walk<S>(exec: Interpreter<S>, i: nat, n: nat, s: S, outputs: map<string, string>): (t: Trace<S>)
    requires i <= n
    ensures |t.blocks| <= n - i && forall k :: 0 <= k < |t.blocks| ==> t.blocks[k] != []
    decreases n - i
  {
    if i == n then Trace(s, outputs, [])
    else
      var b := Attempts(exec, i, s, outputs, 0);
      if Last(b.signals).Success? then
        var rest := Walk(exec, i + 1, n, b.state, b.outputs);
        rest.(blocks := [b.signals] + rest.blocks)
      else Trace(b.state, b.outputs, [b.signals])
  }

  // A whole replay.
  function Replay<S>(app: App<S>, start: S, draft: Draft, inputs: map<string, string>): (t: Trace<S>)
    ensures |t.blocks| <= |draft.steps| && forall k :: 0 <= k < |t.blocks| ==> t.blocks[k] != []
  {
    Walk(InterpreterOf(app, draft.steps, EnvOf(draft, inputs)), 0, |draft.steps|, start, map[])
  }

  function Last(signals: seq<Signal>): (x: Signal)
    requires signals != []
  {
    signals[|signals| - 1]
  }

  // ----- the result -----

  datatype EntryKind = SuccessEntry | RetryEntry | BusinessEntry | HardEntry

  datatype StepExecution = StepExecution(stepId: string, outcome: EntryKind)

  datatype ReplayOutcome = BUSINESS_OUTCOME | RECOVERABLE | HARD_FAILURE

  datatype ReplayResult = ReplayResult(
    outcome: ReplayOutcome, outputs: map<string, string>, retryCount: nat, failedStepId: Option<string>,
    deadLetter: Option<Signal>, stepLog: seq<StepExecution>)

  function EntryOf(stepId: string, signals: seq<Signal>, i: nat): (e: StepExecution)
    requires i < |signals|
  {
    StepExecution(stepId,
      match signals[i]
      case Success => SuccessEntry
      case Recoverable(_) => if i < |signals| - 1 then RetryEntry else HardEntry
      case Business(_) => BusinessEntry
      case Hard(_) => HardEntry
      case Unhandled => HardEntry)
  }

  function EntriesOf(stepId: string, signals: seq<Signal>): (es: seq<StepExecution>)
    ensures |es| == |signals| && forall i :: 0 <= i < |es| ==> es[i] == EntryOf(stepId, signals, i)
  {
    seq(|signals|, i requires 0 <= i < |signals| => EntryOf(stepId, signals, i))
  }

  function LogOf(steps: seq<CapabilityStep>, blocks: seq<seq<Signal>>): (es: seq<StepExecution>)
    requires |blocks| <= |steps|
  {
    if blocks == [] then []
    else
      var n := |blocks| - 1;
      LogOf(steps, blocks[..n]) + EntriesOf(steps[n].stepId, blocks[n])
  }

  function RecoverablesIn(signals: seq<Signal>): (n: nat)
    ensures n <= |signals|
  {
    if signals == [] then 0
    else RecoverablesIn(signals[..|signals| - 1]) + if Last(signals).Recoverable? then 1 else 0
  }

  function RecoverableCount(blocks: seq<seq<Signal>>): (n: nat) {
    if blocks == [] then 0 else RecoverableCount(blocks[..|blocks| - 1]) + RecoverablesIn(blocks[|blocks| - 1])
  }

  // The result for a run whose last step, the one with this id, ended in this signal.
  function Ended(outputs: map<string, string>, last: Signal, stepId: string, retries: nat, log: seq<StepExecution>): (r: ReplayResult) {
    match last
    case Success => ReplayResult(BUSINESS_OUTCOME, outputs, retries, None, None, log)
    case Business(marker) => ReplayResult(BUSINESS_OUTCOME, outputs["business_outcome" := marker], retries, None, None, log)
    case _ => ReplayResult(HARD_FAILURE, outputs, retries, Some(stepId), Some(last), log)
  }

  function LastSignal(blocks: seq<seq<Signal>>): (x: Signal)
    requires forall k :: 0 <= k < |blocks| ==> blocks[k] != []
  {
    if blocks == [] then Success else Last(blocks[|blocks| - 1])
  }

  function ResultOf<S>(steps: seq<CapabilityStep>, t: Trace<S>): (r: ReplayResult)
    requires |t.blocks| <= |steps| && forall k :: 0 <= k < |t.blocks| ==> t.blocks[k] != []
  {
    Ended(t.outputs, LastSignal(t.blocks), if t.blocks == [] then "" else steps[|t.blocks| - 1].stepId,
           RecoverableCount(t.blocks), LogOf(steps, t.blocks))
  }

  // ----- run, as written -----

  // So far every attempt was recoverable, and the rest of the block lies ahead.
  ghost predicate Retrying<S>(exec: Interpreter<S>, i: nat, stepId: string, whole: Block<S>, s: S, outputs: map<string, string>,
                              entries: seq<StepExecution>, signals: seq<Signal>) {
    && |entries| == |signals| == RecoverablesIn(signals) && |signals| <= MAX_RETRIES_PER_STEP
    && (forall k :: 0 <= k < |entries| ==> entries[k] == StepExecution(stepId, RetryEntry))
    && var rest := Attempts(exec, i, s, outputs, |signals|); whole == rest.(signals := signals + rest.signals)
  }

  lemma {:induction false} AllRecoverable(signals: seq<Signal>)
    requires RecoverablesIn(signals) == |signals|
    ensures forall k :: 0 <= k < |signals| ==> signals[k].Recoverable?
  {
    if signals != [] { AllRecoverable(signals[..|signals| - 1]); }
  }

  lemma AttemptEnds<S>(exec: Interpreter<S>, i: nat, stepId: string, whole: Block<S>, s: S, outputs: map<string, string>,
                       entries: seq<StepExecution>, signals: seq<Signal>)
    requires Retrying(exec, i, stepId, whole, s, outputs, entries, signals)
    ensures var a := exec(i, s, outputs);
            var more := signals + [a.signal];
            if a.signal.Recoverable? && |signals| < MAX_RETRIES_PER_STEP then
              Retrying(exec, i, stepId, whole, a.state, a.outputs, entries + [StepExecution(stepId, RetryEntry)], more)
            else
              && whole == Block(a.state, a.outputs, more)
              && entries + [EntryOf(stepId, more, |signals|)] == EntriesOf(stepId, more)
              && RecoverablesIn(more) == |signals| + if a.signal.Recoverable? then 1 else 0
  {
    var a := exec(i, s, outputs);
    var more := signals + [a.signal];
    assert more[..|signals|] == signals;
    AllRecoverable(signals);
    if a.signal.Recoverable? && |signals| < MAX_RETRIES_PER_STEP {
      var rest := Attempts(exec, i, a.state, a.outputs, |signals| + 1);
      assert signals + ([a.signal] + rest.signals) == more + rest.signals;
    }
  }

  // The `while True` around one step: what it adds to the log and to the retry counter, and the signal
  // that ends it.
  method TryStep<S>(exec: Interpreter<S>, i: nat, stepId: string, start: S, before: map<string, string>)
      returns (end: S, outputs: map<string, string>, entries: seq<StepExecution>, retries: nat, final: Signal)
    ensures var b := Attempts(exec, i, start, before, 0);
            && end == b.state && outputs == b.outputs && final == Last(b.signals)
            && entries == EntriesOf(stepId, b.signals) && retries == RecoverablesIn(b.signals)
  {
    end, outputs, entries, retries := start, before, [], 0;
    var attempt := 0;
    ghost var whole := Attempts(exec, i, start, before, 0);
    ghost var signals: seq<Signal> := [];
    assert [] + whole.signals == whole.signals;
    while true
      invariant Retrying(exec, i, stepId, whole, end, outputs, entries, signals)
      invariant attempt == retries == |signals|
      decreases MAX_RETRIES_PER_STEP - attempt
    {
      var a := exec(i, end, outputs);
      AttemptEnds(exec, i, stepId, whole, end, outputs, entries, signals);
      end, outputs, final := a.state, a.outputs, a.signal;
      signals := signals + [a.signal];
      match a.signal {
        case Success =>
          entries := entries + [StepExecution(stepId, SuccessEntry)];
          return;
        case Recoverable(_) =>
          attempt := attempt + 1;
          retries := retries + 1;
          if attempt > MAX_RETRIES_PER_STEP {
            entries := entries + [StepExecution(stepId, HardEntry)];
            return;
          }
          entries := entries + [StepExecution(stepId, RetryEntry)];
        case Business(_) =>
          entries := entries + [StepExecution(stepId, BusinessEntry)];
          return;
        case _ =>
          entries := entries + [StepExecution(stepId, HardEntry)];
          return;
      }
    }
  }

  method Run<S>(app: App<S>, start: S, draft: Draft, inputs: map<string, string>) returns (r: ReplayResult, end: S)
    ensures var t := Replay(app, start, draft, inputs); r == ResultOf(draft.steps, t) && end == t.state
  {
    var steps := draft.steps;
    var exec := InterpreterOf(app, steps, EnvOf(draft, inputs));
    r, end := RunSteps(exec, start, steps);
  }

  // Every step before i has succeeded, and the rest of the walk lies ahead.
  ghost predicate Walking<S>(exec: Interpreter<S>, steps: seq<CapabilityStep>, goal: Trace<S>, i: nat, s: S, outputs: map<string, string>,
                             log: seq<StepExecution>, retries: nat, blocks: seq<seq<Signal>>) {
    && |blocks| == i <= |steps| && NonEmpty(blocks) && (i > 0 ==> Last(blocks[i - 1]).Success?)
    && goal == Continued(blocks, Walk(exec, i, |steps|, s, outputs))
    && log == LogOf(steps, blocks) && retries == RecoverableCount(blocks)
  }

  // What one more step does to a walk.
  lemma StepSucceeded<S>(exec: Interpreter<S>, steps: seq<CapabilityStep>, goal: Trace<S>, i: nat, s: S, outputs: map<string, string>,
                     log: seq<StepExecution>, retries: nat, blocks: seq<seq<Signal>>)
    requires i < |steps| && Walking(exec, steps, goal, i, s, outputs, log, retries, blocks)
    requires Last(Attempts(exec, i, s, outputs, 0).signals).Success?
    ensures var b := Attempts(exec, i, s, outputs, 0);
            Walking(exec, steps, goal, i + 1, b.state, b.outputs, log + EntriesOf(steps[i].stepId, b.signals),
                    retries + RecoverablesIn(b.signals), blocks + [b.signals])
  {
  }

  lemma StepStopped<S>(exec: Interpreter<S>, steps: seq<CapabilityStep>, goal: Trace<S>, i: nat, s: S, outputs: map<string, string>,
                     log: seq<StepExecution>, retries: nat, blocks: seq<seq<Signal>>)
    requires i < |steps| && Walking(exec, steps, goal, i, s, outputs, log, retries, blocks)
    requires !Last(Attempts(exec, i, s, outputs, 0).signals).Success?
    ensures var b := Attempts(exec, i, s, outputs, 0);
            var log', retries', final := log + EntriesOf(steps[i].stepId, b.signals), retries + RecoverablesIn(b.signals), Last(b.signals);
            && goal.state == b.state
            && ResultOf(steps, goal) ==
               if final.Business? then
                 ReplayResult(BUSINESS_OUTCOME, b.outputs["business_outcome" := final.marker], retries', None, None, log')
               else ReplayResult(HARD_FAILURE, b.outputs, retries', Some(steps[i].stepId), Some(final), log')
  {
  }

  // The loop over the steps.
  method RunSteps<S>(exec: Interpreter<S>, start: S, steps: seq<CapabilityStep>) returns (r: ReplayResult, end: S)
    ensures var t := Walk(exec, 0, |steps|, start, map[]); r == ResultOf(steps, t) && end == t.state
  {
    var outputs: map<string, string> := map[];
    var stepLog: seq<StepExecution> := [];
    var totalRetries := 0;
    end := start;
    ghost var goal := Walk(exec, 0, |steps|, start, map[]);
    ghost var blocks: seq<seq<Signal>> := [];
    assert [] + goal.blocks == goal.blocks;
    for i := 0 to |steps|
      invariant Walking(exec, steps, goal, i, end, outputs, stepLog, totalRetries, blocks)
    {
      if Last(Attempts(exec, i, end, outputs, 0).signals).Success? {
        StepSucceeded(exec, steps, goal, i, end, outputs, stepLog, totalRetries, blocks);
      } else {
        StepStopped(exec, steps, goal, i, end, outputs, stepLog, totalRetries, blocks);
      }
      blocks := blocks + [Attempts(exec, i, end, outputs, 0).signals];
      var entries, retries, final;
      end, outputs, entries, retries, final := TryStep(exec, i, steps[i].stepId, end, outputs);
      stepLog := stepLog + entries;
      totalRetries := totalRetries + retries;
      match final {
        case Success =>
        case Business(marker) =>
          r := ReplayResult(BUSINESS_OUTCOME, outputs["business_outcome" := marker], totalRetries, None, None, stepLog);
          return;
        case _ =>
          r := ReplayResult(HARD_FAILURE, outputs, totalRetries, Some(steps[i].stepId), Some(final), stepLog);
          return;
      }
    }
    r := ReplayResult(BUSINESS_OUTCOME, outputs, totalRetries, None, None, stepLog);
    CompletedResult(exec, steps, blocks, end, outputs);
  }

  ghost predicate NonEmpty(blocks: seq<seq<Signal>>) {
    forall k :: 0 <= k < |blocks| ==> blocks[k] != []
  }

  lemma CompletedResult<S>(exec: Interpreter<S>, steps: seq<CapabilityStep>, blocks: seq<seq<Signal>>, end: S, outputs: map<string, string>)
    requires |blocks| == |steps| && NonEmpty(blocks) && (blocks != [] ==> Last(blocks[|blocks| - 1]).Success?)
    ensures Continued(blocks, Walk(exec, |steps|, |steps|, end, outputs)) == Trace(end, outputs, blocks)
    ensures ResultOf(steps, Trace(end, outputs, blocks))
         == ReplayResult(BUSINESS_OUTCOME, outputs, RecoverableCount(blocks), None, None, LogOf(steps, blocks))
  {
  }

  ghost function Continued<S>(blocks: seq<seq<Signal>>, rest: Trace<S>): (t: Trace<S>) {
    rest.(blocks := blocks + rest.blocks)
  }

}
