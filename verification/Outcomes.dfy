// What ends a replay, told by the page's own calls and texts: which attempts succeed, which are retried,
// and which of them show that the business, not the automation, said no.
module Outcomes {
  import opened Prelude
  import opened Schemas
  import opened Browser
  import opened Executor
  import opened Accounting

  // ----- vocabulary: the page's answers -----

  predicate OnElement(t: ActionType) {
    t == Click || t == Fill || t == SelectOption || t == Extract
  }

  // The candidates of a chain as the page is asked for them.
  function Asked(chain: seq<LocatorStrategy>): (cs: seq<string>)
    ensures |cs| == |chain|
  {
    seq(|chain|, i requires 0 <= i < |chain| =>
      var prefix := match chain[i].kind { case Role => "role=" case Label => "label=" case TextContent => "text=" case TestId => "test_id=" case Css => "css=" };
      prefix + chain[i].value)
  }

  lemma AskedIsRendered(chain: seq<LocatorStrategy>)
    ensures RenderAll(chain) == Asked(chain)
  {
    forall i | 0 <= i < |chain| ensures RenderAll(chain)[i] == Asked(chain)[i] { }
  }

  // The body's text, as read on this page, contains the text.
  predicate Says<S>(app: App<S>, page: S, text: string) {
    var body := app.bodyText(page).1;
    body.Some? && Contains(body.value, text)
  }

  predicate Confirmed<S>(app: App<S>, page: S, assertion: string, expected: string) {
    || (assertion == "url_contains" && app.url(page).1.Some? && Contains(app.url(page).1.value, expected))
    || (assertion == "text_present" && app.textCount(page, expected).1.Some? && app.textCount(page, expected).1.value > 0)
    || (assertion == "element_visible" && app.visible(page, expected).1 == Some(true))
  }

  // The page could not be asked: unlike a missing element, this is not taken for a false assertion.
  predicate AssertionRaised<S>(app: App<S>, page: S, assertion: string, expected: string) {
    || (assertion == "url_contains" && app.url(page).1.None?)
    || (assertion == "text_present" && app.textCount(page, expected).1.None?)
  }

  function PageAfterAssert<S>(app: App<S>, page: S, assertion: string, expected: string): (r: S) {
    match assertion
    case "url_contains" => app.url(page).0
    case "text_present" => app.textCount(page, expected).0
    case "element_visible" => app.visible(page, expected).0
    case _ => page
  }

  // Where the step asks for the body's text: after every candidate has failed, or after a false assertion.
  function TextRead<S>(app: App<S>, page: S, step: CapabilityStep, env: Env): (r: Option<S>) {
    if OnElement(step.actionType) && NoneFound(app, page, Asked(step.strategyChain)) then
      Some(PageAfter(app, page, Asked(step.strategyChain), |step.strategyChain|))
    else if step.actionType == Assert && step.stepId in env.checkpoints then
      var c := env.checkpoints[step.stepId];
      if Confirmed(app, page, c.assertion, c.expected) || AssertionRaised(app, page, c.assertion, c.expected) then None
      else Some(PageAfterAssert(app, page, c.assertion, c.expected))
    else None
  }

  // The two texts by which the bank says no; the first outweighs the second.
  predicate Shows<S>(app: App<S>, page: S, step: CapabilityStep, env: Env, text: string) {
    var read := TextRead(app, page, step, env);
    read.Some? && (
      || (text == "Member Not Found" && Says(app, read.value, "Member Not Found"))
      || (text == "Permission Denied" && Says(app, read.value, "Permission Denied") && !Says(app, read.value, "Member Not Found")))
  }

  // ----- one attempt -----

  lemma TextsDiffer()
    ensures "Member Not Found" != "Permission Denied"
  {
    assert "Member Not Found"[0] == 'M' && "Permission Denied"[0] == 'P';
  }

  lemma MarkerAt<S>(app: App<S>, page: S)
    ensures var (after, m) := BusinessMarker(app, page);
            && after == app.bodyText(page).0
            && (m == Some("Member Not Found") <==> Says(app, page, "Member Not Found"))
            && (m == Some("Permission Denied") <==> Says(app, page, "Permission Denied") && !Says(app, page, "Member Not Found"))
            && (m == None <==> !Says(app, page, "Member Not Found") && !Says(app, page, "Permission Denied"))
  {
    TextsDiffer();
  }

  lemma NoneFoundAttempt<S>(app: App<S>, page: S, step: CapabilityStep, env: Env, outputs: map<string, string>)
    requires OnElement(step.actionType) && NoneFound(app, page, Asked(step.strategyChain))
    ensures var read := PageAfter(app, page, Asked(step.strategyChain), |step.strategyChain|);
            var (after, m) := BusinessMarker(app, read);
            ExecuteStep(app, page, step, env, outputs) == Attempt(after, outputs, if m.Some? then Business(m.value) else Recoverable(NoLocator))
  {
    AskedIsRendered(step.strategyChain);
    ResolveFindsFirst(app, page, Asked(step.strategyChain), 0);
  }

  // A click, fill, select or extract none of whose candidates has an element.
  lemma MissingElement<S>(app: App<S>, page: S, step: CapabilityStep, env: Env, outputs: map<string, string>)
    requires OnElement(step.actionType) && NoneFound(app, page, Asked(step.strategyChain))
    ensures var a := ExecuteStep(app, page, step, env, outputs);
            var read := PageAfter(app, page, Asked(step.strategyChain), |step.strategyChain|);
            && a.state == app.bodyText(read).0 && a.outputs == outputs
            && (a.signal == Business("Member Not Found") <==> Says(app, read, "Member Not Found"))
            && (a.signal == Business("Permission Denied") <==> Says(app, read, "Permission Denied") && !Says(app, read, "Member Not Found"))
            && (a.signal == Recoverable(NoLocator) <==> !Says(app, read, "Member Not Found") && !Says(app, read, "Permission Denied"))
  {
    NoneFoundAttempt(app, page, step, env, outputs);
    MarkerAt(app, PageAfter(app, page, Asked(step.strategyChain), |step.strategyChain|));
  }

  // An assertion the page denies.
  lemma FalseAssertion<S>(app: App<S>, page: S, step: CapabilityStep, env: Env, outputs: map<string, string>)
    requires step.actionType == Assert && step.stepId in env.checkpoints
    requires var c := env.checkpoints[step.stepId];
             !Confirmed(app, page, c.assertion, c.expected) && !AssertionRaised(app, page, c.assertion, c.expected)
    ensures var a, c := ExecuteStep(app, page, step, env, outputs), env.checkpoints[step.stepId];
            var read := PageAfterAssert(app, page, c.assertion, c.expected);
            && a.state == app.bodyText(read).0 && a.outputs == outputs
            && (a.signal == Business("Member Not Found") <==> Says(app, read, "Member Not Found"))
            && (a.signal == Business("Permission Denied") <==> Says(app, read, "Permission Denied") && !Says(app, read, "Member Not Found"))
            && (a.signal == Hard(CheckpointFailed) <==> !Says(app, read, "Member Not Found") && !Says(app, read, "Permission Denied"))
  {
    var c := env.checkpoints[step.stepId];
    MarkerAt(app, PageAfterAssert(app, page, c.assertion, c.expected));
  }

  // An assertion the page confirms succeeds; one it could not be asked about ends the run hard.
  lemma OtherAssertion<S>(app: App<S>, page: S, step: CapabilityStep, env: Env, outputs: map<string, string>)
    requires step.actionType == Assert && step.stepId in env.checkpoints
    ensures var a, c := ExecuteStep(app, page, step, env, outputs), env.checkpoints[step.stepId];
            && (a.signal == Success <==> Confirmed(app, page, c.assertion, c.expected))
            && (a.signal == Unhandled <==> AssertionRaised(app, page, c.assertion, c.expected))
            && (Confirmed(app, page, c.assertion, c.expected) ==>
                  a.state == PageAfterAssert(app, page, c.assertion, c.expected) && a.outputs == outputs)
  {
  }

  // What a replay asserts at a step, and how it names a reading: of entries for the same step the last counts.
  lemma {:induction false} LastCheckpoint(cs: seq<Checkpoint>, stepId: string)
    ensures stepId in CheckpointMap(cs) <==> exists k :: 0 <= k < |cs| && cs[k].stepId == stepId
    ensures stepId in CheckpointMap(cs) ==>
              exists k :: 0 <= k < |cs| && cs[k].stepId == stepId && CheckpointMap(cs)[stepId] == cs[k]
                          && forall j :: k < j < |cs| ==> cs[j].stepId != stepId
  {
    if cs != [] {
      var n := |cs| - 1;
      LastCheckpoint(cs[..n], stepId);
      if k :| 0 <= k < n && cs[..n][k].stepId == stepId { assert cs[k].stepId == stepId; }
      if cs[n].stepId != stepId && stepId in CheckpointMap(cs[..n]) {
        var k :| 0 <= k < n && cs[..n][k].stepId == stepId && CheckpointMap(cs[..n])[stepId] == cs[..n][k]
                 && forall j :: k < j < n ==> cs[..n][j].stepId != stepId;
        assert cs[k].stepId == stepId && forall j :: k < j < n ==> cs[..n][j] == cs[j];
      }
    }
  }

  lemma {:induction false} LastOutputName(os: seq<OutputSpec>, stepId: string)
    ensures stepId in OutputNames(os) <==> exists k :: 0 <= k < |os| && os[k].extractionSource == stepId
    ensures stepId in OutputNames(os) ==>
              exists k :: 0 <= k < |os| && os[k].extractionSource == stepId && OutputNames(os)[stepId] == os[k].name
                          && forall j :: k < j < |os| ==> os[j].extractionSource != stepId
  {
    if os != [] {
      var n := |os| - 1;
      LastOutputName(os[..n], stepId);
      if k :| 0 <= k < n && os[..n][k].extractionSource == stepId { assert os[k].extractionSource == stepId; }
      if os[n].extractionSource != stepId && stepId in OutputNames(os[..n]) {
        var k :| 0 <= k < n && os[..n][k].extractionSource == stepId && OutputNames(os[..n])[stepId] == os[..n][k].name
                 && forall j :: k < j < n ==> os[..n][j].extractionSource != stepId;
        assert os[k].extractionSource == stepId && forall j :: k < j < n ==> os[..n][j] == os[j];
      }
    }
  }

  predicate Given(step: CapabilityStep, key: string, env: Env) {
    key in step.paramBindings && step.paramBindings[key] in env.inputs
  }

  function ValueOf(step: CapabilityStep, key: string, env: Env): (v: string)
    requires Given(step, key, env)
  {
    env.inputs[step.paramBindings[key]]
  }

  // The page did it, was too slow, or refused: only the first is a success, and the others are tried again.
  ghost predicate ActedAs<S>(a: Attempt<S>, r: (S, Act), outputs: map<string, string>) {
    && a.state == r.0 && a.outputs == outputs
    && (a.signal == Success <==> r.1 == Act.Done) && (a.signal == Recoverable(ActionTimeout) <==> r.1 == TimedOut)
    && (a.signal == Recoverable(ActionFailed) <==> r.1 == Failed)
  }

  // What an attempt does with the element it has found; its value is the input bound to "value".
  ghost predicate ActsOn<S>(app: App<S>, there: S, c: string, step: CapabilityStep, env: Env, outputs: map<string, string>, a: Attempt<S>) {
    && (step.actionType == Click ==> ActedAs(a, app.click(there, c), outputs))
    && (step.actionType == Fill && Given(step, "value", env) ==> ActedAs(a, app.fill(there, c, ValueOf(step, "value", env)), outputs))
    && (step.actionType == SelectOption && Given(step, "value", env) ==> ActedAs(a, app.choose(there, c, ValueOf(step, "value", env)), outputs))
    && ((step.actionType == Fill || step.actionType == SelectOption) && !Given(step, "value", env) ==>
          a == Attempt(there, outputs, Recoverable(ActionFailed)))
    && (step.actionType == Extract ==> ReadAs(a, app.innerText(there, c), NameFor(step, env), outputs))
  }

  ghost predicate ReadAs<S>(a: Attempt<S>, r: (S, Option<string>), name: string, outputs: map<string, string>) {
    a == if r.1.None? then Attempt(r.0, outputs, Recoverable(ActionFailed)) else Attempt(r.0, outputs[name := r.1.value], Success)
  }

  // The declared output of the step, or else the step's own id.
  function NameFor(step: CapabilityStep, env: Env): (name: string) {
    if step.stepId in env.outputNames then env.outputNames[step.stepId] else step.stepId
  }

  lemma ActOnMeans<S>(app: App<S>, there: S, c: string, step: CapabilityStep, env: Env, outputs: map<string, string>)
    requires OnElement(step.actionType)
    ensures ActsOn(app, there, c, step, env, outputs, ActOn(app, there, step, env, outputs, c))
    ensures !ActOn(app, there, step, env, outputs, c).signal.Business?
  {
  }

  lemma FoundAttempt<S>(app: App<S>, page: S, step: CapabilityStep, env: Env, outputs: map<string, string>, k: nat)
    requires OnElement(step.actionType) && FirstFound(app, page, Asked(step.strategyChain), k)
    ensures var cs := Asked(step.strategyChain);
            ExecuteStep(app, page, step, env, outputs) == ActOn(app, PageAfter(app, page, cs, k + 1), step, env, outputs, cs[k])
  {
    AskedIsRendered(step.strategyChain);
    ResolveFindsFirst(app, page, Asked(step.strategyChain), k);
  }

  lemma ActsOnFirstFound<S>(app: App<S>, page: S, step: CapabilityStep, env: Env, outputs: map<string, string>, k: nat)
    requires OnElement(step.actionType) && FirstFound(app, page, Asked(step.strategyChain), k)
    ensures var cs := Asked(step.strategyChain);
            && ActsOn(app, PageAfter(app, page, cs, k + 1), cs[k], step, env, outputs, ExecuteStep(app, page, step, env, outputs))
            && !ExecuteStep(app, page, step, env, outputs).signal.Business?
  {
    var cs := Asked(step.strategyChain);
    ActOnMeans(app, PageAfter(app, page, cs, k + 1), cs[k], step, env, outputs);
    FoundAttempt(app, page, step, env, outputs, k);
  }

  lemma NavigatesToInput<S>(app: App<S>, page: S, step: CapabilityStep, env: Env, outputs: map<string, string>)
    requires step.actionType == Navigate
    ensures var a := ExecuteStep(app, page, step, env, outputs);
            if !Given(step, "url", env) then a == Attempt(page, outputs, Hard(UnboundParam("url")))
            else
              var r := app.goto(page, ValueOf(step, "url", env));
              && a.state == r.0 && a.outputs == outputs
              && (a.signal == Success <==> r.1 == Act.Done) && (a.signal == Recoverable(NavigateTimeout) <==> r.1 == TimedOut)
              && (a.signal == Recoverable(NavigateFailed) <==> r.1 == Failed)
  {
  }

  // For every step on every page: an attempt ends as a business outcome exactly when the page, asked where the
  // step asks, shows that text; it leaves the outputs alone then.
  lemma BusinessExactly<S>(app: App<S>, page: S, step: CapabilityStep, env: Env, outputs: map<string, string>, text: string)
    ensures var a := ExecuteStep(app, page, step, env, outputs);
            && (a.signal == Business(text) <==> Shows(app, page, step, env, text))
            && (a.signal.Business? ==> a.outputs == outputs && Shows(app, page, step, env, a.signal.marker))
  {
    TextsDiffer();
    if OnElement(step.actionType) {
      var k := FoundOrNot(app, page, Asked(step.strategyChain), |step.strategyChain|);
      if k < |step.strategyChain| {
        ElementIsNoBusiness(app, page, step, env, outputs, k);
      } else {
        MissingElement(app, page, step, env, outputs);
        OnlyTwoTexts(app, page, step, env, outputs);
      }
    } else if step.actionType == Assert && step.stepId in env.checkpoints {
      var c := env.checkpoints[step.stepId];
      if !Confirmed(app, page, c.assertion, c.expected) && !AssertionRaised(app, page, c.assertion, c.expected) {
        FalseAssertion(app, page, step, env, outputs);
        OnlyTwoTexts(app, page, step, env, outputs);
      } else {
        OtherAssertion(app, page, step, env, outputs);
      }
    }
  }

  lemma OnlyTwoTexts<S>(app: App<S>, page: S, step: CapabilityStep, env: Env, outputs: map<string, string>)
    ensures var signal := ExecuteStep(app, page, step, env, outputs).signal;
            signal.Business? ==> signal.marker == "Member Not Found" || signal.marker == "Permission Denied"
  {
  }

  lemma ElementIsNoBusiness<S>(app: App<S>, page: S, step: CapabilityStep, env: Env, outputs: map<string, string>, k: nat)
    requires OnElement(step.actionType) && FirstFound(app, page, Asked(step.strategyChain), k)
    ensures !ExecuteStep(app, page, step, env, outputs).signal.Business? && TextRead(app, page, step, env).None?
  {
    ActsOnFirstFound(app, page, step, env, outputs, k);
  }

  // ----- the whole replay, attempt by attempt -----

  datatype Try<S> = Try(step: nat, page: S, outputs: map<string, string>)

  function Ends<S>(exec: Interpreter<S>, t: Try<S>): (a: Attempt<S>) {
    exec(t.step, t.page, t.outputs)
  }

  // The attempts at step i once `tried` retries are spent: another as long as the last one may be retried.
  function StepTries<S>(exec: Interpreter<S>, i: nat, page: S, outputs: map<string, string>, tried: nat): (ts: seq<Try<S>>)
    requires tried <= 2
    ensures ts != []
    decreases 2 - tried
  {
    var a := exec(i, page, outputs);
    [Try(i, page, outputs)] + if a.signal.Recoverable? && tried < 2 then StepTries(exec, i, a.state, a.outputs, tried + 1) else []
  }

  function LastOf<T>(ts: seq<T>): (t: T)
    requires ts != []
  {
    ts[|ts| - 1]
  }

  // From step i on: the next step begins where a successful attempt ended.
  function Tries<S>(exec: Interpreter<S>, i: nat, n: nat, page: S, outputs: map<string, string>): (ts: seq<Try<S>>)
    requires i <= n
    decreases n - i
  {
    if i == n then []
    else
      var ts := StepTries(exec, i, page, outputs, 0);
      var a := Ends(exec, LastOf(ts));
      if a.signal.Success? then ts + Tries(exec, i + 1, n, a.state, a.outputs) else ts
  }

  lemma {:induction false} StepTriesEnd<S>(exec: Interpreter<S>, i: nat, page: S, outputs: map<string, string>, tried: nat)
    requires tried <= 2
    ensures var ts, b := StepTries(exec, i, page, outputs, tried), Attempts(exec, i, page, outputs, tried);
            && Ends(exec, LastOf(ts)) == Attempt(b.state, b.outputs, Last(b.signals))
            && (forall k :: 0 <= k < |ts| ==> ts[k].step == i)
            && (forall k :: 0 <= k < |ts| - 1 ==> Ends(exec, ts[k]).signal.Recoverable?)
    decreases 2 - tried
  {
    var a := exec(i, page, outputs);
    assert Ends(exec, Try(i, page, outputs)) == a;
    if a.signal.Recoverable? && tried < 2 {
      StepTriesEnd(exec, i, a.state, a.outputs, tried + 1);
      var rest := StepTries(exec, i, a.state, a.outputs, tried + 1);
      assert StepTries(exec, i, page, outputs, tried) == [Try(i, page, outputs)] + rest;
    }
  }

  ghost predicate EndsAs<S>(exec: Interpreter<S>, ts: seq<Try<S>>, i: nat, n: nat, t: Trace<S>) {
    && ts != [] && t.blocks != [] && t.blocks[|t.blocks| - 1] != []
    && Ends(exec, LastOf(ts)) == Attempt(t.state, t.outputs, Last(t.blocks[|t.blocks| - 1]))
    && (forall k :: 0 <= k < |ts| ==> i <= ts[k].step < n)
    && (forall k :: 0 <= k < |ts| - 1 ==> GoesOn(exec, ts[k]))
  }

  predicate GoesOn<S>(exec: Interpreter<S>, t: Try<S>) {
    Ends(exec, t).signal.Success? || Ends(exec, t).signal.Recoverable?
  }

  // The walk ends as its last attempt does, and every attempt before that succeeded or was retried.
  lemma {:induction false} TriesEndTheWalk<S>(exec: Interpreter<S>, i: nat, n: nat, page: S, outputs: map<string, string>)
    requires i < n
    ensures EndsAs(exec, Tries(exec, i, n, page, outputs), i, n, Walk(exec, i, n, page, outputs))
    decreases n - i
  {
    var first, b := StepTries(exec, i, page, outputs, 0), Attempts(exec, i, page, outputs, 0);
    StepTriesEnd(exec, i, page, outputs, 0);
    if Last(b.signals).Success? && i + 1 < n {
      var rest, t := Tries(exec, i + 1, n, b.state, b.outputs), Walk(exec, i + 1, n, b.state, b.outputs);
      TriesEndTheWalk(exec, i + 1, n, b.state, b.outputs);
      TriesJoin(exec, i, n, first, rest, b.signals, t);
      assert Tries(exec, i, n, page, outputs) == first + rest;
      assert Walk(exec, i, n, page, outputs) == t.(blocks := [b.signals] + t.blocks);
    } else {
      StepEndsAs(exec, i, n, first, Trace(b.state, b.outputs, [b.signals]));
    }
  }

  lemma StepEndsAs<S>(exec: Interpreter<S>, i: nat, n: nat, ts: seq<Try<S>>, t: Trace<S>)
    requires i < n && ts != [] && |t.blocks| == 1 && t.blocks[0] != []
    requires Ends(exec, LastOf(ts)) == Attempt(t.state, t.outputs, Last(t.blocks[0]))
    requires forall k :: 0 <= k < |ts| ==> ts[k].step == i
    requires forall k :: 0 <= k < |ts| - 1 ==> Ends(exec, ts[k]).signal.Recoverable?
    ensures EndsAs(exec, ts, i, n, t)
  {
  }

  lemma TriesJoin<S>(exec: Interpreter<S>, i: nat, n: nat, first: seq<Try<S>>, rest: seq<Try<S>>, signals: seq<Signal>, t: Trace<S>)
    requires first != [] && Ends(exec, LastOf(first)).signal.Success? && i + 1 < n && EndsAs(exec, rest, i + 1, n, t)
    requires forall k :: 0 <= k < |first| ==> first[k].step == i
    requires forall k :: 0 <= k < |first| - 1 ==> Ends(exec, first[k]).signal.Recoverable?
    ensures EndsAs(exec, first + rest, i, n, t.(blocks := [signals] + t.blocks))
  {
    var ts := first + rest;
    forall k | 0 <= k < |ts| - 1 ensures GoesOn(exec, ts[k]) {
      if k < |first| { assert ts[k] == first[k]; } else { assert ts[k] == rest[k - |first|]; }
    }
  }

  ghost predicate ShownAt<S>(app: App<S>, draft: Draft, inputs: map<string, string>, t: Try<S>, text: string) {
    t.step < |draft.steps| && Shows(app, t.page, draft.steps[t.step], EnvOf(draft, inputs), text)
  }

  function TriesOf<S>(app: App<S>, start: S, draft: Draft, inputs: map<string, string>): (ts: seq<Try<S>>) {
    Tries(InterpreterOf(app, draft.steps, EnvOf(draft, inputs)), 0, |draft.steps|, start, map[])
  }

  lemma ShownIsBusiness<S>(app: App<S>, draft: Draft, inputs: map<string, string>, t: Try<S>, text: string)
    requires t.step < |draft.steps|
    ensures ShownAt(app, draft, inputs, t, text) <==> Ends(InterpreterOf(app, draft.steps, EnvOf(draft, inputs)), t).signal == Business(text)
  {
    BusinessExactly(app, t.page, draft.steps[t.step], EnvOf(draft, inputs), t.outputs, text);
  }

  // A business outcome shows its text, and the outputs are those the attempt began with.
  lemma LastIsShown<S>(app: App<S>, draft: Draft, inputs: map<string, string>, t: Try<S>)
    requires t.step < |draft.steps|
    ensures var a := Ends(InterpreterOf(app, draft.steps, EnvOf(draft, inputs)), t);
            a.signal.Business? ==> a.outputs == t.outputs && ShownAt(app, draft, inputs, t, a.signal.marker)
  {
    BusinessExactly(app, t.page, draft.steps[t.step], EnvOf(draft, inputs), t.outputs, "");
  }

  lemma ResultOfLast<S>(exec: Interpreter<S>, steps: seq<CapabilityStep>, ts: seq<Try<S>>, t: Trace<S>)
    requires |t.blocks| <= |steps| && (forall k :: 0 <= k < |t.blocks| ==> t.blocks[k] != []) && EndsAs(exec, ts, 0, |steps|, t)
    ensures var r, a := ResultOf(steps, t), Ends(exec, LastOf(ts));
            && (a.signal.Business? ==>
                  r.outcome == BUSINESS_OUTCOME && r.failedStepId.None? && r.deadLetter.None?
                  && r.outputs == a.outputs["business_outcome" := a.signal.marker])
            && (!a.signal.Business? ==> r.outputs == t.outputs && (r.outcome == BUSINESS_OUTCOME <==> a.signal.Success?))
    ensures forall k :: 0 <= k < |ts| && Ends(exec, ts[k]).signal.Business? ==> k == |ts| - 1
  {
  }

  // What a replay answers, for every page, draft and inputs. If the page shows one of the two texts at some
  // attempt, that attempt is the last and the answer is a business outcome that names the text.
  lemma ShownTextIsTheAnswer<S>(app: App<S>, start: S, draft: Draft, inputs: map<string, string>, k: nat, text: string)
    requires k < |TriesOf(app, start, draft, inputs)| && ShownAt(app, draft, inputs, TriesOf(app, start, draft, inputs)[k], text)
    ensures var ts, r := TriesOf(app, start, draft, inputs), ResultOf(draft.steps, Replay(app, start, draft, inputs));
            && k == |ts| - 1 && r.outcome == BUSINESS_OUTCOME && r.failedStepId.None? && r.deadLetter.None?
            && r.outputs == ts[k].outputs["business_outcome" := text]
  {
    var exec, ts := InterpreterOf(app, draft.steps, EnvOf(draft, inputs)), TriesOf(app, start, draft, inputs);
    TriesEndTheWalk(exec, 0, |draft.steps|, start, map[]);
    ResultOfLast(exec, draft.steps, ts, Replay(app, start, draft, inputs));
    ShownIsBusiness(app, draft, inputs, ts[k], text);
    LastIsShown(app, draft, inputs, ts[k]);
  }

  // If it shows neither anywhere, the outputs are what the steps read, and the replay is a business outcome
  // exactly when its last attempt, if there is one, succeeded.
  lemma NothingShownNoSuchAnswer<S>(app: App<S>, start: S, draft: Draft, inputs: map<string, string>)
    requires forall k, text :: 0 <= k < |TriesOf(app, start, draft, inputs)| ==>
               !ShownAt(app, draft, inputs, TriesOf(app, start, draft, inputs)[k], text)
    ensures var ts, t := TriesOf(app, start, draft, inputs), Replay(app, start, draft, inputs);
            var r := ResultOf(draft.steps, t);
            && r.outputs == t.outputs
            && (r.outcome == BUSINESS_OUTCOME <==>
                  ts == [] || Ends(InterpreterOf(app, draft.steps, EnvOf(draft, inputs)), LastOf(ts)).signal.Success?)
  {
    var exec, ts := InterpreterOf(app, draft.steps, EnvOf(draft, inputs)), TriesOf(app, start, draft, inputs);
    if draft.steps != [] {
      TriesEndTheWalk(exec, 0, |draft.steps|, start, map[]);
      ResultOfLast(exec, draft.steps, ts, Replay(app, start, draft, inputs));
      LastIsShown(app, draft, inputs, LastOf(ts));
    }
  }

}
