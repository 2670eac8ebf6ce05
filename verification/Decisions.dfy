// What a turn of a discovery run decides and does, by the planner's action, the run's inputs and the page.
module Decisions {
  import opened Prelude
  import opened Schemas
  import opened Browser
  import opened Discovery

  predicate Occurs(input: (string, string), text: string) {
    input.1 != "" && Contains(text, input.1)
  }

  // The last input whose value occurs in the text.
  ghost predicate LastOccurring(inputs: seq<(string, string)>, text: string, i: nat) {
    i < |inputs| && Occurs(inputs[i], text) && forall j :: i < j < |inputs| ==> !Occurs(inputs[j], text)
  }

  lemma {:induction false} MatchingIsLast(inputs: seq<(string, string)>, text: string)
    ensures MatchingInput(inputs, text).None? ==> forall i :: 0 <= i < |inputs| ==> !Occurs(inputs[i], text)
    ensures MatchingInput(inputs, text).Some? ==>
              exists i: nat :: LastOccurring(inputs, text, i) && MatchingInput(inputs, text).value == inputs[i].0
  {
    if inputs != [] {
      var n := |inputs| - 1;
      MatchingIsLast(inputs[..n], text);
      if Occurs(inputs[n], text) {
        assert LastOccurring(inputs, text, n);
      } else if MatchingInput(inputs, text).Some? {
        var i: nat :| LastOccurring(inputs[..n], text, i) && MatchingInput(inputs[..n], text).value == inputs[..n][i].0;
        assert LastOccurring(inputs, text, i);
      }
    }
  }

  // A string parameter is bound to the last input that occurs in it, if one does; nothing else is bound.
  lemma BoundExactly(inputs: seq<(string, string)>, params: map<string, Value>, key: string)
    ensures var bindings := Bindings(inputs, params);
            && (key in bindings <==> key in params && params[key].Text? && exists i :: 0 <= i < |inputs| && Occurs(inputs[i], params[key].s))
            && (key in bindings ==> exists i: nat :: LastOccurring(inputs, params[key].s, i) && bindings[key] == inputs[i].0)
  {
    if key in params && params[key].Text? { MatchingIsLast(inputs, params[key].s); }
  }

  // The decision is the planner's action, tagged RISKY exactly when it would change the page at a target the
  // keyword table names.
  lemma DecisionSays(cfg: Config, a: PlannedAction)
    ensures var d := DecisionFor(cfg, a);
            && d.actionType == a.actionType && d.candidates == a.candidates && d.params == a.params
            && (d.riskTag == RISKY <==> (a.actionType == Click || a.actionType == Fill || a.actionType == SelectOption) && cfg.risky(a.target))
  {
  }

  // ----- the actor -----

  predicate OnElement(t: ActionType) {
    t == Click || t == Fill || t == SelectOption || t == Extract
  }

  // Text parameters as they are, others by their str(); absent ones are empty.
  function TextOf(params: map<string, Value>, key: string): (s: string) {
    if key !in params then "" else match params[key] case Text(s) => s case Other(repr) => repr
  }

  ghost predicate DoneBy<S>(e: Execution<S>, r: (S, Act), used: Option<string>) {
    e.state == r.0 && (e.ok <==> r.1 == Done) && e.extracted.None? && e.locatorUsed == if e.ok then used else None
  }

  lemma ActsOnFirst<S>(app: App<S>, page: S, d: Decision, k: nat)
    requires OnElement(d.actionType) && FirstFound(app, page, d.candidates, k)
    ensures var e, there, c := Execute(app, page, d), PageAfter(app, page, d.candidates, k + 1), d.candidates[k];
            && (d.actionType == Click ==> DoneBy(e, app.click(there, c), Some(c)))
            && (d.actionType == Fill ==> DoneBy(e, app.fill(there, c, TextOf(d.params, "value")), Some(c)))
            && (d.actionType == SelectOption ==> DoneBy(e, app.choose(there, c, TextOf(d.params, "value")), Some(c)))
            && (d.actionType == Extract ==>
                  var (after, text) := app.innerText(there, c);
                  e == if text.Some? then Execution(after, true, Some(c), text) else Execution(after, false, None, None))
  {
    ResolveFindsFirst(app, page, d.candidates, k);
  }

  // Without an element the action fails, and the page was only asked.
  lemma FailsWithoutElement<S>(app: App<S>, page: S, d: Decision)
    requires OnElement(d.actionType) && NoneFound(app, page, d.candidates)
    ensures Execute(app, page, d) == Execution(PageAfter(app, page, d.candidates, |d.candidates|), false, None, None)
  {
    ResolveFindsFirst(app, page, d.candidates, 0);
  }

  lemma NavigatesOrAsserts<S>(app: App<S>, page: S, d: Decision)
    ensures d.actionType == Navigate && "url" in d.params && d.params["url"].Text? ==>
              DoneBy(Execute(app, page, d), app.goto(page, d.params["url"].s), None)
    ensures d.actionType == Assert && "assertion" in d.params && d.params["assertion"].Text? ==>
              var e, kind, expected := Execute(app, page, d), d.params["assertion"].s, TextOf(d.params, "expected");
              && e.locatorUsed.None? && e.extracted.None?
              && (kind == "url_contains" ==> e.state == app.url(page).0 && (e.ok <==> app.url(page).1.Some? && Contains(app.url(page).1.value, expected)))
              && (kind == "text_present" ==>
                    e.state == app.textCount(page, expected).0
                    && (e.ok <==> app.textCount(page, expected).1.Some? && app.textCount(page, expected).1.value > 0))
              && (kind == "element_visible" ==> e.state == app.visible(page, expected).0 && (e.ok <==> app.visible(page, expected).1 == Some(true)))
              && (kind != "url_contains" && kind != "text_present" && kind != "element_visible" ==> e.state == page && !e.ok)
    ensures d.actionType.Unknown? || d.actionType == Finish ==> Execute(app, page, d) == Execution(page, false, None, None)
  {
  }

  // A text read is kept under the planner's name for it, or under the step's number.
  lemma ReadsAreKept(i: nat, params: map<string, Value>, text: string, outputs: map<string, string>)
    ensures "output_name" in params ==> StepOutputs(i, params, Some(text), outputs) == outputs[TextOf(params, "output_name") := text]
    ensures "output_name" !in params ==> StepOutputs(i, params, Some(text), outputs) == outputs["step_" + Decimal(i) + "_output" := text]
    ensures StepOutputs(i, params, None, outputs) == outputs
  {
  }
}
