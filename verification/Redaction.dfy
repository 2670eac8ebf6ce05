// shared/safety.py, redact_payload: what redaction makes of an event. Every text is replaced, and nothing else.
module Redaction {
  import opened Prelude
  import opened Schemas
  import opened Discovery
  import opened Delivery

  function TextsOfDecision(d: Decision): (r: set<string>) {
    (set c | c in d.candidates) + (set k | k in d.params && d.params[k].Text? :: d.params[k].s) + d.paramBindings.Values
  }

  // The texts an event carries, wherever they stand in it.
  function Texts(e: Event): (r: set<string>) {
    match e
    case ObservationCaptured(_, snapshot, url) => {snapshot, url}
    case ActionDecided(_, d) => TextsOfDecision(d)
    case ActionExecuted(_, used, _) => if used.Some? then {used.value} else {}
    case RunSucceeded(outputs, condition) => outputs.Values + {condition}
    case _ => {}
  }

  function Image(redact: Redactor, texts: set<string>): (r: set<string>) {
    set t | t in texts :: redact(t)
  }

  lemma RedactedSeq(redact: Redactor, cs: seq<string>)
    ensures (set c | c in RedactAll(redact, cs)) == Image(redact, set c | c in cs)
  {
  }

  lemma RedactedMap(redact: Redactor, m: map<string, string>)
    ensures RedactMap(redact, m).Values == Image(redact, m.Values)
  {
    forall t | t in Image(redact, m.Values) ensures t in RedactMap(redact, m).Values {
      var k :| k in m && redact(m[k]) == t;
      assert RedactMap(redact, m)[k] == t;
    }
    forall t | t in RedactMap(redact, m).Values ensures t in Image(redact, m.Values) {
      var k :| k in m && RedactMap(redact, m)[k] == t;
      assert m[k] in m.Values;
    }
  }

  function TextsOfParams(params: map<string, Value>): (r: set<string>) {
    set k | k in params && params[k].Text? :: params[k].s
  }

  lemma RedactedParams(redact: Redactor, params: map<string, Value>, after: map<string, Value>)
    requires after == map k | k in params :: RedactValue(redact, params[k])
    ensures TextsOfParams(after) == Image(redact, TextsOfParams(params))
  {
    forall t | t in Image(redact, TextsOfParams(params)) ensures t in TextsOfParams(after) {
      var k :| k in params && params[k].Text? && redact(params[k].s) == t;
      assert after[k] == Text(t);
    }
    forall t | t in TextsOfParams(after) ensures t in Image(redact, TextsOfParams(params)) {
      var k :| k in after && after[k].Text? && after[k].s == t;
      assert params[k].s in TextsOfParams(params);
    }
  }

  // The texts of the redacted event are the redacted texts of the event: none is missed, none is added.
  lemma TextsAreRedacted(redact: Redactor, e: Event)
    ensures Texts(RedactEvent(redact, e)) == Image(redact, Texts(e))
  {
    match e
    case ActionDecided(_, d) =>
      var after := RedactDecision(redact, d);
      RedactedSeq(redact, d.candidates);
      RedactedParams(redact, d.params, after.params);
      RedactedMap(redact, d.paramBindings);
      assert TextsOfDecision(after) == (set c | c in after.candidates) + TextsOfParams(after.params) + after.paramBindings.Values;
    case RunSucceeded(outputs, _) => RedactedMap(redact, outputs);
    case _ =>
  }

  ghost predicate Spares(redact: Redactor, e: Event) {
    forall t :: t in Texts(e) ==> redact(t) == t
  }

  // Redaction leaves an event as it is exactly when it spares each of its texts: names, numbers, kinds and
  // places are never touched.
  lemma SparedExactly(redact: Redactor, e: Event)
    ensures RedactEvent(redact, e) == e <==> Spares(redact, e)
  {
  }

  // An event that has been redacted has nothing more to redact, if no replacement text has.
  lemma OnceIsEnough(redact: Redactor, e: Event)
    requires forall t :: redact(redact(t)) == redact(t)
    ensures RedactEvent(redact, RedactEvent(redact, e)) == RedactEvent(redact, e)
  {
  }
}
