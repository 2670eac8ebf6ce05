// What every replay's result says about what happened, for any page behaviour whatsoever.
module Accounting {
  import opened Prelude
  import opened Schemas
  import opened Browser
  import opened Executor

  // One step's attempts: recoverable errors up to the last attempt; a recoverable last one only after
  // all retries are used up.
  predicate BlockShape(signals: seq<Signal>) {
    && 1 <= |signals| <= MAX_RETRIES_PER_STEP + 1
    && (forall k :: 0 <= k < |signals| - 1 ==> signals[k].Recoverable?)
    && (signals[|signals| - 1].Recoverable? ==> |signals| == MAX_RETRIES_PER_STEP + 1)
  }

  lemma {:induction false} AttemptsShape<S>(exec: Interpreter<S>, i: nat, s: S, outputs: map<string, string>, tried: nat)
    requires tried <= MAX_RETRIES_PER_STEP
    ensures var signals := Attempts(exec, i, s, outputs, tried).signals;
            && 1 <= |signals| <= MAX_RETRIES_PER_STEP + 1 - tried
            && (forall k :: 0 <= k < |signals| - 1 ==> signals[k].Recoverable?)
            && (Last(signals).Recoverable? ==> |signals| == MAX_RETRIES_PER_STEP + 1 - tried)
    decreases MAX_RETRIES_PER_STEP - tried
  {
  }

  // All blocks are well shaped and all but the last end in success; a walk that covers fewer steps
  // than there are stopped at a step that did not succeed.
  predicate WalkShape(blocks: seq<seq<Signal>>, n: nat) {
    && |blocks| <= n
    && (forall k :: 0 <= k < |blocks| ==> BlockShape(blocks[k]))
    && (forall k :: 0 <= k < |blocks| - 1 ==> Last(blocks[k]).Success?)
    && (|blocks| < n ==> blocks != [] && !Last(blocks[|blocks| - 1]).Success?)
  }

  lemma {:induction false} WalkIsShaped<S>(exec: Interpreter<S>, i: nat, n: nat, s: S, outputs: map<string, string>)
    requires i <= n
    ensures WalkShape(Walk(exec, i, n, s, outputs).blocks, n - i)
    decreases n - i
  {
    if i < n {
      var b := Attempts(exec, i, s, outputs, 0);
      AttemptsShape(exec, i, s, outputs, 0);
      if Last(b.signals).Success? {
        WalkIsShaped(exec, i + 1, n, b.state, b.outputs);
        var rest := Walk(exec, i + 1, n, b.state, b.outputs).blocks;
        var all := [b.signals] + rest;
        assert forall k :: 0 < k < |all| ==> all[k] == rest[k - 1];
      }
    }
  }

  // ----- the log as a sentence -----

  // The step log reads, from the first step on: at most two retries, then one final entry; a success
  // moves to the next step, anything else ends the log; the log may end after a success only when no
  // step is left.
  predicate Sentence(steps: seq<CapabilityStep>, log: seq<StepExecution>, retries: nat)
    decreases |log|
  {
    if log == [] then steps == [] && retries == 0
    else
      && steps != [] && log[0].stepId == steps[0].stepId
      && match log[0].outcome
         case RetryEntry => retries < MAX_RETRIES_PER_STEP && Sentence(steps, log[1..], retries + 1)
         case SuccessEntry => Sentence(steps[1..], log[1..], 0)
         case BusinessEntry => |log| == 1
         case HardEntry => |log| == 1
  }

  lemma {:induction false} LogFromFront(steps: seq<CapabilityStep>, blocks: seq<seq<Signal>>)
    requires 0 < |blocks| <= |steps|
    ensures LogOf(steps, blocks) == EntriesOf(steps[0].stepId, blocks[0]) + LogOf(steps[1..], blocks[1..])
  {
    var n := |blocks| - 1;
    if n == 0 {
      assert LogOf(steps, blocks[..0]) == [];
    } else {
      LogFromFront(steps, blocks[..n]);
      assert blocks[..n][1..] == blocks[1..][..n - 1];
      assert blocks[1..][n - 1] == blocks[n] && steps[1..][n - 1] == steps[n];
    }
  }

  lemma {:induction false} BlockReads(steps: seq<CapabilityStep>, signals: seq<Signal>, from: nat, rest: seq<StepExecution>)
    requires steps != [] && BlockShape(signals) && from < |signals|
    requires if Last(signals).Success? then Sentence(steps[1..], rest, 0) else rest == []
    ensures Sentence(steps, EntriesOf(steps[0].stepId, signals)[from..] + rest, from)
    decreases |signals| - from
  {
  }

  lemma {:induction false} WalkReads(steps: seq<CapabilityStep>, blocks: seq<seq<Signal>>)
    requires WalkShape(blocks, |steps|)
    ensures Sentence(steps, LogOf(steps, blocks), 0)
  {
    if blocks != [] {
      LogFromFront(steps, blocks);
      assert blocks[1..] != [] ==> Last(blocks[0]).Success?;
      assert WalkShape(blocks[1..], |steps[1..]|) || !Last(blocks[0]).Success? by {
        assert forall k :: 0 <= k < |blocks[1..]| ==> blocks[1..][k] == blocks[k + 1];
      }
      if Last(blocks[0]).Success? { WalkReads(steps[1..], blocks[1..]); }
      var rest := LogOf(steps[1..], blocks[1..]);
      assert EntriesOf(steps[0].stepId, blocks[0])[0..] == EntriesOf(steps[0].stepId, blocks[0]);
      BlockReads(steps, blocks[0], 0, rest);
    }
  }

  // ----- counting -----

  function AttemptCount(blocks: seq<seq<Signal>>): (n: nat) {
    if blocks == [] then 0 else AttemptCount(blocks[..|blocks| - 1]) + |blocks[|blocks| - 1]|
  }

  function LastRecoverable(blocks: seq<seq<Signal>>): (n: nat) {
    if blocks != [] && blocks[|blocks| - 1] != [] && Last(blocks[|blocks| - 1]).Recoverable? then 1 else 0
  }

  lemma {:induction false} SumCounts(steps: seq<CapabilityStep>, blocks: seq<seq<Signal>>)
    requires |blocks| <= |steps| && (forall k :: 0 <= k < |blocks| ==> BlockShape(blocks[k]))
    requires forall k :: 0 <= k < |blocks| - 1 ==> blocks[k] != [] && Last(blocks[k]).Success?
    ensures |LogOf(steps, blocks)| == AttemptCount(blocks) <= (MAX_RETRIES_PER_STEP + 1) * |blocks|
    ensures RecoverableCount(blocks) <= MAX_RETRIES_PER_STEP * |blocks| + LastRecoverable(blocks)
  {
    if blocks != [] {
      var n := |blocks| - 1;
      SumCounts(steps, blocks[..n]);
      assert n > 0 ==> Last(blocks[n - 1]).Success? && blocks[..n][n - 1] == blocks[n - 1];
      assert LastRecoverable(blocks[..n]) == 0;
      assert RecoverablesIn(blocks[n]) <= MAX_RETRIES_PER_STEP + if Last(blocks[n]).Recoverable? then 1 else 0;
    }
  }

  lemma EndedFields(outputs: map<string, string>, last: Signal, stepId: string, retries: nat, log: seq<StepExecution>)
    ensures var r := Ended(outputs, last, stepId, retries, log);
            && r.stepLog == log && r.retryCount == retries && r.outcome != RECOVERABLE
            && (r.outcome == HARD_FAILURE <==> !last.Success? && !last.Business?)
  {
  }

  lemma CountBounds(steps: seq<CapabilityStep>, blocks: seq<seq<Signal>>)
    requires WalkShape(blocks, |steps|)
    ensures |LogOf(steps, blocks)| == AttemptCount(blocks) <= (MAX_RETRIES_PER_STEP + 1) * |steps|
    ensures RecoverableCount(blocks) <= MAX_RETRIES_PER_STEP * |steps| + LastRecoverable(blocks)
  {
    SumCounts(steps, blocks);
  }

  // For every behaviour of the page, a replay of n steps makes at most 3 n attempts, writes one
  // log entry for each, in the order described by Sentence; it counts at most 2 n + 1 retries; and it
  // never ends RECOVERABLE, so the server's last branch cannot be taken.
  lemma ReplayAccounting<S>(exec: Interpreter<S>, steps: seq<CapabilityStep>, start: S)
    ensures var t := Walk(exec, 0, |steps|, start, map[]);
            var r := ResultOf(steps, t);
            && r.outcome != RECOVERABLE
            && |r.stepLog| == AttemptCount(t.blocks) <= 3 * |steps|
            && Sentence(steps, r.stepLog, 0)
            && r.retryCount == RecoverableCount(t.blocks) <= 2 * |steps| + 1
            && (r.retryCount == 2 * |steps| + 1 ==> r.outcome == HARD_FAILURE)
  {
    var t := Walk(exec, 0, |steps|, start, map[]);
    WalkIsShaped(exec, 0, |steps|, start, map[]);
    ShapedAccounting(steps, t);
  }

  lemma ShapedAccounting<S>(steps: seq<CapabilityStep>, t: Trace<S>)
    requires |t.blocks| <= |steps| && (forall k :: 0 <= k < |t.blocks| ==> t.blocks[k] != []) && WalkShape(t.blocks, |steps|)
    ensures var r := ResultOf(steps, t);
            && r.outcome != RECOVERABLE
            && |r.stepLog| == AttemptCount(t.blocks) <= (MAX_RETRIES_PER_STEP + 1) * |steps|
            && Sentence(steps, r.stepLog, 0)
            && r.retryCount == RecoverableCount(t.blocks) <= MAX_RETRIES_PER_STEP * |steps| + 1
            && (r.retryCount == MAX_RETRIES_PER_STEP * |steps| + 1 ==> r.outcome == HARD_FAILURE)
  {
    EndedFields(t.outputs, LastSignal(t.blocks), if t.blocks == [] then "" else steps[|t.blocks| - 1].stepId,
                 RecoverableCount(t.blocks), LogOf(steps, t.blocks));
    CountBounds(steps, t.blocks);
    WalkReads(steps, t.blocks);
  }

  // A hard failure names the step at which the walk stopped and why, and every step before it
  // succeeded; any other end is either a business marker read off the page or the success of all steps.
  lemma OutcomeIsJustified<S>(exec: Interpreter<S>, steps: seq<CapabilityStep>, start: S)
    ensures var t := Walk(exec, 0, |steps|, start, map[]);
            var r, n := ResultOf(steps, t), |t.blocks|;
            && (forall k :: 0 <= k < n - 1 ==> Last(t.blocks[k]).Success?)
            && (r.outcome == HARD_FAILURE ==>
                  && n > 0 && r.failedStepId == Some(steps[n - 1].stepId) && r.deadLetter == Some(Last(t.blocks[n - 1]))
                  && (r.deadLetter.value.Recoverable? || r.deadLetter.value.Hard? || r.deadLetter.value.Unhandled?)
                  && (r.deadLetter.value.Recoverable? ==> |t.blocks[n - 1]| == MAX_RETRIES_PER_STEP + 1))
            && (r.outcome == BUSINESS_OUTCOME ==>
                  || (n == |steps| && (n > 0 ==> Last(t.blocks[n - 1]).Success?) && r.outputs == t.outputs)
                  || (n > 0 && Last(t.blocks[n - 1]).Business?
                      && r.outputs == t.outputs["business_outcome" := Last(t.blocks[n - 1]).marker]))
  {
    WalkIsShaped(exec, 0, |steps|, start, map[]);
  }

  // How the log ends: with a success exactly when every step succeeded, with a business entry exactly when the
  // page said no, and with a hard failure, at the step the result names, exactly when that is the result.
  lemma LastEntryTells<S>(exec: Interpreter<S>, steps: seq<CapabilityStep>, start: S)
    requires steps != []
    ensures var t := Walk(exec, 0, |steps|, start, map[]);
            var r := ResultOf(steps, t);
            && r.stepLog != [] && t.blocks != []
            && var e, last := r.stepLog[|r.stepLog| - 1], Last(t.blocks[|t.blocks| - 1]);
               && (e.outcome == HardEntry <==> r.outcome == HARD_FAILURE) && (e.outcome == BusinessEntry <==> last.Business?)
               && (e.outcome == SuccessEntry <==> last.Success?) && (r.failedStepId.Some? ==> r.failedStepId.value == e.stepId)
  {
    var t := Walk(exec, 0, |steps|, start, map[]);
    WalkIsShaped(exec, 0, |steps|, start, map[]);
    var n := |t.blocks| - 1;
    var es := EntriesOf(steps[n].stepId, t.blocks[n]);
    assert LogOf(steps, t.blocks) == LogOf(steps, t.blocks[..n]) + es;
    assert es[|es| - 1] == EntryOf(steps[n].stepId, t.blocks[n], |es| - 1);
  }

  // ----- unbound parameters -----

  // Navigate fails hard at its first attempt; fill and select are retried to the end, because the
  // broad except takes the missing binding for a failed action.
  lemma UnboundNavigateFailsAtOnce<S>(app: App<S>, steps: seq<CapabilityStep>, i: nat, env: Env, s: S, outputs: map<string, string>)
    requires i < |steps| && steps[i].actionType == Navigate && Param(steps[i], "url", env.inputs).None?
    ensures Attempts(InterpreterOf(app, steps, env), i, s, outputs, 0) == Block(s, outputs, [Hard(UnboundParam("url"))])
  {
  }

  lemma UnboundFillIsRetried<S(!new)>(app: App<S>, steps: seq<CapabilityStep>, i: nat, env: Env, s: S, outputs: map<string, string>)
    requires Steady(app) && i < |steps| && (steps[i].actionType == Fill || steps[i].actionType == SelectOption)
    requires Param(steps[i], "value", env.inputs).None?
    requires Resolve(app, s, RenderAll(steps[i].strategyChain)).1.Some?
    ensures Attempts(InterpreterOf(app, steps, env), i, s, outputs, 0)
         == Block(s, outputs, [Recoverable(ActionFailed), Recoverable(ActionFailed), Recoverable(ActionFailed)])
  {
    ResolveSteady(app, s, RenderAll(steps[i].strategyChain));
    var exec := InterpreterOf(app, steps, env);
    assert exec(i, s, outputs) == Attempt(s, outputs, Recoverable(ActionFailed));
    assert Attempts(exec, i, s, outputs, 2) == Block(s, outputs, [Recoverable(ActionFailed)]);
    assert Attempts(exec, i, s, outputs, 1).signals == [Recoverable(ActionFailed), Recoverable(ActionFailed)];
  }
}
