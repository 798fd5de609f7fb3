/** runModelSubagent as it runs: one tracker, a growing transcript, and early returns; proved to follow the state machine. */
module SubagentRunner {
  import opened Basics
  import opened SubagentBudget
  import opened SubagentLoop

  class Subagent {
    const env: Env
    const tracker: BudgetTracker
    var round: nat
    var messages: seq<Message>
    var reason: Option<Kind>
    var requested: bool
    var log: seq<Event>
    var outcome: Option<Outcome>

    constructor (env: Env, now: int)
      ensures Fresh() && this.env == env && State() == START && fresh(tracker) && tracker.startedAt == now
    {
      this.env := env;
      tracker := new BudgetTracker(env.budget, now);
      round, messages, reason, requested, log, outcome := 0, [System, User], None, false, [], None;
    }

    ghost predicate Fresh() {
      tracker.budget == env.budget
    }

    function State(): Run
      reads this, tracker
    {
      Run(round, tracker.Counts(), messages, reason, requested, log, outcome)
    }

    method Note(k: Kind)
      modifies this`reason, this`log
      ensures State() == Hit(old(State()), k)
    {
      if reason.None? {
        reason := Some(k);
        log := log + [Guard(k)];
      }
    }

    /** Ends the run with a partial result, or notes the reason for a soft landing. */
    method Land(hit: Option<Kind>, soft: bool)
      requires outcome.None?
      modifies this`reason, this`log, this`outcome
      ensures State() == if hit.None? then old(State())
                         else if soft then Hit(old(State()), hit.value)
                         else End(old(State()), Partial(hit.value))
    {
      if hit.Some? {
        if soft {
          Note(hit.value);
        } else {
          outcome := Some(Partial(hit.value));
        }
      }
    }

    /** What a recorded result means for the rest of the run, and its answer in the transcript. */
    method JudgeResult(call: Call, o: ToolObs)
      requires Fresh() && outcome.None?
      modifies this`reason, this`log, this`messages, this`outcome
      ensures State() == AfterTool(env, old(State()), call, o)
    {
      var earlyStop := EarlyStop(env, tracker.Counts(), call.name, o);
      Land(earlyStop, earlyStop.Some? && ShouldRequest(env, earlyStop.value));
      if outcome.None? {
        var after := tracker.CheckBudget(round, 0, tracker.startedAt + o.elapsed);
        Land(after, after.Some? && ShouldContinue(env, call.name, o, after.value));
        if outcome.None? {
          messages := messages + [Tool(call.id, call.name)];
        }
      }
    }

    /** Runs or skips one call; the caller has checked that the run goes on. */
    method Execute(call: Call, o: ToolObs)
      requires Fresh() && outcome.None?
      modifies this`reason, this`log, this`messages, this`outcome, tracker
      ensures State() == CallStep(env, old(State()), call, o)
    {
      if reason.Some? && ShouldRequest(env, reason.value) {
        log := log + [Skipped(call)];
        messages := messages + [Tool(call.id, call.name)];
        return;
      }
      var execution := if call.name in env.tools then o else Refused(o);
      tracker.RecordToolResult(execution.ok, execution.blocked, execution.bytes);
      log := log + [Ran(call, call.name in env.tools, execution.ok, execution.blocked, execution.bytes)];
      assert State() == RanTool(env, old(State()), call, execution);
      JudgeResult(call, execution);
    }

    method ExecuteAll(calls: seq<Call>, tools: nat -> ToolObs)
      requires Fresh() && outcome.None?
      modifies this`reason, this`log, this`messages, this`outcome, tracker
      ensures State() == CallSteps(env, old(State()), calls, tools, |calls|)
    {
      for n := 0 to |calls|
        invariant Fresh() && State() == CallSteps(env, old(State()), calls, tools, n)
        invariant round == old(round) && requested == old(requested)
      {
        if outcome.Some? {
          StaysEnded(env, old(State()), calls, tools, n);
          return;
        }
        Execute(calls[n], tools(n));
      }
    }

    /** One iteration of the loop, up to its return or the next round. */
    method RunRound(i: Round)
      requires Fresh() && outcome.None?
      modifies this, tracker
      ensures State() == RoundStep(env, old(State()), i)
    {
      var before := None;
      if !requested {
        before := tracker.CheckBudget(round, 0, tracker.startedAt + i.elapsed);
      }
      Land(before, before.Some? && ShouldRequest(env, before.value));
      if outcome.None? {
        if before.Some? {
          requested := true;
          messages := messages + [User];
        }
        if i.aborted {
          outcome := Some(Halted);
        } else {
          Ask(i);
        }
      }
    }

    /** Compaction, then the request. */
    method Ask(i: Round)
      requires Fresh() && outcome.None?
      modifies this, tracker
      ensures State() == RequestPhase(env, old(State()), i)
    {
      messages := env.compact(round, messages);
      if i.blocked {
        outcome := Some(Partial(ContextOverflow));
        return;
      }
      log := log + [Requested(!requested, messages)];
      HandleReply(i);
    }

    method HandleReply(i: Round)
      requires Fresh() && outcome.None?
      modifies this, tracker
      ensures State() == ReplyPhase(env, old(State()), i)
    {
      if i.reply.Failed? {
        var executed := AnyExecuted();
        outcome := Some(if i.reply.kept || executed then Halted else ModelFailed);
        return;
      }
      var calls := i.reply.calls;
      if requested && calls != [] {
        outcome := Some(Partial(FinalReportToolLoop));
        return;
      }
      if calls == [] {
        outcome := Some(Completed);
        return;
      }
      var pending := tracker.CheckBudget(round, |calls|, tracker.startedAt + i.pendingElapsed);
      if pending.None? {
        RunTools(calls, i);
        return;
      }
      StopTools(pending.value);
    }

    /** Instead of calls over the budget: a last request without tools, or a partial result. */
    method StopTools(hit: Kind)
      requires Fresh() && outcome.None?
      modifies this
      ensures State() == if ShouldRequest(env, hit) then NextRound(AskFinalReport(Hit(old(State()), hit)))
                         else End(old(State()), Partial(hit))
    {
      Land(Some(hit), ShouldRequest(env, hit));
      if outcome.None? {
        requested := true;
        messages := messages + [User];
        round := round + 1;
      }
    }

    method RunTools(calls: seq<Call>, i: Round)
      requires Fresh() && outcome.None?
      modifies this, tracker
      ensures State() == ToolPhase(env, old(State()), calls, i)
    {
      messages := messages + [Calls(calls)];
      ExecuteAll(calls, i.tools);
      if outcome.Some? {
        return;
      }
      if i.abortedAfter {
        outcome := Some(Halted);
        return;
      }
      if reason.Some? && !requested && ShouldRequest(env, reason.value) {
        requested := true;
        messages := messages + [User];
      }
      round := round + 1;
    }

    method AnyExecuted() returns (any: bool)
      ensures any == exists e | e in log :: e.Ran? || e.Skipped?
    {
      any := false;
      for n := 0 to |log|
        invariant any == exists k | 0 <= k < n :: log[k].Ran? || log[k].Skipped?
      {
        if log[n].Ran? || log[n].Skipped? {
          any := true;
        }
      }
    }

    /** The loop on the first rounds of any history. */
    method RunModelSubagent(script: seq<Round>)
      requires Fresh() && State() == START
      modifies this, tracker
      ensures State() == Rounds(env, script)
    {
      for n := 0 to |script|
        invariant Fresh() && State() == Rounds(env, script[..n])
      {
        assert script[..n + 1][..n] == script[..n];
        if outcome.Some? {
          StaysOver(env, script, n);
          return;
        }
        RunRound(script[n]);
      }
      assert script[..|script|] == script;
    }
  }

  lemma {:induction false} EndedIgnoresCall(env: Env, r: Run, call: Call, o: ToolObs)
    requires r.outcome.Some?
    ensures CallStep(env, r, call, o) == r
  {
  }

  lemma {:induction false} StaysEnded(env: Env, r: Run, calls: seq<Call>, tools: nat -> ToolObs, n: nat)
    requires n <= |calls| && CallSteps(env, r, calls, tools, n).outcome.Some?
    ensures CallSteps(env, r, calls, tools, |calls|) == CallSteps(env, r, calls, tools, n)
    decreases |calls| - n
  {
    if n < |calls| {
      EndedIgnoresCall(env, CallSteps(env, r, calls, tools, n), calls[n], tools(n));
      StaysEnded(env, r, calls, tools, n + 1);
    }
  }

  /** A finished run ignores the rest of any history. */
  lemma {:induction false} StaysOver(env: Env, script: seq<Round>, n: nat)
    requires n <= |script| && Rounds(env, script[..n]).outcome.Some?
    ensures Rounds(env, script) == Rounds(env, script[..n])
    decreases |script| - n
  {
    if n < |script| {
      assert script[..n + 1][..n] == script[..n];
      StaysOver(env, script, n + 1);
    } else {
      assert script[..n] == script;
    }
  }
}
