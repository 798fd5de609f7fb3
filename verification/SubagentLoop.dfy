/**
  The delegated model loop as a state machine: each round checks the budget,
  asks the model, runs its tool calls, and past a guardrail asks once more for
  a final report without tools. Model replies, tool results, clock values and
  interruptions are arbitrary inputs.
 */
module SubagentLoop {
  import opened Basics
  import opened SubagentBudget

  datatype Call = Call(id: string, name: string)

  datatype Message = System | User | Calls(calls: seq<Call>) | Tool(id: string, name: string)

  datatype ToolObs = ToolObs(ok: bool, blocked: bool, bytes: nat, elapsed: int)

  /** Failed: the gateway reports an error; an interruption or a draft makes the subagent halt with what it has. */
  datatype Reply = Failed(kept: bool) | Reply(calls: seq<Call>)

  /** Everything one round learns from outside. Times are elapsed since the start. */
  datatype Round = Round(
    elapsed: int,
    aborted: bool,
    blocked: bool,
    reply: Reply,
    pendingElapsed: int,
    tools: nat -> ToolObs,
    abortedAfter: bool)

  /** What one tool result looks like when the call is not offered to this profile. */
  function Refused(o: ToolObs): ToolObs {
    o.(ok := false, blocked := false)
  }

  datatype Event =
    | Requested(toolsOffered: bool, transcript: seq<Message>)
    | Ran(call: Call, allowed: bool, ok: bool, denied: bool, bytes: nat)
    | Skipped(call: Call)
    | Guard(kind: Kind)

  datatype Outcome = Completed | Partial(kind: Kind) | Halted | ModelFailed

  /** Profile, tools it may call, limits, and context compaction by round. */
  datatype Env = Env(profile: string, tools: set<string>, budget: Budget, compact: (nat, seq<Message>) -> seq<Message>)

  datatype Run = Run(
    round: nat,
    counts: Counters,
    messages: seq<Message>,
    reason: Option<Kind>,
    requested: bool,
    log: seq<Event>,
    outcome: Option<Outcome>)

  predicate CanSoftLand(k: Kind) {
    !k.ContextOverflow? && !k.FinalReportToolLoop?
  }

  predicate WebResearch(env: Env) {
    env.profile == "web-researcher"
  }

  /** shouldRequestFinalReportAfterBudgetHit. */
  predicate ShouldRequest(env: Env, k: Kind) {
    CanSoftLand(k) || (WebResearch(env) && (k.MaxPermissionDenials? || k.MaxConsecutiveFailures?))
  }

  /** shouldContinueAfterBudgetHit. */
  predicate ShouldContinue(env: Env, name: string, o: ToolObs, k: Kind) {
    || CanSoftLand(k)
    || (WebResearch(env)
        && (k.MaxPermissionDenials?
            || (k.MaxConsecutiveFailures? && (name == "web_fetch" || name == "mcp_call") && (o.blocked || !o.ok))))
  }

  /** shouldStopAfterToolFailure: a web researcher's second failure in a row, when it is a search. */
  function EarlyStop(env: Env, c: Counters, name: string, o: ToolObs): Option<Kind> {
    if !o.ok && WebResearch(env) && name == "web_search" && c.consecutiveFailures >= 2 then Some(WebSearchUnavailable) else None
  }

  /** The first reason stays. */
  function Hit(r: Run, k: Kind): Run {
    if r.reason.Some? then r else r.(reason := Some(k), log := r.log + [Guard(k)])
  }

  function AskFinalReport(r: Run): Run {
    r.(requested := true, messages := r.messages + [User])
  }

  function End(r: Run, o: Outcome): Run {
    r.(outcome := Some(o))
  }

  function Answer(r: Run, call: Call): Run {
    r.(messages := r.messages + [Tool(call.id, call.name)])
  }

  /** A tool result, recorded. */
  function RanTool(env: Env, r: Run, call: Call, o: ToolObs): Run {
    r.(counts := Record(r.counts, o.ok, o.blocked, o.bytes),
       log := r.log + [Ran(call, call.name in env.tools, o.ok, o.blocked, o.bytes)])
  }

  /** What a result means for the rest of the run. */
  function AfterTool(env: Env, ran: Run, call: Call, o: ToolObs): Run {
    var early := EarlyStop(env, ran.counts, call.name, o);
    if early.Some? && !ShouldRequest(env, early.value) then End(ran, Partial(early.value))
    else
      var stopped := if early.Some? then Hit(ran, early.value) else ran;
      var after := Check(env.budget, ran.counts, ran.round, 0, o.elapsed);
      if after.None? then Answer(stopped, call)
      else if ShouldContinue(env, call.name, o, after.value) then Answer(Hit(stopped, after.value), call)
      else End(stopped, Partial(after.value))
  }

  /** One tool call of a round. */
  function CallStep(env: Env, r: Run, call: Call, o: ToolObs): Run {
    if r.outcome.Some? then r
    else if r.reason.Some? && ShouldRequest(env, r.reason.value) then Answer(r.(log := r.log + [Skipped(call)]), call)
    else
      var execution := if call.name in env.tools then o else Refused(o);
      AfterTool(env, RanTool(env, r, call, execution), call, execution)
  }

  /** The first n calls of a round. */
  function CallSteps(env: Env, r: Run, calls: seq<Call>, tools: nat -> ToolObs, n: nat): Run
    requires n <= |calls|
  {
    if n == 0 then r else CallStep(env, CallSteps(env, r, calls, tools, n - 1), calls[n - 1], tools(n - 1))
  }

  function NextRound(r: Run): Run {
    r.(round := r.round + 1)
  }

  /** The part of a round that follows a reply with tool calls. */
  function ToolPhase(env: Env, r: Run, calls: seq<Call>, i: Round): Run {
    var ran := CallSteps(env, r.(messages := r.messages + [Calls(calls)]), calls, i.tools, |calls|);
    if ran.outcome.Some? then ran
    else if i.abortedAfter then End(ran, Halted)
    else if ran.reason.Some? && !ran.requested && ShouldRequest(env, ran.reason.value) then NextRound(AskFinalReport(ran))
    else NextRound(ran)
  }

  /** The part of a round that follows the model's reply. */
  function ReplyPhase(env: Env, r: Run, i: Round): Run {
    match i.reply
    case Failed(kept) =>
      End(r, if kept || (exists e | e in r.log :: e.Ran? || e.Skipped?) then Halted else ModelFailed)
    case Reply(calls) =>
      if calls == [] then End(r, Completed)
      else if r.requested then End(r, Partial(FinalReportToolLoop))
      else
        var pending := Check(env.budget, r.counts, r.round, |calls|, i.pendingElapsed);
        if pending.None? then ToolPhase(env, r, calls, i)
        else if ShouldRequest(env, pending.value) then NextRound(AskFinalReport(Hit(r, pending.value)))
        else End(r, Partial(pending.value))
  }

  /** Compaction, then the request. */
  function RequestPhase(env: Env, r: Run, i: Round): Run {
    var prepared := r.(messages := env.compact(r.round, r.messages));
    if i.blocked then End(prepared, Partial(ContextOverflow))
    else ReplyPhase(env, prepared.(log := prepared.log + [Requested(!r.requested, prepared.messages)]), i)
  }

  /** One iteration of the loop. */
  function RoundStep(env: Env, r: Run, i: Round): Run {
    if r.outcome.Some? then r
    else
      var before := if r.requested then None else Check(env.budget, r.counts, r.round, 0, i.elapsed);
      if before.Some? && !ShouldRequest(env, before.value) then End(r, Partial(before.value))
      else
        var asked := if before.Some? then AskFinalReport(Hit(r, before.value)) else r;
        if i.aborted then End(asked, Halted) else RequestPhase(env, asked, i)
  }

  const START := Run(0, ZERO, [System, User], None, false, [], None)

  /** The loop on the first rounds of any history. */
  function Rounds(env: Env, script: seq<Round>): Run {
    if script == [] then START else RoundStep(env, Rounds(env, script[..|script| - 1]), script[|script| - 1])
  }
}
