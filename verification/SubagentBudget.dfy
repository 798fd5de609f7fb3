/** The budget of one delegated task: limits, counters, and the check that names the first limit hit. */
module SubagentBudget {
  import opened Basics

  /** Resolved limits; a missing or zero round or call limit means none. */
  datatype Budget = Budget(
    maxRounds: Option<nat>,
    maxToolCalls: Option<nat>,
    maxDurationMs: int,
    maxOutputBytes: nat,
    maxConsecutiveFailures: nat,
    maxPermissionDenials: nat)

  datatype Kind =
    | MaxRounds
    | MaxToolCalls
    | MaxDurationMs
    | MaxOutputBytes
    | MaxConsecutiveFailures
    | MaxPermissionDenials
    | WebSearchUnavailable
    | ContextOverflow
    | FinalReportToolLoop

  datatype Counters = Counters(toolCalls: nat, outputBytes: nat, consecutiveFailures: nat, permissionDenials: nat)

  const ZERO := Counters(0, 0, 0, 0)

  predicate Limited(limit: Option<nat>, n: nat) {
    limit.Some? && limit.value > 0 && n >= limit.value
  }

  /** checkBudget: the first limit that is hit, in the source's order. */
  function Check(b: Budget, c: Counters, round: nat, pending: nat, elapsed: int): Option<Kind> {
    if Limited(b.maxRounds, round) then Some(MaxRounds)
    else if b.maxToolCalls.Some? && b.maxToolCalls.value > 0 && c.toolCalls + pending > b.maxToolCalls.value then Some(MaxToolCalls)
    else if elapsed > b.maxDurationMs then Some(MaxDurationMs)
    else if c.outputBytes > b.maxOutputBytes then Some(MaxOutputBytes)
    else if c.consecutiveFailures >= b.maxConsecutiveFailures then Some(MaxConsecutiveFailures)
    else if c.permissionDenials >= b.maxPermissionDenials then Some(MaxPermissionDenials)
    else None
  }

  /** recordBudgetToolResult; the loop passes no decision, so only `blocked` counts as a denial. */
  function Record(c: Counters, ok: bool, blocked: bool, bytes: nat): Counters {
    Counters(
      c.toolCalls + 1,
      c.outputBytes + bytes,
      if ok then 0 else c.consecutiveFailures + 1,
      if blocked then c.permissionDenials + 1 else c.permissionDenials)
  }

  class BudgetTracker {
    const budget: Budget
    const startedAt: int
    var toolCalls: nat
    var outputBytes: nat
    var consecutiveFailures: nat
    var permissionDenials: nat

    function Counts(): Counters
      reads this
    {
      Counters(toolCalls, outputBytes, consecutiveFailures, permissionDenials)
    }

    constructor (budget: Budget, now: int)
      ensures this.budget == budget && startedAt == now && Counts() == ZERO
    {
      this.budget, startedAt := budget, now;
      toolCalls, outputBytes, consecutiveFailures, permissionDenials := 0, 0, 0, 0;
    }

    method CheckBudget(round: nat, pending: nat, now: int) returns (hit: Option<Kind>)
      ensures hit == Check(budget, Counts(), round, pending, now - startedAt)
      ensures hit.None? ==>
                && (budget.maxRounds.Some? && budget.maxRounds.value > 0 ==> round < budget.maxRounds.value)
                && (budget.maxToolCalls.Some? && budget.maxToolCalls.value > 0 ==> toolCalls + pending <= budget.maxToolCalls.value)
                && now - startedAt <= budget.maxDurationMs && outputBytes <= budget.maxOutputBytes
                && consecutiveFailures < budget.maxConsecutiveFailures && permissionDenials < budget.maxPermissionDenials
    {
      if budget.maxRounds.Some? && budget.maxRounds.value > 0 && round >= budget.maxRounds.value {
        return Some(MaxRounds);
      }
      if budget.maxToolCalls.Some? && budget.maxToolCalls.value > 0 && toolCalls + pending > budget.maxToolCalls.value {
        return Some(MaxToolCalls);
      }
      if now - startedAt > budget.maxDurationMs {
        return Some(MaxDurationMs);
      }
      if outputBytes > budget.maxOutputBytes {
        return Some(MaxOutputBytes);
      }
      if consecutiveFailures >= budget.maxConsecutiveFailures {
        return Some(MaxConsecutiveFailures);
      }
      if permissionDenials >= budget.maxPermissionDenials {
        return Some(MaxPermissionDenials);
      }
      return None;
    }

    method RecordToolResult(ok: bool, blocked: bool, bytes: nat)
      modifies this
      ensures Counts() == Record(old(Counts()), ok, blocked, bytes)
    {
      toolCalls := toolCalls + 1;
      outputBytes := outputBytes + bytes;
      if ok {
        consecutiveFailures := 0;
      } else {
        consecutiveFailures := consecutiveFailures + 1;
      }
      if blocked {
        permissionDenials := permissionDenials + 1;
      }
    }
  }
}
