/** What holds after every history of rounds, whatever the model, the tools and the clock did. */
module SubagentTheorems {
  import opened Basics
  import opened SubagentBudget
  import opened SubagentLoop

  // ----- Reading the log -----

  /** The counters that the log's tool runs add up to. */
  function Replay(log: seq<Event>): Counters {
    if log == [] then ZERO
    else
      var before, e := Replay(log[..|log| - 1]), log[|log| - 1];
      if e.Ran? then Record(before, e.ok, e.denied, e.bytes) else before
  }

  function Requests(log: seq<Event>): nat {
    if log == [] then 0 else Requests(log[..|log| - 1]) + if log[|log| - 1].Requested? then 1 else 0
  }

  predicate Guarded(log: seq<Event>) {
    log != [] && (Guarded(log[..|log| - 1]) || log[|log| - 1].Guard?)
  }

  /** A request was made after a guard. */
  predicate FinalAsked(log: seq<Event>) {
    log != [] && (FinalAsked(log[..|log| - 1]) || (log[|log| - 1].Requested? && Guarded(log[..|log| - 1])))
  }

  /** Within every limit: one more tool may run. */
  predicate Within(b: Budget, c: Counters) {
    && (b.maxToolCalls.Some? && b.maxToolCalls.value > 0 ==> c.toolCalls < b.maxToolCalls.value)
    && c.outputBytes <= b.maxOutputBytes
    && c.consecutiveFailures < b.maxConsecutiveFailures
    && c.permissionDenials < b.maxPermissionDenials
  }

  /** A tool runs only unguarded and within every limit; past a guard one request, without tools. */
  predicate Disciplined(b: Budget, log: seq<Event>) {
    log == [] ||
      var init, e := log[..|log| - 1], log[|log| - 1];
      && Disciplined(b, init)
      && (e.Ran? ==> !Guarded(init) && Within(b, Replay(init)))
      && (e.Requested? ==> e.toolsOffered == !Guarded(init) && !FinalAsked(init))
  }

  lemma {:induction false} Last(log: seq<Event>, e: Event)
    ensures (log + [e])[..|log + [e]| - 1] == log && (log + [e])[|log + [e]| - 1] == e
  {
  }

  // ----- The invariant -----

  /** Limits that a running, unguarded state respects after each tool. */
  predicate Unspent(b: Budget, c: Counters) {
    c.outputBytes <= b.maxOutputBytes && c.consecutiveFailures < b.maxConsecutiveFailures && c.permissionDenials < b.maxPermissionDenials
  }

  predicate CallsLeft(b: Budget, c: Counters, n: nat) {
    b.maxToolCalls.Some? && b.maxToolCalls.value > 0 ==> c.toolCalls + n <= b.maxToolCalls.value
  }

  ghost predicate Logged(b: Budget, r: Run) {
    && r.counts == Replay(r.log)
    && Disciplined(b, r.log)
    && (Guarded(r.log) <==> r.reason.Some?)
    && (r.reason.Some? ==> CanSoftLand(r.reason.value))
    && (r.outcome.Some? && r.outcome.value.Partial? ==> !CanSoftLand(r.outcome.value.kind))
  }

  lemma {:induction false} HitKeeps(b: Budget, r: Run, k: Kind)
    requires Logged(b, r) && CanSoftLand(k)
    ensures Logged(b, Hit(r, k))
    ensures FinalAsked(Hit(r, k).log) == FinalAsked(r.log) && Requests(Hit(r, k).log) == Requests(r.log)
  {
    Last(r.log, Guard(k));
  }

  /** Between two tool calls: still running, no final request yet, and room for the calls that are left. */
  ghost predicate Calling(env: Env, r: Run, left: nat) {
    && Logged(env.budget, r) && r.outcome.None? && !FinalAsked(r.log)
    && (r.reason.None? ==> Unspent(env.budget, r.counts) && CallsLeft(env.budget, r.counts, left))
  }

  /** A later state of the same round with some more answers. */
  ghost predicate SameRound(r: Run, t: Run, answers: seq<Message>) {
    && Requests(t.log) == Requests(r.log)
    && t.requested == r.requested && t.round == r.round
    && t.messages == r.messages + answers
  }

  lemma {:induction false} RanKeeps(env: Env, r: Run, call: Call, o: ToolObs, left: nat)
    requires Calling(env, r, left + 1) && r.reason.None?
    ensures var t := RanTool(env, r, call, o);
            && Logged(env.budget, t) && t.outcome.None? && !FinalAsked(t.log) && t.reason.None?
            && CallsLeft(env.budget, t.counts, left)
            && Requests(t.log) == Requests(r.log)
  {
    Last(r.log, Ran(call, call.name in env.tools, o.ok, o.blocked, o.bytes));
  }

  lemma {:induction false} AfterToolKeeps(env: Env, ran: Run, call: Call, o: ToolObs, left: nat)
    requires Logged(env.budget, ran) && ran.outcome.None? && !FinalAsked(ran.log) && ran.reason.None?
    requires CallsLeft(env.budget, ran.counts, left)
    ensures var t := AfterTool(env, ran, call, o);
            Calling(env, t, left) && SameRound(ran, t, [Tool(call.id, call.name)])
  {
    var early := EarlyStop(env, ran.counts, call.name, o);
    if early.Some? { HitKeeps(env.budget, ran, early.value); }
    var stopped := if early.Some? then Hit(ran, early.value) else ran;
    var after := Check(env.budget, ran.counts, ran.round, 0, o.elapsed);
    if after.Some? { HitKeeps(env.budget, stopped, after.value); }
  }

  /** One call: skipped past a guard, else run within the limits. */
  lemma {:induction false} CallKeeps(env: Env, r: Run, call: Call, o: ToolObs, left: nat)
    requires Calling(env, r, left + 1)
    ensures var t := CallStep(env, r, call, o);
            Calling(env, t, left) && SameRound(r, t, [Tool(call.id, call.name)])
  {
    if r.reason.Some? {
      Last(r.log, Skipped(call));
    } else {
      var execution := if call.name in env.tools then o else Refused(o);
      RanKeeps(env, r, call, execution, left);
      AfterToolKeeps(env, RanTool(env, r, call, execution), call, execution, left);
    }
  }

  lemma {:induction false} SameRoundTwice(r: Run, s: Run, t: Run, a: seq<Message>, b: seq<Message>)
    requires SameRound(r, s, a) && SameRound(s, t, b)
    ensures SameRound(r, t, a + b)
  {
  }

  lemma {:induction false} NextCallKeeps(env: Env, r: Run, s: Run, calls: seq<Call>, o: ToolObs, k: nat)
    requires k < |calls| && Calling(env, s, |calls| - k) && SameRound(r, s, Answers(calls, k))
    ensures var t := CallStep(env, s, calls[k], o);
            Calling(env, t, |calls| - k - 1) && SameRound(r, t, Answers(calls, k + 1))
  {
    CallKeeps(env, s, calls[k], o, |calls| - k - 1);
    SameRoundTwice(r, s, CallStep(env, s, calls[k], o), Answers(calls, k), [Tool(calls[k].id, calls[k].name)]);
    assert Answers(calls, k + 1) == Answers(calls, k) + [Tool(calls[k].id, calls[k].name)];
  }

  lemma {:induction false} CallsKeep(env: Env, r: Run, calls: seq<Call>, tools: nat -> ToolObs, n: nat)
    requires n <= |calls| && Calling(env, r, |calls|)
    ensures var t := CallSteps(env, r, calls, tools, n);
            Calling(env, t, |calls| - n) && SameRound(r, t, Answers(calls, n))
  {
    if n == 0 {
      assert r.messages + Answers(calls, 0) == r.messages;
    } else {
      CallsKeep(env, r, calls, tools, n - 1);
      NextCallKeeps(env, r, CallSteps(env, r, calls, tools, n - 1), calls, tools(n - 1), n - 1);
    }
  }

  // ----- Transcripts -----

  /** One tool message per call, in order. */
  function Answers(calls: seq<Call>, n: nat): (ms: seq<Message>)
    requires n <= |calls|
    ensures |ms| == n
  {
    seq(n, i requires 0 <= i < n => Tool(calls[i].id, calls[i].name))
  }

  /** Every message with tool calls is followed by exactly its answers; no answer stands elsewhere. */
  predicate Shaped(ms: seq<Message>)
    decreases |ms|
  {
    if ms == [] then true
    else match ms[0]
      case Tool(_, _) => false
      case Calls(calls) =>
        && |ms| > |calls|
        && ms[1..1 + |calls|] == Answers(calls, |calls|)
        && Shaped(ms[1 + |calls|..])
      case _ => Shaped(ms[1..])
  }

  /** Cutting a transcript within its first part. */
  lemma {:induction false} CutWithin(a: seq<Message>, b: seq<Message>, n: nat)
    requires 0 < n <= |a|
    ensures (a + b)[n..] == a[n..] + b && (a + b)[1..n] == a[1..n] && (a + b)[0] == a[0]
  {
  }

  lemma {:induction false} ShapedAppend(a: seq<Message>, b: seq<Message>)
    requires Shaped(a) && Shaped(b)
    ensures Shaped(a + b)
    decreases |a|
  {
    if a == [] {
      assert a + b == b;
    } else {
      var n := if a[0].Calls? then 1 + |a[0].calls| else 1;
      assert n <= |a| && Shaped(a[n..]);
      CutWithin(a, b, n);
      ShapedAppend(a[n..], b);
    }
  }

  lemma {:induction false} ShapedExchange(ms: seq<Message>, calls: seq<Call>)
    requires Shaped(ms)
    ensures Shaped(ms + [Calls(calls)] + Answers(calls, |calls|))
    ensures Shaped(ms + [User])
  {
    var exchange := [Calls(calls)] + Answers(calls, |calls|);
    assert exchange[1..1 + |calls|] == Answers(calls, |calls|) && exchange[1 + |calls|..] == [];
    ShapedAppend(ms, exchange);
    assert ms + [Calls(calls)] + Answers(calls, |calls|) == ms + exchange;
    assert [User][1..] == [];
    ShapedAppend(ms, [User]);
  }

  ghost predicate CompactionKeepsShape(env: Env) {
    forall n: nat, ms :: Shaped(ms) ==> Shaped(env.compact(n, ms))
  }

  predicate RequestsShaped(log: seq<Event>) {
    forall i | 0 <= i < |log| :: log[i].Requested? ==> Shaped(log[i].transcript)
  }

  lemma {:induction false} HitRequests(r: Run, k: Kind)
    requires RequestsShaped(r.log)
    ensures RequestsShaped(Hit(r, k).log) && Hit(r, k).messages == r.messages
  {
  }

  lemma {:induction false} CallRequests(env: Env, r: Run, call: Call, o: ToolObs)
    requires RequestsShaped(r.log)
    ensures RequestsShaped(CallStep(env, r, call, o).log)
  {
  }

  lemma {:induction false} CallsRequests(env: Env, r: Run, calls: seq<Call>, tools: nat -> ToolObs, n: nat)
    requires n <= |calls| && RequestsShaped(r.log)
    ensures RequestsShaped(CallSteps(env, r, calls, tools, n).log)
  {
    if n > 0 {
      CallsRequests(env, r, calls, tools, n - 1);
      CallRequests(env, CallSteps(env, r, calls, tools, n - 1), calls[n - 1], tools(n - 1));
    }
  }

  // ----- Whole rounds -----

  predicate RoundsLeft(b: Budget, round: nat, requested: bool) {
    b.maxRounds.Some? && b.maxRounds.value > 0 ==> round < b.maxRounds.value + if requested then 1 else 0
  }

  /** About to ask the model. */
  ghost predicate Asking(env: Env, r: Run) {
    && Logged(env.budget, r) && r.outcome.None? && !FinalAsked(r.log)
    && (r.requested <==> r.reason.Some?)
    && Requests(r.log) <= r.round && RoundsLeft(env.budget, r.round, r.requested)
    && (CompactionKeepsShape(env) ==> Shaped(r.messages) && RequestsShaped(r.log))
  }

  /** The model has replied. */
  ghost predicate Replied(env: Env, r: Run) {
    && Logged(env.budget, r) && r.outcome.None?
    && (r.requested <==> r.reason.Some?) && (FinalAsked(r.log) ==> r.requested)
    && Requests(r.log) <= r.round + 1 && RoundsLeft(env.budget, r.round, r.requested)
    && (CompactionKeepsShape(env) ==> Shaped(r.messages) && RequestsShaped(r.log))
  }

  predicate RequestsBounded(b: Budget, log: seq<Event>) {
    b.maxRounds.Some? && b.maxRounds.value > 0 ==> Requests(log) <= b.maxRounds.value + 1
  }

  predicate RoundsRight(b: Budget, round: nat) {
    b.maxRounds.Some? && b.maxRounds.value > 0 ==> round <= b.maxRounds.value
  }

  /** Between two rounds, or after the last one. */
  ghost predicate Between(env: Env, r: Run) {
    && Logged(env.budget, r) && RequestsBounded(env.budget, r.log)
    && (CompactionKeepsShape(env) ==> RequestsShaped(r.log))
    && (r.outcome.None? ==>
          && !FinalAsked(r.log) && (r.requested <==> r.reason.Some?)
          && Requests(r.log) <= r.round && RoundsRight(env.budget, r.round)
          && (CompactionKeepsShape(env) ==> Shaped(r.messages)))
  }

  lemma {:induction false} EndKeeps(env: Env, r: Run, o: Outcome)
    requires Logged(env.budget, r) && RequestsBounded(env.budget, r.log)
    requires CompactionKeepsShape(env) ==> RequestsShaped(r.log)
    requires o.Partial? ==> !CanSoftLand(o.kind)
    ensures Between(env, End(r, o))
  {
  }

  lemma {:induction false} ToolPhaseKeeps(env: Env, r: Run, calls: seq<Call>, i: Round)
    requires Replied(env, r) && !r.requested && calls != []
    requires Check(env.budget, r.counts, r.round, |calls|, i.pendingElapsed).None?
    ensures Between(env, ToolPhase(env, r, calls, i))
  {
    var start := r.(messages := r.messages + [Calls(calls)]);
    assert Calling(env, start, |calls|);
    CallsKeep(env, start, calls, i.tools, |calls|);
    var ran := CallSteps(env, start, calls, i.tools, |calls|);
    if CompactionKeepsShape(env) {
      CallsRequests(env, start, calls, i.tools, |calls|);
      ShapedExchange(r.messages, calls);
      assert Shaped(ran.messages);
      ShapedExchange(ran.messages, []);
    }
    EndKeeps(env, ran, Halted);
  }

  lemma {:induction false} ReplyPhaseKeeps(env: Env, r: Run, i: Round)
    requires Replied(env, r)
    ensures Between(env, ReplyPhase(env, r, i))
  {
    match i.reply
    case Failed(_) =>
      EndKeeps(env, r, Halted);
      EndKeeps(env, r, ModelFailed);
    case Reply(calls) =>
      if calls == [] {
        EndKeeps(env, r, Completed);
      } else if r.requested {
        EndKeeps(env, r, Partial(FinalReportToolLoop));
      } else {
        var pending := Check(env.budget, r.counts, r.round, |calls|, i.pendingElapsed);
        if pending.None? {
          ToolPhaseKeeps(env, r, calls, i);
        } else {
          HitKeeps(env.budget, r, pending.value);
          if CompactionKeepsShape(env) {
            HitRequests(r, pending.value);
            ShapedExchange(r.messages, []);
          }
        }
      }
  }

  lemma {:induction false} RequestPhaseKeeps(env: Env, r: Run, i: Round)
    requires Asking(env, r)
    ensures Between(env, RequestPhase(env, r, i))
  {
    var prepared := r.(messages := env.compact(r.round, r.messages));
    if i.blocked {
      EndKeeps(env, prepared, Partial(ContextOverflow));
    } else {
      var e := Requested(!r.requested, prepared.messages);
      Last(r.log, e);
      var asked := prepared.(log := prepared.log + [e]);
      assert Logged(env.budget, asked);
      assert CompactionKeepsShape(env) ==> RequestsShaped(asked.log);
      ReplyPhaseKeeps(env, asked, i);
    }
  }

  lemma {:induction false} RoundKeeps(env: Env, r: Run, i: Round)
    requires Between(env, r)
    ensures Between(env, RoundStep(env, r, i))
  {
    if r.outcome.None? {
      var before := if r.requested then None else Check(env.budget, r.counts, r.round, 0, i.elapsed);
      if before.Some? {
        HitKeeps(env.budget, r, before.value);
        if CompactionKeepsShape(env) {
          HitRequests(r, before.value);
          ShapedExchange(r.messages, []);
        }
      }
      var asked := if before.Some? then AskFinalReport(Hit(r, before.value)) else r;
      assert Asking(env, asked);
      EndKeeps(env, asked, Halted);
      RequestPhaseKeeps(env, asked, i);
    }
  }

  lemma {:induction false} RoundsKeep(env: Env, script: seq<Round>)
    ensures Between(env, Rounds(env, script))
  {
    if script == [] {
      assert START.messages[1..] == [User] && [User][1..] == [];
    } else {
      RoundsKeep(env, script[..|script| - 1]);
      RoundKeeps(env, Rounds(env, script[..|script| - 1]), script[|script| - 1]);
    }
  }

  // ----- Main results -----

  lemma {:induction false} GuardedAfter(log: seq<Event>, i: nat, n: nat)
    requires i < n <= |log| && log[i].Guard?
    ensures Guarded(log[..n])
  {
    var k := n - 1;
    assert log[..n][..k] == log[..k];
    if i < k {
      GuardedAfter(log, i, k);
    }
  }

  lemma {:induction false} FinalAskedAfter(log: seq<Event>, i: nat, j: nat, n: nat)
    requires i < j < n <= |log| && log[i].Guard? && log[j].Requested?
    ensures FinalAsked(log[..n])
  {
    var k := n - 1;
    assert log[..n][..k] == log[..k];
    if j < k {
      FinalAskedAfter(log, i, j, k);
    } else {
      GuardedAfter(log, i, j);
    }
  }

  lemma {:induction false} DisciplinedAt(b: Budget, log: seq<Event>, n: nat)
    requires Disciplined(b, log) && n < |log|
    ensures log[n].Ran? ==> !Guarded(log[..n]) && Within(b, Replay(log[..n]))
    ensures log[n].Requested? ==> log[n].toolsOffered == !Guarded(log[..n]) && !FinalAsked(log[..n])
  {
    var k := |log| - 1;
    if n < k {
      DisciplinedAt(b, log[..k], n);
      assert log[..k][..n] == log[..n];
    }
  }

  /**
    Past any limit or web-search stop: no tool runs, and of the requests that
    follow there is at most one, which offers no tools.
   */
  lemma {:induction false} GuardIsFinal(env: Env, script: seq<Round>, i: nat, j: nat)
    requires var log := Rounds(env, script).log; i < j < |log| && log[i].Guard?
    ensures var log := Rounds(env, script).log;
            && !log[j].Ran?
            && (log[j].Requested? ==>
                  !log[j].toolsOffered && forall k | i < k < |log| && k != j :: !log[k].Requested?)
  {
    RoundsKeep(env, script);
    var log := Rounds(env, script).log;
    DisciplinedAt(env.budget, log, j);
    GuardedAfter(log, i, j);
    if log[j].Requested? {
      forall k | i < k < |log| && k != j ensures !log[k].Requested? {
        DisciplinedAt(env.budget, log, k);
        if j < k {
          FinalAskedAfter(log, i, j, k);
        } else if log[k].Requested? {
          FinalAskedAfter(log, i, k, j);
        }
      }
    }
  }

  /** Bytes of the last tool result. */
  function LastBytes(log: seq<Event>): nat {
    if log == [] then 0 else if log[|log| - 1].Ran? then log[|log| - 1].bytes else LastBytes(log[..|log| - 1])
  }

  lemma {:induction false} DisciplinedLimits(b: Budget, log: seq<Event>)
    requires Disciplined(b, log)
    ensures var c := Replay(log);
            && (b.maxToolCalls.Some? && b.maxToolCalls.value > 0 ==> c.toolCalls <= b.maxToolCalls.value)
            && c.consecutiveFailures <= b.maxConsecutiveFailures
            && c.permissionDenials <= b.maxPermissionDenials
            && c.outputBytes <= b.maxOutputBytes + LastBytes(log)
  {
    if log != [] {
      DisciplinedLimits(b, log[..|log| - 1]);
    }
  }

  /** The counters are the log's, and no history takes them past their limits; output overshoots by one result at most. */
  lemma {:induction false} LimitsHold(env: Env, script: seq<Round>)
    ensures var r, b := Rounds(env, script), env.budget;
            && r.counts == Replay(r.log)
            && (b.maxToolCalls.Some? && b.maxToolCalls.value > 0 ==> r.counts.toolCalls <= b.maxToolCalls.value)
            && r.counts.consecutiveFailures <= b.maxConsecutiveFailures
            && r.counts.permissionDenials <= b.maxPermissionDenials
            && r.counts.outputBytes <= b.maxOutputBytes + LastBytes(r.log)
            && (b.maxRounds.Some? && b.maxRounds.value > 0 ==> Requests(r.log) <= b.maxRounds.value + 1)
  {
    RoundsKeep(env, script);
    DisciplinedLimits(env.budget, Rounds(env, script).log);
  }

  /** Every budget hit lands softly: a partial result is only ever a context overflow or a tool call in the final report. */
  lemma {:induction false} BudgetPartialUnreachable(env: Env, script: seq<Round>, k: Kind)
    requires Rounds(env, script).outcome == Some(Partial(k))
    ensures k == ContextOverflow || k == FinalReportToolLoop
  {
    RoundsKeep(env, script);
  }

  /** Once a guard is hit, the next round is the last. */
  lemma {:induction false} GuardedRoundEnds(env: Env, script: seq<Round>, i: Round)
    requires Guarded(Rounds(env, script).log)
    ensures RoundStep(env, Rounds(env, script), i).outcome.Some?
  {
    RoundsKeep(env, script);
  }

  /** At every request, each message with tool calls is followed by exactly one answer per call, if compaction keeps that. */
  lemma {:induction false} TranscriptsShaped(env: Env, script: seq<Round>, i: nat)
    requires CompactionKeepsShape(env)
    requires i < |Rounds(env, script).log| && Rounds(env, script).log[i].Requested?
    ensures Shaped(Rounds(env, script).log[i].transcript)
  {
    RoundsKeep(env, script);
  }
}
