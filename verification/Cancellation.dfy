/**
  Cancelling a background task by process identity: every recorded process is
  inspected before any is signalled, and a process that cannot be shown to be
  the recorded one makes its record stale instead.
 */
module Cancellation {
  import opened Basics

  const ESCALATE_MS := 750

  /** What an inspection of a pid finds. */
  datatype Obs = Obs(alive: bool, identity: Option<string>)

  /** One recorded process of a task; `owned` when this runtime started it and still holds its handle. */
  datatype Process = Process(pid: nat, identity: Option<string>, owned: bool)

  /** The pid and launcherPid of a task, as far as recorded; runtimeOwned allows capturing a missing identity. */
  datatype Task = Task(pid: Option<Process>, launcher: Option<Process>, runtimeOwned: bool)

  /** Inspected remembers which identity the caller was looking for. */
  datatype Event =
    | Inspected(pid: nat, expected: Option<string>, obs: Obs)
    | HandleSeen(pid: nat, alive: bool)
    | Signalled(pid: nat, force: bool)

  datatype StaleCode = IdentityUnknown | IdentityUnavailable | IdentityMismatch

  datatype Target = Target(pid: nat, identity: string, owned: bool)

  /** What the check of one recorded process observes, in the order it looks. */
  datatype Look = Look(handleAlive: bool, captured: Option<string>, capture: Obs, stillCurrent: bool, obs: Obs)

  // ----- Checking every recorded process -----

  /** ensureTaskIdentity: the recorded identity, or one captured now for a task of this runtime. */
  function Identity(task: Task, p: Process, look: Look): Option<string> {
    if p.identity.Some? then p.identity
    else if !task.runtimeOwned then None
    else if look.captured.Some? then look.captured
    else if look.capture.alive && look.capture.identity.Some? && look.stillCurrent then look.capture.identity
    else None
  }

  /** The inspection that a capture makes, when it comes to that. */
  function CaptureEvents(task: Task, p: Process, look: Look): seq<Event> {
    if p.identity.None? && task.runtimeOwned && look.captured.None? then [Inspected(p.pid, None, look.capture)] else []
  }

  datatype Checked = Checked(targets: seq<Target>, stale: Option<StaleCode>, log: seq<Event>)

  predicate Targeted(targets: seq<Target>, pid: nat) {
    exists i | 0 <= i < |targets| :: targets[i].pid == pid
  }

  function Verdict(identity: Option<string>, obs: Obs): Option<StaleCode> {
    if identity.None? then Some(IdentityUnknown)
    else if obs.identity.None? then Some(IdentityUnavailable)
    else if obs.identity != identity then Some(IdentityMismatch)
    else None
  }

  /** One turn of the loop over pid and launcherPid. */
  function CheckOne(task: Task, c: Checked, p: Option<Process>, look: Look): Checked {
    if c.stale.Some? || p.None? || Targeted(c.targets, p.value.pid) then c
    else if p.value.owned then
      Checked(
        if look.handleAlive then c.targets + [Target(p.value.pid, "runtime", true)] else c.targets,
        None, c.log + [HandleSeen(p.value.pid, look.handleAlive)])
    else
      var identity := Identity(task, p.value, look);
      var log := c.log + CaptureEvents(task, p.value, look) + [Inspected(p.value.pid, identity, look.obs)];
      if !look.obs.alive then Checked(c.targets, None, log)
      else if Verdict(identity, look.obs).Some? then Checked(c.targets, Verdict(identity, look.obs), log)
      else Checked(c.targets + [Target(p.value.pid, identity.value, false)], None, log)
  }

  /** Only the pid field can have a runtime handle. */
  function Check(task: Task, first: Look, second: Look): Checked {
    var launcher := if task.launcher.Some? then Some(task.launcher.value.(owned := false)) else None;
    CheckOne(task, CheckOne(task, Checked([], None, []), task.pid, first), launcher, second)
  }

  // ----- Terminating the targets -----

  /** One turn of a target's termination: the clock at the loop test, what is seen, the clock afterwards. */
  datatype Tick = Tick(now: int, handleAlive: bool, obs: Obs, after: int)

  datatype Phase = Waiting | Polling(startedAt: int, escalated: bool) | Ended(exited: bool)

  /** Whether signals are escalated at all (they are forced from the start on Windows), and the deadline. */
  datatype Limits = Limits(windows: bool, timeoutMs: int)

  predicate GoneOrReplaced(obs: Obs, identity: string) {
    !obs.alive || (obs.identity.Some? && obs.identity.value != identity)
  }

  function Min(a: int, b: int): int {
    if a < b then a else b
  }

  /** terminateVerifiedProcessTree up to its next wait. */
  function TerminateStep(l: Limits, t: Target, ph: Phase, tick: Tick): (Phase, seq<Event>) {
    match ph
    case Ended(_) => (ph, [])
    case Waiting =>
      if t.owned then
        if !tick.handleAlive then (Ended(true), [HandleSeen(t.pid, false)])
        else (Polling(tick.now, true), [HandleSeen(t.pid, true), Signalled(t.pid, false)])
      else
        var seen := Inspected(t.pid, Some(t.identity), tick.obs);
        if GoneOrReplaced(tick.obs, t.identity) then (Ended(true), [seen])
        else if tick.obs.identity.None? then (Ended(false), [seen])
        else (Polling(tick.now, l.windows), [seen, Signalled(t.pid, false)])
    case Polling(startedAt, escalated) =>
      if tick.now - startedAt >= l.timeoutMs then (Ended(false), [])
      else if t.owned then
        (if !tick.handleAlive then Ended(true) else ph, [HandleSeen(t.pid, tick.handleAlive)])
      else
        var seen := Inspected(t.pid, Some(t.identity), tick.obs);
        if GoneOrReplaced(tick.obs, t.identity) then (Ended(true), [seen])
        else if !escalated && tick.after - startedAt >= Min(ESCALATE_MS, l.timeoutMs) then
          (Polling(startedAt, true), [seen, Signalled(t.pid, true)])
        else (ph, [seen])
  }

  /** The terminations of all targets, which take turns in any order. */
  datatype Progress = Progress(phases: seq<Phase>, log: seq<Event>)

  datatype Turn = Turn(target: nat, tick: Tick)

  function TakeTurn(l: Limits, targets: seq<Target>, g: Progress, turn: Turn): Progress
    requires |g.phases| == |targets|
  {
    if turn.target >= |targets| then g
    else
      var r := TerminateStep(l, targets[turn.target], g.phases[turn.target], turn.tick);
      Progress(g.phases[turn.target := r.0], g.log + r.1)
  }

  function Terminate(l: Limits, targets: seq<Target>, log: seq<Event>, turns: seq<Turn>): (g: Progress)
    ensures |g.phases| == |targets|
  {
    if turns == [] then Progress(seq(|targets|, _ => Waiting), log)
    else TakeTurn(l, targets, Terminate(l, targets, log, turns[..|turns| - 1]), turns[|turns| - 1])
  }

  // ----- One cancellation -----

  datatype Outcome = Stale(code: StaleCode) | Cancelled | NotConfirmed | Pending

  /** performTerminalTaskCancellation after some turns; Pending while a target is still being terminated. */
  function Cancel(l: Limits, task: Task, first: Look, second: Look, turns: seq<Turn>): (Outcome, seq<Event>) {
    var c := Check(task, first, second);
    if c.stale.Some? then (Stale(c.stale.value), c.log)
    else
      var g := Terminate(l, c.targets, c.log, turns);
      var outcome :=
        if exists i | 0 <= i < |g.phases| :: !g.phases[i].Ended? then Pending
        else if exists i | 0 <= i < |g.phases| :: !g.phases[i].exited then NotConfirmed
        else Cancelled;
      (outcome, g.log)
  }

  // ----- In place -----

  method CheckProcesses(task: Task, first: Look, second: Look) returns (targets: seq<Target>, stale: Option<StaleCode>, log: seq<Event>)
    ensures Checked(targets, stale, log) == Check(task, first, second)
  {
    targets, stale, log := [], None, [];
    var launcher := if task.launcher.Some? then Some(task.launcher.value.(owned := false)) else None;
    var fields, looks := [task.pid, launcher], [first, second];
    for i := 0 to 2
      invariant Checked(targets, stale, log) ==
                if i == 0 then Checked([], None, [])
                else if i == 1 then CheckOne(task, Checked([], None, []), task.pid, first)
                else Check(task, first, second)
      invariant stale.None?
    {
      if fields[i].None? || Targeted(targets, fields[i].value.pid) {
        continue;
      }
      var p, look := fields[i].value, looks[i];
      if p.owned {
        log := log + [HandleSeen(p.pid, look.handleAlive)];
        if look.handleAlive {
          targets := targets + [Target(p.pid, "runtime", true)];
        }
        continue;
      }
      var identity := Identity(task, p, look);
      log := log + CaptureEvents(task, p, look) + [Inspected(p.pid, identity, look.obs)];
      if !look.obs.alive {
        continue;
      }
      if identity.None? {
        return targets, Some(IdentityUnknown), log;
      }
      if look.obs.identity.None? {
        return targets, Some(IdentityUnavailable), log;
      }
      if look.obs.identity != identity {
        return targets, Some(IdentityMismatch), log;
      }
      targets := targets + [Target(p.pid, identity.value, false)];
    }
  }

  /** One target's own turns. */
  function TerminateAlone(l: Limits, t: Target, ticks: seq<Tick>): (Phase, seq<Event>) {
    if ticks == [] then (Waiting, [])
    else
      var before := TerminateAlone(l, t, ticks[..|ticks| - 1]);
      var r := TerminateStep(l, t, before.0, ticks[|ticks| - 1]);
      (r.0, before.1 + r.1)
  }

  /** terminateVerifiedProcessTree as a polling loop, on the first turns of any history. */
  method TerminateVerifiedProcessTree(l: Limits, t: Target, ticks: seq<Tick>) returns (ph: Phase, log: seq<Event>)
    requires ticks != []
    ensures (ph, log) == TerminateAlone(l, t, ticks)
  {
    log := [];
    var first := ticks[0];
    assert ticks[..1][..0] == [] && ticks[..1][0] == first;
    if t.owned {
      log := log + [HandleSeen(t.pid, first.handleAlive)];
      if !first.handleAlive {
        EndedStays(l, t, ticks, 1);
        return Ended(true), log;
      }
    } else {
      log := log + [Inspected(t.pid, Some(t.identity), first.obs)];
      if GoneOrReplaced(first.obs, t.identity) {
        EndedStays(l, t, ticks, 1);
        return Ended(true), log;
      }
      if first.obs.identity.None? {
        EndedStays(l, t, ticks, 1);
        return Ended(false), log;
      }
    }
    log := log + [Signalled(t.pid, false)];
    assert TerminateAlone(l, t, ticks[..1]) == (Polling(first.now, t.owned || l.windows), log) by {
      assert [] + TerminateStep(l, t, Waiting, first).1 == log;
    }
    var startedAt, escalated := first.now, t.owned || l.windows;
    for i := 1 to |ticks|
      invariant TerminateAlone(l, t, ticks[..i]) == (Polling(startedAt, escalated), log)
    {
      assert ticks[..i + 1][..i] == ticks[..i];
      var tick := ticks[i];
      ghost var before, r := log, TerminateStep(l, t, Polling(startedAt, escalated), tick);
      if tick.now - startedAt >= l.timeoutMs {
        assert log + [] == log;
        EndedStays(l, t, ticks, i + 1);
        return Ended(false), log;
      }
      if t.owned {
        log := log + [HandleSeen(t.pid, tick.handleAlive)];
        if !tick.handleAlive {
          EndedStays(l, t, ticks, i + 1);
          return Ended(true), log;
        }
        continue;
      }
      log := log + [Inspected(t.pid, Some(t.identity), tick.obs)];
      if GoneOrReplaced(tick.obs, t.identity) {
        EndedStays(l, t, ticks, i + 1);
        return Ended(true), log;
      }
      if !escalated && tick.after - startedAt >= Min(ESCALATE_MS, l.timeoutMs) {
        log := log + [Signalled(t.pid, true)];
        escalated := true;
      }
      assert log == before + r.1;
    }
    assert ticks[..|ticks|] == ticks;
    return Polling(startedAt, escalated), log;
  }

  lemma {:induction false} EndedStays(l: Limits, t: Target, ticks: seq<Tick>, n: nat)
    requires n <= |ticks| && TerminateAlone(l, t, ticks[..n]).0.Ended?
    ensures TerminateAlone(l, t, ticks) == TerminateAlone(l, t, ticks[..n])
    decreases |ticks| - n
  {
    if n < |ticks| {
      assert ticks[..n + 1][..n] == ticks[..n];
      var before := TerminateAlone(l, t, ticks[..n]);
      assert before.1 + [] == before.1;
      EndedStays(l, t, ticks, n + 1);
    } else {
      assert ticks[..n] == ticks;
    }
  }
}
