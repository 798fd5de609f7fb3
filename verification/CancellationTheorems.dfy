/** What every cancellation keeps, in every order in which its targets take turns. */
module CancellationTheorems {
  import opened Basics
  import opened Cancellation

  // ----- Stale means untouched -----

  ghost predicate NoSignals(log: seq<Event>) {
    forall e | e in log :: !e.Signalled?
  }

  lemma {:induction false} CheckOneSendsNothing(task: Task, c: Checked, p: Option<Process>, look: Look)
    requires NoSignals(c.log)
    ensures NoSignals(CheckOne(task, c, p, look).log)
  {
  }

  lemma {:induction false} CheckSendsNothing(task: Task, first: Look, second: Look)
    ensures NoSignals(Check(task, first, second).log)
  {
    var start := Checked([], None, []);
    var launcher := if task.launcher.Some? then Some(task.launcher.value.(owned := false)) else None;
    CheckOneSendsNothing(task, start, task.pid, first);
    CheckOneSendsNothing(task, CheckOne(task, start, task.pid, first), launcher, second);
  }

  /** A live process that cannot be shown to be the recorded one. */
  predicate Unverified(task: Task, p: Process, look: Look) {
    !p.owned && look.obs.alive && Verdict(Identity(task, p, look), look.obs).Some?
  }

  /** The launcher is looked at unless it is the process that is already a target. */
  predicate LauncherChecked(task: Task, first: Look) {
    && task.launcher.Some?
    && !(task.pid.Some? && task.pid.value.pid == task.launcher.value.pid
         && (if task.pid.value.owned then first.handleAlive else first.obs.alive))
  }

  /** A cancellation ends stale exactly when a recorded process is live and unverified, and then nothing was signalled. */
  lemma {:induction false} StaleIff(l: Limits, task: Task, first: Look, second: Look, turns: seq<Turn>)
    ensures var (outcome, log) := Cancel(l, task, first, second, turns);
            && (outcome.Stale? <==>
                  || (task.pid.Some? && Unverified(task, task.pid.value, first))
                  || (LauncherChecked(task, first) && Unverified(task, task.launcher.value.(owned := false), second)))
            && (outcome.Stale? ==> NoSignals(log))
  {
    CheckSendsNothing(task, first, second);
    var mid := CheckOne(task, Checked([], None, []), task.pid, first);
    if mid.targets != [] {
      assert mid.targets[0].pid == task.pid.value.pid;
    }
    assert task.launcher.Some? ==>
        (Targeted(mid.targets, task.launcher.value.pid) <==> mid.targets != [] && task.pid.value.pid == task.launcher.value.pid);
  }

  // ----- Targets -----

  ghost predicate DistinctPids(targets: seq<Target>) {
    forall i, j | 0 <= i < j < |targets| :: targets[i].pid != targets[j].pid
  }

  /** Every recorded process is a target or was seen gone. */
  predicate SeenGone(e: Event, pid: nat) {
    || (e.Inspected? && e.pid == pid
        && (!e.obs.alive || (e.expected.Some? && e.obs.identity.Some? && e.obs.identity != e.expected)))
    || e == HandleSeen(pid, false)
  }

  ghost predicate Gone(log: seq<Event>, pid: nat) {
    exists e | e in log :: SeenGone(e, pid)
  }

  lemma {:induction false} GoneMore(log: seq<Event>, more: seq<Event>, pid: nat)
    requires Gone(log, pid) || Gone(more, pid)
    ensures Gone(log + more, pid)
  {
    if Gone(log, pid) {
      var e :| e in log && SeenGone(e, pid);
      assert e in log + more;
    } else {
      var e :| e in more && SeenGone(e, pid);
      assert e in log + more;
    }
  }

  ghost predicate Accounted(c: Checked, pid: nat) {
    Targeted(c.targets, pid) || Gone(c.log, pid)
  }

  lemma {:induction false} CheckOneAccounts(task: Task, c: Checked, p: Option<Process>, look: Look, other: nat)
    requires c.stale.None?
    ensures var t := CheckOne(task, c, p, look);
            && (t.stale.None? && p.Some? ==> Accounted(t, p.value.pid))
            && (t.stale.None? && Accounted(c, other) ==> Accounted(t, other))
            && (DistinctPids(c.targets) ==> DistinctPids(t.targets))
  {
    var t := CheckOne(task, c, p, look);
    if p.Some? && !Targeted(c.targets, p.value.pid) && t.stale.None? {
      var more := if p.value.owned then [HandleSeen(p.value.pid, look.handleAlive)]
                  else CaptureEvents(task, p.value, look) + [Inspected(p.value.pid, Identity(task, p.value, look), look.obs)];
      assert t.log == c.log + more;
      if |t.targets| > |c.targets| {
        assert t.targets[|c.targets|].pid == p.value.pid;
      } else {
        assert more[|more| - 1] in more && SeenGone(more[|more| - 1], p.value.pid);
        GoneMore(c.log, more, p.value.pid);
      }
      if Gone(c.log, other) { GoneMore(c.log, more, other); }
      if Targeted(c.targets, other) {
        var i :| 0 <= i < |c.targets| && c.targets[i].pid == other;
        assert t.targets[i].pid == other;
      }
    }
  }

  lemma {:induction false} CheckAccounts(task: Task, first: Look, second: Look)
    requires Check(task, first, second).stale.None?
    ensures var c := Check(task, first, second);
            && DistinctPids(c.targets)
            && (task.pid.Some? ==> Accounted(c, task.pid.value.pid))
            && (task.launcher.Some? ==> Accounted(c, task.launcher.value.pid))
  {
    var start := Checked([], None, []);
    var mid := CheckOne(task, start, task.pid, first);
    var launcher := if task.launcher.Some? then Some(task.launcher.value.(owned := false)) else None;
    CheckOneAccounts(task, start, task.pid, first, 0);
    CheckOneAccounts(task, mid, launcher, second, if task.pid.Some? then task.pid.value.pid else 0);
  }

  // ----- Turns -----

  /** The first signal to the pid of a target that this runtime holds no handle of. */
  predicate FirstSignal(targets: seq<Target>, log: seq<Event>, i: nat, k: nat)
    requires i < |log| && k < |targets|
  {
    && log[i].Signalled? && log[i].pid == targets[k].pid && !targets[k].owned
    && forall j | 0 <= j < i :: !(log[j].Signalled? && log[j].pid == targets[k].pid)
  }

  /** It is not forced and directly follows an inspection that saw the recorded identity. */
  predicate Verified(targets: seq<Target>, log: seq<Event>, i: nat, k: nat)
    requires i < |log| && k < |targets|
  {
    && log[i] == Signalled(targets[k].pid, false) && i > 0
    && log[i - 1] == Inspected(targets[k].pid, Some(targets[k].identity), Obs(true, Some(targets[k].identity)))
  }

  predicate SignalledPid(log: seq<Event>, pid: nat) {
    exists i | 0 <= i < |log| :: log[i].Signalled? && log[i].pid == pid
  }

  ghost predicate SignalsVerified(targets: seq<Target>, log: seq<Event>) {
    forall i, k | 0 <= i < |log| && 0 <= k < |targets| :: FirstSignal(targets, log, i, k) ==> Verified(targets, log, i, k)
  }

  /** A target has been signalled exactly once it polls; one that ended well was seen gone. */
  ghost predicate PhasesFit(targets: seq<Target>, g: Progress) {
    && |g.phases| == |targets|
    && (forall k | 0 <= k < |targets| :: g.phases[k].Waiting? ==> !SignalledPid(g.log, targets[k].pid))
    && (forall k | 0 <= k < |targets| :: g.phases[k].Polling? ==> SignalledPid(g.log, targets[k].pid))
    && (forall k | 0 <= k < |targets| :: g.phases[k] == Ended(true) ==> Gone(g.log, targets[k].pid))
  }

  lemma {:induction false} SignalledMore(log: seq<Event>, more: seq<Event>, pid: nat)
    ensures SignalledPid(log + more, pid) <==> SignalledPid(log, pid) || SignalledPid(more, pid)
  {
    var all := log + more;
    assert forall i | 0 <= i < |log| :: all[i] == log[i];
    assert forall i | 0 <= i < |more| :: all[|log| + i] == more[i];
    if SignalledPid(more, pid) {
      var i :| 0 <= i < |more| && more[i].Signalled? && more[i].pid == pid;
      assert all[|log| + i].Signalled?;
    }
    if SignalledPid(all, pid) && !SignalledPid(log, pid) {
      var i :| 0 <= i < |all| && all[i].Signalled? && all[i].pid == pid;
      assert more[i - |log|].Signalled?;
    }
  }

  /** What one turn adds concerns its own pid, and matches its new phase. */
  lemma {:induction false} StepFacts(l: Limits, t: Target, ph: Phase, tick: Tick)
    ensures var (next, more) := TerminateStep(l, t, ph, tick);
            && (forall e | e in more :: e.pid == t.pid)
            && (next == Ended(true) ==> ph == Ended(true) || Gone(more, t.pid))
            && (next.Polling? ==> ph.Polling? || SignalledPid(more, t.pid))
            && (next.Waiting? ==> false)
            && (SignalledPid(more, t.pid) && !t.owned && ph.Waiting? ==>
                  more == [Inspected(t.pid, Some(t.identity), Obs(true, Some(t.identity))), Signalled(t.pid, false)])
            && (SignalledPid(more, t.pid) ==> !ph.Ended?)
  {
    var (next, more) := TerminateStep(l, t, ph, tick);
    if next == Ended(true) && ph != Ended(true) {
      assert more[0] in more && SeenGone(more[0], t.pid);
    }
    if next.Polling? && ph.Waiting? {
      assert more[1].Signalled?;
    }
  }

  lemma {:induction false} NewSignals(targets: seq<Target>, g: Progress, more: seq<Event>, n: nat)
    requires DistinctPids(targets) && n < |targets| && |g.phases| == |targets|
    requires SignalsVerified(targets, g.log)
    requires forall e | e in more :: e.pid == targets[n].pid
    requires !targets[n].owned && SignalledPid(more, targets[n].pid) && !SignalledPid(g.log, targets[n].pid) ==>
               more == [Inspected(targets[n].pid, Some(targets[n].identity), Obs(true, Some(targets[n].identity))), Signalled(targets[n].pid, false)]
    ensures SignalsVerified(targets, g.log + more)
  {
    var log := g.log + more;
    forall i, k | 0 <= i < |log| && 0 <= k < |targets| && FirstSignal(targets, log, i, k) ensures Verified(targets, log, i, k) {
      if i < |g.log| {
        assert forall j | 0 <= j <= i :: log[j] == g.log[j];
        assert FirstSignal(targets, g.log, i, k);
      } else {
        assert log[i] == more[i - |g.log|] && more[i - |g.log|] in more;
        assert k == n;
        assert forall j | 0 <= j < |g.log| :: log[j] == g.log[j];
        assert !SignalledPid(g.log, targets[n].pid);
      }
    }
  }

  lemma {:induction false} NotItsPid(more: seq<Event>, pid: nat, other: nat)
    requires pid != other && forall e | e in more :: e.pid == pid
    ensures !SignalledPid(more, other)
  {
    assert forall i | 0 <= i < |more| :: more[i] in more;
  }

  lemma {:induction false} TurnKeeps(l: Limits, targets: seq<Target>, g: Progress, turn: Turn)
    requires DistinctPids(targets) && PhasesFit(targets, g) && SignalsVerified(targets, g.log)
    ensures var t := TakeTurn(l, targets, g, turn);
            PhasesFit(targets, t) && SignalsVerified(targets, t.log)
  {
    var n := turn.target;
    if n < |targets| {
      var (next, more) := TerminateStep(l, targets[n], g.phases[n], turn.tick);
      var t := TakeTurn(l, targets, g, turn);
      StepFacts(l, targets[n], g.phases[n], turn.tick);
      if SignalledPid(more, targets[n].pid) && !SignalledPid(g.log, targets[n].pid) {
        assert g.phases[n].Waiting?;
      }
      NewSignals(targets, g, more, n);
      forall k | 0 <= k < |targets|
        ensures t.phases[k].Waiting? ==> !SignalledPid(t.log, targets[k].pid)
        ensures t.phases[k].Polling? ==> SignalledPid(t.log, targets[k].pid)
        ensures t.phases[k] == Ended(true) ==> Gone(t.log, targets[k].pid)
      {
        SignalledMore(g.log, more, targets[k].pid);
        if k != n { NotItsPid(more, targets[n].pid, targets[k].pid); }
        if Gone(g.log, targets[k].pid) || Gone(more, targets[k].pid) { GoneMore(g.log, more, targets[k].pid); }
      }
    }
  }

  lemma {:induction false} TurnsKeep(l: Limits, targets: seq<Target>, log: seq<Event>, turns: seq<Turn>)
    requires DistinctPids(targets) && NoSignals(log)
    ensures var g := Terminate(l, targets, log, turns);
            PhasesFit(targets, g) && SignalsVerified(targets, g.log)
  {
    if turns == [] {
      assert forall i | 0 <= i < |log| :: log[i] in log;
    } else {
      TurnsKeep(l, targets, log, turns[..|turns| - 1]);
      TurnKeeps(l, targets, Terminate(l, targets, log, turns[..|turns| - 1]), turns[|turns| - 1]);
    }
  }

  // ----- Main results -----

  /** The identity that makes a persisted process a target is the one recorded for it or captured in this call. */
  lemma {:induction false} TargetsAreVerified(task: Task, first: Look, second: Look, k: nat)
    requires var c := Check(task, first, second); c.stale.None? && k < |c.targets| && !c.targets[k].owned
    ensures var t := Check(task, first, second).targets[k];
            || (task.pid.Some? && t.pid == task.pid.value.pid && Identity(task, task.pid.value, first) == Some(t.identity)
                && first.obs == Obs(true, Some(t.identity)))
            || (task.launcher.Some? && t.pid == task.launcher.value.pid
                && Identity(task, task.launcher.value.(owned := false), second) == Some(t.identity)
                && second.obs == Obs(true, Some(t.identity)))
  {
  }

  /** However the terminations interleave, the first signal to a persisted pid directly follows an inspection that saw its identity. */
  lemma {:induction false} FirstSignalIsVerified(l: Limits, task: Task, first: Look, second: Look, turns: seq<Turn>, i: nat, k: nat)
    requires var (outcome, log) := Cancel(l, task, first, second, turns);
             !outcome.Stale? && i < |log| && k < |Check(task, first, second).targets|
             && FirstSignal(Check(task, first, second).targets, log, i, k)
    ensures var (_, log) := Cancel(l, task, first, second, turns);
            Verified(Check(task, first, second).targets, log, i, k)
  {
    CheckSendsNothing(task, first, second);
    CheckAccounts(task, first, second);
    TurnsKeep(l, Check(task, first, second).targets, Check(task, first, second).log, turns);
  }

  /** A cancellation is confirmed only if every recorded process was seen gone, replaced or exited. */
  lemma {:induction false} CancelledMeansGone(l: Limits, task: Task, first: Look, second: Look, turns: seq<Turn>)
    requires Cancel(l, task, first, second, turns).0.Cancelled?
    ensures var log := Cancel(l, task, first, second, turns).1;
            && (task.pid.Some? ==> Gone(log, task.pid.value.pid))
            && (task.launcher.Some? ==> Gone(log, task.launcher.value.pid))
  {
    var c := Check(task, first, second);
    CheckSendsNothing(task, first, second);
    CheckAccounts(task, first, second);
    TurnsKeep(l, c.targets, c.log, turns);
    if task.pid.Some? { AccountedGone(l, c, turns, task.pid.value.pid); }
    if task.launcher.Some? { AccountedGone(l, c, turns, task.launcher.value.pid); }
  }

  lemma {:induction false} AccountedGone(l: Limits, c: Checked, turns: seq<Turn>, pid: nat)
    requires Accounted(c, pid)
    requires var g := Terminate(l, c.targets, c.log, turns);
             PhasesFit(c.targets, g) && forall i | 0 <= i < |g.phases| :: g.phases[i] == Ended(true)
    ensures Gone(Terminate(l, c.targets, c.log, turns).log, pid)
  {
    var g := Terminate(l, c.targets, c.log, turns);
    if Targeted(c.targets, pid) {
      var k :| 0 <= k < |c.targets| && c.targets[k].pid == pid;
      assert g.phases[k] == Ended(true);
    } else {
      LogGrows(l, c.targets, c.log, turns);
      GoneMore(c.log, g.log[|c.log|..], pid);
      assert g.log == c.log + g.log[|c.log|..];
    }
  }

  lemma {:induction false} LogGrows(l: Limits, targets: seq<Target>, log: seq<Event>, turns: seq<Turn>)
    ensures log <= Terminate(l, targets, log, turns).log
  {
    if turns != [] {
      LogGrows(l, targets, log, turns[..|turns| - 1]);
    }
  }

  // ----- Interleaving -----

  /** The ticks of one target among all turns. */
  function Own(turns: seq<Turn>, k: nat): seq<Tick> {
    if turns == [] then []
    else
      var before := Own(turns[..|turns| - 1], k);
      if turns[|turns| - 1].target == k then before + [turns[|turns| - 1].tick] else before
  }

  /** Each target ends up where its own turns alone would take it. */
  lemma {:induction false} TargetsAreIndependent(l: Limits, targets: seq<Target>, log: seq<Event>, turns: seq<Turn>, k: nat)
    requires k < |targets|
    ensures Terminate(l, targets, log, turns).phases[k] == TerminateAlone(l, targets[k], Own(turns, k)).0
  {
    if turns != [] {
      var init, last := turns[..|turns| - 1], turns[|turns| - 1];
      TargetsAreIndependent(l, targets, log, init, k);
      if last.target == k {
        assert (Own(init, k) + [last.tick])[..|Own(init, k)|] == Own(init, k);
      }
    }
  }

  // ----- Forced signals -----

  predicate Forced(e: Event) {
    e.Signalled? && e.force
  }

  /** Directly after an inspection that saw the persisted target alive, and not as a different process. */
  predicate ForcedAfterLook(t: Target, log: seq<Event>, i: nat)
    requires i < |log|
  {
    && !t.owned && log[i] == Signalled(t.pid, true) && i > 0
    && (log[i - 1] == Inspected(t.pid, Some(t.identity), Obs(true, Some(t.identity)))
        || log[i - 1] == Inspected(t.pid, Some(t.identity), Obs(true, None)))
  }

  ghost predicate ForcedFit(targets: seq<Target>, log: seq<Event>) {
    forall i | 0 <= i < |log| && Forced(log[i]) :: exists k | 0 <= k < |targets| :: ForcedAfterLook(targets[k], log, i)
  }

  lemma {:induction false} NothingForced(log: seq<Event>)
    requires NoSignals(log)
    ensures forall i | 0 <= i < |log| :: !Forced(log[i])
  {
    assert forall i | 0 <= i < |log| :: log[i] in log;
  }

  /** A turn forces only with the inspection just before. */
  lemma {:induction false} StepForces(l: Limits, t: Target, ph: Phase, tick: Tick)
    ensures var more := TerminateStep(l, t, ph, tick).1;
            forall i | 0 <= i < |more| && Forced(more[i]) :: ForcedAfterLook(t, more, i)
  {
  }

  lemma {:induction false} TurnForces(l: Limits, targets: seq<Target>, g: Progress, turn: Turn)
    requires |g.phases| == |targets| && ForcedFit(targets, g.log)
    ensures ForcedFit(targets, TakeTurn(l, targets, g, turn).log)
  {
    var n := turn.target;
    if n < |targets| {
      var more := TerminateStep(l, targets[n], g.phases[n], turn.tick).1;
      var log := g.log + more;
      StepForces(l, targets[n], g.phases[n], turn.tick);
      forall i | 0 <= i < |log| && Forced(log[i]) ensures exists k | 0 <= k < |targets| :: ForcedAfterLook(targets[k], log, i) {
        if i < |g.log| {
          assert Forced(g.log[i]);
          var k :| 0 <= k < |targets| && ForcedAfterLook(targets[k], g.log, i);
          assert ForcedAfterLook(targets[k], log, i);
        } else {
          assert ForcedAfterLook(targets[n], more, i - |g.log|);
          assert ForcedAfterLook(targets[n], log, i);
        }
      }
    }
  }

  lemma {:induction false} TurnsForce(l: Limits, targets: seq<Target>, log: seq<Event>, turns: seq<Turn>)
    requires NoSignals(log)
    ensures ForcedFit(targets, Terminate(l, targets, log, turns).log)
  {
    if turns == [] {
      assert forall i | 0 <= i < |log| :: log[i] in log;
    } else {
      TurnsForce(l, targets, log, turns[..|turns| - 1]);
      TurnForces(l, targets, Terminate(l, targets, log, turns[..|turns| - 1]), turns[|turns| - 1]);
    }
  }

  /**
    However the terminations interleave, a forced signal goes to a persisted
    target only, directly after an inspection that saw it alive with its
    identity or with none; its identity was seen exactly when that inspection
    found one.
   */
  lemma {:induction false} ForcedFollowsInspection(l: Limits, task: Task, first: Look, second: Look, turns: seq<Turn>, i: nat)
    returns (k: nat)
    requires var log := Cancel(l, task, first, second, turns).1; i < |log| && Forced(log[i])
    ensures var (outcome, log) := Cancel(l, task, first, second, turns);
            var targets := Check(task, first, second).targets;
            && !outcome.Stale? && k < |targets| && !targets[k].owned && targets[k].pid == log[i].pid
            && i > 0 && log[i - 1].Inspected? && log[i - 1].pid == targets[k].pid && log[i - 1].obs.alive
            && (log[i - 1].obs.identity.Some? ==> log[i - 1].obs.identity == Some(targets[k].identity))
            && (log[i - 1].obs.identity.Some? <==> log[i - 1] == Inspected(targets[k].pid, Some(targets[k].identity), Obs(true, Some(targets[k].identity))))
    ensures var (_, log) := Cancel(l, task, first, second, turns);
            var targets := Check(task, first, second).targets;
            forall j | 0 <= j < |targets| && targets[j].owned :: log[i].pid != targets[j].pid
  {
    var c := Check(task, first, second);
    CheckSendsNothing(task, first, second);
    NothingForced(c.log);
    assert c.stale.None?;
    TurnsForce(l, c.targets, c.log, turns);
    CheckAccounts(task, first, second);
    k :| 0 <= k < |c.targets| && ForcedAfterLook(c.targets[k], Cancel(l, task, first, second, turns).1, i);
  }

  predicate ForcedPid(log: seq<Event>, pid: nat) {
    exists i | 0 <= i < |log| :: Forced(log[i]) && log[i].pid == pid
  }

  /** Once a target is forced it is never forced again; where signals are not escalated it never is. */
  ghost predicate ForcedOnce(l: Limits, targets: seq<Target>, g: Progress) {
    && |g.phases| == |targets|
    && (forall k | 0 <= k < |targets| && (g.phases[k].Waiting? || (g.phases[k].Polling? && !g.phases[k].escalated)) ::
          !ForcedPid(g.log, targets[k].pid))
    && (forall k | 0 <= k < |targets| && l.windows :: g.phases[k].Polling? ==> g.phases[k].escalated)
    && (forall i, j | 0 <= i < j < |g.log| && Forced(g.log[i]) && Forced(g.log[j]) :: g.log[i].pid != g.log[j].pid)
    && (l.windows ==> forall e | e in g.log :: !Forced(e))
  }

  /** What one turn adds to the forced signals. */
  lemma {:induction false} StepForcesOnce(l: Limits, t: Target, ph: Phase, tick: Tick)
    ensures var (next, more) := TerminateStep(l, t, ph, tick);
            && (forall e | e in more :: e.pid == t.pid)
            && (ForcedPid(more, t.pid) ==> ph.Polling? && !ph.escalated && next.Polling? && next.escalated)
            && (next.Polling? && !next.escalated ==> !ForcedPid(more, t.pid) && (ph.Waiting? || (ph.Polling? && !ph.escalated)))
            && !next.Waiting?
            && (forall i, j | 0 <= i < j < |more| :: !(Forced(more[i]) && Forced(more[j])))
            && (l.windows && (ph.Polling? ==> ph.escalated) ==> next.Polling? ==> next.escalated)
  {
  }

  lemma {:induction false} ForcedMore(log: seq<Event>, more: seq<Event>, pid: nat)
    ensures ForcedPid(log + more, pid) ==> ForcedPid(log, pid) || ForcedPid(more, pid)
  {
    if ForcedPid(log + more, pid) {
      var i :| 0 <= i < |log + more| && Forced((log + more)[i]) && (log + more)[i].pid == pid;
      if i < |log| { assert Forced(log[i]); } else { assert Forced(more[i - |log|]); }
    }
  }

  lemma {:induction false} TurnForcesOnce(l: Limits, targets: seq<Target>, g: Progress, turn: Turn)
    requires DistinctPids(targets) && ForcedOnce(l, targets, g)
    ensures ForcedOnce(l, targets, TakeTurn(l, targets, g, turn))
  {
    var n := turn.target;
    if n < |targets| {
      var (next, more) := TerminateStep(l, targets[n], g.phases[n], turn.tick);
      var t := TakeTurn(l, targets, g, turn);
      StepForcesOnce(l, targets[n], g.phases[n], turn.tick);
      forall k | 0 <= k < |targets| && (t.phases[k].Waiting? || (t.phases[k].Polling? && !t.phases[k].escalated))
        ensures !ForcedPid(t.log, targets[k].pid)
      {
        ForcedMore(g.log, more, targets[k].pid);
        assert forall i | 0 <= i < |more| :: more[i] in more;
      }
      NewForcedOnce(g.log, more, targets[n].pid);
      if l.windows {
        forall e | e in more ensures !Forced(e) {
          var i :| 0 <= i < |more| && more[i] == e;
        }
      }
    }
  }

  lemma {:induction false} NewForcedOnce(log: seq<Event>, more: seq<Event>, pid: nat)
    requires forall i, j | 0 <= i < j < |log| && Forced(log[i]) && Forced(log[j]) :: log[i].pid != log[j].pid
    requires forall i, j | 0 <= i < j < |more| :: !(Forced(more[i]) && Forced(more[j]))
    requires (forall e | e in more :: e.pid == pid) && (ForcedPid(more, pid) ==> !ForcedPid(log, pid))
    ensures var all := log + more;
            forall i, j | 0 <= i < j < |all| && Forced(all[i]) && Forced(all[j]) :: all[i].pid != all[j].pid
  {
    var all := log + more;
    forall i, j | 0 <= i < j < |all| && Forced(all[i]) && Forced(all[j]) ensures all[i].pid != all[j].pid {
      if i < |log| <= j {
        var b := more[j - |log|];
        assert b in more && Forced(b) && Forced(log[i]);
      }
    }
  }

  lemma {:induction false} TurnsForceOnce(l: Limits, targets: seq<Target>, log: seq<Event>, turns: seq<Turn>)
    requires DistinctPids(targets) && NoSignals(log)
    ensures ForcedOnce(l, targets, Terminate(l, targets, log, turns))
  {
    if turns == [] {
      assert forall i | 0 <= i < |log| :: log[i] in log;
    } else {
      TurnsForceOnce(l, targets, log, turns[..|turns| - 1]);
      TurnForcesOnce(l, targets, Terminate(l, targets, log, turns[..|turns| - 1]), turns[|turns| - 1]);
    }
  }

  /** No process gets two forced signals, and on Windows, where signals are not escalated, none gets any. */
  lemma {:induction false} ForcedAtMostOnce(l: Limits, task: Task, first: Look, second: Look, turns: seq<Turn>, i: nat, j: nat)
    requires var log := Cancel(l, task, first, second, turns).1; i < j < |log| && Forced(log[i]) && Forced(log[j])
    ensures var log := Cancel(l, task, first, second, turns).1;
            !l.windows && log[i].pid != log[j].pid
  {
    var c := Check(task, first, second);
    CheckSendsNothing(task, first, second);
    var k := ForcedFollowsInspection(l, task, first, second, turns, i);
    CheckAccounts(task, first, second);
    TurnsForceOnce(l, c.targets, c.log, turns);
  }

  /** The forced signal, unlike the first one, may follow an inspection that saw no identity. */
  lemma {:induction false} ForceWithoutIdentity()
    ensures exists t: Target, ticks: seq<Tick> ::
              var log := TerminateAlone(Limits(false, 2000), t, ticks).1;
              |log| >= 2 && log[|log| - 1] == Signalled(t.pid, true)
              && log[|log| - 2] == Inspected(t.pid, Some(t.identity), Obs(true, None))
  {
    var l, t := Limits(false, 2000), Target(7, "id", false);
    var a, b := Tick(0, true, Obs(true, Some("id")), 0), Tick(700, true, Obs(true, None), 750);
    var ticks := [a, b];
    assert ticks[..1] == [a] && [a][..0] == [];
    assert TerminateAlone(l, t, [a]).0 == Polling(0, false);
    assert TerminateStep(l, t, Polling(0, false), b).1 == [Inspected(7, Some("id"), Obs(true, None)), Signalled(7, true)];
    var log := TerminateAlone(l, t, ticks).1;
    assert log == TerminateAlone(l, t, [a]).1 + [Inspected(7, Some("id"), Obs(true, None)), Signalled(7, true)];
  }
}
