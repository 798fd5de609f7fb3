/**
  What a list call that is not served from the cache can be told: exactly when,
  whatever happens next, its answer is right about a name.
 */
module GroupListAnswers {
  import opened Basics
  import opened GroupCache
  import opened GroupCacheTheorems

  /** The process after some more events. */
  function RunOn<G>(p: Process<G>, es: seq<Event<G>>): Process<G> {
    if es == [] then p else Next(RunOn(p, es[..|es| - 1]), es[|es| - 1])
  }

  predicate Leaves<G>(e: Event<G>, name: string) {
    e.DiskWrite? ==> e.name != name
  }

  predicate AllLeave<G>(es: seq<Event<G>>, name: string) {
    forall i | 0 <= i < |es| :: Leaves(es[i], name)
  }

  /** If the caller has been given a list, the list is right about the name. */
  predicate ToldRight<G(==)>(p: Process<G>, dir: map<string, File<G>>, caller: nat, name: string) {
    caller in p.answers && p.answers[caller].Listed? ==> Same(p.answers[caller].groups, dir, name)
  }

  /** Whatever happens after the call, short of writing the name, no list given to the caller is wrong about it. */
  ghost predicate AlwaysToldRight<G(!new)>(called: Process<G>, dir: map<string, File<G>>, caller: nat, name: string) {
    forall es: seq<Event<G>> | AllLeave(es, name) :: ToldRight(RunOn(called, es), dir, caller, name)
  }

  /** A running scan that can still be right about a name: it has not got there, or found what is there. */
  predicate OnCourse<G(==)>(s: Scan<G>, dir: map<string, File<G>>, name: string) {
    || s.listed.None?
    || (name in s.listed.value && name !in s.read)
    || (name in s.read && Same(Parsed(s.read), dir, name))
    || (name !in s.listed.value && name !in s.read && !(name in dir && dir[name].Group?))
  }

  /** What a caller can check before the call: the scan that it would share, if there is one. */
  predicate WillBeRight<G(==)>(p: Process<G>, name: string) {
    p.cache.Some? && p.cache.value.inFlight.Some? && p.cache.value.inFlight.value in p.scans ==>
      var s := p.scans[p.cache.value.inFlight.value];
      match s.result
      case None => OnCourse(s, p.dir, name)
      case Some(Listed(groups)) => Same(groups, p.dir, name)
      case Some(Rejected) => true
  }

  // ----- If -----

  /** The directory still says about the name what it said at the call. */
  predicate Unwritten<G(==)>(now: map<string, File<G>>, dir: map<string, File<G>>, name: string) {
    (name in now <==> name in dir) && (name in dir ==> now[name] == dir[name])
  }

  /** The caller waits for a running scan that is on course. */
  ghost predicate WaitsOnCourse<G>(p: Process<G>, dir: map<string, File<G>>, id: nat, caller: nat, name: string) {
    && caller !in p.answers && id in p.scans
    && p.scans[id].result.None? && caller in p.scans[id].waiters && OnCourse(p.scans[id], dir, name)
  }

  /** The caller has its answer, and it is not wrong. */
  ghost predicate Told<G>(p: Process<G>, dir: map<string, File<G>>, caller: nat, name: string) {
    && caller in p.answers && ToldRight(p, dir, caller, name)
    && forall id | id in p.scans :: caller !in p.scans[id].waiters
  }

  ghost predicate OnTrack<G>(p: Process<G>, dir: map<string, File<G>>, caller: nat, name: string) {
    && Inv(p) && Unwritten(p.dir, dir, name)
    && (Told(p, dir, caller, name) || exists id :: WaitsOnCourse(p, dir, id, caller, name))
  }

  lemma {:induction false} ReadStaysOnCourse<G>(p: Process<G>, e: Event<G>, dir: map<string, File<G>>, name: string)
    requires Inv(p) && Unwritten(p.dir, dir, name) && Enabled(p, e) && (e.ReadDir? || e.ReadFile?)
    requires OnCourse(p.scans[e.scan], dir, name)
    ensures OnCourse(Step(p, e).scans[e.scan], dir, name)
  {
    assert ScanAgrees(p.scans[e.scan], p.dir);
  }

  /** A complete scan that is on course is right. */
  lemma {:induction false} ArrivesRight<G>(s: Scan<G>, dir: map<string, File<G>>, name: string)
    requires Complete(s) && OnCourse(s, dir, name)
    ensures Same(Parsed(s.read), dir, name)
  {
  }

  lemma {:induction false} ToldStays<G>(p: Process<G>, e: Event<G>, dir: map<string, File<G>>, caller: nat, name: string)
    requires Inv(p) && Enabled(p, e) && Told(p, dir, caller, name)
    ensures Told(Step(p, e), dir, caller, name)
  {
  }

  lemma {:induction false} SettledTells<G>(p: Process<G>, e: Event<G>, dir: map<string, File<G>>, id: nat, caller: nat, name: string)
    requires Inv(p) && Enabled(p, e) && (e.Store? || e.Fail?) && WaitsOnCourse(p, dir, id, caller, name)
    ensures Told(Step(p, e), dir, caller, name)
  {
    assert p.scans.Keys == {id};
    if e.Store? {
      ArrivesRight(p.scans[id], dir, name);
    }
  }

  /** Reads and everything outside the scan leave the caller waiting, unless it gives up. */
  lemma {:induction false} WaitStays<G>(p: Process<G>, e: Event<G>, dir: map<string, File<G>>, id: nat, caller: nat, name: string)
    requires Inv(p) && Unwritten(p.dir, dir, name) && Enabled(p, e) && !e.Store? && !e.Fail? && !e.List? && !e.Abort?
    requires WaitsOnCourse(p, dir, id, caller, name)
    ensures WaitsOnCourse(Step(p, e), dir, id, caller, name)
  {
    assert p.scans.Keys == {id};
    if e.ReadDir? || e.ReadFile? {
      ReadStaysOnCourse(p, e, dir, name);
    }
  }

  /** Calls and cancellations of others change nothing for the caller; its own cancellation is no list. */
  lemma {:induction false} CallersStay<G>(p: Process<G>, e: Event<G>, dir: map<string, File<G>>, id: nat, caller: nat, name: string)
    requires Inv(p) && Enabled(p, e) && (e.List? || e.Abort?) && WaitsOnCourse(p, dir, id, caller, name)
    ensures Told(Step(p, e), dir, caller, name) || WaitsOnCourse(Step(p, e), dir, id, caller, name)
  {
    assert p.scans.Keys == {id};
  }

  lemma {:induction false} TrackKeeps<G>(p: Process<G>, e: Event<G>, dir: map<string, File<G>>, caller: nat, name: string)
    requires OnTrack(p, dir, caller, name) && Leaves(e, name)
    ensures OnTrack(Next(p, e), dir, caller, name)
  {
    NextKeeps(p, e);
    if Enabled(p, e) {
      if Told(p, dir, caller, name) {
        ToldStays(p, e, dir, caller, name);
      } else {
        var id :| WaitsOnCourse(p, dir, id, caller, name);
        if e.Store? || e.Fail? {
          SettledTells(p, e, dir, id, caller, name);
        } else if e.List? || e.Abort? {
          CallersStay(p, e, dir, id, caller, name);
        } else {
          WaitStays(p, e, dir, id, caller, name);
        }
      }
    }
  }

  lemma {:induction false} TrackRuns<G>(p: Process<G>, es: seq<Event<G>>, dir: map<string, File<G>>, caller: nat, name: string)
    requires OnTrack(p, dir, caller, name) && AllLeave(es, name)
    ensures OnTrack(RunOn(p, es), dir, caller, name)
  {
    if es != [] {
      var init := es[..|es| - 1];
      assert forall i | 0 <= i < |init| :: init[i] == es[i];
      TrackRuns(p, init, dir, caller, name);
      TrackKeeps(RunOn(p, init), es[|es| - 1], dir, caller, name);
    }
  }

  lemma {:induction false} CallIsOnTrack<G>(p: Process<G>, caller: nat, now: nat, name: string)
    requires Inv(p) && Enabled(p, Event<G>.List(caller, now)) && !(p.cache.Some? && Serves(p.cache.value, now))
    requires WillBeRight(p, name)
    ensures OnTrack(Step(p, Event<G>.List(caller, now)), p.dir, caller, name)
  {
    ListKeeps(p, caller, now);
    var t := Step(p, Event<G>.List(caller, now));
    if p.cache.Some? && p.cache.value.inFlight.Some? {
      var id := p.cache.value.inFlight.value;
      assert p.scans.Keys == {id};
      if p.scans[id].result.None? {
        assert t.scans[id].read == p.scans[id].read && t.scans[id].listed == p.scans[id].listed;
        assert WaitsOnCourse(t, p.dir, id, caller, name);
      }
    } else {
      assert p.scans.Keys == {};
      assert t.scans[p.started] == Scan(None, map[], {caller}, None, {});
      assert WaitsOnCourse(t, p.dir, p.started, caller, name);
    }
  }

  // ----- Only if -----

  lemma {:induction false} RunOnFirst<G>(p: Process<G>, e: Event<G>, es: seq<Event<G>>)
    ensures RunOn(p, [e] + es) == RunOn(Next(p, e), es)
  {
    var all := [e] + es;
    if es == [] {
      assert all[..0] == [];
    } else {
      assert all[..|all| - 1] == [e] + es[..|es| - 1];
      RunOnFirst(p, e, es[..|es| - 1]);
    }
  }

  /** Nothing that the scan may still do changes what it says about the name. */
  ghost predicate Decided<G>(s: Scan<G>, name: string) {
    s.listed.Some? && (name in s.read || name !in s.listed.value)
  }

  /** The caller has a list that says of the name what these files say. */
  ghost predicate ToldAs<G>(p: Process<G>, read: map<string, File<G>>, caller: nat, name: string) {
    && caller in p.answers && p.answers[caller].Listed?
    && (name in p.answers[caller].groups <==> name in Parsed(read))
    && (name in p.answers[caller].groups ==> p.answers[caller].groups[name] == Parsed(read)[name])
  }

  lemma {:induction false} NothingLeft<G>(s: Scan<G>)
    requires s.listed.Some? && s.read.Keys <= s.listed.value && s.listed.value - s.read.Keys == {}
    ensures Complete(s)
  {
    forall x | x in s.listed.value ensures x in s.read.Keys {
      assert x !in s.listed.value - s.read.Keys;
    }
  }

  lemma {:induction false} ReadsOther<G>(p: Process<G>, id: nat, other: string, name: string)
    requires Enabled(p, Event<G>.ReadFile(id, other)) && other != name
    ensures var s, t := p.scans[id], Step(p, Event<G>.ReadFile(id, other)).scans[id];
            && t.listed == s.listed && t.waiters == s.waiters && t.result == s.result
            && t.listed.value - t.read.Keys == s.listed.value - s.read.Keys - {other}
            && (name in t.read <==> name in s.read) && (name in s.read ==> t.read[name] == s.read[name])
  {
  }

  /** The scan reads the listed files that are left and hands its list to the caller. */
  lemma {:induction false} FinishScan<G>(p: Process<G>, id: nat, caller: nat, name: string) returns (es: seq<Event<G>>)
    requires id in p.scans && p.scans[id].result.None? && caller in p.scans[id].waiters
    requires Decided(p.scans[id], name) && p.scans[id].read.Keys <= p.scans[id].listed.value
    ensures AllLeave(es, name) && ToldAs(RunOn(p, es), p.scans[id].read, caller, name)
    decreases |p.scans[id].listed.value - p.scans[id].read.Keys|
  {
    var s := p.scans[id];
    var left := s.listed.value - s.read.Keys;
    if left == {} {
      NothingLeft(s);
      es := [Store(id, 1)];
      RunOnFirst(p, Store(id, 1), []);
    } else {
      var other :| other in left;
      var e := Event<G>.ReadFile(id, other);
      ReadsOther(p, id, other, name);
      var rest := FinishScan(Step(p, e), id, caller, name);
      RunOnFirst(p, e, rest);
      es := [e] + rest;
    }
  }

  /** A scan that is off course can still be finished, and then the caller is told wrong. */
  lemma {:induction false} OffCourseTellsWrong<G>(p: Process<G>, id: nat, dir: map<string, File<G>>, caller: nat, name: string)
    returns (es: seq<Event<G>>)
    requires Inv(p) && id in p.scans && p.scans[id].result.None? && caller in p.scans[id].waiters
    requires !OnCourse(p.scans[id], dir, name)
    ensures AllLeave(es, name) && !ToldRight(RunOn(p, es), dir, caller, name)
  {
    assert ScanAgrees(p.scans[id], p.dir);
    es := FinishScan(p, id, caller, name);
  }

  lemma {:induction false} CallCanBeToldWrong<G>(p: Process<G>, caller: nat, now: nat, name: string) returns (es: seq<Event<G>>)
    requires Inv(p) && Enabled(p, Event<G>.List(caller, now)) && !(p.cache.Some? && Serves(p.cache.value, now))
    requires !WillBeRight(p, name)
    ensures AllLeave(es, name) && !ToldRight(RunOn(Step(p, Event<G>.List(caller, now)), es), p.dir, caller, name)
  {
    ListKeeps(p, caller, now);
    var t := Step(p, Event<G>.List(caller, now));
    var id := p.cache.value.inFlight.value;
    if p.scans[id].result.Some? {
      es := [];
    } else {
      es := OffCourseTellsWrong(t, id, p.dir, caller, name);
    }
  }

  // ----- Main result -----

  /**
    A list call that is not served from the cache: whatever happens afterwards,
    any list it is given is right about a name that is not written meanwhile,
    exactly when there is no scan in flight, or the one in flight has not yet
    missed what is in the directory, or it has settled with a right list.
   */
  lemma {:induction false} AnswerIsRightIff<G(!new)>(dir: map<string, File<G>>, es: seq<Event<G>>, caller: nat, now: nat, name: string)
    requires var p := Run(dir, es);
             Enabled(p, Event<G>.List(caller, now)) && !(p.cache.Some? && Serves(p.cache.value, now))
    ensures var p := Run(dir, es);
            AlwaysToldRight(Step(p, Event<G>.List(caller, now)), p.dir, caller, name) <==> WillBeRight(p, name)
  {
    RunKeeps(dir, es);
    var p := Run(dir, es);
    var t := Step(p, Event<G>.List(caller, now));
    if WillBeRight(p, name) {
      CallIsOnTrack(p, caller, now, name);
      forall later: seq<Event<G>> | AllLeave(later, name) ensures ToldRight(RunOn(t, later), p.dir, caller, name) {
        TrackRuns(t, later, p.dir, caller, name);
      }
    } else {
      var later := CallCanBeToldWrong(p, caller, now, name);
      assert AllLeave(later, name) && !ToldRight(RunOn(t, later), p.dir, caller, name);
    }
  }
}
