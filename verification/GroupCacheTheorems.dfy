/** What every interleaving of writers, list calls and scans keeps. */
module GroupCacheTheorems {
  import opened Basics
  import opened GroupCache

  // ----- The invariant -----

  /** The list and the directory say the same about one name. */
  predicate Same<G(==)>(groups: Groups<G>, dir: map<string, File<G>>, name: string) {
    && (name in groups <==> name in dir && dir[name].Group?)
    && (name in groups ==> groups[name] == dir[name].group)
  }

  predicate ReadRight<G(==)>(s: Scan<G>, dir: map<string, File<G>>, name: string)
    requires s.listed.Some?
  {
    && (name in s.listed.value <==> name in dir)
    && (name in s.read ==> name in dir && s.read[name] == dir[name])
  }

  /** A scan is right about every name that nobody wrote since it started. */
  ghost predicate ScanAgrees<G>(s: Scan<G>, dir: map<string, File<G>>) {
    && (s.listed.None? ==> s.read == map[])
    && (s.listed.Some? ==>
          s.read.Keys <= s.listed.value && forall name | name !in s.touched :: ReadRight(s, dir, name))
  }

  ghost predicate ScansAgree<G>(p: Process<G>) {
    forall id | id in p.scans :: ScanAgrees(p.scans[id], p.dir)
  }

  ghost predicate GroupsAgree<G>(groups: Groups<G>, p: Process<G>) {
    forall name | name !in Pending(p) :: Same(groups, p.dir, name)
  }

  ghost predicate CacheAgrees<G>(p: Process<G>) {
    p.cache.Some? && Servable(p.cache.value) ==> GroupsAgree(p.cache.value.groups, p)
  }

  /** While the cache is clean, a running scan has missed only writes that are still to be announced. */
  ghost predicate MissedArePending<G>(p: Process<G>) {
    p.cache.Some? && !p.cache.value.dirty ==>
      forall id | id in p.scans :: p.scans[id].result.None? ==> p.scans[id].touched <= Pending(p)
  }

  /** The only scan is the one that the cache calls its own; a dirty cache has no age. */
  ghost predicate Single<G>(p: Process<G>) {
    && p.scans.Keys == (if p.cache.Some? && p.cache.value.inFlight.Some? then {p.cache.value.inFlight.value} else {})
    && (forall id | id in p.scans :: id < p.started)
    && (p.cache.Some? && p.cache.value.dirty ==> p.cache.value.loadedAt == 0)
  }

  ghost predicate Inv<G>(p: Process<G>) {
    ScansAgree(p) && CacheAgrees(p) && MissedArePending(p) && Single(p)
  }

  // ----- Each event keeps it -----

  lemma {:induction false} WriteKeeps<G>(p: Process<G>, writer: nat, name: string, file: File<G>)
    requires Inv(p) && Enabled(p, DiskWrite(writer, name, file))
    ensures Inv(Step(p, DiskWrite(writer, name, file)))
  {
    var t := Step(p, DiskWrite(writer, name, file));
    assert t.pending[writer] == name && name in Pending(t);
    forall x | x in Pending(p) ensures x in Pending(t) {
      var w :| w in p.pending && p.pending[w] == x;
      assert t.pending[w] == x;
    }
    forall id | id in t.scans ensures ScanAgrees(t.scans[id], t.dir) {
      var s := t.scans[id];
      assert ScanAgrees(p.scans[id], p.dir);
      if s.listed.Some? {
        forall x | x !in s.touched ensures ReadRight(s, t.dir, x) {
          assert ReadRight(p.scans[id], p.dir, x);
        }
      }
    }
    if p.cache.Some? && Servable(p.cache.value) {
      forall x | x !in Pending(t) ensures Same(p.cache.value.groups, t.dir, x) {
        assert Same(p.cache.value.groups, p.dir, x);
      }
    }
  }

  lemma {:induction false} InvalidateKeeps<G>(p: Process<G>, writer: nat)
    requires Inv(p) && Enabled(p, Event<G>.Invalidate(writer))
    ensures Inv(Step(p, Event<G>.Invalidate(writer)))
  {
  }

  /** Who waits makes no difference to what a scan has read. */
  lemma {:induction false} AgreesLike<G>(s: Scan<G>, t: Scan<G>, dir: map<string, File<G>>)
    requires ScanAgrees(s, dir) && t.listed == s.listed && t.read == s.read && t.touched == s.touched
    ensures ScanAgrees(t, dir)
  {
    if s.listed.Some? {
      forall name | name !in t.touched ensures ReadRight(t, dir, name) {
        assert ReadRight(s, dir, name);
      }
    }
  }

  /** The same up to waiters and answers. */
  ghost predicate Alike<G>(p: Process<G>, t: Process<G>) {
    && t.dir == p.dir && t.pending == p.pending && t.cache == p.cache && t.started == p.started
    && t.scans.Keys == p.scans.Keys
    && forall id | id in p.scans :: t.scans[id].(waiters := p.scans[id].waiters) == p.scans[id]
  }

  lemma {:induction false} AlikeKeeps<G>(p: Process<G>, t: Process<G>)
    requires Inv(p) && Alike(p, t)
    ensures Inv(t)
  {
    forall id | id in t.scans ensures ScanAgrees(t.scans[id], t.dir) {
      AgreesLike(p.scans[id], t.scans[id], p.dir);
    }
    assert CacheAgrees(t);
    assert MissedArePending(t);
    assert Single(t);
  }

  lemma {:induction false} StartKeeps<G>(p: Process<G>, t: Process<G>, entry: Entry<G>, caller: nat)
    requires Inv(p) && p.cache == Some(entry) && entry.inFlight.None?
    requires t.dir == p.dir && t.pending == p.pending && t.started == p.started + 1
    requires t.cache == Some(entry.(dirty := false, inFlight := Some(p.started)))
    requires t.scans == p.scans[p.started := Scan(None, map[], {caller}, None, {})]
    ensures Inv(t)
  {
    assert p.scans.Keys == {};
    assert ScansAgree(t);
    assert CacheAgrees(t);
    assert MissedArePending(t);
    assert Single(t);
  }

  lemma {:induction false} CreateKeeps<G>(p: Process<G>)
    requires Inv(p) && p.cache.None?
    ensures Inv(p.(cache := Some(NewEntry())))
  {
    assert p.scans.Keys == {};
  }

  lemma {:induction false} ListKeeps<G>(p: Process<G>, caller: nat, now: nat)
    requires Inv(p) && Enabled(p, Event<G>.List(caller, now))
    ensures Inv(Step(p, Event<G>.List(caller, now)))
  {
    var t := Step(p, Event<G>.List(caller, now));
    var q := if p.cache.Some? then p else p.(cache := Some(NewEntry()));
    if p.cache.None? { CreateKeeps(p); }
    var entry := q.cache.value;
    if !Serves(entry, now) && entry.inFlight.None? {
      StartKeeps(q, t, entry, caller);
    } else {
      assert Single(q);
      assert Alike(q, t);
      AlikeKeeps(q, t);
    }
  }

  lemma {:induction false} AbortKeeps<G>(p: Process<G>, caller: nat)
    requires Inv(p) && Enabled(p, Event<G>.Abort(caller))
    ensures Inv(Step(p, Event<G>.Abort(caller)))
  {
    AlikeKeeps(p, Step(p, Event<G>.Abort(caller)));
  }

  lemma {:induction false} ReadKeeps<G>(p: Process<G>, e: Event<G>)
    requires Inv(p) && Enabled(p, e) && (e.ReadDir? || e.ReadFile?)
    ensures Inv(Step(p, e))
  {
    var t := Step(p, e);
    assert t.scans.Keys == p.scans.Keys;
    forall id | id in t.scans ensures ScanAgrees(t.scans[id], t.dir) {
      assert ScanAgrees(p.scans[id], p.dir);
      var s := t.scans[id];
      if s.listed.Some? {
        forall name | name !in s.touched ensures ReadRight(s, t.dir, name) {
          if p.scans[id].listed.Some? { assert ReadRight(p.scans[id], p.dir, name); }
        }
      }
    }
    assert CacheAgrees(t) by { assert t.cache == p.cache && t.dir == p.dir && t.pending == p.pending; }
  }

  /** A complete scan's groups are right about every name that was not written since it started. */
  lemma {:induction false} CompleteScan<G>(s: Scan<G>, dir: map<string, File<G>>, name: string)
    requires ScanAgrees(s, dir) && Complete(s) && name !in s.touched
    ensures Same(Parsed(s.read), dir, name)
  {
    assert ReadRight(s, dir, name);
  }

  lemma {:induction false} SettleKeeps<G>(p: Process<G>, e: Event<G>)
    requires Inv(p) && Enabled(p, e) && (e.Store? || e.Fail?)
    ensures Inv(Step(p, e))
  {
    var t := Step(p, e);
    assert t.scans.Keys == p.scans.Keys;
    forall id | id in t.scans ensures ScanAgrees(t.scans[id], t.dir) {
      AgreesLike(p.scans[id], t.scans[id], p.dir);
    }
    if e.Store? && !p.cache.value.dirty {
      var s := p.scans[e.scan];
      forall name | name !in Pending(t) ensures Same(Parsed(s.read), t.dir, name) {
        CompleteScan(s, p.dir, name);
      }
    } else {
      assert t.cache == p.cache && t.dir == p.dir && t.pending == p.pending;
      assert CacheAgrees(t);
    }
  }

  lemma {:induction false} ClearKeeps<G>(p: Process<G>, scan: nat)
    requires Inv(p) && Enabled(p, Event<G>.Clear(scan))
    ensures Inv(Step(p, Event<G>.Clear(scan)))
  {
    var t := Step(p, Event<G>.Clear(scan));
    assert p.cache.value.inFlight == Some(scan);
    assert t.scans.Keys == {};
    assert CacheAgrees(t) by { assert t.cache.value.groups == p.cache.value.groups && t.dir == p.dir && t.pending == p.pending; }
  }

  lemma {:induction false} NextKeeps<G>(p: Process<G>, e: Event<G>)
    requires Inv(p)
    ensures Inv(Next(p, e))
  {
    if Enabled(p, e) {
      match e
      case DiskWrite(writer, name, file) => WriteKeeps(p, writer, name, file);
      case Invalidate(writer) => InvalidateKeeps(p, writer);
      case List(caller, now) => ListKeeps(p, caller, now);
      case Abort(caller) => AbortKeeps(p, caller);
      case ReadDir(_) => ReadKeeps(p, e);
      case ReadFile(_, _) => ReadKeeps(p, e);
      case Store(_, _) => SettleKeeps(p, e);
      case Fail(_) => SettleKeeps(p, e);
      case Clear(scan) => ClearKeeps(p, scan);
    }
  }

  lemma {:induction false} RunKeeps<G>(dir: map<string, File<G>>, es: seq<Event<G>>)
    ensures Inv(Run(dir, es))
  {
    if es != [] {
      RunKeeps(dir, es[..|es| - 1]);
      NextKeeps(Run(dir, es[..|es| - 1]), es[|es| - 1]);
    }
  }

  // ----- Main results -----

  /**
    A list served from the cache equals the directory on every name whose
    writers have all finished announcing their writes.
   */
  lemma {:induction false} ServedIsCurrent<G>(dir: map<string, File<G>>, es: seq<Event<G>>, caller: nat, now: nat)
    requires var p := Run(dir, es);
             Enabled(p, Event<G>.List(caller, now)) && p.cache.Some? && Serves(p.cache.value, now)
    ensures var p := Run(dir, es);
            var answers := Run(dir, es + [Event<G>.List(caller, now)]).answers;
            && caller in answers && answers[caller].Listed?
            && forall name | name !in Pending(p) :: Same(answers[caller].groups, p.dir, name)
  {
    RunKeeps(dir, es);
    assert (es + [Event<G>.List(caller, now)])[..|es|] == es;
  }

  /** With every write announced, a served list is exactly the directory's groups. */
  lemma {:induction false} QuietCacheIsExact<G>(dir: map<string, File<G>>, es: seq<Event<G>>)
    requires var p := Run(dir, es); p.pending == map[] && p.cache.Some? && Servable(p.cache.value)
    ensures var p := Run(dir, es); p.cache.value.groups == Parsed(p.dir)
  {
    RunKeeps(dir, es);
    var p := Run(dir, es);
    var groups := p.cache.value.groups;
    assert Pending(p) == {};
    forall name ensures name in groups <==> name in Parsed(p.dir) {
      assert Same(groups, p.dir, name);
    }
    forall name | name in groups ensures groups[name] == Parsed(p.dir)[name] {
      assert Same(groups, p.dir, name);
    }
  }

  /** No history ever has two scans of one root at the same time. */
  lemma {:induction false} OneScanAtATime<G>(dir: map<string, File<G>>, es: seq<Event<G>>, a: nat, b: nat)
    requires a in Run(dir, es).scans && b in Run(dir, es).scans
    ensures a == b
  {
    RunKeeps(dir, es);
  }

  /** What a scan hands to its callers is right about every name not written since the scan started. */
  lemma {:induction false} ScanIsCurrent<G>(dir: map<string, File<G>>, es: seq<Event<G>>, scan: nat, now: nat, caller: nat, name: string)
    requires var p := Run(dir, es);
             Enabled(p, Event<G>.Store(scan, now)) && caller in p.scans[scan].waiters && name !in p.scans[scan].touched
    ensures var p := Run(dir, es);
            var answers := Run(dir, es + [Event<G>.Store(scan, now)]).answers;
            caller in answers && answers[caller].Listed? && Same(answers[caller].groups, p.dir, name)
  {
    RunKeeps(dir, es);
    assert (es + [Event<G>.Store(scan, now)])[..|es|] == es;
    var p := Run(dir, es);
    CompleteScan(p.scans[scan], p.dir, name);
  }

  /** Cancelling one caller leaves the shared scan, the cache and every other caller as they were. */
  lemma {:induction false} AbortIsLocal<G>(dir: map<string, File<G>>, es: seq<Event<G>>, caller: nat, other: nat)
    requires Enabled(Run(dir, es), Event<G>.Abort(caller)) && other != caller
    ensures var p := Run(dir, es);
            var t := Step(p, Event<G>.Abort(caller));
            && t.cache == p.cache && t.scans.Keys == p.scans.Keys && t.answers[caller] == Rejected
            && (other in t.answers <==> other in p.answers) && (other in p.answers ==> t.answers[other] == p.answers[other])
            && forall id | id in p.scans :: (other in t.scans[id].waiters <==> other in p.scans[id].waiters)
                 && t.scans[id].listed == p.scans[id].listed && t.scans[id].read == p.scans[id].read
  {
  }

  // ----- A shared scan can be stale -----

  const OLD: map<string, File<int>> := map["a" := Group(1)]
  const NEW: map<string, File<int>> := map["a" := Group(2)]

  const HISTORY: seq<Event<int>> := [
    List(0, 1), ReadDir(0), ReadFile(0, "a"), DiskWrite(7, "a", Group(2)), Invalidate(7), List(1, 2), Store(0, 3)]

  function Busy(dirty: bool): Option<Entry<int>> {
    Some(Entry(map[], 0, Some(0), dirty))
  }

  const P0: Process<int> := Process(OLD, map[], None, map[], 0, map[])
  const P1: Process<int> := Process(OLD, map[], Busy(false), map[0 := Scan(None, map[], {0}, None, {})], 1, map[])
  const P2: Process<int> := Process(OLD, map[], Busy(false), map[0 := Scan(Some({"a"}), map[], {0}, None, {})], 1, map[])
  const P3: Process<int> := Process(OLD, map[], Busy(false), map[0 := Scan(Some({"a"}), OLD, {0}, None, {})], 1, map[])
  const P4: Process<int> := Process(NEW, map[7 := "a"], Busy(false), map[0 := Scan(Some({"a"}), OLD, {0}, None, {"a"})], 1, map[])
  const P5: Process<int> := Process(NEW, map[], Busy(true), map[0 := Scan(Some({"a"}), OLD, {0}, None, {"a"})], 1, map[])
  const P6: Process<int> := Process(NEW, map[], Busy(true), map[0 := Scan(Some({"a"}), OLD, {0, 1}, None, {"a"})], 1, map[])

  lemma {:induction false} RunLast<G>(dir: map<string, File<G>>, es: seq<Event<G>>, n: nat)
    requires 0 < n <= |es|
    ensures Run(dir, es[..n]) == Next(Run(dir, es[..n - 1]), es[n - 1])
  {
    assert es[..n][..n - 1] == es[..n - 1];
  }

  lemma {:induction false} FirstSteps()
    ensures Run(OLD, HISTORY[..3]) == P3
  {
    RunLast(OLD, HISTORY, 1);
    RunLast(OLD, HISTORY, 2);
    RunLast(OLD, HISTORY, 3);
    assert HISTORY[..0] == [] && Run(OLD, []) == P0;
    assert Next(P0, List(0, 1)) == P1;
    assert OLD.Keys == {"a"};
    assert Next(P1, ReadDir(0)) == P2;
    assert Next(P2, ReadFile(0, "a")) == P3;
  }

  lemma {:induction false} WriteAndAnnounce()
    ensures Next(P3, DiskWrite(7, "a", Group(2))) == P4
    ensures Next(P4, Invalidate(7)) == P5
  {
    assert P3.scans[0].touched + {"a"} == {"a"};
    assert Touch(P3.scans, "a") == P4.scans;
  }

  lemma {:induction false} ListAgain()
    ensures Next(P5, List(1, 2)) == P6
  {
    assert {0} + {1} == {0, 1};
  }

  lemma {:induction false} OneStep(n: nat, p: Process<int>, q: Process<int>)
    requires n < |HISTORY| && Run(OLD, HISTORY[..n]) == p && Next(p, HISTORY[n]) == q
    ensures Run(OLD, HISTORY[..n + 1]) == q
  {
    RunLast(OLD, HISTORY, n + 1);
  }

  lemma {:induction false} MiddleSteps()
    ensures Run(OLD, HISTORY[..5]) == P5
  {
    FirstSteps();
    WriteAndAnnounce();
    OneStep(3, P3, P4);
    OneStep(4, P4, P5);
  }

  lemma {:induction false} LaterSteps()
    ensures Run(OLD, HISTORY[..6]) == P6
  {
    MiddleSteps();
    ListAgain();
    OneStep(5, P5, P6);
  }

  /** A caller that lists after a write was announced can still get the content before it, by sharing a scan. */
  lemma {:induction false} SharedScanCanBeStale()
    ensures var p := Run(OLD, HISTORY);
            && p.pending == map[] && p.dir == NEW
            && 1 in p.answers && p.answers[1] == Listed(map["a" := 1])
  {
    LaterSteps();
    RunLast(OLD, HISTORY, 7);
    assert HISTORY[..7] == HISTORY;
    assert Parsed(OLD) == map["a" := 1];
  }
}
