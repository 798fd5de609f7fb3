/** A sweep ends in time, agrees with one plain read of a static directory, and loses nothing written meanwhile. */
module RegistryTheorems {
  import opened Basics
  import opened RegistrySweep

  // ----- Progress -----

  /** The first file of a call is always read. */
  lemma {:induction false} FirstFileIsRead(r: Root, es: seq<string>, c: Call)
    requires r.cursor < |es|
    ensures Batch(r, es, c, 0, 0).cursor > r.cursor
  {
    BatchKeeps(ScanNext(r, es, c), es, c, 1, Size(Look(c, es[r.cursor])));
  }

  /** A call that continues a sweep finishes it or moves its cursor. */
  lemma {:induction false} CallAdvances(r: Root, c: Call)
    requires r.entries.Some?
    ensures var t := Read(r, c);
            t.entries.None? || (t.entries == r.entries && r.cursor < t.cursor < |r.entries.value|)
  {
    BatchKeeps(r, r.entries.value, c, 0, 0);
    if r.cursor < |r.entries.value| { FirstFileIsRead(r, r.entries.value, c); }
  }

  /** Calls and writes by this process, one after the other. */
  datatype Event = Reads(call: Call) | Writes(name: string, task: Task)

  function Happen(r: Root, e: Event): Root {
    match e
    case Reads(c) => Read(r, c)
    case Writes(name, task) => Remember(r, name, task)
  }

  function Run(r: Root, es: seq<Event>): Root {
    if es == [] then r else Happen(Run(r, es[..|es| - 1]), es[|es| - 1])
  }

  function ReadsIn(es: seq<Event>): nat {
    if es == [] then 0 else ReadsIn(es[..|es| - 1]) + if es[|es| - 1].Reads? then 1 else 0
  }

  /** The sweep of r is still going on after every prefix of the events. */
  ghost predicate StillSweeping(r: Root, es: seq<Event>) {
    Run(r, es).entries.Some? && (es != [] ==> StillSweeping(r, es[..|es| - 1]))
  }

  lemma {:induction false} SweepAdvances(r: Root, es: seq<Event>)
    requires r.entries.Some? && StillSweeping(r, es) && r.cursor <= |r.entries.value|
    ensures Run(r, es).entries == r.entries
    ensures r.cursor + ReadsIn(es) <= Run(r, es).cursor <= |r.entries.value|
    ensures ReadsIn(es) > 0 ==> Run(r, es).cursor < |r.entries.value|
  {
    if es != [] {
      SweepAdvances(r, es[..|es| - 1]);
      if es[|es| - 1].Reads? {
        CallAdvances(Run(r, es[..|es| - 1]), es[|es| - 1].call);
      }
    }
  }

  /** Whatever is written meanwhile, a sweep is over after as many calls as it has entries, or after one if it has none. */
  lemma {:induction false} SweepIsBounded(r: Root, es: seq<Event>)
    requires r.entries.Some? && r.cursor == 0 && StillSweeping(r, es)
    ensures ReadsIn(es) < if |r.entries.value| == 0 then 1 else |r.entries.value|
  {
    SweepAdvances(r, es);
  }

  // ----- Written meanwhile, never dropped as missing -----

  lemma {:induction false} DropMissingMeaning(records: Dict<Task>, seen: set<string>, dirty: set<string>, name: string)
    requires DistinctKeys(records)
    ensures var k := DropMissing(records, seen, dirty);
            && DistinctKeys(k) && (forall e | e in k :: e in records)
            && (Has(k, name) <==> Has(records, name) && (name in seen || name in dirty))
            && (Has(k, name) ==> Get(k, name) == Get(records, name))
  {
    if records != [] {
      var init, e := records[..|records| - 1], records[|records| - 1];
      assert records == init + [e];
      DropMissingMeaning(init, seen, dirty, name);
      var before := DropMissing(init, seen, dirty);
      forall i | 0 <= i < |before| ensures before[i].0 != e.0 {
        assert before[i] in init;
      }
      Extend(init, e, name);
      Extend(before, e, name);
    }
  }

  lemma {:induction false} Extend(d: Dict<Task>, e: (string, Task), name: string)
    ensures Has(d + [e], name) <==> Has(d, name) || e.0 == name
    ensures Has(d, name) ==> Get(d + [e], name) == Get(d, name)
    ensures !Has(d, name) && e.0 == name ==> Get(d + [e], name) == e.1
  {
    var all := d + [e];
    assert forall i | 0 <= i < |d| :: all[i] == d[i];
    assert all[|d|] == e;
    if Has(d, name) { assert all[KeyIndex(d, name)].0 == name; }
    if Has(all, name) && KeyIndex(all, name) < |d| { assert d[KeyIndex(all, name)].0 == name; }
  }

  /** Written during this sweep and still on record. */
  ghost predicate OnRecord(r: Root, name: string) {
    DistinctKeys(r.records) && Has(r.records, name) && name in r.dirty
  }

  lemma {:induction false} ScanKeepsRecord(r: Root, file: string, obs: FileObs, now: int, name: string)
    requires OnRecord(r, name) && (file == name ==> RecordOf(obs, now).Some?)
    ensures OnRecord(ScanFile(r, file, obs, now), name)
  {
    UpdateKeeps(r.records, file, RecordOf(obs, now), name);
  }

  lemma {:induction false} BatchKeepsRecord(r: Root, es: seq<string>, c: Call, scanned: nat, bytes: nat, name: string)
    requires OnRecord(r, name) && RecordOf(Look(c, name), c.now).Some?
    ensures OnRecord(Batch(r, es, c, scanned, bytes), name)
    decreases |es| - r.cursor
  {
    if GoesOn(r, es, c, scanned, bytes) {
      var obs := Look(c, es[r.cursor]);
      ScanKeepsRecord(r, es[r.cursor], obs, c.now, name);
      BatchKeepsRecord(ScanNext(r, es, c), es, c, scanned + 1, bytes + Size(obs), name);
    }
  }

  /** Whenever the scanner looks at the file, it finds a current record. */
  ghost predicate AlwaysThere(events: seq<Event>, name: string) {
    forall i | 0 <= i < |events| :: events[i].Reads? ==> RecordOf(Look(events[i].call, name), events[i].call.now).Some?
  }

  lemma {:induction false} WrittenStays(r: Root, events: seq<Event>, name: string)
    requires r.entries.Some? && OnRecord(r, name) && StillSweeping(r, events) && AlwaysThere(events, name)
    ensures OnRecord(Run(r, events), name)
  {
    if events != [] {
      var init, e := events[..|events| - 1], events[|events| - 1];
      WrittenStays(r, init, name);
      var before := Run(r, init);
      match e
      case Reads(c) => BatchKeepsRecord(before, before.entries.value, c, 0, 0, name);
      case Writes(other, task) => GetPut(before.records, other, task, name);
    }
  }

  /**
    A record written during a sweep is never dropped as missing: when the sweep
    ends, it is there, or it was finished and beyond the newest two hundred.
   */
  lemma {:induction false} WrittenIsNotMissing(r: Root, events: seq<Event>, c: Call, name: string)
    requires r.entries.Some? && OnRecord(r, name) && StillSweeping(r, events)
    requires AlwaysThere(events + [Reads(c)], name) && Read(Run(r, events), c).entries.None?
    ensures var last := Batch(Run(r, events), Run(r, events).entries.value, c, 0, 0);
            var kept := DropMissing(last.records, last.seen, last.dirty);
            && Read(Run(r, events), c).records == Compact(kept)
            && Has(kept, name)
            && (Has(Compact(kept), name) || name in Surplus(kept))
  {
    var all := events + [Reads(c)];
    assert forall i | 0 <= i < |events| :: all[i] == events[i];
    assert all[|events|] == Reads(c);
    WrittenStays(r, events, name);
    var before := Run(r, events);
    BatchKeeps(before, before.entries.value, c, 0, 0);
    BatchKeepsRecord(before, before.entries.value, c, 0, 0, name);
    var last := Batch(before, before.entries.value, c, 0, 0);
    DropMissingMeaning(last.records, last.seen, last.dirty, name);
    var kept := DropMissing(last.records, last.seen, last.dirty);
    RemoveAllMeaning(kept, Surplus(kept), name);
  }

  // ----- What the cut keeps -----

  predicate Sorted(d: Dict<Task>) {
    forall i, j | 0 <= i < j < |d| :: d[i].1.timestamp >= d[j].1.timestamp
  }

  lemma {:induction false} InsertMeaning(sorted: Dict<Task>, e: (string, Task))
    requires Sorted(sorted)
    ensures Sorted(Insert(sorted, e)) && multiset(Insert(sorted, e)) == multiset(sorted) + multiset{e}
  {
    if sorted != [] && sorted[|sorted| - 1].1.timestamp < e.1.timestamp {
      var init, last := sorted[..|sorted| - 1], sorted[|sorted| - 1];
      assert sorted == init + [last];
      InsertMeaning(init, e);
      InsertBehind(Insert(init, e), init, e, last);
    }
  }

  lemma {:induction false} InsertBehind(rest: Dict<Task>, init: Dict<Task>, e: (string, Task), last: (string, Task))
    requires Sorted(rest) && multiset(rest) == multiset(init) + multiset{e}
    requires Sorted(init + [last]) && last.1.timestamp < e.1.timestamp
    ensures Sorted(rest + [last]) && multiset(rest + [last]) == multiset(init + [last]) + multiset{e}
  {
    forall i | 0 <= i < |rest| ensures rest[i].1.timestamp >= last.1.timestamp {
      assert rest[i] in multiset(rest);
      if rest[i] != e {
        assert rest[i] in init;
        var k :| 0 <= k < |init| && init[k] == rest[i];
        assert (init + [last])[k] == init[k] && (init + [last])[|init|] == last;
      }
    }
  }

  lemma {:induction false} NewestMeaning(history: Dict<Task>)
    ensures Sorted(Newest(history)) && multiset(Newest(history)) == multiset(history)
  {
    if history != [] {
      var init, e := history[..|history| - 1], history[|history| - 1];
      assert history == init + [e];
      NewestMeaning(init);
      InsertMeaning(Newest(init), e);
    }
  }

  lemma {:induction false} FinishedMeaning(records: Dict<Task>)
    ensures forall e :: e in Finished(records) <==> e in records && !e.1.active
    ensures DistinctKeys(records) ==> DistinctKeys(Finished(records))
  {
    if records != [] {
      var init, e := records[..|records| - 1], records[|records| - 1];
      assert records == init + [e];
      FinishedMeaning(init);
      if DistinctKeys(records) {
        forall i | 0 <= i < |Finished(init)| ensures Finished(init)[i].0 != e.0 {
          assert Finished(init)[i] in init;
        }
      }
    }
  }

  lemma {:induction false} RemoveAllMeaning(records: Dict<Task>, names: seq<string>, name: string)
    requires DistinctKeys(records)
    ensures var k := RemoveAll(records, names);
            && DistinctKeys(k)
            && (Has(k, name) <==> Has(records, name) && name !in names)
            && (Has(k, name) ==> Get(k, name) == Get(records, name))
  {
    if names != [] {
      var init, last := names[..|names| - 1], names[|names| - 1];
      assert names == init + [last];
      RemoveAllMeaning(records, init, name);
      GetRemove(RemoveAll(records, init), last, name);
    }
  }

  /** The names cut from the history are distinct, finished, beyond the newest two hundred, and older than what stays. */
  ghost predicate Cut(records: Dict<Task>, kept: Dict<Task>, cut: seq<string>) {
    && (forall name :: Has(kept, name) <==> Has(records, name) && name !in cut)
    && (forall name | Has(kept, name) :: Get(kept, name) == Get(records, name))
    && (forall i, j | 0 <= i < j < |cut| :: cut[i] != cut[j])
    && (forall name | name in cut :: Has(records, name) && !Get(records, name).active)
    && (forall name, other | name in cut && other !in cut && Has(records, other) && !Get(records, other).active ::
          Get(records, other).timestamp >= Get(records, name).timestamp)
    && |cut| == (if |Finished(records)| <= HISTORY_MAX then 0 else |Finished(records)| - HISTORY_MAX)
  }

  lemma {:induction false} NewestKeepsKeys(records: Dict<Task>)
    requires DistinctKeys(records)
    ensures var sorted := Newest(Finished(records));
            && DistinctKeys(sorted) && |sorted| == |Finished(records)|
            && (forall e :: e in sorted <==> e in records && !e.1.active)
  {
    var f := Finished(records);
    var sorted := Newest(f);
    FinishedMeaning(records);
    NewestMeaning(f);
    assert |sorted| == |f| by { assert |multiset(sorted)| == |multiset(f)|; }
    forall e ensures e in sorted <==> e in f {
      assert e in multiset(sorted) <==> e in multiset(f);
    }
    DistinctFromMultiset(f, sorted);
  }

  lemma {:induction false} DistinctFromMultiset(a: Dict<Task>, b: Dict<Task>)
    requires DistinctKeys(a) && multiset(a) == multiset(b)
    ensures DistinctKeys(b)
  {
    forall i, j | 0 <= i < j < |b| ensures b[i].0 != b[j].0 {
      assert b[i] in multiset(a) && b[j] in multiset(a);
      var m :| 0 <= m < |a| && a[m] == b[i];
      var n :| 0 <= n < |a| && a[n] == b[j];
      if m == n {
        TwiceIn(b, i, j);
        OnceIn(a, m);
      }
    }
  }

  lemma {:induction false} TwiceIn(b: Dict<Task>, i: nat, j: nat)
    requires i < j < |b| && b[i] == b[j]
    ensures multiset(b)[b[i]] >= 2
  {
    assert b == b[..i] + [b[i]] + b[i + 1..j] + [b[j]] + b[j + 1..];
  }

  lemma {:induction false} OnceIn(a: Dict<Task>, m: nat)
    requires DistinctKeys(a) && m < |a|
    ensures multiset(a)[a[m]] == 1
  {
    assert a == a[..m] + [a[m]] + a[m + 1..];
    assert a[m] !in a[..m] && a[m] !in a[m + 1..];
  }

  lemma {:induction false} EntryOf(records: Dict<Task>, e: (string, Task))
    requires DistinctKeys(records) && e in records
    ensures Has(records, e.0) && Get(records, e.0) == e.1
  {
    var i :| 0 <= i < |records| && records[i] == e;
    KeyAt(records, i);
  }

  /** compactPersistedTaskRoot keeps every active task and the newest finished ones. */
  lemma {:induction false} CompactCuts(records: Dict<Task>)
    requires DistinctKeys(records)
    ensures DistinctKeys(Compact(records)) && Cut(records, Compact(records), Surplus(records))
  {
    var sorted, cut, kept := Newest(Finished(records)), Surplus(records), Compact(records);
    NewestKeepsKeys(records);
    NewestMeaning(Finished(records));
    RemoveAllMeaning(records, cut, "");
    forall name ensures (Has(kept, name) <==> Has(records, name) && name !in cut) && (Has(kept, name) ==> Get(kept, name) == Get(records, name)) && DistinctKeys(kept) {
      RemoveAllMeaning(records, cut, name);
    }
    forall name | name in cut ensures Has(records, name) && !Get(records, name).active && exists i :: HISTORY_MAX <= i < |sorted| && sorted[i].0 == name && sorted[i].1 == Get(records, name) {
      var i := CutAt(records, name);
      EntryOf(records, sorted[i]);
    }
    forall name, other | name in cut && other !in cut && Has(records, other) && !Get(records, other).active
      ensures Get(records, other).timestamp >= Get(records, name).timestamp
    {
      var i := CutAt(records, name);
      EntryOf(records, sorted[i]);
      var j := KeptAt(records, other);
    }
    CutDistinct(records);
  }

  lemma {:induction false} CutAt(records: Dict<Task>, name: string) returns (i: nat)
    requires DistinctKeys(records) && name in Surplus(records)
    ensures var sorted := Newest(Finished(records));
            HISTORY_MAX <= i < |sorted| && sorted[i].0 == name && sorted[i] in records && !sorted[i].1.active
  {
    i := SurplusIndex(records, name);
    NewestKeepsKeys(records);
    assert Newest(Finished(records))[i] in Newest(Finished(records));
  }

  lemma {:induction false} SurplusIndex(records: Dict<Task>, name: string) returns (i: nat)
    requires name in Surplus(records)
    ensures HISTORY_MAX <= i < |Newest(Finished(records))| && Newest(Finished(records))[i].0 == name
  {
    var k :| 0 <= k < |Surplus(records)| && Surplus(records)[k] == name;
    i := HISTORY_MAX + k;
    assert Newest(Finished(records))[HISTORY_MAX..][k] == Newest(Finished(records))[i];
  }

  lemma {:induction false} KeptAt(records: Dict<Task>, other: string) returns (j: nat)
    requires DistinctKeys(records) && Has(records, other) && !Get(records, other).active && other !in Surplus(records)
    ensures var sorted := Newest(Finished(records));
            j < |sorted| && j < HISTORY_MAX && sorted[j].1 == Get(records, other)
  {
    var sorted := Newest(Finished(records));
    NewestKeepsKeys(records);
    var e := records[KeyIndex(records, other)];
    assert e in records && e in sorted;
    j :| 0 <= j < |sorted| && sorted[j] == e;
    if j >= HISTORY_MAX { SurplusAt(records, j); }
  }

  lemma {:induction false} SurplusAt(records: Dict<Task>, k: nat)
    requires HISTORY_MAX <= k < |Newest(Finished(records))|
    ensures Newest(Finished(records))[k].0 in Surplus(records)
  {
    assert Surplus(records)[k - HISTORY_MAX] == Newest(Finished(records))[k].0;
  }

  lemma {:induction false} CutDistinct(records: Dict<Task>)
    requires DistinctKeys(records)
    ensures forall i, j | 0 <= i < j < |Surplus(records)| :: Surplus(records)[i] != Surplus(records)[j]
  {
    NewestKeepsKeys(records);
    var sorted := Newest(Finished(records));
    if |sorted| > HISTORY_MAX {
      assert forall i | 0 <= i < |Surplus(records)| :: Surplus(records)[i] == sorted[HISTORY_MAX + i].0;
    }
  }

  // ----- A static directory -----

  /** One plain read of every listed file. */
  function PlainRead(es: seq<string>, dir: string -> FileObs, now: int): Dict<Task> {
    if es == [] then []
    else
      var before, found := PlainRead(es[..|es| - 1], dir, now), RecordOf(dir(es[|es| - 1]), now);
      if found.Some? then Put(before, es[|es| - 1], found.value) else Remove(before, es[|es| - 1])
  }

  predicate Holds(records: Dict<Task>, name: string, found: Option<Task>) {
    (Has(records, name) <==> found.Some?) && (Has(records, name) ==> Get(records, name) == found.value)
  }

  lemma {:induction false} PlainReadMeaning(es: seq<string>, dir: string -> FileObs, now: int, name: string)
    ensures DistinctKeys(PlainRead(es, dir, now))
    ensures name in es ==> Holds(PlainRead(es, dir, now), name, RecordOf(dir(name), now))
    ensures name !in es ==> !Has(PlainRead(es, dir, now), name)
  {
    if es != [] {
      var init, last := es[..|es| - 1], es[|es| - 1];
      assert es == init + [last];
      PlainReadMeaning(init, dir, now, name);
      var before, found := PlainRead(init, dir, now), RecordOf(dir(last), now);
      if found.Some? { GetPut(before, last, found.value, name); } else { GetRemove(before, last, name); }
    }
  }

  /** The call sees this directory, and no record expires between its clock and `now`. */
  ghost predicate Sees(c: Call, dir: string -> FileObs, now: int) {
    forall name :: Look(c, name) == dir(name) && RecordOf(dir(name), c.now) == RecordOf(dir(name), now)
  }

  /** What a sweep of a static directory has done by its cursor. */
  ghost predicate SweptUpTo(r: Root, es: seq<string>, dir: string -> FileObs, now: int) {
    && r.entries == Some(es) && r.cursor <= |es| && r.dirty == {} && DistinctKeys(r.records)
    && (forall name :: name in r.seen <==> name in es[..r.cursor])
    && (forall name | name in r.seen :: Holds(r.records, name, RecordOf(dir(name), now)))
  }

  lemma {:induction false} ScanStep(r: Root, es: seq<string>, dir: string -> FileObs, now: int, c: Call)
    requires SweptUpTo(r, es, dir, now) && r.cursor < |es| && Sees(c, dir, now)
    ensures SweptUpTo(ScanNext(r, es, c), es, dir, now)
  {
    var name := es[r.cursor];
    var t := ScanFile(r, name, Look(c, name), c.now);
    assert Look(c, name) == dir(name) && RecordOf(dir(name), c.now) == RecordOf(dir(name), now);
    var found := RecordOf(dir(name), now);
    UpdateKeeps(r.records, name, found, name);
    assert es[..t.cursor] == es[..r.cursor] + [name];
    forall other | other in t.seen ensures Holds(t.records, other, RecordOf(dir(other), now)) {
      UpdateKeeps(r.records, name, found, other);
    }
  }

  lemma {:induction false} BatchSweeps(r: Root, es: seq<string>, dir: string -> FileObs, now: int, c: Call, scanned: nat, bytes: nat)
    requires SweptUpTo(r, es, dir, now) && Sees(c, dir, now)
    ensures SweptUpTo(Batch(r, es, c, scanned, bytes), es, dir, now)
    decreases |es| - r.cursor
  {
    if GoesOn(r, es, c, scanned, bytes) {
      ScanStep(r, es, dir, now, c);
      BatchSweeps(ScanNext(r, es, c), es, dir, now, c, scanned + 1, bytes + Size(Look(c, es[r.cursor])));
    }
  }

  ghost predicate StaticReads(events: seq<Event>, dir: string -> FileObs, now: int) {
    forall i | 0 <= i < |events| :: events[i].Reads? && Sees(events[i].call, dir, now)
  }

  lemma {:induction false} SweepSweeps(r: Root, es: seq<string>, events: seq<Event>, dir: string -> FileObs, now: int)
    requires SweptUpTo(r, es, dir, now) && StillSweeping(r, events) && StaticReads(events, dir, now)
    ensures SweptUpTo(Run(r, events), es, dir, now)
  {
    if events != [] {
      var init, c := events[..|events| - 1], events[|events| - 1].call;
      SweepSweeps(r, es, init, dir, now);
      BatchSweeps(Run(r, init), es, dir, now, c, 0, 0);
    }
  }

  lemma {:induction false} SameMembers(a: Dict<Task>, b: Dict<Task>)
    requires DistinctKeys(a) && DistinctKeys(b) && forall e :: e in a <==> e in b
    ensures |a| == |b|
  {
    forall e ensures multiset(a)[e] == multiset(b)[e] {
      if e in a {
        var m :| 0 <= m < |a| && a[m] == e;
        var n :| 0 <= n < |b| && b[n] == e;
        OnceIn(a, m);
        OnceIn(b, n);
      }
    }
    assert multiset(a) == multiset(b);
    assert |a| == |multiset(a)| && |b| == |multiset(b)|;
  }

  /** The same records under the same names. */
  ghost predicate SameRecords(a: Dict<Task>, b: Dict<Task>) {
    forall name :: (Has(a, name) <==> Has(b, name)) && (Has(a, name) ==> Get(a, name) == Get(b, name))
  }

  lemma {:induction false} SameFinished(a: Dict<Task>, b: Dict<Task>)
    requires DistinctKeys(a) && DistinctKeys(b) && SameRecords(a, b)
    ensures |Finished(a)| == |Finished(b)|
  {
    FinishedMeaning(a);
    FinishedMeaning(b);
    forall e ensures e in Finished(a) <==> e in Finished(b) {
      if e in a { EntryOf(a, e); assert b[KeyIndex(b, e.0)] == e; }
      if e in b { EntryOf(b, e); assert a[KeyIndex(a, e.0)] == e; }
    }
    SameMembers(Finished(a), Finished(b));
  }

  lemma {:induction false} DroppedIsPlain(r: Root, es: seq<string>, dir: string -> FileObs, now: int)
    requires SweptUpTo(r, es, dir, now) && r.cursor == |es|
    ensures var kept := DropMissing(r.records, r.seen, r.dirty);
            DistinctKeys(kept) && SameRecords(PlainRead(es, dir, now), kept)
  {
    assert es[..|es|] == es;
    DropMissingMeaning(r.records, r.seen, r.dirty, "");
    var kept, plain := DropMissing(r.records, r.seen, r.dirty), PlainRead(es, dir, now);
    forall name ensures (Has(plain, name) <==> Has(kept, name)) && (Has(plain, name) ==> Get(plain, name) == Get(kept, name)) {
      DropMissingMeaning(r.records, r.seen, r.dirty, name);
      PlainReadMeaning(es, dir, now, name);
    }
  }

  /**
    On a static directory, however the sweep was cut into calls and whatever
    the records were before, its last call returns one plain read of the listed
    files, less finished tasks beyond the newest two hundred.
   */
  lemma {:induction false} SweepIsPlainRead(r: Root, es: seq<string>, events: seq<Event>, c: Call, dir: string -> FileObs, now: int)
    returns (cut: seq<string>)
    requires DistinctKeys(r.records)
    requires var b := Begin(r, es);
             StillSweeping(b, events) && StaticReads(events, dir, now) && Sees(c, dir, now) && Read(Run(b, events), c).entries.None?
    ensures Cut(PlainRead(es, dir, now), Read(Run(Begin(r, es), events), c).records, cut)
  {
    var b := Begin(r, es);
    assert es[..0] == [];
    SweepSweeps(b, es, events, dir, now);
    var before := Run(b, events);
    BatchSweeps(before, es, dir, now, c, 0, 0);
    var last := Batch(before, es, c, 0, 0);
    DroppedIsPlain(last, es, dir, now);
    var kept, plain := DropMissing(last.records, last.seen, last.dirty), PlainRead(es, dir, now);
    CompactCuts(kept);
    PlainReadMeaning(es, dir, now, "");
    SameFinished(plain, kept);
    cut := Surplus(kept);
    CutCarries(kept, plain, Compact(kept), cut);
  }

  lemma {:induction false} CutCarries(a: Dict<Task>, b: Dict<Task>, kept: Dict<Task>, cut: seq<string>)
    requires Cut(a, kept, cut) && SameRecords(b, a) && |Finished(a)| == |Finished(b)|
    ensures Cut(b, kept, cut)
  {
  }
}
