/**
  The batched sweep of a registry directory: each call reads a few more of the
  listed files, and the call that reaches the end drops what is missing and
  cuts the finished history.
 */
module RegistrySweep {
  import opened Basics

  const CACHE_MS := 1_000
  const BATCH_FILES := 64
  const BATCH_BYTES := 1024 * 1024
  const RETENTION_MS := 30 * 24 * 60 * 60 * 1_000
  const HISTORY_MAX := 200

  /** A task record; whether it is active and the time that its history age counts from. */
  datatype Task = Task(id: string, active: bool, timestamp: int)

  /** What one look at a file finds; Oversized also stands for anything that is not a plain file. */
  datatype FileObs = Gone | Oversized | Sized(size: nat, task: Option<Task>)

  datatype Root = Root(
    records: Dict<Task>,
    entries: Option<seq<string>>,
    cursor: nat,
    seen: set<string>,
    dirty: set<string>,
    lastScanAt: int)

  /** One call: the clock, the directory listing if one is taken, the files, and whether time is up before the n-th file. */
  datatype Call = Call(now: int, listing: Option<seq<string>>, view: string -> FileObs, slow: nat -> bool, finishedAt: int)

  function Look(c: Call, name: string): FileObs {
    c.view(name)
  }

  predicate TimeUp(c: Call, scanned: nat) {
    c.slow(scanned)
  }

  predicate Expired(t: Task, now: int) {
    !t.active && now - t.timestamp > RETENTION_MS
  }

  /** The record a file contributes. */
  function RecordOf(obs: FileObs, now: int): Option<Task> {
    if obs.Sized? && obs.task.Some? && obs.task.value.id != "" && !Expired(obs.task.value, now) then obs.task else None
  }

  function Size(obs: FileObs): nat {
    if obs.Sized? then obs.size else 0
  }

  /** A found record takes its place among the records; otherwise the name's record goes. */
  function Update(d: Dict<Task>, name: string, found: Option<Task>): Dict<Task> {
    if d == [] then (if found.Some? then [(name, found.value)] else [])
    else if d[0].0 == name then (if found.Some? then [(name, found.value)] else []) + d[1..]
    else [d[0]] + Update(d[1..], name, found)
  }

  lemma {:induction false} IndexBehind(e: (string, Task), rest: Dict<Task>, name: string)
    requires e.0 != name
    ensures KeyIndex([e] + rest, name) == KeyIndex(rest, name) + 1
  {
    assert ([e] + rest)[1..] == rest;
  }

  lemma {:induction false} PutBehind(e: (string, Task), rest: Dict<Task>, name: string, t: Task)
    requires e.0 != name
    ensures Put([e] + rest, name, t) == [e] + Put(rest, name, t)
  {
    IndexBehind(e, rest, name);
  }

  lemma {:induction false} RemoveBehind(e: (string, Task), rest: Dict<Task>, name: string)
    requires e.0 != name
    ensures Remove([e] + rest, name) == [e] + Remove(rest, name)
  {
    var d, i := [e] + rest, KeyIndex(rest, name);
    IndexBehind(e, rest, name);
    if i < |rest| {
      assert d[..i + 1] == [e] + rest[..i];
      assert d[i + 2..] == rest[i + 1..];
    }
  }

  /** Putting and removing act behind a first entry of another name. */
  lemma {:induction false} BehindFirst(e: (string, Task), rest: Dict<Task>, name: string, t: Task)
    requires e.0 != name
    ensures Put([e] + rest, name, t) == [e] + Put(rest, name, t)
    ensures Remove([e] + rest, name) == [e] + Remove(rest, name)
  {
    PutBehind(e, rest, name, t);
    RemoveBehind(e, rest, name);
  }

  lemma {:induction false} UpdateMeaning(d: Dict<Task>, name: string, found: Option<Task>)
    ensures Update(d, name, found) == if found.Some? then Put(d, name, found.value) else Remove(d, name)
  {
    if d != [] && d[0].0 != name {
      UpdateMeaning(d[1..], name, found);
      assert d == [d[0]] + d[1..];
      BehindFirst(d[0], d[1..], name, if found.Some? then found.value else d[0].1);
    }
  }

  lemma {:induction false} UpdateKeeps(d: Dict<Task>, name: string, found: Option<Task>, other: string)
    requires DistinctKeys(d)
    ensures var u := Update(d, name, found);
            && DistinctKeys(u)
            && (Has(u, other) <==> if other == name then found.Some? else Has(d, other))
            && (Has(u, other) ==> Get(u, other) == if other == name then found.value else Get(d, other))
  {
    UpdateMeaning(d, name, found);
    if found.Some? { GetPut(d, name, found.value, other); } else { GetRemove(d, name, other); }
  }

  /** Reading one file replaces or removes its record. */
  function ScanFile(r: Root, name: string, obs: FileObs, now: int): Root {
    r.(cursor := r.cursor + 1, seen := r.seen + {name}, records := Update(r.records, name, RecordOf(obs, now)))
  }

  /** Whether a call's loop goes on to another file, after some files and bytes. */
  predicate GoesOn(r: Root, es: seq<string>, c: Call, scanned: nat, bytes: nat) {
    && r.cursor < |es| && scanned < BATCH_FILES && !(scanned > 0 && TimeUp(c, scanned))
    && !(bytes > 0 && Look(c, es[r.cursor]).Sized? && bytes + Look(c, es[r.cursor]).size > BATCH_BYTES)
  }

  function ScanNext(r: Root, es: seq<string>, c: Call): Root
    requires r.cursor < |es|
  {
    ScanFile(r, es[r.cursor], Look(c, es[r.cursor]), c.now)
  }

  /** The rest of one call's loop. */
  function Batch(r: Root, es: seq<string>, c: Call, scanned: nat, bytes: nat): Root
    decreases |es| - r.cursor
  {
    if !GoesOn(r, es, c, scanned, bytes) then r
    else Batch(ScanNext(r, es, c), es, c, scanned + 1, bytes + Size(Look(c, es[r.cursor])))
  }

  /** Records that were neither seen nor written during the sweep are gone. */
  function DropMissing(records: Dict<Task>, seen: set<string>, dirty: set<string>): Dict<Task> {
    if records == [] then []
    else
      var before, e := DropMissing(records[..|records| - 1], seen, dirty), records[|records| - 1];
      if e.0 in seen || e.0 in dirty then before + [e] else before
  }

  // ----- Cutting the history -----

  function Finished(records: Dict<Task>): Dict<Task> {
    if records == [] then []
    else
      var before, e := Finished(records[..|records| - 1]), records[|records| - 1];
      if e.1.active then before else before + [e]
  }

  /** Inserts behind everything at least as new. */
  function Insert(sorted: Dict<Task>, e: (string, Task)): Dict<Task> {
    if sorted == [] then [e]
    else if sorted[|sorted| - 1].1.timestamp >= e.1.timestamp then sorted + [e]
    else Insert(sorted[..|sorted| - 1], e) + [sorted[|sorted| - 1]]
  }

  /** Newest first, stable. */
  function Newest(history: Dict<Task>): Dict<Task> {
    if history == [] then [] else Insert(Newest(history[..|history| - 1]), history[|history| - 1])
  }

  function NamesOf(d: Dict<Task>): (names: seq<string>)
    ensures |names| == |d|
    ensures forall i | 0 <= i < |d| :: names[i] == d[i].0
  {
    seq(|d|, i requires 0 <= i < |d| => d[i].0)
  }

  function Surplus(records: Dict<Task>): seq<string> {
    var sorted := Newest(Finished(records));
    if |sorted| <= HISTORY_MAX then [] else NamesOf(sorted[HISTORY_MAX..])
  }

  function RemoveAll(records: Dict<Task>, names: seq<string>): Dict<Task> {
    if names == [] then records else Remove(RemoveAll(records, names[..|names| - 1]), names[|names| - 1])
  }

  /** compactPersistedTaskRoot. */
  function Compact(records: Dict<Task>): Dict<Task> {
    RemoveAll(records, Surplus(records))
  }

  // ----- One call -----

  function Finish(r: Root, finishedAt: int): Root {
    r.(records := Compact(DropMissing(r.records, r.seen, r.dirty)), entries := None, cursor := 0, lastScanAt := finishedAt)
  }

  function Begin(r: Root, es: seq<string>): Root {
    r.(entries := Some(es), cursor := 0, seen := {}, dirty := {})
  }

  /** The part of a call after its sweep has begun. */
  function Continue(r: Root, c: Call): Root
    requires r.entries.Some?
  {
    var after := Batch(r, r.entries.value, c, 0, 0);
    if after.cursor >= |r.entries.value| then Finish(after, c.finishedAt) else after
  }

  /** readPersistedTaskRoot; the result of the call is the records of the new state. */
  function Read(r: Root, c: Call): Root {
    if r.entries.None? && c.now - r.lastScanAt < CACHE_MS then r
    else if r.entries.Some? then Continue(r, c)
    else if c.listing.None? then r.(records := [], lastScanAt := c.now)
    else Continue(Begin(r, c.listing.value), c)
  }

  /** rememberPersistedTask. */
  function Remember(r: Root, name: string, t: Task): Root {
    r.(records := Put(r.records, name, t), dirty := if r.entries.Some? then r.dirty + {name} else r.dirty)
  }

  // ----- In place -----

  class RootState {
    var records: Dict<Task>
    var entries: Option<seq<string>>
    var cursor: nat
    var seenNames: set<string>
    var dirtyNames: set<string>
    var lastScanAt: int

    function Value(): Root
      reads this
    {
      Root(records, entries, cursor, seenNames, dirtyNames, lastScanAt)
    }

    constructor ()
      ensures Value() == Root([], None, 0, {}, {}, 0)
    {
      records, entries, cursor, seenNames, dirtyNames, lastScanAt := [], None, 0, {}, {}, 0;
    }

    method RememberPersistedTask(name: string, t: Task)
      modifies this
      ensures Value() == Remember(old(Value()), name, t)
      ensures Has(records, name) && Get(records, name) == t && (entries.Some? ==> name in dirtyNames)
    {
      GetPut(records, name, t, name);
      records := Put(records, name, t);
      if entries.Some? {
        dirtyNames := dirtyNames + {name};
      }
    }

    method ScanBatch(c: Call)
      requires entries.Some?
      modifies this
      ensures Value() == Batch(old(Value()), old(entries).value, c, 0, 0)
    {
      var es := entries.value;
      ghost var r := Value();
      ghost var target := Batch(r, es, c, 0, 0);
      var scanned: nat, bytes: nat := 0, 0;
      while cursor < |es| && scanned < BATCH_FILES
        invariant Value() == r && Batch(r, es, c, scanned, bytes) == target
        decreases |es| - cursor
      {
        var obs := Look(c, es[cursor]);
        var stop := TimeOrBytesUp(obs, c, scanned, bytes);
        if stop {
          return;
        }
        ghost var read := ScanNext(r, es, c);
        ReadOne(es[cursor], obs, c.now);
        r := read;
        scanned := scanned + 1;
        bytes := bytes + Size(obs);
      }
    }

    method TimeOrBytesUp(obs: FileObs, c: Call, scanned: nat, bytes: nat) returns (stop: bool)
      ensures stop <==> (scanned > 0 && TimeUp(c, scanned)) || (bytes > 0 && obs.Sized? && bytes + obs.size > BATCH_BYTES)
    {
      if scanned > 0 && TimeUp(c, scanned) {
        return true;
      }
      return bytes > 0 && obs.Sized? && bytes + obs.size > BATCH_BYTES;
    }

    /** One file of the listing. */
    method ReadOne(name: string, obs: FileObs, now: int)
      modifies this`cursor, this`seenNames, this`records
      ensures Value() == ScanFile(old(Value()), name, obs, now)
    {
      cursor := cursor + 1;
      seenNames := seenNames + {name};
      var found := RecordOf(obs, now);
      UpdateMeaning(records, name, found);
      if found.Some? {
        records := Put(records, name, found.value);
      } else {
        records := Remove(records, name);
      }
    }

    method DropMissingRecords()
      modifies this`records
      ensures records == DropMissing(old(records), seenNames, dirtyNames)
    {
      var kept: Dict<Task> := [];
      for i := 0 to |records|
        invariant records == old(records)
        invariant kept == DropMissing(records[..i], seenNames, dirtyNames)
      {
        assert records[..i + 1][..i] == records[..i];
        if records[i].0 in seenNames || records[i].0 in dirtyNames {
          kept := kept + [records[i]];
        }
      }
      assert records[..|records|] == records;
      records := kept;
    }

    method CompactPersistedTaskRoot()
      modifies this`records
      ensures records == Compact(old(records))
    {
      var before := records;
      var history: Dict<Task> := [];
      for i := 0 to |before|
        invariant records == before
        invariant history == Newest(Finished(before[..i]))
      {
        assert before[..i + 1][..i] == before[..i];
        if !before[i].1.active {
          var finished := Finished(before[..i]);
          assert (finished + [before[i]])[..|finished|] == finished;
          history := Insert(history, before[i]);
        }
      }
      assert before[..|before|] == before;
      if |history| > HISTORY_MAX {
        var surplus := NamesOf(history[HISTORY_MAX..]);
        for i := 0 to |surplus|
          invariant records == RemoveAll(before, surplus[..i])
        {
          assert surplus[..i + 1][..i] == surplus[..i];
          records := Remove(records, surplus[i]);
        }
        assert surplus[..|surplus|] == surplus;
      }
    }

    method ReadPersistedTaskRoot(c: Call) returns (r: Dict<Task>)
      modifies this
      ensures Value() == Read(old(Value()), c) && r == records
    {
      if entries.None? && c.now - lastScanAt < CACHE_MS {
        return records;
      }
      if entries.None? {
        if c.listing.None? {
          records := [];
          lastScanAt := c.now;
          return [];
        }
        entries := c.listing;
        cursor, seenNames, dirtyNames := 0, {}, {};
      }
      ghost var begun := Value();
      var total := |entries.value|;
      ScanBatch(c);
      BatchKeeps(begun, begun.entries.value, c, 0, 0);
      if cursor >= total {
        DropMissingRecords();
        CompactPersistedTaskRoot();
        entries, cursor, lastScanAt := None, 0, c.finishedAt;
      }
      return records;
    }
  }

  lemma {:induction false} BatchKeeps(r: Root, es: seq<string>, c: Call, scanned: nat, bytes: nat)
    ensures var a := Batch(r, es, c, scanned, bytes);
            a.entries == r.entries && a.dirty == r.dirty && a.lastScanAt == r.lastScanAt && a.cursor >= r.cursor
    decreases |es| - r.cursor
  {
    if GoesOn(r, es, c, scanned, bytes) {
      BatchKeeps(ScanNext(r, es, c), es, c, scanned + 1, bytes + Size(Look(c, es[r.cursor])));
    }
  }
}
