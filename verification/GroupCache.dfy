/**
  The shared list cache of task groups: writers change files and then mark the
  cache dirty, list calls are served from the cache or share one scan, and the
  scan reads files one by one while all of this goes on.
 */
module GroupCache {
  import opened Basics

  const CACHE_MS := 500

  /** A file holds a group or something that does not parse. */
  datatype File<G> = Group(group: G) | Broken

  type Groups<G> = map<string, G>

  /** The cache entry of one root; loadedAt is zero until a scan has been stored. */
  datatype Entry<G> = Entry(groups: Groups<G>, loadedAt: nat, inFlight: Option<nat>, dirty: bool)

  predicate Servable<G>(e: Entry<G>) {
    !e.dirty && e.loadedAt > 0
  }

  predicate Serves<G>(e: Entry<G>, now: nat) {
    Servable(e) && now - e.loadedAt <= CACHE_MS
  }

  function NewEntry<G>(): Entry<G> {
    Entry(map[], 0, None, false)
  }

  /** How a list call is answered: at once, or by a scan that is shared or started for it. */
  datatype Ticket<G> = Served(groups: Groups<G>) | Waits(scan: nat)

  /** loadGroupList; a scan in flight is shared even when the cache is dirty. */
  function Load<G>(e: Entry<G>, now: nat, next: nat): (Entry<G>, Ticket<G>) {
    if Serves(e, now) then (e, Served(e.groups))
    else if e.inFlight.Some? then (e, Waits(e.inFlight.value))
    else (e.(dirty := false, inFlight := Some(next)), Waits(next))
  }

  function Invalidated<G>(e: Entry<G>): Entry<G> {
    e.(dirty := true, loadedAt := 0)
  }

  /** A finished scan is stored unless the cache became dirty meanwhile. */
  function StoreScan<G>(e: Entry<G>, groups: Groups<G>, now: nat): Entry<G> {
    if e.dirty then e else e.(groups := groups, loadedAt := now)
  }

  function ClearScan<G>(e: Entry<G>, scan: nat): Entry<G> {
    if e.inFlight == Some(scan) then e.(inFlight := None) else e
  }

  class GroupListCache<G> {
    var groups: Groups<G>
    var loadedAt: nat
    var inFlight: Option<nat>
    var dirty: bool

    function Value(): Entry<G>
      reads this
    {
      Entry(groups, loadedAt, inFlight, dirty)
    }

    constructor ()
      ensures Value() == NewEntry()
    {
      groups, loadedAt, inFlight, dirty := map[], 0, None, false;
    }

    method LoadGroupList(now: nat, next: nat) returns (ticket: Ticket<G>)
      modifies this
      ensures (Value(), ticket) == Load(old(Value()), now, next)
      ensures ticket.Served? ==> Serves(Value(), now) && ticket.groups == groups
      ensures ticket.Waits? ==> !Serves(old(Value()), now) && inFlight == Some(ticket.scan)
    {
      if !dirty && loadedAt > 0 && now - loadedAt <= CACHE_MS {
        return Served(groups);
      }
      if inFlight.Some? {
        return Waits(inFlight.value);
      }
      dirty := false;
      inFlight := Some(next);
      return Waits(next);
    }

    method InvalidateGroupListCache()
      modifies this
      ensures Value() == Invalidated(old(Value()))
      ensures !Servable(Value()) && inFlight == old(inFlight)
    {
      dirty := true;
      loadedAt := 0;
    }

    method ScanFinished(result: Groups<G>, now: nat)
      modifies this
      ensures Value() == StoreScan(old(Value()), result, now)
      ensures Servable(Value()) && now > 0 ==> groups == result
    {
      if !dirty {
        groups := result;
        loadedAt := now;
      }
    }

    method ScanSettled(scan: nat)
      modifies this
      ensures Value() == ClearScan(old(Value()), scan)
    {
      if inFlight == Some(scan) {
        inFlight := None;
      }
    }
  }

  // ----- The process -----

  /**
    A scan: the names its directory listing gave, the files it has read, the
    callers that wait for it, its result once it has settled, and every name
    that was written since it started.
   */
  datatype Scan<G> = Scan(
    listed: Option<set<string>>,
    read: map<string, File<G>>,
    waiters: set<nat>,
    result: Option<Answer<G>>,
    touched: set<string>)

  datatype Answer<G> = Listed(groups: Groups<G>) | Rejected

  /** Writers between their disk write and their invalidation are pending on a file. */
  datatype Process<G> = Process(
    dir: map<string, File<G>>,
    pending: map<nat, string>,
    cache: Option<Entry<G>>,
    scans: map<nat, Scan<G>>,
    started: nat,
    answers: map<nat, Answer<G>>)

  datatype Event<G> =
    | DiskWrite(writer: nat, name: string, file: File<G>)
    | Invalidate(writer: nat)
    | List(caller: nat, now: nat)
    | Abort(caller: nat)
    | ReadDir(scan: nat)
    | ReadFile(scan: nat, name: string)
    | Store(scan: nat, now: nat)
    | Fail(scan: nat)
    | Clear(scan: nat)

  function Pending<G>(p: Process<G>): set<string> {
    p.pending.Values
  }

  /** The groups of the files that parse. */
  function Parsed<G>(files: map<string, File<G>>): Groups<G> {
    map name | name in files && files[name].Group? :: files[name].group
  }

  predicate Complete<G>(s: Scan<G>) {
    s.listed.Some? && s.read.Keys == s.listed.value
  }

  /** Which events can happen: a scan lists, reads what it listed, settles, and is then cleared. */
  predicate Enabled<G>(p: Process<G>, e: Event<G>) {
    match e
    case DiskWrite(writer, _, _) => writer !in p.pending
    case Invalidate(writer) => writer in p.pending
    case List(caller, _) => caller !in p.answers && forall id | id in p.scans :: caller !in p.scans[id].waiters
    case Abort(caller) => exists id | id in p.scans :: caller in p.scans[id].waiters
    case ReadDir(scan) => scan in p.scans && p.scans[scan].listed.None?
    case ReadFile(scan, name) => scan in p.scans && p.scans[scan].listed.Some? && name in p.scans[scan].listed.value && name !in p.scans[scan].read
    case Store(scan, now) => scan in p.scans && p.scans[scan].result.None? && Complete(p.scans[scan]) && now > 0
    case Fail(scan) => scan in p.scans && p.scans[scan].result.None? && p.scans[scan].listed.None?
    case Clear(scan) => scan in p.scans && p.scans[scan].result.Some?
  }

  function Touch<G>(scans: map<nat, Scan<G>>, name: string): map<nat, Scan<G>> {
    map id | id in scans :: scans[id].(touched := scans[id].touched + {name})
  }

  function Leave<G>(scans: map<nat, Scan<G>>, caller: nat): map<nat, Scan<G>> {
    map id | id in scans :: scans[id].(waiters := scans[id].waiters - {caller})
  }

  function AnswerAll<G>(answers: map<nat, Answer<G>>, callers: set<nat>, a: Answer<G>): map<nat, Answer<G>> {
    map c | c in answers.Keys + callers :: if c in callers then a else answers[c]
  }

  /** The file a directory read finds; a name that is gone or unreadable counts as broken. */
  function FileAt<G>(dir: map<string, File<G>>, name: string): File<G> {
    if name in dir then dir[name] else Broken
  }

  function ListStep<G>(p: Process<G>, caller: nat, now: nat): Process<G> {
    var entry := if p.cache.Some? then p.cache.value else NewEntry();
    var loaded := Load(entry, now, p.started);
    match loaded.1
    case Served(groups) => p.(cache := Some(loaded.0), answers := p.answers[caller := Listed(groups)])
    case Waits(scan) =>
      if scan in p.scans && p.scans[scan].result.Some? then
        p.(cache := Some(loaded.0), answers := p.answers[caller := p.scans[scan].result.value])
      else if scan in p.scans then
        p.(cache := Some(loaded.0), scans := p.scans[scan := p.scans[scan].(waiters := p.scans[scan].waiters + {caller})])
      else
        p.(cache := Some(loaded.0), started := p.started + 1,
           scans := p.scans[scan := Scan(None, map[], {caller}, None, {})])
  }

  function Step<G>(p: Process<G>, e: Event<G>): Process<G>
    requires Enabled(p, e)
  {
    match e
    case DiskWrite(writer, name, file) =>
      p.(dir := p.dir[name := file], pending := p.pending[writer := name], scans := Touch(p.scans, name))
    case Invalidate(writer) =>
      p.(pending := p.pending - {writer}, cache := if p.cache.Some? then Some(Invalidated(p.cache.value)) else None)
    case List(caller, now) => ListStep(p, caller, now)
    case Abort(caller) => p.(scans := Leave(p.scans, caller), answers := p.answers[caller := Rejected])
    case ReadDir(scan) => p.(scans := p.scans[scan := p.scans[scan].(listed := Some(p.dir.Keys))])
    case ReadFile(scan, name) =>
      p.(scans := p.scans[scan := p.scans[scan].(read := p.scans[scan].read[name := FileAt(p.dir, name)])])
    case Store(scan, now) =>
      var s := p.scans[scan];
      var groups := Parsed(s.read);
      p.(cache := if p.cache.Some? then Some(StoreScan(p.cache.value, groups, now)) else None,
         scans := p.scans[scan := s.(result := Some(Listed(groups)), waiters := {})],
         answers := AnswerAll(p.answers, s.waiters, Listed(groups)))
    case Fail(scan) =>
      var s := p.scans[scan];
      p.(scans := p.scans[scan := s.(result := Some(Rejected), waiters := {})], answers := AnswerAll(p.answers, s.waiters, Rejected))
    case Clear(scan) =>
      p.(cache := if p.cache.Some? then Some(ClearScan(p.cache.value, scan)) else None, scans := p.scans - {scan})
  }

  /** Events that cannot happen are ignored, so that every list of events is a history. */
  function Next<G>(p: Process<G>, e: Event<G>): Process<G> {
    if Enabled(p, e) then Step(p, e) else p
  }

  /** The process after any interleaving, from any directory and with no cache. */
  function Run<G>(dir: map<string, File<G>>, es: seq<Event<G>>): Process<G> {
    if es == [] then Process(dir, map[], None, map[], 0, map[]) else Next(Run(dir, es[..|es| - 1]), es[|es| - 1])
  }
}
