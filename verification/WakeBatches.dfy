/** Handoff reports waiting for their parent session, and the one idle timer that may start its continuation. */
module WakeBatches {
  import opened Basics

  datatype Handoff = Handoff(group: string, session: string, prompt: string)

  /** A timer of the platform, and what it will start when it fires. */
  datatype Timer = Timer(id: nat, start: nat)

  datatype Wakes = Wakes(
    batches: map<string, seq<Handoff>>,
    timers: map<string, Timer>,
    live: map<nat, string>,
    next: nat,
    started: seq<(string, nat)>)

  const NOTHING := Wakes(map[], map[], map[], 0, [])

  function Batch(w: Wakes, session: string): seq<Handoff> {
    if session in w.batches then w.batches[session] else []
  }

  predicate HasGroup(hs: seq<Handoff>, group: string) {
    exists i | 0 <= i < |hs| :: hs[i].group == group
  }

  /** noteWakeHandoff, on trimmed fields. */
  function Note(w: Wakes, h: Handoff): Wakes {
    if h.session == "" || h.group == "" || h.prompt == "" || HasGroup(Batch(w, h.session), h.group) then w
    else w.(batches := w.batches[h.session := Batch(w, h.session) + [h]])
  }

  /** takeWakeHandoffs: the batch, which is gone afterwards. */
  function Take(w: Wakes, session: string): Wakes {
    w.(batches := w.batches - {session})
  }

  /** The handoffs whose groups are not pending again. */
  function Missing(hs: seq<Handoff>, current: seq<Handoff>): seq<Handoff> {
    if hs == [] then []
    else
      var before, h := Missing(hs[..|hs| - 1], current), hs[|hs| - 1];
      if h.group != "" && !HasGroup(current, h.group) then before + [h] else before
  }

  /** restoreWakeHandoffs: what was taken goes in front. */
  function Restore(w: Wakes, session: string, hs: seq<Handoff>): Wakes {
    if session == "" || hs == [] then w
    else
      var current := Batch(w, session);
      var restored := Missing(hs, current);
      if restored == [] && current == [] then w else w.(batches := w.batches[session := restored + current])
  }

  /** scheduleIdleWakeContinuation: an existing timer keeps its time and takes the new start. */
  function Schedule(w: Wakes, session: string, start: nat): Wakes {
    if session == "" || Batch(w, session) == [] then w
    else if session in w.timers then w.(timers := w.timers[session := w.timers[session].(start := start)])
    else
      w.(timers := w.timers[session := Timer(w.next, start)], live := w.live[w.next := session], next := w.next + 1)
  }

  /** cancelIdleWakeContinuation. */
  function Cancel(w: Wakes, session: string): Wakes {
    if session !in w.timers then w
    else w.(timers := w.timers - {session}, live := w.live - {w.timers[session].id})
  }

  /** The callback of a live timer. */
  function Fire(w: Wakes, id: nat): Wakes
    requires id in w.live
  {
    var session := w.live[id];
    var fired := w.(timers := w.timers - {session}, live := w.live - {id});
    if Batch(w, session) == [] || session !in w.timers then fired
    else fired.(started := w.started + [(session, w.timers[session].start)])
  }

  class WakeStore {
    var batches: map<string, seq<Handoff>>
    var idleTimers: map<string, Timer>
    var live: map<nat, string>
    var next: nat
    var started: seq<(string, nat)>

    function Value(): Wakes
      reads this
    {
      Wakes(batches, idleTimers, live, next, started)
    }

    constructor ()
      ensures Value() == NOTHING
    {
      batches, idleTimers, live, next, started := map[], map[], map[], 0, [];
    }

    method NoteWakeHandoff(h: Handoff) returns (noted: bool)
      modifies this`batches
      ensures Value() == Note(old(Value()), h)
      ensures noted <==> Value() != old(Value())
    {
      if h.session == "" || h.group == "" || h.prompt == "" {
        return false;
      }
      var current := if h.session in batches then batches[h.session] else [];
      for i := 0 to |current|
        invariant forall j | 0 <= j < i :: current[j].group != h.group
      {
        if current[i].group == h.group {
          return false;
        }
      }
      ghost var before := Batch(Value(), h.session);
      batches := batches[h.session := current + [h]];
      assert Batch(Value(), h.session) != before;
      return true;
    }

    method TakeWakeHandoffs(session: string) returns (r: seq<Handoff>)
      modifies this`batches
      ensures Value() == Take(old(Value()), session) && r == Batch(old(Value()), session)
      ensures Batch(Value(), session) == [] && forall other | other != session :: Batch(Value(), other) == Batch(old(Value()), other)
    {
      r := if session in batches then batches[session] else [];
      batches := batches - {session};
    }

    method RestoreWakeHandoffs(session: string, hs: seq<Handoff>)
      modifies this`batches
      ensures Value() == Restore(old(Value()), session, hs)
    {
      if session == "" || hs == [] {
        return;
      }
      var current := if session in batches then batches[session] else [];
      var restored: seq<Handoff> := [];
      for i := 0 to |hs|
        invariant restored == Missing(hs[..i], current)
      {
        assert hs[..i + 1][..i] == hs[..i];
        if hs[i].group != "" && !HasGroup(current, hs[i].group) {
          restored := restored + [hs[i]];
        }
      }
      assert hs[..|hs|] == hs;
      if restored == [] && current == [] {
        return;
      }
      batches := batches[session := restored + current];
    }

    method ScheduleIdleWakeContinuation(session: string, start: nat)
      modifies this`idleTimers, this`live, this`next
      ensures Value() == Schedule(old(Value()), session, start)
    {
      if session == "" || session !in batches || batches[session] == [] {
        return;
      }
      if session in idleTimers {
        idleTimers := idleTimers[session := idleTimers[session].(start := start)];
        return;
      }
      idleTimers := idleTimers[session := Timer(next, start)];
      live := live[next := session];
      next := next + 1;
    }

    method CancelIdleWakeContinuation(session: string)
      modifies this`idleTimers, this`live
      ensures Value() == Cancel(old(Value()), session)
      ensures session !in idleTimers && forall other | other in old(idleTimers) && other != session ::
                other in idleTimers && idleTimers[other] == old(idleTimers)[other]
    {
      if session !in idleTimers {
        return;
      }
      live := live - {idleTimers[session].id};
      idleTimers := idleTimers - {session};
    }

    method TimerFired(id: nat)
      requires id in live
      modifies this`idleTimers, this`live, this`started
      ensures Value() == Fire(old(Value()), id)
    {
      var session := live[id];
      var known := session in idleTimers;
      var start := if known then idleTimers[session].start else 0;
      idleTimers := idleTimers - {session};
      live := live - {id};
      if session !in batches || batches[session] == [] {
        return;
      }
      if known {
        started := started + [(session, start)];
      }
    }
  }

  // ----- Any interleaving -----

  /** Events; a restore puts back some list that an earlier take returned. */
  datatype Event =
    | Noted(handoff: Handoff)
    | Taken(session: string)
    | Restored(session: string, take: nat)
    | Scheduled(session: string, start: nat)
    | Cancelled(session: string)
    | Fired(timer: nat)

  datatype History = History(wakes: Wakes, takes: seq<seq<Handoff>>)

  function Next(h: History, e: Event): History {
    match e
    case Noted(handoff) => h.(wakes := Note(h.wakes, handoff))
    case Taken(session) => History(Take(h.wakes, session), h.takes + [Batch(h.wakes, session)])
    case Restored(session, take) => if take < |h.takes| then h.(wakes := Restore(h.wakes, session, h.takes[take])) else h
    case Scheduled(session, start) => h.(wakes := Schedule(h.wakes, session, start))
    case Cancelled(session) => h.(wakes := Cancel(h.wakes, session))
    case Fired(timer) => if timer in h.wakes.live then h.(wakes := Fire(h.wakes, timer)) else h
  }

  function Run(es: seq<Event>): History {
    if es == [] then History(NOTHING, []) else Next(Run(es[..|es| - 1]), es[|es| - 1])
  }

  predicate Distinct(hs: seq<Handoff>) {
    && (forall i, j | 0 <= i < j < |hs| :: hs[i].group != hs[j].group)
    && (forall i | 0 <= i < |hs| :: hs[i].group != "")
  }

  lemma {:induction false} MissingMeaning(hs: seq<Handoff>, current: seq<Handoff>)
    ensures forall h :: h in Missing(hs, current) <==> h in hs && h.group != "" && !HasGroup(current, h.group)
    ensures Distinct(hs) ==> Distinct(Missing(hs, current))
  {
    if hs != [] {
      var init, h := hs[..|hs| - 1], hs[|hs| - 1];
      assert hs == init + [h];
      MissingMeaning(init, current);
      if Distinct(hs) {
        var before := Missing(init, current);
        forall i | 0 <= i < |before| ensures before[i].group != h.group {
          assert before[i] in init;
        }
      }
    }
  }

  lemma {:induction false} RestoreDistinct(hs: seq<Handoff>, current: seq<Handoff>)
    requires Distinct(hs) && Distinct(current)
    ensures Distinct(Missing(hs, current) + current)
  {
    MissingMeaning(hs, current);
    var restored := Missing(hs, current);
    forall i, j | 0 <= i < |restored| && 0 <= j < |current| ensures restored[i].group != current[j].group {
      assert restored[i] in restored;
    }
  }

  /** Distinct groups everywhere; the timer table and the live timers name each other. */
  ghost predicate Sound(h: History) {
    && (forall s | s in h.wakes.batches :: Distinct(h.wakes.batches[s]))
    && (forall k | 0 <= k < |h.takes| :: Distinct(h.takes[k]))
    && TimersMatch(h.wakes)
  }

  ghost predicate TimersMatch(w: Wakes) {
    && (forall s | s in w.timers :: w.timers[s].id in w.live && w.live[w.timers[s].id] == s)
    && (forall id | id in w.live :: id < w.next && w.live[id] in w.timers && w.timers[w.live[id]].id == id)
  }

  lemma {:induction false} ScheduleKeeps(w: Wakes, s: string, start: nat)
    requires TimersMatch(w)
    ensures TimersMatch(Schedule(w, s, start))
  {
  }

  lemma {:induction false} CancelKeeps(w: Wakes, s: string)
    requires TimersMatch(w)
    ensures TimersMatch(Cancel(w, s))
  {
  }

  lemma {:induction false} FireKeeps(w: Wakes, id: nat)
    requires TimersMatch(w) && id in w.live
    ensures TimersMatch(Fire(w, id))
  {
  }

  lemma {:induction false} NextSound(h: History, e: Event)
    requires Sound(h)
    ensures Sound(Next(h, e))
  {
    match e
    case Noted(x) =>
      if Next(h, e) != h {
        assert Distinct(Batch(h.wakes, x.session));
      }
    case Taken(s) => assert Distinct(Batch(h.wakes, s));
    case Restored(s, take) =>
      if take < |h.takes| {
        assert Distinct(Batch(h.wakes, s));
        RestoreDistinct(h.takes[take], Batch(h.wakes, s));
      }
    case Scheduled(s, start) => ScheduleKeeps(h.wakes, s, start);
    case Cancelled(s) => CancelKeeps(h.wakes, s);
    case Fired(id) => if id in h.wakes.live { FireKeeps(h.wakes, id); }
  }

  lemma {:induction false} RunSound(es: seq<Event>)
    ensures Sound(Run(es))
  {
    if es != [] {
      RunSound(es[..|es| - 1]);
      NextSound(Run(es[..|es| - 1]), es[|es| - 1]);
    }
  }

  // ----- Main results -----

  /** In every interleaving a session's pending groups are distinct. */
  lemma {:induction false} PendingGroupsDistinct(es: seq<Event>, session: string)
    ensures Distinct(Batch(Run(es).wakes, session))
  {
    RunSound(es);
  }

  /** In every interleaving at most one live timer belongs to a session. */
  lemma {:induction false} OneTimerPerSession(es: seq<Event>, a: nat, b: nat)
    requires var w := Run(es).wakes; a in w.live && b in w.live && w.live[a] == w.live[b]
    ensures a == b
  {
    RunSound(es);
  }

  /** A firing starts work exactly when its session has handoffs, and it starts what was scheduled last. */
  lemma {:induction false} FiringStartsWork(es: seq<Event>, id: nat)
    requires id in Run(es).wakes.live
    ensures var w := Run(es).wakes;
            var session := w.live[id];
            var t := Run(es + [Fired(id)]).wakes;
            && session in w.timers
            && t.started == (if Batch(w, session) == [] then w.started else w.started + [(session, w.timers[session].start)])
            && session !in t.timers && id !in t.live
  {
    RunSound(es);
    assert (es + [Fired(id)])[..|es|] == es;
  }

  /** Nothing but a firing starts work. */
  lemma {:induction false} OnlyFiringsStart(h: History, e: Event)
    ensures Next(h, e).wakes.started != h.wakes.started ==> e.Fired? && Batch(h.wakes, h.wakes.live[e.timer]) != []
  {
  }

  function Notes(w: Wakes, hs: seq<Handoff>): Wakes {
    if hs == [] then w else Note(Notes(w, hs[..|hs| - 1]), hs[|hs| - 1])
  }

  lemma {:induction false} NotesDistinct(w: Wakes, hs: seq<Handoff>, session: string)
    requires Distinct(Batch(w, session))
    ensures Distinct(Batch(Notes(w, hs), session))
  {
    if hs != [] {
      NotesDistinct(w, hs[..|hs| - 1], session);
    }
  }

  /**
    Taking a batch and restoring it, with any notes in between: no group is
    lost or doubled, what was taken and not noted again stands first in its old
    order, and what was noted meanwhile follows in its own.
   */
  lemma {:induction false} TakeThenRestore(es: seq<Event>, session: string, notes: seq<Handoff>)
    requires session != ""
    ensures var w := Run(es).wakes;
            var taken := Batch(w, session);
            var meanwhile := Notes(Take(w, session), notes);
            var noted := Batch(meanwhile, session);
            var now := Batch(Restore(meanwhile, session, taken), session);
            && now == Missing(taken, noted) + noted
            && Distinct(now)
            && (forall g :: HasGroup(now, g) <==> HasGroup(taken, g) || HasGroup(noted, g))
  {
    PendingGroupsDistinct(es, session);
    var w := Run(es).wakes;
    var meanwhile := Notes(Take(w, session), notes);
    NotesDistinct(Take(w, session), notes, session);
    RestoredTo(meanwhile, session, Batch(w, session));
    RestoredBatch(Batch(w, session), Batch(meanwhile, session));
  }

  lemma {:induction false} RestoredTo(w: Wakes, session: string, taken: seq<Handoff>)
    requires session != ""
    ensures Batch(Restore(w, session, taken), session) == Missing(taken, Batch(w, session)) + Batch(w, session)
  {
  }

  lemma {:induction false} RestoredBatch(taken: seq<Handoff>, noted: seq<Handoff>)
    requires Distinct(taken) && Distinct(noted)
    ensures var now := Missing(taken, noted) + noted;
            Distinct(now) && forall g :: HasGroup(now, g) <==> HasGroup(taken, g) || HasGroup(noted, g)
  {
    RestoreDistinct(taken, noted);
    forall g ensures HasGroup(Missing(taken, noted) + noted, g) <==> HasGroup(taken, g) || HasGroup(noted, g) {
      GroupsKept(taken, noted, g);
    }
  }

  lemma {:induction false} GroupsKept(taken: seq<Handoff>, noted: seq<Handoff>, g: string)
    requires Distinct(taken)
    ensures HasGroup(Missing(taken, noted) + noted, g) <==> HasGroup(taken, g) || HasGroup(noted, g)
  {
    MissingMeaning(taken, noted);
    var missing := Missing(taken, noted);
    var now := missing + noted;
    if HasGroup(noted, g) {
      var i :| 0 <= i < |noted| && noted[i].group == g;
      assert now[|missing| + i].group == g;
    } else if HasGroup(taken, g) {
      var i :| 0 <= i < |taken| && taken[i].group == g;
      assert taken[i] in missing;
      var k :| 0 <= k < |missing| && missing[k] == taken[i];
      assert now[k].group == g;
    }
    if HasGroup(now, g) {
      var i :| 0 <= i < |now| && now[i].group == g;
      if i < |missing| {
        assert missing[i] in missing && missing[i] in taken;
      } else {
        assert noted[i - |missing|].group == g;
      }
    }
  }
}
