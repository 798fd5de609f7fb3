/** ensureConfigV2 and rollbackConfigV2 as they write to the disk, one write at a time. */
module Rollback {
  import opened Basics
  import opened JsonValues
  import opened ConfigDocument
  import opened Resolver
  import opened LegacyImport
  import opened ImportFacts
  import opened Activation
  import opened ActivationRuns
  import opened ActivationTheorems
  import opened MigrateDocument

  /** What a migration reports, and all that a rollback may rely on. */
  datatype MigrationResult = MigrationResult(
    backups: seq<(Scope, string)>,
    credentialRefsCreated: seq<string>,
    createdSettings: seq<Scope>,
    createdMarkers: seq<Scope>)

  datatype Outcome =
    | Refused(error: ActivationError)
    | DryRun(credentialRefs: seq<string>)
    | Unchanged
    | Interrupted
    | Migrated(result: MigrationResult)

  function BackupKey(revision: Dict<Json> -> string, s: Machine, scope: Scope): seq<(Scope, string)> {
    if LegacyChanged(At(s, scope)) then [(scope, revision(At(s, scope).legacy.value))] else []
  }

  function Created(s: Machine, scope: Scope): seq<Scope> {
    if At(s, scope).settings.Missing? then [scope] else []
  }

  function CreatedMarker(s: Machine, m: Migration, scope: Scope): seq<Scope> {
    if MarkerWrite(s, m, scope) != [] && At(s, scope).marker.None? then [scope] else []
  }

  function Refs(ws: seq<Write>): seq<string>
    requires forall w | w in ws :: w.SetCredential?
  {
    seq(|ws|, i requires 0 <= i < |ws| => ws[i].ref)
  }

  lemma {:induction false} CredentialWritesAreSets(p: Platform, s: Machine)
    requires Prepare(p, s).Success?
    ensures forall w | w in CredentialWrites(p, s) :: w.SetCredential?
  {
    PreparedCredentials(p, s);
    PlanCredentialsMeaning(s.credentials, Secrets(Prepare(p, s).value));
  }

  /** What an uninterrupted run from s reports. */
  function ResultOf(p: Platform, revision: Dict<Json> -> string, s: Machine, backup: bool): MigrationResult
    requires Prepare(p, s).Success?
  {
    CredentialWritesAreSets(p, s);
    var m := Prepare(p, s).value;
    MigrationResult(
      if backup then BackupKey(revision, s, Global) + BackupKey(revision, s, Project) else [],
      Refs(CredentialWrites(p, s)),
      Created(s, Global) + Created(s, Project),
      CreatedMarker(s, m, Global) + CreatedMarker(s, m, Project))
  }

  // ----- Undoing a result -----

  function Restore(s: Machine, backups: seq<(Scope, string)>): Option<Machine>
    decreases |backups|
  {
    if backups == [] then Some(s)
    else
      var key := backups[0];
      if key !in s.backups then None
      else Restore(With(s, key.0, At(s, key.0).(legacy := Some(s.backups[key]))), backups[1..])
  }

  function RemoveSettings(s: Machine, scopes: seq<Scope>): Machine
    decreases |scopes|
  {
    if scopes == [] then s
    else RemoveSettings(With(s, scopes[0], At(s, scopes[0]).(settings := Missing)), scopes[1..])
  }

  function RemoveMarkers(s: Machine, scopes: seq<Scope>): Machine
    decreases |scopes|
  {
    if scopes == [] then s
    else RemoveMarkers(With(s, scopes[0], At(s, scopes[0]).(marker := None)), scopes[1..])
  }

  function Cleared(credentials: map<string, string>, refs: seq<string>): map<string, string> {
    map ref | ref in credentials && ref !in refs :: credentials[ref]
  }

  /** rollbackConfigV2; None when a backup file is gone. */
  function RollBack(s: Machine, r: MigrationResult): Option<Machine> {
    var restored := Restore(s, r.backups);
    if restored.None? then None
    else
      var cleared := restored.value.(credentials := Cleared(restored.value.credentials, r.credentialRefsCreated));
      Some(RemoveMarkers(RemoveSettings(cleared, r.createdSettings), r.createdMarkers))
  }

  /** A backup under the document's revision, if there is one already, holds the document. */
  predicate BackupFits(revision: Dict<Json> -> string, s: Machine, scope: Scope) {
    LegacyChanged(At(s, scope)) && (scope, revision(At(s, scope).legacy.value)) in s.backups ==>
      s.backups[(scope, revision(At(s, scope).legacy.value))] == At(s, scope).legacy.value
  }

  lemma {:induction false} CredentialKeys(s: Machine, ws: seq<Write>)
    requires forall w | w in ws :: w.SetCredential?
    ensures forall ref :: ref in After(s, ws).credentials <==> ref in s.credentials || ref in Refs(ws)
    ensures forall ref | ref in After(s, ws).credentials && ref !in Refs(ws) :: After(s, ws).credentials[ref] == s.credentials[ref]
    ensures After(s, ws).(credentials := s.credentials) == s
  {
    if ws != [] {
      var init, w := ws[..|ws| - 1], ws[|ws| - 1];
      assert ws == init + [w];
      CredentialKeys(s, init);
      assert Refs(ws) == Refs(init) + [w.ref];
    }
  }

  /** The backup of one scope's document, if that document is to be stripped. */
  ghost predicate ScopeBackedUp(revision: Dict<Json> -> string, s: Machine, backups: map<(Scope, string), Dict<Json>>, scope: Scope) {
    LegacyChanged(At(s, scope)) ==>
      var key := (scope, revision(At(s, scope).legacy.value));
      key in backups && backups[key] == At(s, scope).legacy.value
  }

  ghost predicate Extends(backups: map<(Scope, string), Dict<Json>>, before: map<(Scope, string), Dict<Json>>, scope: Scope) {
    && (forall key | key in before :: key in backups && backups[key] == before[key])
    && (forall key | key in backups :: key in before || key.0 == scope)
  }

  lemma {:induction false} BackupHolds(revision: Dict<Json> -> string, s: Machine, now: Machine, scope: Scope, other: Scope)
    requires BackupFits(revision, s, scope) && other != scope
    requires Extends(now.backups, s.backups, other)
    ensures var b := After(now, BackupWrite(revision, s, scope)).backups;
            Extends(b, now.backups, scope) && ScopeBackedUp(revision, s, b, scope)
  {
    var ws := BackupWrite(revision, s, scope);
    if ws != [] { OneWrite(now, ws[0]); }
  }

  /** Backups hold what the two documents were. */
  lemma {:induction false} BackupsHold(revision: Dict<Json> -> string, s: Machine)
    requires BackupFits(revision, s, Global) && BackupFits(revision, s, Project)
    ensures BackedUp(revision, s, After(s, Backups(revision, s, true)))
  {
    var g, q := BackupWrite(revision, s, Global), BackupWrite(revision, s, Project);
    AfterAppend(s, g, q);
    BackupHolds(revision, s, s, Global, Project);
    BackupHolds(revision, s, After(s, g), Project, Global);
    var b := After(After(s, g), q);
    assert ScopeBackedUp(revision, s, b.backups, Global);
    assert ScopeBackedUp(revision, s, b.backups, Project);
  }

  lemma {:induction false} NewRefs(p: Platform, s: Machine)
    requires Prepare(p, s).Success?
    ensures forall w | w in CredentialWrites(p, s) :: w.SetCredential?
    ensures forall ref | ref in Refs(CredentialWrites(p, s)) :: ref !in s.credentials
  {
    CredentialWritesAreSets(p, s);
    var ws := CredentialWrites(p, s);
    forall ref | ref in Refs(ws) ensures ref !in s.credentials {
      var i :| 0 <= i < |ws| && Refs(ws)[i] == ref;
      OnlyMissing(s.credentials, Secrets(Prepare(p, s).value), ws[i]);
    }
  }

  lemma {:induction false} OnlyMissing(stored: map<string, string>, secrets: Dict<string>, w: Write)
    requires PlanCredentials(stored, secrets).Success? && w in PlanCredentials(stored, secrets).value
    ensures w.SetCredential? && w.ref !in stored
  {
    if secrets != [] {
      if w in PlanCredentials(stored, secrets[..|secrets| - 1]).value {
        OnlyMissing(stored, secrets[..|secrets| - 1], w);
      }
    }
  }

  /** The machine after a clean migration, in terms of the one before. */
  lemma {:induction false} CleanRun(p: Platform, revision: Dict<Json> -> string, s: Machine, backup: bool) returns (b: Machine, c: Machine)
    requires Prepare(p, s).Success?
    ensures b == After(s, Backups(revision, s, backup)) && c == After(b, CredentialWrites(p, s))
    ensures b.(backups := s.backups) == s
    ensures var m := Prepare(p, s).value;
            var t := FullRun(p, revision, s, backup);
            && t.credentials == c.credentials && t.backups == c.backups
            && t.global == Files(Stripped(s.global), Settings(m.global.document),
                                 if MarkerWrite(s, m, Global) == [] then s.global.marker else Some(MarkerOf(s, m, Global)))
            && t.project == Files(Stripped(s.project), Settings(m.project.document),
                                  if MarkerWrite(s, m, Project) == [] then s.project.marker else Some(MarkerOf(s, m, Project)))
  {
    var m, credentials := Prepare(p, s).value, CredentialWrites(p, s);
    ProgressStarts(p, s, m);
    RunIsPlanned(p, s, m, s);
    PreparedTakesExisting(p, s);
    AllPhases(revision, s, m, s, m, credentials, backup);
    BackupsPhase(s, m, revision, s, backup);
    b := After(s, Backups(revision, s, backup));
    c := After(b, credentials);
    AfterAppend(s, Backups(revision, s, backup), credentials);
  }

  /** What a rollback leaves of one scope. */
  function RolledBack(s: Machine, m: Migration, backup: bool, scope: Scope): Files {
    Files(
      if backup then At(s, scope).legacy else Stripped(At(s, scope)),
      At(s, scope).settings,
      if MarkerWrite(s, m, scope) != [] && At(s, scope).marker.Some? then Some(MarkerOf(s, m, scope)) else At(s, scope).marker)
  }

  lemma {:induction false} FirstOfBoth<T>(a: seq<T>, b: seq<T>)
    requires a != []
    ensures (a + b)[0] == a[0] && (a + b)[1..] == a[1..] + b
  {
  }

  lemma {:induction false} RestoreAppend(t: Machine, a: seq<(Scope, string)>, b: seq<(Scope, string)>)
    requires Restore(t, a).Some?
    ensures Restore(t, a + b) == Restore(Restore(t, a).value, b)
    decreases |a|
  {
    if a == [] {
      assert a + b == b;
    } else {
      FirstOfBoth(a, b);
      RestoreAppend(With(t, a[0].0, At(t, a[0].0).(legacy := Some(t.backups[a[0]]))), a[1..], b);
    }
  }

  lemma {:induction false} RestoreScope(revision: Dict<Json> -> string, s: Machine, t: Machine, scope: Scope)
    requires At(t, scope).legacy == Stripped(At(s, scope)) && ScopeBackedUp(revision, s, t.backups, scope)
    ensures Restore(t, BackupKey(revision, s, scope)) == Some(With(t, scope, At(t, scope).(legacy := At(s, scope).legacy)))
  {
    var keys := BackupKey(revision, s, scope);
    if keys != [] {
      assert keys[1..] == [];
    }
  }

  lemma {:induction false} RestoreBoth(revision: Dict<Json> -> string, s: Machine, t: Machine)
    requires t.global.legacy == Stripped(s.global) && t.project.legacy == Stripped(s.project)
    requires BackedUp(revision, s, t)
    ensures Restore(t, BackupKey(revision, s, Global) + BackupKey(revision, s, Project))
            == Some(t.(global := t.global.(legacy := s.global.legacy), project := t.project.(legacy := s.project.legacy)))
  {
    var u := With(t, Global, At(t, Global).(legacy := s.global.legacy));
    RestoreScope(revision, s, t, Global);
    RestoreScope(revision, s, u, Project);
    RestoreAppend(t, BackupKey(revision, s, Global), BackupKey(revision, s, Project));
  }

  lemma {:induction false} RemoveSettingsAppend(u: Machine, a: seq<Scope>, b: seq<Scope>)
    ensures RemoveSettings(u, a + b) == RemoveSettings(RemoveSettings(u, a), b)
    decreases |a|
  {
    if a == [] {
      assert a + b == b;
    } else {
      FirstOfBoth(a, b);
      RemoveSettingsAppend(With(u, a[0], At(u, a[0]).(settings := Missing)), a[1..], b);
    }
  }

  lemma {:induction false} RemoveMarkersAppend(u: Machine, a: seq<Scope>, b: seq<Scope>)
    ensures RemoveMarkers(u, a + b) == RemoveMarkers(RemoveMarkers(u, a), b)
    decreases |a|
  {
    if a == [] {
      assert a + b == b;
    } else {
      FirstOfBoth(a, b);
      RemoveMarkersAppend(With(u, a[0], At(u, a[0]).(marker := None)), a[1..], b);
    }
  }

  lemma {:induction false} RemoveOne(u: Machine, scope: Scope)
    ensures RemoveSettings(u, [scope]) == With(u, scope, At(u, scope).(settings := Missing))
    ensures RemoveMarkers(u, [scope]) == With(u, scope, At(u, scope).(marker := None))
  {
    assert [scope][1..] == [];
  }

  lemma {:induction false} RemoveSettingsBoth(s: Machine, u: Machine)
    ensures RemoveSettings(u, Created(s, Global) + Created(s, Project))
            == u.(global := u.global.(settings := if s.global.settings.Missing? then Missing else u.global.settings),
                  project := u.project.(settings := if s.project.settings.Missing? then Missing else u.project.settings))
  {
    RemoveSettingsAppend(u, Created(s, Global), Created(s, Project));
    RemoveOne(u, Global);
    RemoveOne(RemoveSettings(u, Created(s, Global)), Project);
  }

  lemma {:induction false} RemoveMarkersBoth(s: Machine, m: Migration, u: Machine)
    ensures RemoveMarkers(u, CreatedMarker(s, m, Global) + CreatedMarker(s, m, Project))
            == u.(global := u.global.(marker := if CreatedMarker(s, m, Global) != [] then None else u.global.marker),
                  project := u.project.(marker := if CreatedMarker(s, m, Project) != [] then None else u.project.marker))
  {
    RemoveMarkersAppend(u, CreatedMarker(s, m, Global), CreatedMarker(s, m, Project));
    RemoveOne(u, Global);
    RemoveOne(RemoveMarkers(u, CreatedMarker(s, m, Global)), Project);
  }

  /** The store without the created references is the store before. */
  lemma {:induction false} ClearedStore(p: Platform, s: Machine, b: Machine, c: Machine)
    requires Prepare(p, s).Success? && b.credentials == s.credentials && c == After(b, CredentialWrites(p, s))
    ensures forall w | w in CredentialWrites(p, s) :: w.SetCredential?
    ensures Cleared(c.credentials, Refs(CredentialWrites(p, s))) == s.credentials
    ensures c.backups == b.backups
  {
    NewRefs(p, s);
    CredentialKeys(b, CredentialWrites(p, s));
  }

  lemma {:induction false} UndoSettings(s: Machine, m: Migration, t: Machine, restored: Machine, backup: bool)
    requires t.global.settings == Settings(m.global.document) && t.project.settings == Settings(m.project.document)
    requires TakesExisting(s, m)
    requires restored.global == Files(if backup then s.global.legacy else Stripped(s.global), t.global.settings,
                                      if MarkerWrite(s, m, Global) == [] then s.global.marker else Some(MarkerOf(s, m, Global)))
    requires restored.project == Files(if backup then s.project.legacy else Stripped(s.project), t.project.settings,
                                       if MarkerWrite(s, m, Project) == [] then s.project.marker else Some(MarkerOf(s, m, Project)))
    ensures RemoveMarkers(RemoveSettings(restored, Created(s, Global) + Created(s, Project)),
                          CreatedMarker(s, m, Global) + CreatedMarker(s, m, Project))
            == Machine(RolledBack(s, m, backup, Global), RolledBack(s, m, backup, Project), restored.credentials, restored.backups)
  {
    RemoveSettingsBoth(s, restored);
    RemoveMarkersBoth(s, m, RemoveSettings(restored, Created(s, Global) + Created(s, Project)));
  }

  /** A machine after a clean run, and the result that run reports. */
  ghost predicate CleanlyMigrated(s: Machine, m: Migration, t: Machine, refs: seq<string>) {
    && t.global == Files(Stripped(s.global), Settings(m.global.document),
                         if MarkerWrite(s, m, Global) == [] then s.global.marker else Some(MarkerOf(s, m, Global)))
    && t.project == Files(Stripped(s.project), Settings(m.project.document),
                          if MarkerWrite(s, m, Project) == [] then s.project.marker else Some(MarkerOf(s, m, Project)))
    && Cleared(t.credentials, refs) == s.credentials
  }

  ghost predicate BackedUp(revision: Dict<Json> -> string, s: Machine, t: Machine) {
    ScopeBackedUp(revision, s, t.backups, Global) && ScopeBackedUp(revision, s, t.backups, Project)
  }

  lemma {:induction false} UndoResult(revision: Dict<Json> -> string, s: Machine, m: Migration, t: Machine, refs: seq<string>, backup: bool)
    requires TakesExisting(s, m) && CleanlyMigrated(s, m, t, refs)
    requires backup ==> BackedUp(revision, s, t)
    ensures RollBack(t, MigrationResult(
              if backup then BackupKey(revision, s, Global) + BackupKey(revision, s, Project) else [], refs,
              Created(s, Global) + Created(s, Project), CreatedMarker(s, m, Global) + CreatedMarker(s, m, Project)))
            == Some(Machine(RolledBack(s, m, backup, Global), RolledBack(s, m, backup, Project), s.credentials, t.backups))
  {
    var keys := if backup then BackupKey(revision, s, Global) + BackupKey(revision, s, Project) else [];
    var restored := t.(
      global := t.global.(legacy := if backup then s.global.legacy else t.global.legacy),
      project := t.project.(legacy := if backup then s.project.legacy else t.project.legacy));
    if backup {
      RestoreBoth(revision, s, t);
    }
    assert Restore(t, keys) == Some(restored);
    UndoSettings(s, m, t, restored.(credentials := s.credentials), backup);
  }

  /**
    Rolling back a clean migration: settings and secrets are exactly what they
    were, the V1 documents too when backups were made, and of the markers only
    one that existed before and was rewritten is not restored.
   */
  lemma {:induction false} RollbackRestores(p: Platform, revision: Dict<Json> -> string, s: Machine, backup: bool)
    requires Prepare(p, s).Success? && (backup ==> BackupFits(revision, s, Global) && BackupFits(revision, s, Project))
    ensures var t, m := FullRun(p, revision, s, backup), Prepare(p, s).value;
            RollBack(t, ResultOf(p, revision, s, backup))
            == Some(Machine(RolledBack(s, m, backup, Global), RolledBack(s, m, backup, Project), s.credentials, t.backups))
  {
    var m, t := Prepare(p, s).value, FullRun(p, revision, s, backup);
    var b, c := CleanRun(p, revision, s, backup);
    ClearedStore(p, s, b, c);
    if backup {
      BackupsHold(revision, s);
    }
    PreparedTakesExisting(p, s);
    UndoResult(revision, s, m, t, Refs(CredentialWrites(p, s)), backup);
  }

  /**
    A migration is undone completely, backups aside, exactly when every marker
    it rewrote either did not exist or already said the same, and it made
    backups or stripped nothing.
   */
  lemma {:induction false} RollbackIsCompleteIff(p: Platform, revision: Dict<Json> -> string, s: Machine, backup: bool)
    requires Prepare(p, s).Success? && (backup ==> BackupFits(revision, s, Global) && BackupFits(revision, s, Project))
    ensures var u := RollBack(FullRun(p, revision, s, backup), ResultOf(p, revision, s, backup));
            var m := Prepare(p, s).value;
            u.Some? && (u.value.(backups := s.backups) == s <==>
              Restorable(s, m, backup, Global) && Restorable(s, m, backup, Project))
  {
    RollbackRestores(p, revision, s, backup);
    var m := Prepare(p, s).value;
    ScopeRestoredIff(s, m, backup, Global);
    ScopeRestoredIff(s, m, backup, Project);
    var u := RollBack(FullRun(p, revision, s, backup), ResultOf(p, revision, s, backup)).value;
    assert u.(backups := s.backups) == s <==> u.global == s.global && u.project == s.project;
  }

  predicate Restorable(s: Machine, m: Migration, backup: bool, scope: Scope) {
    && (backup || !LegacyChanged(At(s, scope)))
    && (MarkerWrite(s, m, scope) != [] && At(s, scope).marker.Some? ==> At(s, scope).marker == Some(MarkerOf(s, m, scope)))
  }

  lemma {:induction false} ScopeRestoredIff(s: Machine, m: Migration, backup: bool, scope: Scope)
    ensures RolledBack(s, m, backup, scope) == At(s, scope) <==> Restorable(s, m, backup, scope)
  {
  }

  /** Without backups the V1 document stays stripped of what it said. */
  lemma {:induction false} StrippedForGood(p: Platform, revision: Dict<Json> -> string)
    ensures var s := Unstripped(None);
            && s.global.legacy == Some(V1_DOCUMENT) && Prepare(p, s).Success?
            && var u := RollBack(FullRun(p, revision, s, false), ResultOf(p, revision, s, false));
               u.Some? && u.value.global.legacy == Some([])
  {
    UnstrippedPrepares(p, None);
    RollbackRestores(p, revision, Unstripped(None), false);
  }

  /** An older marker stays rewritten, backups or not. */
  lemma {:induction false} RewrittenForGood(p: Platform, revision: Dict<Json> -> string, backup: bool)
    ensures var older := Marker(None, EMPTY_DOCUMENT, None, [], multiset{});
            var s := Unstripped(Some(older));
            && Prepare(p, s).Success?
            && var u := RollBack(FullRun(p, revision, s, backup), ResultOf(p, revision, s, backup));
               u.Some? && u.value.global.marker.Some? && u.value.global.marker != Some(older)
  {
    var older := Marker(None, EMPTY_DOCUMENT, None, [], multiset{});
    UnstrippedPrepares(p, Some(older));
    RollbackRestores(p, revision, Unstripped(Some(older)), backup);
  }
}
