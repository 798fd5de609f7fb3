/**
  ensureConfigV2 and rollbackConfigV2 on a disk whose process may die between
  any two writes.
 */
module EnsureConfig {
  import opened Basics
  import opened JsonValues
  import opened ConfigDocument
  import opened Resolver
  import opened ModelMutations
  import opened ConfigEdits
  import opened LegacyImport
  import opened ImportFacts
  import opened Activation
  import opened ActivationRuns
  import opened ActivationTheorems
  import opened MigrateDocument
  import opened Rollback

  method MigrateV1Scope(p: Platform, f: Files, scope: Scope, inherited: Dict<Provider>, credentials: Dict<string>)
    returns (r: Result<Imported, ImportError>)
    ensures r == MigrateScope(p, f, scope, inherited, credentials)
  {
    if f.settings.Settings? {
      return Success(Imported(f.settings.document, credentials, []));
    }
    r := MigrateRawDocument(p, LegacyData(f), scope, inherited, credentials);
  }

  lemma {:induction false} ConflictStays(stored: map<string, string>, secrets: Dict<string>, n: nat)
    requires n <= |secrets| && PlanCredentials(stored, secrets[..n]) == Failure(CredentialConflict)
    ensures PlanCredentials(stored, secrets) == Failure(CredentialConflict)
  {
    if n < |secrets| {
      var init := secrets[..|secrets| - 1];
      assert init[..n] == secrets[..n];
      ConflictStays(stored, init, n);
    } else {
      assert secrets[..n] == secrets;
    }
  }

  method PlanCredentialWrites(stored: map<string, string>, secrets: Dict<string>) returns (r: Result<seq<Write>, ActivationError>)
    ensures r == PlanCredentials(stored, secrets)
  {
    var plan: seq<Write> := [];
    for i := 0 to |secrets|
      invariant PlanCredentials(stored, secrets[..i]) == Success(plan)
    {
      assert secrets[..i + 1][..i] == secrets[..i];
      var (ref, secret) := secrets[i];
      if ref !in stored {
        plan := plan + [SetCredential(ref, secret)];
        continue;
      }
      if stored[ref] != secret {
        ConflictStays(stored, secrets, i + 1);
        return Failure(CredentialConflict);
      }
    }
    assert secrets[..|secrets|] == secrets;
    return Success(plan);
  }

  /** Everything a run decides from its snapshots before it writes. */
  method PrepareRun(p: Platform, s: Machine) returns (r: Result<(Migration, seq<Write>), ActivationError>)
    ensures r.Failure? ==> Prepare(p, s) == Failure(r.error)
    ensures r.Success? ==> Prepare(p, s) == Success(r.value.0) && r.value.1 == CredentialWrites(p, s)
  {
    if !Readable(s) {
      return Failure(InvalidSettingsFile);
    }
    var global := MigrateV1Scope(p, s.global, Global, [], []);
    if global.Failure? {
      return Failure(ImportFailed(global.error));
    }
    var project := MigrateV1Scope(p, s.project, Project, global.value.document.providers, global.value.credentials);
    if project.Failure? {
      return Failure(ImportFailed(project.error));
    }
    var m := Migration(global.value, project.value);
    if !ValidDocument(m.global.document) || !ValidDocument(m.project.document) {
      return Failure(InvalidDocuments);
    }
    if Resolve(p.host, TwoLayers(m.global.document, m.project.document)).Failure? {
      return Failure(Unresolvable);
    }
    var plan :- PlanCredentialWrites(s.credentials, Secrets(m));
    return Success((m, plan));
  }

  class Disk {
    var files: Machine
    /** How many more writes the process lives for. */
    var life: nat
    ghost var done: seq<Write>

    constructor (files: Machine, life: nat)
      ensures this.files == files && this.life == life && done == []
    {
      this.files, this.life, done := files, life, [];
    }

    /** The writes so far took the machine from one state to this one. */
    ghost predicate Since(s: Machine, life0: nat)
      reads this
    {
      files == After(s, done) && life + |done| == life0
    }

    method Perform(w: Write, ghost s: Machine, ghost life0: nat) returns (alive: bool)
      requires Since(s, life0)
      modifies this
      ensures Since(s, life0) && alive == (old(life) > 0)
      ensures done == if alive then old(done) + [w] else old(done)
    {
      if life == 0 {
        return false;
      }
      assert (done + [w])[..|done|] == done;
      files, life, done := Apply(files, w), life - 1, done + [w];
      return true;
    }

    /** Performs a list of writes until the process dies. */
    method PerformAll(ws: seq<Write>, ghost s: Machine, ghost life0: nat) returns (alive: bool)
      requires Since(s, life0)
      modifies this
      ensures Since(s, life0)
      ensures done == old(done) + (if old(life) < |ws| then ws[..old(life)] else ws)
      ensures alive == (|ws| <= old(life))
      ensures life == if alive then old(life) - |ws| else 0
    {
      ghost var before := done;
      for i := 0 to |ws|
        invariant Since(s, life0) && done == before + ws[..i] && life == old(life) - i
      {
        alive := Perform(ws[i], s, life0);
        if !alive {
          return;
        }
        assert before + ws[..i] + [ws[i]] == before + ws[..i + 1];
      }
      assert ws[..|ws|] == ws;
      return true;
    }

    /** Four phases in turn; a dead process performs nothing more. */
    method PerformPhases(a: seq<Write>, b: seq<Write>, c: seq<Write>, d: seq<Write>, ghost s: Machine) returns (alive: bool)
      requires Since(s, life) && done == []
      modifies this
      ensures var ws := a + b + c + d;
              && alive == (|ws| <= old(life))
              && files == After(s, if old(life) < |ws| then ws[..old(life)] else ws)
    {
      ghost var life0 := life;
      CutPhases(a, b, c, d, life0);
      assert done + a == a;
      alive := PerformAll(a, s, life0);
      if !alive {
        return;
      }
      alive := PerformAll(b, s, life0);
      if !alive {
        return;
      }
      alive := PerformAll(c, s, life0);
      if !alive {
        return;
      }
      alive := PerformAll(d, s, life0);
    }

    /** ensureConfigV2: one fresh read, the checks, then the writes. */
    method EnsureConfigV2(p: Platform, revision: Dict<Json> -> string, dryRun: bool, backup: bool) returns (r: Outcome)
      requires done == []
      modifies this
      ensures Prepare(p, old(files)).Failure? ==> r == Refused(Prepare(p, old(files)).error)
      ensures r.Refused? || dryRun ==> files == old(files) && done == []
      ensures Prepare(p, old(files)).Success? && !dryRun ==>
                && files == RunFor(p, revision, old(files), backup, old(life))
                && (r.Interrupted? <==> old(life) < |Writes(p, revision, old(files), backup)|)
                && (r.Migrated? ==> r.result == ResultOf(p, revision, old(files), backup))
                && (r.Unchanged? ==> Writes(p, revision, old(files), backup) == [])
    {
      var s := files;
      assert After(s, []) == s;
      var prepared := PrepareRun(p, s);
      if prepared.Failure? {
        return Refused(prepared.error);
      }
      var m, credentials := prepared.value.0, prepared.value.1;
      CredentialWritesAreSets(p, s);
      if dryRun {
        return DryRun(Refs(credentials));
      }
      if credentials == [] && SettingsWrites(s, m) == [] && LegacyWrites(s) == [] {
        NothingToWrite(revision, s, m, backup);
        return Unchanged;
      }
      var result := ResultFor(revision, s, m, credentials, backup);
      var alive := PerformPhases(Backups(revision, s, backup) + credentials, SettingsWrites(s, m), LegacyWrites(s), MarkerWrites(s, m), s);
      return if alive then Migrated(result) else Interrupted;
    }

    /** Stops at the first backup that is gone, with the documents before it restored. */
    method RollbackConfigV2(r: MigrationResult) returns (ok: bool)
      modifies this`files
      ensures ok <==> RollBack(old(files), r).Some?
      ensures ok ==> files == RollBack(old(files), r).value
      ensures !ok ==> exists n | 0 <= n < |r.backups| ::
                        r.backups[n] !in old(files).backups && Restore(old(files), r.backups[..n]) == Some(files)
    {
      var s := files;
      for i := 0 to |r.backups|
        invariant Restore(s, r.backups[..i]) == Some(files) && files.backups == s.backups
        invariant Restore(files, r.backups[i..]) == Restore(s, r.backups)
      {
        var key := r.backups[i];
        RestoreNext(s, r.backups, i, files);
        if key !in files.backups {
          return false;
        }
        files := With(files, key.0, At(files, key.0).(legacy := Some(files.backups[key])));
      }
      assert r.backups[|r.backups|..] == [];
      ghost var restored := files;
      files := files.(credentials := Cleared(files.credentials, r.credentialRefsCreated));
      ghost var cleared := files;
      for i := 0 to |r.createdSettings|
        invariant RemoveSettings(files, r.createdSettings[i..]) == RemoveSettings(cleared, r.createdSettings)
      {
        var scope := r.createdSettings[i];
        assert r.createdSettings[i..][0] == scope && r.createdSettings[i..][1..] == r.createdSettings[i + 1..];
        files := With(files, scope, At(files, scope).(settings := Missing));
      }
      ghost var removed := files;
      for i := 0 to |r.createdMarkers|
        invariant RemoveMarkers(files, r.createdMarkers[i..]) == RemoveMarkers(removed, r.createdMarkers)
      {
        var scope := r.createdMarkers[i];
        assert r.createdMarkers[i..][0] == scope && r.createdMarkers[i..][1..] == r.createdMarkers[i + 1..];
        files := With(files, scope, At(files, scope).(marker := None));
      }
      return true;
    }
  }

  /** Restoring one more document from the middle of a list. */
  lemma {:induction false} RestoreNext(s: Machine, backups: seq<(Scope, string)>, i: nat, now: Machine)
    requires i < |backups| && Restore(s, backups[..i]) == Some(now) && now.backups == s.backups
    ensures var key := backups[i];
            if key !in s.backups then Restore(now, backups[i..]).None?
            else
              var next := With(now, key.0, At(now, key.0).(legacy := Some(s.backups[key])));
              Restore(s, backups[..i + 1]) == Some(next) && Restore(now, backups[i..]) == Restore(next, backups[i + 1..])
  {
    var key := backups[i];
    assert backups[i..][0] == key && backups[i..][1..] == backups[i + 1..];
    assert backups[..i + 1] == backups[..i] + [key] && [key][1..] == [];
    RestoreAppend(s, backups[..i], [key]);
  }

  /** Without changes there is nothing to back up and no scope to mark. */
  lemma {:induction false} NothingToWrite(revision: Dict<Json> -> string, s: Machine, m: Migration, backup: bool)
    requires SettingsWrites(s, m) == [] && LegacyWrites(s) == []
    ensures PhaseWrites(revision, s, m, [], backup) == []
  {
    assert |LegacyWrites(s)| == |LegacyWrite(s, Global)| + |LegacyWrite(s, Project)|;
    assert |SettingsWrites(s, m)| == |SettingsWrite(s, m, Global)| + |SettingsWrite(s, m, Project)|;
  }

  /** Four phases cut after k writes: the phases before the cut, and a part of the one it falls in. */
  lemma {:induction false} CutPhases(a: seq<Write>, b: seq<Write>, c: seq<Write>, d: seq<Write>, k: nat)
    ensures var ws := a + b + c + d;
            && (k < |a| ==> [] + a[..k] == ws[..k])
            && (|a| <= k < |a + b| ==> a + b[..k - |a|] == ws[..k])
            && (|a + b| <= k < |a + b + c| ==> a + b + c[..k - |a + b|] == ws[..k])
            && (|a + b + c| <= k < |ws| ==> a + b + c + d[..k - |a + b + c|] == ws[..k])
  {
  }

  method ResultFor(revision: Dict<Json> -> string, s: Machine, m: Migration, credentials: seq<Write>, backup: bool) returns (r: MigrationResult)
    requires forall w | w in credentials :: w.SetCredential?
    ensures r == MigrationResult(
              if backup then BackupKey(revision, s, Global) + BackupKey(revision, s, Project) else [],
              Refs(credentials),
              Created(s, Global) + Created(s, Project),
              CreatedMarker(s, m, Global) + CreatedMarker(s, m, Project))
  {
    var createdMarkers: seq<Scope> := [];
    var scopes := [Global, Project];
    for i := 0 to |scopes|
      invariant createdMarkers == (if i > 0 then CreatedMarker(s, m, Global) else []) + (if i > 1 then CreatedMarker(s, m, Project) else [])
    {
      var scope := scopes[i];
      if !At(s, scope).settings.Missing? && !LegacyChanged(At(s, scope)) {
        continue;
      }
      if At(s, scope).marker.None? {
        createdMarkers := createdMarkers + [scope];
      }
    }
    return MigrationResult(
      if backup then BackupKey(revision, s, Global) + BackupKey(revision, s, Project) else [],
      Refs(credentials),
      Created(s, Global) + Created(s, Project),
      createdMarkers);
  }
}
