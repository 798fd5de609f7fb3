/** Convergence, ordering, secrets and markers over every sequence of crashes; the explicit rollback. */
module ActivationTheorems {
  import Acceptance
  import opened Basics
  import opened JsonValues
  import opened ConfigDocument
  import opened Resolver
  import opened LegacyImport
  import opened ImportFacts
  import opened Activation
  import opened ActivationRuns

  /** Everything but markers and backups is where the migration of s0 wants it. */
  ghost predicate AtTarget(s0: Machine, m: Migration, t: Machine) {
    && t.global.settings == Settings(m.global.document) && t.project.settings == Settings(m.project.document)
    && t.global.legacy == Stripped(s0.global) && t.project.legacy == Stripped(s0.project)
    && StoreBetween(s0.credentials, Secrets(m), t.credentials) && Stored(t.credentials, Secrets(m))
  }

  lemma {:induction false} StrippedIsFinal(f: Files)
    ensures Stripped(f).Some? ==> Stripped(f).value == Strip(Stripped(f).value)
  {
    if f.legacy.Some? { StripFinal(f.legacy.value); }
  }

  lemma {:induction false} ProgressStarts(p: Platform, s0: Machine, m: Migration)
    ensures Progress(s0, m, s0)
  {
  }

  // ----- One run from a state on the way -----

  /** What a run from s has to work with: the same documents, and legal credential writes that complete the store. */
  ghost predicate Planned(s0: Machine, m: Migration, s: Machine, again: Migration, credentials: seq<Write>) {
    && Readable(s)
    && again.global.document == m.global.document && again.project.document == m.project.document
    && (forall w | w in credentials :: w.SetCredential? && Legal(s0, m, s, w))
    && (forall ref | Has(Secrets(m), ref) :: StoredOrWritten(s, m, credentials, ref))
  }

  ghost predicate StoredOrWritten(s: Machine, m: Migration, credentials: seq<Write>, ref: string)
    requires Has(Secrets(m), ref)
  {
    || (ref in s.credentials && s.credentials[ref] == Get(Secrets(m), ref))
    || SetCredential(ref, Get(Secrets(m), ref)) in credentials
  }

  lemma {:induction false} PlannedWrite(s0: Machine, m: Migration, s: Machine, secrets: Dict<string>, w: Write)
    requires DistinctKeys(secrets) && DistinctKeys(Secrets(m))
    requires forall ref | Has(secrets, ref) :: Has(Secrets(m), ref) && Get(secrets, ref) == Get(Secrets(m), ref)
    requires PlanCredentials(s0.credentials, Secrets(m)).Success?
    requires PlanCredentials(s.credentials, secrets).Success? && w in PlanCredentials(s.credentials, secrets).value
    ensures w.SetCredential? && Legal(s0, m, s, w)
  {
    PlanCredentialsMeaning(s.credentials, secrets);
    PlanCredentialsMeaning(s0.credentials, Secrets(m));
    var i :| 0 <= i < |secrets| && secrets[i] == (w.ref, w.secret);
    KeyAt(secrets, i);
    assert Has(secrets, w.ref);
    var j := KeyIndex(Secrets(m), w.ref);
    assert Secrets(m)[j].0 == w.ref;
  }

  lemma {:induction false} PlanCovers(m: Migration, s: Machine, ref: string)
    requires DistinctKeys(Secrets(m)) && PlanCredentials(s.credentials, Secrets(m)).Success? && Has(Secrets(m), ref)
    ensures StoredOrWritten(s, m, PlanCredentials(s.credentials, Secrets(m)).value, ref)
  {
    PlanCredentialsMeaning(s.credentials, Secrets(m));
    var i := KeyIndex(Secrets(m), ref);
    assert Secrets(m)[i].0 == ref;
  }

  lemma {:induction false} RunIsPlanned(p: Platform, s0: Machine, m: Migration, s: Machine)
    requires Prepare(p, s0) == Success(m) && Progress(s0, m, s)
    ensures Prepare(p, s).Success? && Planned(s0, m, s, Prepare(p, s).value, CredentialWrites(p, s))
  {
    PrepareAgain(p, s0, m, s);
    PreparedCredentials(p, s0);
    PreparedCredentials(p, s);
    var again, credentials := Prepare(p, s).value, CredentialWrites(p, s);
    forall w | w in credentials ensures w.SetCredential? && Legal(s0, m, s, w) {
      PlannedWrite(s0, m, s, Secrets(again), w);
    }
    forall ref | Has(Secrets(m), ref) ensures StoredOrWritten(s, m, credentials, ref) {
      if Secrets(again) == Secrets(m) {
        PlanCovers(again, s, ref);
      }
    }
  }

  /** After the first two phases every secret is stored and nothing else has moved. */
  lemma {:induction false} SecretsFirst(
    revision: Dict<Json> -> string, s0: Machine, m: Migration, s: Machine, again: Migration, credentials: seq<Write>, backup: bool)
    ensures Planned(s0, m, s, again, credentials) ==>
              var ws := Backups(revision, s, backup) + credentials;
              var c := After(s, ws);
              && AllLegal(s0, m, s, ws)
              && c.global == s.global && c.project == s.project && Stored(c.credentials, Secrets(m))
  {
    if Planned(s0, m, s, again, credentials) {
      var a := Backups(revision, s, backup);
      BackupsPhase(s0, m, revision, s, backup);
      var mid := After(s, a);
      CredentialsPhase(s0, m, mid, credentials);
      AllLegalAppend(s0, m, s, a, credentials);
      AfterAppend(s, a, credentials);
      var c := After(mid, credentials);
      forall ref | Has(Secrets(m), ref) ensures ref in c.credentials && c.credentials[ref] == Get(Secrets(m), ref) {
        assert StoredOrWritten(s, m, credentials, ref);
        var w := SetCredential(ref, Get(Secrets(m), ref));
        assert w in credentials ==> w.ref in c.credentials;
        StaysOrSet(s0, m, mid, credentials, c, ref);
      }
    }
  }

  /** A stored secret that is written is written with the same value. */
  lemma {:induction false} StaysOrSet(s0: Machine, m: Migration, s: Machine, credentials: seq<Write>, c: Machine, ref: string)
    requires c == After(s, credentials) && ref in c.credentials && Has(Secrets(m), ref)
    requires forall w | w in credentials :: w.SetCredential? && Legal(s0, m, s, w)
    requires ref in s.credentials ==>
               s.credentials[ref] == Get(Secrets(m), ref) || SetCredential(ref, Get(Secrets(m), ref)) in credentials
    ensures c.credentials[ref] == Get(Secrets(m), ref)
  {
    CredentialsPhase(s0, m, s, credentials);
    if SetCredential(ref, Get(Secrets(m), ref)) in credentials {
      LastWriteStays(s0, m, s, credentials, ref);
    }
  }

  lemma {:induction false} LastWriteStays(s0: Machine, m: Migration, s: Machine, credentials: seq<Write>, ref: string)
    requires Has(Secrets(m), ref) && SetCredential(ref, Get(Secrets(m), ref)) in credentials
    requires forall w | w in credentials :: w.SetCredential? && Legal(s0, m, s, w)
    ensures ref in After(s, credentials).credentials && After(s, credentials).credentials[ref] == Get(Secrets(m), ref)
  {
    var init, w := credentials[..|credentials| - 1], credentials[|credentials| - 1];
    assert credentials == init + [w];
    if w.ref != ref {
      LastWriteStays(s0, m, s, init, ref);
    }
  }

  /** The machine once settings and V1 documents have been written. */
  function Settled(s0: Machine, m: Migration, s: Machine, c: Machine): Machine {
    c.(
      global := s.global.(
        settings := if s.global.settings.Missing? then Settings(m.global.document) else s.global.settings,
        legacy := Stripped(s0.global)),
      project := s.project.(
        settings := if s.project.settings.Missing? then Settings(m.project.document) else s.project.settings,
        legacy := Stripped(s0.project)))
  }

  lemma {:induction false} SettledPhases(
    revision: Dict<Json> -> string, s0: Machine, m: Migration, s: Machine, again: Migration, credentials: seq<Write>, backup: bool)
    requires Planned(s0, m, s, again, credentials)
    requires SettingsAt(s0, m, s, Global) && SettingsAt(s0, m, s, Project) && LegacyAt(s0, s, Global) && LegacyAt(s0, s, Project)
    ensures var first := Backups(revision, s, backup) + credentials;
            var ws := first + SettingsWrites(s, again) + LegacyWrites(s);
            && AllLegal(s0, m, s, ws)
            && After(s, ws) == Settled(s0, m, s, After(s, first))
  {
    var first, settings, legacy := Backups(revision, s, backup) + credentials, SettingsWrites(s, again), LegacyWrites(s);
    SecretsFirst(revision, s0, m, s, again, credentials, backup);
    var c := After(s, first);
    SettingsPhase(s0, m, again, s, c);
    var d := After(c, settings);
    LegacyPhase(s0, m, s, d);
    AllLegalAppend(s0, m, s, first, settings);
    AfterAppend(s, first, settings);
    AllLegalAppend(s0, m, s, first + settings, legacy);
    AfterAppend(s, first + settings, legacy);
  }

  /** The whole run: the settled machine with the markers it writes. */
  lemma {:induction false} AllPhases(
    revision: Dict<Json> -> string, s0: Machine, m: Migration, s: Machine, again: Migration, credentials: seq<Write>, backup: bool)
    requires Planned(s0, m, s, again, credentials)
    requires SettingsAt(s0, m, s, Global) && SettingsAt(s0, m, s, Project) && LegacyAt(s0, s, Global) && LegacyAt(s0, s, Project)
    ensures var first := Backups(revision, s, backup) + credentials;
            var ws := PhaseWrites(revision, s, again, credentials, backup);
            var e := Settled(s0, m, s, After(s, first));
            && AllLegal(s0, m, s, ws)
            && After(s, ws) == e.(
                 global := e.global.(marker :=
                   if MarkerWrite(s, again, Global) == [] then s.global.marker else Some(MarkerOf(s, again, Global))),
                 project := e.project.(marker :=
                   if MarkerWrite(s, again, Project) == [] then s.project.marker else Some(MarkerOf(s, again, Project))))
            && After(s, first).global == s.global && After(s, first).project == s.project
            && Stored(After(s, first).credentials, Secrets(m))
  {
    var first := Backups(revision, s, backup) + credentials;
    var settled, markers := first + SettingsWrites(s, again) + LegacyWrites(s), MarkerWrites(s, again);
    SecretsFirst(revision, s0, m, s, again, credentials, backup);
    SettledPhases(revision, s0, m, s, again, credentials, backup);
    StrippedIsFinal(s0.global);
    StrippedIsFinal(s0.project);
    var e := Settled(s0, m, s, After(s, first));
    MarkerPhase(s0, m, again, s, e);
    AllLegalAppend(s0, m, s, settled, markers);
    AfterAppend(s, settled, markers);
  }

  /** From any state on the way, the whole run is legal and reaches the target. */
  lemma {:induction false} RunReachesTarget(
    revision: Dict<Json> -> string, s0: Machine, m: Migration, s: Machine, again: Migration, credentials: seq<Write>, backup: bool)
    requires Planned(s0, m, s, again, credentials) && Progress(s0, m, s) && TakesExisting(s0, m)
    ensures var ws := PhaseWrites(revision, s, again, credentials, backup);
            AllLegal(s0, m, s, ws) && Progress(s0, m, After(s, ws)) && AtTarget(s0, m, After(s, ws))
  {
    AllPhases(revision, s0, m, s, again, credentials, backup);
    var ws := PhaseWrites(revision, s, again, credentials, backup);
    AllLegalKeeps(s0, m, s, ws, |ws|);
    assert ws[..|ws|] == ws;
    TargetReached(s0, m, s, After(s, ws));
  }

  /** Existing settings are their own migration. */
  ghost predicate TakesExisting(s0: Machine, m: Migration) {
    && Readable(s0)
    && (s0.global.settings.Settings? ==> m.global.document == s0.global.settings.document)
    && (s0.project.settings.Settings? ==> m.project.document == s0.project.settings.document)
  }

  lemma {:induction false} TargetReached(s0: Machine, m: Migration, s: Machine, t: Machine)
    requires TakesExisting(s0, m) && Progress(s0, m, t) && BothSettings(t)
    requires t.global.legacy == Stripped(s0.global) && t.project.legacy == Stripped(s0.project)
    requires Stored(t.credentials, Secrets(m))
    ensures AtTarget(s0, m, t)
  {
    assert SettingsAt(s0, m, t, Global) && SettingsAt(s0, m, t, Project);
  }

  lemma {:induction false} PreparedTakesExisting(p: Platform, s0: Machine)
    requires Prepare(p, s0).Success?
    ensures TakesExisting(s0, Prepare(p, s0).value)
  {
  }

  lemma {:induction false} RunKeepsProgress(p: Platform, revision: Dict<Json> -> string, s0: Machine, m: Migration, s: Machine, backup: bool, k: nat)
    requires Prepare(p, s0) == Success(m) && Progress(s0, m, s)
    ensures Progress(s0, m, RunFor(p, revision, s, backup, k))
    ensures Prepare(p, s).Success?
    ensures var t := FullRun(p, revision, s, backup); Progress(s0, m, t) && AtTarget(s0, m, t)
  {
    RunIsPlanned(p, s0, m, s);
    PreparedTakesExisting(p, s0);
    RunReachesTarget(revision, s0, m, s, Prepare(p, s).value, CredentialWrites(p, s), backup);
    var ws := Writes(p, revision, s, backup);
    var part := if k < |ws| then ws[..k] else ws;
    assert ws[..|ws|] == ws;
    AllLegalKeeps(s0, m, s, ws, |part|);
    RunsOfWrites(p, revision, s, backup, k);
  }

  lemma {:induction false} RunsOfWrites(p: Platform, revision: Dict<Json> -> string, s: Machine, backup: bool, k: nat)
    requires Prepare(p, s).Success?
    ensures var ws := Writes(p, revision, s, backup);
            && RunFor(p, revision, s, backup, k) == After(s, if k < |ws| then ws[..k] else ws)
            && FullRun(p, revision, s, backup) == After(s, ws)
  {
  }

  lemma {:induction false} CrashesProgress(p: Platform, revision: Dict<Json> -> string, s0: Machine, m: Migration, cs: seq<Crash>)
    requires Prepare(p, s0) == Success(m)
    ensures Progress(s0, m, Crashes(p, revision, s0, cs))
  {
    if cs == [] {
      ProgressStarts(p, s0, m);
    } else {
      var n := |cs| - 1;
      CrashesProgress(p, revision, s0, m, cs[..n]);
      RunKeepsProgress(p, revision, s0, m, Crashes(p, revision, s0, cs[..n]), cs[n].backup, cs[n].writes);
    }
  }

  // ----- Main results -----

  /** What a migration is for; markers and backups are not part of it. */
  ghost predicate SameCore(a: Machine, b: Machine) {
    && a.global.settings == b.global.settings && a.project.settings == b.project.settings
    && a.global.legacy == b.global.legacy && a.project.legacy == b.project.legacy
    && a.credentials == b.credentials
  }

  lemma {:induction false} TargetIsUnique(s0: Machine, m: Migration, a: Machine, b: Machine)
    requires AtTarget(s0, m, a) && AtTarget(s0, m, b)
    ensures SameCore(a, b)
  {
    forall ref ensures ref in a.credentials <==> ref in b.credentials {
    }
    forall ref | ref in a.credentials ensures a.credentials[ref] == b.credentials[ref] {
    }
  }

  lemma {:induction false} CompleteWritesNothing(p: Platform, revision: Dict<Json> -> string, s0: Machine, m: Migration, t: Machine, backup: bool)
    requires Prepare(p, s0) == Success(m) && AtTarget(s0, m, t)
    requires Prepare(p, t).Success?
    ensures Writes(p, revision, t, backup) == []
  {
    StrippedIsFinal(s0.global);
    StrippedIsFinal(s0.project);
    assert Secrets(Prepare(p, t).value) == [];
  }

  /**
    Any number of crashes, each after any single write and each followed by a
    fresh run: one uninterrupted run then gives the settings, the stripped V1
    documents and the secrets of one clean run, and a further run writes
    nothing. Every run may choose for itself whether to make backups.
   */
  lemma {:induction false} CrashesConverge(
    p: Platform, revision: Dict<Json> -> string, s0: Machine, cs: seq<Crash>, last: bool, clean: bool, further: bool)
    requires Prepare(p, s0).Success?
    ensures var t := FullRun(p, revision, Crashes(p, revision, s0, cs), last);
            && SameCore(t, FullRun(p, revision, s0, clean))
            && Prepare(p, t).Success? && Writes(p, revision, t, further) == []
  {
    var m := Prepare(p, s0).value;
    var s := Crashes(p, revision, s0, cs);
    CrashesProgress(p, revision, s0, m, cs);
    RunKeepsProgress(p, revision, s0, m, s, last, 0);
    ProgressStarts(p, s0, m);
    RunKeepsProgress(p, revision, s0, m, s0, clean, 0);
    var t := FullRun(p, revision, s, last);
    TargetIsUnique(s0, m, t, FullRun(p, revision, s0, clean));
    PrepareAgain(p, s0, m, t);
    CompleteWritesNothing(p, revision, s0, m, t, further);
  }

  /** At every point of every interrupted history: stripped only after settings and secrets, marked only when complete. */
  lemma {:induction false} OrderHolds(p: Platform, revision: Dict<Json> -> string, s0: Machine, cs: seq<Crash>, scope: Scope)
    requires Prepare(p, s0).Success?
    ensures var s := Crashes(p, revision, s0, cs);
            && (At(s, scope).legacy != At(s0, scope).legacy ==>
                  At(s, scope).legacy == Stripped(At(s0, scope)) && BothSettings(s) && Stored(s.credentials, Secrets(Prepare(p, s0).value)))
            && (At(s, scope).marker != At(s0, scope).marker ==> ScopeComplete(s, scope))
            && (At(s, scope).settings != At(s0, scope).settings ==>
                  At(s0, scope).settings.Missing? && At(s, scope).settings == Settings(Activation.Document(Prepare(p, s0).value, scope)))
            && (forall ref | ref in s0.credentials :: ref in s.credentials && s.credentials[ref] == s0.credentials[ref])
  {
    CrashesProgress(p, revision, s0, Prepare(p, s0).value, cs);
  }

  /** The import of one scope of s0. */
  function ImportOf(p: Platform, s0: Machine, scope: Scope): Imported
    requires Migrate(p, s0).Success?
  {
    if scope.Global? then Migrate(p, s0).value.global else Migrate(p, s0).value.project
  }

  lemma {:induction false} SecretsReachTheStore(p: Platform, s0: Machine, scope: Scope, ref: string)
    requires Migrate(p, s0).Success? && Has(ImportOf(p, s0, scope).credentials, ref)
    ensures Has(Secrets(Migrate(p, s0).value), ref)
    ensures Get(Secrets(Migrate(p, s0).value), ref) == Get(ImportOf(p, s0, scope).credentials, ref)
  {
    var m := Migrate(p, s0).value;
    ScopeIndependent(p, s0.project, Project, m.global.document.providers, m.global.credentials);
  }

  /**
    No crash history loses a secret: once a V1 document is stripped, every key
    that one of its profiles carried is in the store under the reference that
    the profile's migrated provider reads.
   */
  lemma {:induction false} NoSecretIsLost(p: Platform, revision: Dict<Json> -> string, s0: Machine, cs: seq<Crash>, scope: Scope, i: nat)
    requires Prepare(p, s0).Success?
    requires var s := Crashes(p, revision, s0, cs); At(s, scope).legacy != At(s0, scope).legacy
    requires At(s0, scope).settings.Missing? && p.settings(LegacyData(At(s0, scope))).None?
    requires Profiles(p, LegacyData(At(s0, scope))).Success? && i < |Profiles(p, LegacyData(At(s0, scope))).value|
    requires Profiles(p, LegacyData(At(s0, scope))).value[i].credential.Secret?
    ensures var s := Crashes(p, revision, s0, cs);
            var profile := Profiles(p, LegacyData(At(s0, scope))).value[i];
            var mapping := ImportOf(p, s0, scope).mapping;
            && At(s, scope).settings.Settings? && Has(mapping, profile.id)
            && Has(At(s, scope).settings.document.providers, Get(mapping, profile.id))
            && var auth := Get(At(s, scope).settings.document.providers, Get(mapping, profile.id)).auth;
               auth.Credential? && auth.ref in s.credentials && s.credentials[auth.ref] == profile.credential.value
  {
    var m := Prepare(p, s0).value;
    var s := Crashes(p, revision, s0, cs);
    var source := LegacyData(At(s0, scope));
    CrashesProgress(p, revision, s0, m, cs);
    PreparedCredentials(p, s0);
    StrippedState(s0, m, s, scope);
    var inherited, first := if scope.Global? then [] else m.global.document.providers, if scope.Global? then [] else m.global.credentials;
    ImportedFrom(p, s0, scope, inherited, first);
    MigrationKeepsSecrets(p, source, scope, inherited, first, i);
    SecretsReachTheStore(p, s0, scope, CredentialRefFor(p.host, Get(ImportOf(p, s0, scope).mapping, Profiles(p, source).value[i].id)));
  }

  lemma {:induction false} StrippedState(s0: Machine, m: Migration, s: Machine, scope: Scope)
    requires Progress(s0, m, s) && At(s, scope).legacy != At(s0, scope).legacy && At(s0, scope).settings.Missing?
    ensures At(s, scope).settings == Settings(Activation.Document(m, scope)) && Stored(s.credentials, Secrets(m))
  {
    assert LegacyStripped(s0, s);
    assert SettingsAt(s0, m, s, scope);
  }

  lemma {:induction false} ImportedFrom(p: Platform, s0: Machine, scope: Scope, inherited: Dict<Provider>, first: Dict<string>)
    requires Migrate(p, s0).Success? && At(s0, scope).settings.Missing?
    requires inherited == if scope.Global? then [] else Migrate(p, s0).value.global.document.providers
    requires first == if scope.Global? then [] else Migrate(p, s0).value.global.credentials
    ensures MigrateRaw(p, LegacyData(At(s0, scope)), scope, inherited, first) == Success(ImportOf(p, s0, scope))
    ensures Activation.Document(Migrate(p, s0).value, scope) == ImportOf(p, s0, scope).document
  {
  }

  // ----- Markers -----

  /** The scope whose files a write changes. */
  function Touched(w: Write): Option<Scope> {
    match w
    case WriteSettings(scope, _) => Some(scope)
    case WriteLegacy(scope, _) => Some(scope)
    case WriteMarker(scope, _) => Some(scope)
    case _ => None
  }

  lemma {:induction false} UntouchedScope(s: Machine, ws: seq<Write>, scope: Scope)
    requires forall w | w in ws :: Touched(w) != Some(scope)
    ensures At(After(s, ws), scope) == At(s, scope)
  {
    if ws != [] {
      var init, w := ws[..|ws| - 1], ws[|ws| - 1];
      assert w in ws && forall x | x in init :: x in ws;
      UntouchedScope(s, init, scope);
    }
  }

  lemma {:induction false} PhasesUntouched(
    revision: Dict<Json> -> string, s: Machine, m: Migration, credentials: seq<Write>, backup: bool, scope: Scope)
    requires ScopeComplete(s, scope) && forall w | w in credentials :: w.SetCredential?
    ensures forall w | w in PhaseWrites(revision, s, m, credentials, backup) :: Touched(w) != Some(scope)
  {
  }

  /** No run touches a complete scope. */
  lemma {:induction false} CompleteIsUntouched(p: Platform, revision: Dict<Json> -> string, s: Machine, backup: bool, scope: Scope)
    requires Prepare(p, s).Success? && ScopeComplete(s, scope)
    ensures forall w | w in Writes(p, revision, s, backup) :: Touched(w) != Some(scope)
  {
    PreparedCredentials(p, s);
    PlanCredentialsMeaning(s.credentials, Secrets(Prepare(p, s).value));
    PhasesUntouched(revision, s, Prepare(p, s).value, CredentialWrites(p, s), backup, scope);
  }

  /** A complete scope stays exactly as it is, its marker included, through any further history. */
  lemma {:induction false} CompleteIsFrozen(p: Platform, revision: Dict<Json> -> string, s: Machine, cs: seq<Crash>, scope: Scope)
    requires ScopeComplete(s, scope)
    ensures At(Crashes(p, revision, s, cs), scope) == At(s, scope)
  {
    if cs != [] {
      var before, last := Crashes(p, revision, s, cs[..|cs| - 1]), cs[|cs| - 1];
      CompleteIsFrozen(p, revision, s, cs[..|cs| - 1], scope);
      if Prepare(p, before).Success? {
        var ws := Writes(p, revision, before, last.backup);
        CompleteIsUntouched(p, revision, before, last.backup, scope);
        UntouchedScope(before, if last.writes < |ws| then ws[..last.writes] else ws, scope);
      }
    }
  }

  lemma {:induction false} LastMarker(s: Machine, markers: seq<Write>, scope: Scope, marker: Marker)
    requires WriteMarker(scope, marker) in markers
    requires forall w | w in markers :: w.WriteMarker? && (w.scope == scope ==> w.marker == marker)
    ensures At(After(s, markers), scope).marker == Some(marker)
  {
    var init, w := markers[..|markers| - 1], markers[|markers| - 1];
    assert markers == init + [w];
    if w.scope != scope {
      LastMarker(s, init, scope, marker);
    }
  }

  lemma {:induction false} MarkersLand(s: Machine, m: Migration, base: Machine, before: seq<Write>, scope: Scope)
    requires MarkerWrite(s, m, scope) != []
    ensures At(After(base, before + MarkerWrites(s, m)), scope).marker == Some(MarkerOf(s, m, scope))
  {
    AfterAppend(base, before, MarkerWrites(s, m));
    assert MarkerWrite(s, m, scope)[0] in MarkerWrites(s, m);
    LastMarker(After(base, before), MarkerWrites(s, m), scope, MarkerOf(s, m, scope));
  }

  /** An incomplete scope gets its marker from the next full run. */
  lemma {:induction false} IncompleteIsMarked(p: Platform, revision: Dict<Json> -> string, s: Machine, backup: bool, scope: Scope)
    requires Prepare(p, s).Success? && !ScopeComplete(s, scope)
    ensures At(FullRun(p, revision, s, backup), scope).marker == Some(MarkerOf(s, Prepare(p, s).value, scope))
  {
    var m := Prepare(p, s).value;
    MarkersLand(s, m, s, Backups(revision, s, backup) + CredentialWrites(p, s) + SettingsWrites(s, m) + LegacyWrites(s), scope);
  }

  /**
    After any history of crashes, a full run leaves a scope with a marker
    exactly when it already had one or was not complete; the marker of a
    complete scope, or its absence, is final.
   */
  lemma {:induction false} MarkedIff(
    p: Platform, revision: Dict<Json> -> string, s0: Machine, cs: seq<Crash>, backup: bool, scope: Scope, more: seq<Crash>)
    requires Prepare(p, s0).Success?
    ensures var s := Crashes(p, revision, s0, cs);
            && (At(FullRun(p, revision, s, backup), scope).marker.Some? <==> At(s, scope).marker.Some? || !ScopeComplete(s, scope))
            && (ScopeComplete(s, scope) ==>
                  && At(Crashes(p, revision, s, more), scope) == At(s, scope)
                  && At(FullRun(p, revision, Crashes(p, revision, s, more), backup), scope) == At(s, scope))
  {
    var m, s := Prepare(p, s0).value, Crashes(p, revision, s0, cs);
    CrashesProgress(p, revision, s0, m, cs);
    RunIsPlanned(p, s0, m, s);
    if ScopeComplete(s, scope) {
      CompleteIsFrozen(p, revision, s, more, scope);
      FullRunFrozen(p, revision, s, backup, scope);
      FullRunFrozen(p, revision, Crashes(p, revision, s, more), backup, scope);
    } else {
      IncompleteIsMarked(p, revision, s, backup, scope);
    }
  }

  lemma {:induction false} FullRunFrozen(p: Platform, revision: Dict<Json> -> string, s: Machine, backup: bool, scope: Scope)
    requires ScopeComplete(s, scope)
    ensures At(FullRun(p, revision, s, backup), scope) == At(s, scope)
  {
    if Prepare(p, s).Success? {
      CompleteIsUntouched(p, revision, s, backup, scope);
      UntouchedScope(s, Writes(p, revision, s, backup), scope);
    }
  }

  /**
    A crash between stripping and the first marker: every scope that was due a
    marker is complete without it, and so it stays.
   */
  lemma {:induction false} MarkersCanBeLost(
    p: Platform, revision: Dict<Json> -> string, s0: Machine, backup: bool, more: seq<Crash>, scope: Scope)
    requires Prepare(p, s0).Success? && !ScopeComplete(s0, scope)
    ensures var ws, markers := Writes(p, revision, s0, backup), MarkerWrites(s0, Prepare(p, s0).value);
            && 0 < |markers| <= |ws|
            && var s := RunFor(p, revision, s0, backup, |ws| - |markers|);
               && ScopeComplete(s, scope) && At(s, scope).marker == At(s0, scope).marker
               && At(Crashes(p, revision, s, more), scope) == At(s, scope)
               && At(FullRun(p, revision, s0, backup), scope).marker.Some?
  {
    var m := Prepare(p, s0).value;
    ProgressStarts(p, s0, m);
    RunIsPlanned(p, s0, m, s0);
    var settled := Backups(revision, s0, backup) + CredentialWrites(p, s0) + SettingsWrites(s0, m) + LegacyWrites(s0);
    SettledPhases(revision, s0, m, s0, m, CredentialWrites(p, s0), backup);
    SecretsFirst(revision, s0, m, s0, m, CredentialWrites(p, s0), backup);
    StrippedIsFinal(At(s0, scope));
    var ws := Writes(p, revision, s0, backup);
    assert ws == settled + MarkerWrites(s0, m);
    assert MarkerWrite(s0, m, scope) != [];
    assert ws[..|settled|] == settled;
    CompleteIsFrozen(p, revision, After(s0, settled), more, scope);
    IncompleteIsMarked(p, revision, s0, backup, scope);
  }

  // ----- A machine that shows the exceptions -----

  const V1_DOCUMENT: Dict<Json> := [("modelAlias", Str("m"))]

  /** V2 settings are there already, and so is a V1 document with a model field. */
  function Unstripped(marker: Option<Marker>): Machine {
    Machine(
      Files(Some(V1_DOCUMENT), Settings(EMPTY_DOCUMENT), marker), Files(None, Settings(EMPTY_DOCUMENT), None), map[], map[])
  }

  lemma {:induction false} UnstrippedPrepares(p: Platform, marker: Option<Marker>)
    ensures Prepare(p, Unstripped(marker)) == Success(Migration(Imported(EMPTY_DOCUMENT, [], []), Imported(EMPTY_DOCUMENT, [], [])))
    ensures Strip(V1_DOCUMENT) == []
  {
    var m := Migration(Imported(EMPTY_DOCUMENT, [], []), Imported(EMPTY_DOCUMENT, [], []));
    Acceptance.AcceptsIff(p.host, EMPTY_DOCUMENT);
    assert TwoLayers(EMPTY_DOCUMENT, EMPTY_DOCUMENT) == Acceptance.Alone(EMPTY_DOCUMENT);
    PreparedIff(p, Unstripped(marker), m);
    assert V1_DOCUMENT[..0] == [];
    assert Drop(V1_DOCUMENT, TOP_FIELDS) == [];
  }

  /** On this machine a run that dies before its marker loses it for good. */
  lemma {:induction false} MarkerLost(p: Platform, revision: Dict<Json> -> string, backup: bool, more: seq<Crash>) returns (k: nat)
    ensures var s0 := Unstripped(None);
            && Prepare(p, s0).Success? && At(FullRun(p, revision, s0, backup), Global).marker.Some?
            && At(Crashes(p, revision, RunFor(p, revision, s0, backup, k), more), Global).marker.None?
  {
    var s0 := Unstripped(None);
    UnstrippedPrepares(p, None);
    MarkersCanBeLost(p, revision, s0, backup, more, Global);
    k := |Writes(p, revision, s0, backup)| - |MarkerWrites(s0, Prepare(p, s0).value)|;
  }
}
