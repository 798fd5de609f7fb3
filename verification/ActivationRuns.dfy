/**
  Crash and retry: whatever prefix of its writes each run achieves, the state
  stays on the way to one target, and one full run reaches it.
 */
module ActivationRuns {
  import opened Basics
  import opened JsonValues
  import opened ConfigDocument
  import opened Resolver
  import opened LegacyImport
  import opened ImportFacts
  import opened Activation

  // ----- On the way from s0 to the target of its migration -----

  predicate SettingsAt(s0: Machine, m: Migration, s: Machine, scope: Scope) {
    || At(s, scope).settings == At(s0, scope).settings
    || (At(s0, scope).settings.Missing? && At(s, scope).settings == Settings(Activation.Document(m, scope)))
  }

  function Stripped(f: Files): Option<Dict<Json>> {
    if f.legacy.Some? then Some(Strip(f.legacy.value)) else None
  }

  predicate LegacyAt(s0: Machine, s: Machine, scope: Scope) {
    At(s, scope).legacy == At(s0, scope).legacy || At(s, scope).legacy == Stripped(At(s0, scope))
  }

  /** Settings exist and nothing is left to strip. */
  predicate ScopeComplete(s: Machine, scope: Scope) {
    At(s, scope).settings.Settings? && !LegacyChanged(At(s, scope))
  }

  predicate MarkerAt(s0: Machine, s: Machine, scope: Scope) {
    At(s, scope).marker == At(s0, scope).marker || ScopeComplete(s, scope)
  }

  ghost predicate Stored(credentials: map<string, string>, secrets: Dict<string>) {
    forall ref | Has(secrets, ref) :: ref in credentials && credentials[ref] == Get(secrets, ref)
  }

  /** Nothing was lost from the store and nothing but the extracted secrets was added. */
  ghost predicate StoreBetween(before: map<string, string>, secrets: Dict<string>, now: map<string, string>) {
    && (forall ref | ref in before :: ref in now && now[ref] == before[ref])
    && (forall ref | ref in now :: ref in before || (Has(secrets, ref) && now[ref] == Get(secrets, ref)))
  }

  predicate SettingsWritten(s0: Machine, s: Machine) {
    s.global.settings != s0.global.settings || s.project.settings != s0.project.settings
  }

  predicate LegacyStripped(s0: Machine, s: Machine) {
    s.global.legacy != s0.global.legacy || s.project.legacy != s0.project.legacy
  }

  predicate BothSettings(s: Machine) {
    s.global.settings.Settings? && s.project.settings.Settings?
  }

  /** Settings only after every secret, project settings only after global ones, stripping only after all of these. */
  ghost predicate Ordered(s0: Machine, m: Migration, s: Machine) {
    && (SettingsWritten(s0, s) ==> Stored(s.credentials, Secrets(m)))
    && (s.project.settings != s0.project.settings ==> s.global.settings.Settings?)
    && (LegacyStripped(s0, s) ==> BothSettings(s) && Stored(s.credentials, Secrets(m)))
  }

  ghost predicate Progress(s0: Machine, m: Migration, s: Machine) {
    && SettingsAt(s0, m, s, Global) && SettingsAt(s0, m, s, Project)
    && LegacyAt(s0, s, Global) && LegacyAt(s0, s, Project)
    && MarkerAt(s0, s, Global) && MarkerAt(s0, s, Project)
    && StoreBetween(s0.credentials, Secrets(m), s.credentials)
    && Ordered(s0, m, s)
  }

  // ----- Planning again from a state on the way -----

  lemma {:induction false} PlanCredentialsMeaning(stored: map<string, string>, secrets: Dict<string>)
    requires DistinctKeys(secrets)
    ensures PlanCredentials(stored, secrets).Success? <==>
              forall i | 0 <= i < |secrets| :: secrets[i].0 in stored ==> stored[secrets[i].0] == secrets[i].1
    ensures PlanCredentials(stored, secrets).Success? ==>
              && (forall w | w in PlanCredentials(stored, secrets).value ::
                    w.SetCredential? && (w.ref, w.secret) in secrets)
              && (forall i | 0 <= i < |secrets| ::
                    secrets[i].0 in stored || SetCredential(secrets[i].0, secrets[i].1) in PlanCredentials(stored, secrets).value)
  {
    if secrets != [] {
      var init, e := secrets[..|secrets| - 1], secrets[|secrets| - 1];
      PlanCredentialsMeaning(stored, init);
      assert secrets == init + [e];
      assert forall i | 0 <= i < |init| :: init[i] == secrets[i];
    }
  }

  lemma {:induction false} FoldDistinct(
    step: (Import, Profile) -> Result<Import, ImportError>, start: Import, profiles: seq<Profile>, n: nat)
    requires n <= |profiles| && DistinctKeys(start.credentials) && Fold(step, start, profiles, n).Success?
    requires forall acc: Import, x | DistinctKeys(acc.credentials) && step(acc, x).Success? :: DistinctKeys(step(acc, x).value.credentials)
    ensures DistinctKeys(Fold(step, start, profiles, n).value.credentials)
  {
    if n > 0 {
      FoldDistinct(step, start, profiles, n - 1);
    }
  }

  lemma {:induction false} ProfileDistinct(p: Platform, scope: Scope, inherited: Dict<Provider>, lab: Dict<Json>, acc: Import, profile: Profile)
    requires DistinctKeys(acc.credentials) && ImportProfile(p, scope, inherited, lab, acc, profile).Success?
    ensures DistinctKeys(ImportProfile(p, scope, inherited, lab, acc, profile).value.credentials)
  {
    if Rebased(p, scope, inherited, profile).None? && profile.credential.Secret? {
      var id := ProviderIdFor(p, scope, inherited, acc.providers, profile).value;
      GetPut(acc.credentials, CredentialRefFor(p.host, id), profile.credential.value, "");
    }
  }

  lemma {:induction false} ImportDistinct(
    p: Platform, scope: Scope, inherited: Dict<Provider>, lab: Dict<Json>, first: Dict<string>, profiles: seq<Profile>)
    requires DistinctKeys(first) && ImportProfiles(p, scope, inherited, lab, first, profiles).Success?
    ensures DistinctKeys(ImportProfiles(p, scope, inherited, lab, first, profiles).value.credentials)
  {
    var step := Importer(p, scope, inherited, lab);
    AllImportsFold(p, scope, inherited, lab, first, profiles);
    forall acc: Import, x | DistinctKeys(acc.credentials) && step(acc, x).Success? ensures DistinctKeys(step(acc, x).value.credentials) {
      ProfileDistinct(p, scope, inherited, lab, acc, x);
    }
    FoldDistinct(step, Import([], [], first), profiles, |profiles|);
  }

  lemma {:induction false} MigrateScopeDistinct(p: Platform, f: Files, scope: Scope, inherited: Dict<Provider>, first: Dict<string>)
    requires DistinctKeys(first) && MigrateScope(p, f, scope, inherited, first).Success?
    ensures DistinctKeys(MigrateScope(p, f, scope, inherited, first).value.credentials)
  {
    if !f.settings.Settings? && p.settings(LegacyData(f)).None? {
      var profiles := Profiles(p, LegacyData(f)).value;
      ImportDistinct(p, scope, inherited, Fields(Field(LegacyData(f), "lab")), first, profiles);
    }
  }

  lemma {:induction false} SecretsDistinct(p: Platform, s: Machine)
    requires Migrate(p, s).Success?
    ensures DistinctKeys(Secrets(Migrate(p, s).value))
  {
    var m := Migrate(p, s).value;
    MigrateScopeDistinct(p, s.global, Global, [], []);
    MigrateScopeDistinct(p, s.project, Project, m.global.document.providers, m.global.credentials);
  }

  /** A scope's own secrets, whatever was extracted before it. */
  lemma {:induction false} ScopeIndependent(p: Platform, f: Files, scope: Scope, inherited: Dict<Provider>, first: Dict<string>)
    requires MigrateScope(p, f, scope, inherited, first).Success?
    ensures var own := MigrateScope(p, f, scope, inherited, []);
            var all := MigrateScope(p, f, scope, inherited, first).value;
            own.Success? && own.value.document == all.document && Union(all.credentials, first, own.value.credentials)
  {
    if !f.settings.Settings? {
      MigrationIndependent(p, LegacyData(f), scope, inherited, first);
    }
  }

  /** The same documents, and of the secrets at least those not stored yet. */
  ghost predicate Resumes(m: Migration, s: Machine, again: Migration) {
    && again.global.document == m.global.document
    && again.project.document == m.project.document
    && (forall ref | Has(Secrets(again), ref) :: Has(Secrets(m), ref) && Get(Secrets(again), ref) == Get(Secrets(m), ref))
    && (Secrets(again) == Secrets(m) || Stored(s.credentials, Secrets(m)))
  }

  lemma {:induction false} ImportAgain(p: Platform, s0: Machine, m: Migration, s: Machine)
    requires Migrate(p, s0) == Success(m) && Readable(s0) && Progress(s0, m, s)
    ensures Migrate(p, s).Success? && Resumes(m, s, Migrate(p, s).value)
  {
    if BothSettings(s) {
      if BothSettings(s0) {
      } else {
        assert SettingsWritten(s0, s);
      }
    } else {
      assert !LegacyStripped(s0, s);
      if s.global.settings != s0.global.settings {
        ScopeIndependent(p, s0.project, Project, m.global.document.providers, m.global.credentials);
      }
    }
  }

  lemma {:induction false} PlanAgain(s0: Machine, m: Migration, s: Machine, secrets: Dict<string>)
    requires DistinctKeys(secrets) && DistinctKeys(Secrets(m)) && PlanCredentials(s0.credentials, Secrets(m)).Success?
    requires forall ref | Has(secrets, ref) :: Has(Secrets(m), ref) && Get(secrets, ref) == Get(Secrets(m), ref)
    requires StoreBetween(s0.credentials, Secrets(m), s.credentials)
    ensures PlanCredentials(s.credentials, secrets).Success?
  {
    PlanCredentialsMeaning(s0.credentials, Secrets(m));
    PlanCredentialsMeaning(s.credentials, secrets);
    forall i | 0 <= i < |secrets| && secrets[i].0 in s.credentials ensures s.credentials[secrets[i].0] == secrets[i].1 {
      var ref := secrets[i].0;
      KeyAt(secrets, i);
      assert Has(secrets, ref);
      var j := KeyIndex(Secrets(m), ref);
      assert Secrets(m)[j].0 == ref;
    }
  }

  ghost predicate Admissible(p: Platform, global: ConfigDocument.Document, project: ConfigDocument.Document) {
    && ValidDocument(global) && ValidDocument(project)
    && Resolve(p.host, TwoLayers(global, project)).Success?
  }

  lemma {:induction false} PreparedIff(p: Platform, s: Machine, m: Migration)
    requires Readable(s) && Migrate(p, s) == Success(m)
    ensures Prepare(p, s) == Success(m)
            <==> Admissible(p, m.global.document, m.project.document) && PlanCredentials(s.credentials, Secrets(m)).Success?
    ensures Prepare(p, s).Success? ==> Prepare(p, s) == Success(m)
  {
  }

  /** A run is refused for its documents alone once its settings are readable and its credentials fit. */
  lemma {:induction false} PreparedLike(p: Platform, s0: Machine, s: Machine, again: Migration)
    requires Prepare(p, s0).Success? && Readable(s) && Migrate(p, s) == Success(again)
    requires again.global.document == Prepare(p, s0).value.global.document
    requires again.project.document == Prepare(p, s0).value.project.document
    requires PlanCredentials(s.credentials, Secrets(again)).Success?
    ensures Prepare(p, s) == Success(again)
  {
    PreparedIff(p, s0, Prepare(p, s0).value);
    PreparedIff(p, s, again);
  }

  lemma {:induction false} PreparedCredentials(p: Platform, s: Machine)
    requires Prepare(p, s).Success?
    ensures Readable(s) && Migrate(p, s) == Success(Prepare(p, s).value)
    ensures PlanCredentials(s.credentials, Secrets(Prepare(p, s).value)).Success?
    ensures DistinctKeys(Secrets(Prepare(p, s).value))
  {
    SecretsDistinct(p, s);
  }

  lemma {:induction false} PrepareAgain(p: Platform, s0: Machine, m: Migration, s: Machine)
    requires Prepare(p, s0) == Success(m) && Progress(s0, m, s)
    ensures Prepare(p, s).Success? && Resumes(m, s, Prepare(p, s).value)
  {
    PreparedCredentials(p, s0);
    ImportAgain(p, s0, m, s);
    var again := Migrate(p, s).value;
    SecretsDistinct(p, s);
    PlanAgain(s0, m, s, Secrets(again));
    PreparedLike(p, s0, s, again);
  }

  // ----- Each write keeps the progress -----

  ghost predicate Legal(s0: Machine, m: Migration, s: Machine, w: Write) {
    match w
    case Backup(_, _, _) => true
    case SetCredential(ref, secret) =>
      Has(Secrets(m), ref) && Get(Secrets(m), ref) == secret && (ref in s0.credentials ==> s0.credentials[ref] == secret)
    case WriteSettings(scope, document) =>
      && At(s0, scope).settings.Missing? && document == Activation.Document(m, scope)
      && Stored(s.credentials, Secrets(m))
      && (scope.Project? ==> s.global.settings.Settings?)
    case WriteLegacy(scope, rest) =>
      && At(s0, scope).legacy.Some? && rest == Strip(At(s0, scope).legacy.value)
      && BothSettings(s) && Stored(s.credentials, Secrets(m))
    case WriteMarker(scope, _) => ScopeComplete(s, scope)
  }

  lemma {:induction false} LegacyWriteKeeps(s0: Machine, m: Migration, s: Machine, scope: Scope, rest: Dict<Json>)
    requires Progress(s0, m, s) && Legal(s0, m, s, WriteLegacy(scope, rest))
    ensures Progress(s0, m, Apply(s, WriteLegacy(scope, rest)))
  {
    StripFinal(At(s0, scope).legacy.value);
  }

  lemma {:induction false} SettingsWriteKeeps(s0: Machine, m: Migration, s: Machine, scope: Scope, document: Document)
    requires Progress(s0, m, s) && Legal(s0, m, s, WriteSettings(scope, document))
    ensures Progress(s0, m, Apply(s, WriteSettings(scope, document)))
  {
  }

  lemma {:induction false} CredentialWriteKeeps(s0: Machine, m: Migration, s: Machine, ref: string, secret: string)
    requires Progress(s0, m, s) && Legal(s0, m, s, SetCredential(ref, secret))
    ensures Progress(s0, m, Apply(s, SetCredential(ref, secret)))
  {
  }

  lemma {:induction false} MarkerWriteKeeps(s0: Machine, m: Migration, s: Machine, scope: Scope, marker: Marker)
    requires Progress(s0, m, s) && Legal(s0, m, s, WriteMarker(scope, marker))
    ensures Progress(s0, m, Apply(s, WriteMarker(scope, marker)))
  {
  }

  lemma {:induction false} LegalKeeps(s0: Machine, m: Migration, s: Machine, w: Write)
    requires Progress(s0, m, s) && Legal(s0, m, s, w)
    ensures Progress(s0, m, Apply(s, w))
  {
    match w
    case Backup(_, _, _) =>
    case SetCredential(ref, secret) => CredentialWriteKeeps(s0, m, s, ref, secret);
    case WriteSettings(scope, document) => SettingsWriteKeeps(s0, m, s, scope, document);
    case WriteLegacy(scope, rest) => LegacyWriteKeeps(s0, m, s, scope, rest);
    case WriteMarker(scope, marker) => MarkerWriteKeeps(s0, m, s, scope, marker);
  }

  ghost predicate AllLegal(s0: Machine, m: Migration, s: Machine, ws: seq<Write>) {
    ws == [] || (AllLegal(s0, m, s, ws[..|ws| - 1]) && Legal(s0, m, After(s, ws[..|ws| - 1]), ws[|ws| - 1]))
  }

  lemma {:induction false} AllLegalKeeps(s0: Machine, m: Migration, s: Machine, ws: seq<Write>, k: nat)
    requires Progress(s0, m, s) && AllLegal(s0, m, s, ws) && k <= |ws|
    ensures Progress(s0, m, After(s, ws[..k]))
  {
    if ws == [] {
      assert ws[..k] == [];
    } else {
      var init := ws[..|ws| - 1];
      if k < |ws| {
        assert init[..k] == ws[..k];
        AllLegalKeeps(s0, m, s, init, k);
      } else {
        assert ws[..k] == ws && init[..|init|] == init;
        AllLegalKeeps(s0, m, s, init, |init|);
        LegalKeeps(s0, m, After(s, init), ws[|ws| - 1]);
      }
    }
  }

  lemma {:induction false} AfterAppend(s: Machine, a: seq<Write>, b: seq<Write>)
    ensures After(s, a + b) == After(After(s, a), b)
  {
    if b == [] {
      assert a + b == a;
    } else {
      assert (a + b)[..|a + b| - 1] == a + b[..|b| - 1];
      AfterAppend(s, a, b[..|b| - 1]);
    }
  }

  lemma {:induction false} AllLegalAppend(s0: Machine, m: Migration, s: Machine, a: seq<Write>, b: seq<Write>)
    requires AllLegal(s0, m, s, a) && AllLegal(s0, m, After(s, a), b)
    ensures AllLegal(s0, m, s, a + b)
  {
    if b == [] {
      assert a + b == a;
    } else {
      assert (a + b)[..|a + b| - 1] == a + b[..|b| - 1];
      AllLegalAppend(s0, m, s, a, b[..|b| - 1]);
      AfterAppend(s, a, b[..|b| - 1]);
    }
  }

  // ----- The five phases -----

  lemma {:induction false} OneWrite(s: Machine, w: Write)
    ensures After(s, [w]) == Apply(s, w)
  {
    assert [w][..0] == [];
  }

  lemma {:induction false} OneLegal(s0: Machine, m: Migration, s: Machine, w: Write)
    requires Legal(s0, m, s, w)
    ensures AllLegal(s0, m, s, [w])
  {
    assert [w][..0] == [];
  }

  lemma {:induction false} BackupsPhase(s0: Machine, m: Migration, revision: Dict<Json> -> string, s: Machine, backup: bool)
    ensures AllLegal(s0, m, s, Backups(revision, s, backup))
    ensures After(s, Backups(revision, s, backup)).(backups := s.backups) == s
  {
    if backup {
      var a, b := BackupWrite(revision, s, Global), BackupWrite(revision, s, Project);
      BackupPhase(s0, m, revision, s, s, Global);
      BackupPhase(s0, m, revision, s, After(s, a), Project);
      AllLegalAppend(s0, m, s, a, b);
      AfterAppend(s, a, b);
    }
  }

  lemma {:induction false} BackupPhase(s0: Machine, m: Migration, revision: Dict<Json> -> string, s: Machine, now: Machine, scope: Scope)
    ensures AllLegal(s0, m, now, BackupWrite(revision, s, scope))
    ensures After(now, BackupWrite(revision, s, scope)).(backups := now.backups) == now
  {
    var ws := BackupWrite(revision, s, scope);
    if ws != [] {
      OneWrite(now, ws[0]);
      OneLegal(s0, m, now, ws[0]);
    }
  }

  /** Between s and t some secrets were set and nothing else happened. */
  ghost predicate SecretsSet(secrets: Dict<string>, s: Machine, t: Machine, ws: seq<Write>) {
    && t.(credentials := s.credentials) == s
    && (forall w | w in ws :: w.SetCredential? && w.ref in t.credentials)
    && (forall ref | ref in s.credentials :: ref in t.credentials)
    && (forall ref | ref in t.credentials ::
          || (ref in s.credentials && t.credentials[ref] == s.credentials[ref])
          || (Has(secrets, ref) && t.credentials[ref] == Get(secrets, ref)))
  }

  lemma {:induction false} OneSecret(secrets: Dict<string>, s: Machine, t: Machine, init: seq<Write>, w: Write)
    requires SecretsSet(secrets, s, t, init)
    requires w.SetCredential? && Has(secrets, w.ref) && Get(secrets, w.ref) == w.secret
    ensures SecretsSet(secrets, s, Apply(t, w), init + [w])
  {
  }

  lemma {:induction false} SetSecrets(secrets: Dict<string>, s: Machine, ws: seq<Write>)
    requires forall w | w in ws :: w.SetCredential? && Has(secrets, w.ref) && Get(secrets, w.ref) == w.secret
    ensures SecretsSet(secrets, s, After(s, ws), ws)
  {
    if ws != [] {
      var init, w := ws[..|ws| - 1], ws[|ws| - 1];
      assert ws == init + [w];
      SetSecrets(secrets, s, init);
      OneSecret(secrets, s, After(s, init), init, w);
    }
  }

  /** A credential write is legal at any time if it is legal at all. */
  lemma {:induction false} CredentialsLegal(s0: Machine, m: Migration, s: Machine, ws: seq<Write>)
    requires forall w | w in ws :: w.SetCredential? && Legal(s0, m, s, w)
    ensures AllLegal(s0, m, s, ws)
  {
    if ws != [] {
      var init, w := ws[..|ws| - 1], ws[|ws| - 1];
      assert w in ws && forall x | x in init :: x in ws;
      CredentialsLegal(s0, m, s, init);
    }
  }

  lemma {:induction false} CredentialsPhase(s0: Machine, m: Migration, s: Machine, ws: seq<Write>)
    requires forall w | w in ws :: w.SetCredential? && Legal(s0, m, s, w)
    ensures AllLegal(s0, m, s, ws) && SecretsSet(Secrets(m), s, After(s, ws), ws)
  {
    CredentialsLegal(s0, m, s, ws);
    forall w | w in ws ensures w.SetCredential? && Has(Secrets(m), w.ref) && Get(Secrets(m), w.ref) == w.secret {
      assert Legal(s0, m, s, w);
    }
    SetSecrets(Secrets(m), s, ws);
  }

  lemma {:induction false} SettingsPhaseOne(s0: Machine, m: Migration, again: Migration, s: Machine, now: Machine, scope: Scope)
    requires Readable(s) && SettingsAt(s0, m, s, scope) && Activation.Document(again, scope) == Activation.Document(m, scope)
    requires At(now, scope).settings == At(s, scope).settings
    requires Stored(now.credentials, Secrets(m)) && (scope.Project? ==> now.global.settings.Settings?)
    ensures var ws := SettingsWrite(s, again, scope);
            && AllLegal(s0, m, now, ws)
            && After(now, ws) == With(now, scope, At(now, scope).(settings :=
                 if At(s, scope).settings.Missing? then Settings(Activation.Document(m, scope)) else At(s, scope).settings))
  {
    var ws := SettingsWrite(s, again, scope);
    if ws != [] {
      OneWrite(now, ws[0]);
      OneLegal(s0, m, now, ws[0]);
    }
  }

  lemma {:induction false} SettingsPhase(s0: Machine, m: Migration, again: Migration, s: Machine, now: Machine)
    requires Readable(s) && SettingsAt(s0, m, s, Global) && SettingsAt(s0, m, s, Project)
    requires again.global.document == m.global.document && again.project.document == m.project.document
    requires now.global == s.global && now.project == s.project && Stored(now.credentials, Secrets(m))
    ensures var ws := SettingsWrites(s, again);
            && AllLegal(s0, m, now, ws)
            && BothSettings(After(now, ws))
            && After(now, ws) == now.(
                 global := s.global.(settings := if s.global.settings.Missing? then Settings(m.global.document) else s.global.settings),
                 project := s.project.(settings := if s.project.settings.Missing? then Settings(m.project.document) else s.project.settings))
  {
    var a, b := SettingsWrite(s, again, Global), SettingsWrite(s, again, Project);
    SettingsPhaseOne(s0, m, again, s, now, Global);
    SettingsPhaseOne(s0, m, again, s, After(now, a), Project);
    AllLegalAppend(s0, m, now, a, b);
    AfterAppend(now, a, b);
  }

  lemma {:induction false} LegacyPhaseOne(s0: Machine, m: Migration, s: Machine, now: Machine, scope: Scope)
    requires LegacyAt(s0, s, scope) && At(now, scope).legacy == At(s, scope).legacy
    requires BothSettings(now) && Stored(now.credentials, Secrets(m))
    ensures var ws := LegacyWrite(s, scope);
            && AllLegal(s0, m, now, ws)
            && After(now, ws) == With(now, scope, At(now, scope).(legacy := Stripped(At(s0, scope))))
  {
    var ws := LegacyWrite(s, scope);
    if At(s0, scope).legacy.Some? { StripFinal(At(s0, scope).legacy.value); }
    if ws != [] {
      OneWrite(now, ws[0]);
      OneLegal(s0, m, now, ws[0]);
    }
  }

  lemma {:induction false} LegacyPhase(s0: Machine, m: Migration, s: Machine, now: Machine)
    requires LegacyAt(s0, s, Global) && LegacyAt(s0, s, Project)
    requires BothSettings(now) && Stored(now.credentials, Secrets(m))
    requires now.global.legacy == s.global.legacy && now.project.legacy == s.project.legacy
    ensures var ws := LegacyWrites(s);
            && AllLegal(s0, m, now, ws)
            && After(now, ws) == now.(
                 global := now.global.(legacy := Stripped(s0.global)),
                 project := now.project.(legacy := Stripped(s0.project)))
  {
    var a, b := LegacyWrite(s, Global), LegacyWrite(s, Project);
    LegacyPhaseOne(s0, m, s, now, Global);
    LegacyPhaseOne(s0, m, s, After(now, a), Project);
    AllLegalAppend(s0, m, now, a, b);
    AfterAppend(now, a, b);
  }

  lemma {:induction false} MarkerPhaseOne(s0: Machine, m: Migration, again: Migration, s: Machine, now: Machine, scope: Scope)
    requires ScopeComplete(now, scope)
    ensures var ws := MarkerWrite(s, again, scope);
            && AllLegal(s0, m, now, ws)
            && After(now, ws) == With(now, scope, At(now, scope).(marker :=
                 if ws == [] then At(now, scope).marker else Some(MarkerOf(s, again, scope))))
  {
    var ws := MarkerWrite(s, again, scope);
    if ws != [] {
      OneWrite(now, ws[0]);
      OneLegal(s0, m, now, ws[0]);
    }
  }

  lemma {:induction false} MarkerPhase(s0: Machine, m: Migration, again: Migration, s: Machine, now: Machine)
    requires ScopeComplete(now, Global) && ScopeComplete(now, Project)
    ensures var ws := MarkerWrites(s, again);
            && AllLegal(s0, m, now, ws)
            && After(now, ws) == now.(
                 global := now.global.(marker :=
                   if MarkerWrite(s, again, Global) == [] then now.global.marker else Some(MarkerOf(s, again, Global))),
                 project := now.project.(marker :=
                   if MarkerWrite(s, again, Project) == [] then now.project.marker else Some(MarkerOf(s, again, Project))))
  {
    var a, b := MarkerWrite(s, again, Global), MarkerWrite(s, again, Project);
    MarkerPhaseOne(s0, m, again, s, now, Global);
    MarkerPhaseOne(s0, m, again, s, After(now, a), Project);
    AllLegalAppend(s0, m, now, a, b);
    AfterAppend(now, a, b);
  }
}
