/**
  ensureConfigV2 as an ordered list of single writes computed from one fresh
  read: backups, then secrets, then settings, then the stripped V1 documents,
  then markers. A crash keeps a prefix of the list; the next run starts again
  from what is on disk.
 */
module Activation {
  import opened Basics
  import opened JsonValues
  import opened ConfigDocument
  import opened Resolver
  import opened ModelMutations
  import opened ConfigEdits
  import opened LegacyImport

  // ----- What is on disk -----

  datatype SettingsFile = Missing | Unreadable | Settings(document: Document)

  /** A marker names the content of the files by revision; contents stand for their revisions here. */
  datatype Marker = Marker(
    source: Option<Dict<Json>>,
    settings: Document,
    remainder: Option<Dict<Json>>,
    mapping: Dict<string>,
    credentialRefs: multiset<string>)

  datatype Files = Files(legacy: Option<Dict<Json>>, settings: SettingsFile, marker: Option<Marker>)

  /** Backups are keyed by scope and revision of the document they copy. */
  datatype Machine = Machine(
    global: Files,
    project: Files,
    credentials: map<string, string>,
    backups: map<(Scope, string), Dict<Json>>)

  function At(s: Machine, scope: Scope): Files {
    if scope.Global? then s.global else s.project
  }

  function With(s: Machine, scope: Scope, f: Files): Machine {
    if scope.Global? then s.(global := f) else s.(project := f)
  }

  datatype ActivationError = InvalidSettingsFile | ImportFailed(cause: ImportError) | InvalidDocuments | Unresolvable | CredentialConflict

  datatype Write =
    | Backup(scope: Scope, revision: string, content: Dict<Json>)
    | SetCredential(ref: string, secret: string)
    | WriteSettings(scope: Scope, document: Document)
    | WriteLegacy(scope: Scope, rest: Dict<Json>)
    | WriteMarker(scope: Scope, marker: Marker)

  /** One write; a backup never replaces an existing one. */
  function Apply(s: Machine, w: Write): Machine {
    match w
    case Backup(scope, revision, content) =>
      if (scope, revision) in s.backups then s else s.(backups := s.backups[(scope, revision) := content])
    case SetCredential(ref, secret) => s.(credentials := s.credentials[ref := secret])
    case WriteSettings(scope, document) => With(s, scope, At(s, scope).(settings := Settings(document)))
    case WriteLegacy(scope, rest) => With(s, scope, At(s, scope).(legacy := Some(rest)))
    case WriteMarker(scope, marker) => With(s, scope, At(s, scope).(marker := Some(marker)))
  }

  /** The machine after some writes. */
  function After(s: Machine, ws: seq<Write>): Machine {
    if ws == [] then s else Apply(After(s, ws[..|ws| - 1]), ws[|ws| - 1])
  }

  // ----- What one run decides from its snapshots -----

  function LegacyData(f: Files): Dict<Json> {
    if f.legacy.Some? then f.legacy.value else []
  }

  /** Existing settings are taken as they are; otherwise the V1 document is imported. */
  function MigrateScope(p: Platform, f: Files, scope: Scope, inherited: Dict<Provider>, credentials: Dict<string>): Result<Imported, ImportError> {
    if f.settings.Settings? then Success(Imported(f.settings.document, credentials, []))
    else MigrateRaw(p, LegacyData(f), scope, inherited, credentials)
  }

  datatype Migration = Migration(global: Imported, project: Imported)

  /** migrateV1Documents; the project's import sees the global providers and secrets. */
  function Migrate(p: Platform, s: Machine): Result<Migration, ImportError> {
    var global :- MigrateScope(p, s.global, Global, [], []);
    var project :- MigrateScope(p, s.project, Project, global.document.providers, global.credentials);
    Success(Migration(global, project))
  }

  function Document(m: Migration, scope: Scope): ConfigDocument.Document {
    if scope.Global? then m.global.document else m.project.document
  }

  function Secrets(m: Migration): Dict<string> {
    m.project.credentials
  }

  /** Global and project settings with empty base and environment layers. */
  function TwoLayers(global: ConfigDocument.Document, project: ConfigDocument.Document): (layers: seq<ConfigDocument.Document>)
    ensures |layers| == LAYERS
  {
    [EMPTY_DOCUMENT, global, project, EMPTY_DOCUMENT]
  }

  predicate LegacyChanged(f: Files) {
    f.legacy.Some? && f.legacy.value != Strip(f.legacy.value)
  }

  /** planCredentialWrites: what the store lacks; a different stored value is a conflict. */
  function PlanCredentials(stored: map<string, string>, secrets: Dict<string>): Result<seq<Write>, ActivationError> {
    if secrets == [] then Success([])
    else
      var before :- PlanCredentials(stored, secrets[..|secrets| - 1]);
      var (ref, secret) := secrets[|secrets| - 1];
      if ref !in stored then Success(before + [SetCredential(ref, secret)])
      else if stored[ref] != secret then Failure(CredentialConflict)
      else Success(before)
  }

  predicate Readable(s: Machine) {
    !s.global.settings.Unreadable? && !s.project.settings.Unreadable?
  }

  /** Everything that can refuse a run, in the order it is checked. */
  function Prepare(p: Platform, s: Machine): Result<Migration, ActivationError> {
    if !Readable(s) then Failure(InvalidSettingsFile)
    else
      var m := Migrate(p, s);
      if m.Failure? then Failure(ImportFailed(m.error))
      else if !ValidDocument(m.value.global.document) || !ValidDocument(m.value.project.document) then Failure(InvalidDocuments)
      else if Resolve(p.host, TwoLayers(m.value.global.document, m.value.project.document)).Failure? then Failure(Unresolvable)
      else
        var credentials := PlanCredentials(s.credentials, Secrets(m.value));
        if credentials.Failure? then Failure(credentials.error) else Success(m.value)
  }

  function BackupWrite(revision: Dict<Json> -> string, s: Machine, scope: Scope): seq<Write> {
    if LegacyChanged(At(s, scope))
    then [Backup(scope, revision(At(s, scope).legacy.value), At(s, scope).legacy.value)] else []
  }

  function SettingsWrite(s: Machine, m: Migration, scope: Scope): seq<Write> {
    if At(s, scope).settings.Missing? then [WriteSettings(scope, Document(m, scope))] else []
  }

  function LegacyWrite(s: Machine, scope: Scope): seq<Write> {
    if LegacyChanged(At(s, scope)) then [WriteLegacy(scope, Strip(At(s, scope).legacy.value))] else []
  }

  function MarkerOf(s: Machine, m: Migration, scope: Scope): Marker {
    var f := At(s, scope);
    Marker(
      f.legacy, Document(m, scope), if LegacyChanged(f) then Some(Strip(f.legacy.value)) else f.legacy,
      (if scope.Global? then m.global else m.project).mapping, multiset(DocumentReferences(Document(m, scope).providers)))
  }

  /** A scope that was already complete gets no marker. */
  function MarkerWrite(s: Machine, m: Migration, scope: Scope): seq<Write> {
    if At(s, scope).settings.Missing? || LegacyChanged(At(s, scope)) then [WriteMarker(scope, MarkerOf(s, m, scope))] else []
  }

  /** The five phases of a run. */
  function Backups(revision: Dict<Json> -> string, s: Machine, backup: bool): seq<Write> {
    if backup then BackupWrite(revision, s, Global) + BackupWrite(revision, s, Project) else []
  }

  function CredentialWrites(p: Platform, s: Machine): seq<Write>
    requires Prepare(p, s).Success?
  {
    PlanCredentials(s.credentials, Secrets(Prepare(p, s).value)).value
  }

  function SettingsWrites(s: Machine, m: Migration): seq<Write> {
    SettingsWrite(s, m, Global) + SettingsWrite(s, m, Project)
  }

  function LegacyWrites(s: Machine): seq<Write> {
    LegacyWrite(s, Global) + LegacyWrite(s, Project)
  }

  function MarkerWrites(s: Machine, m: Migration): seq<Write> {
    MarkerWrite(s, m, Global) + MarkerWrite(s, m, Project)
  }

  function PhaseWrites(revision: Dict<Json> -> string, s: Machine, m: Migration, credentials: seq<Write>, backup: bool): seq<Write> {
    Backups(revision, s, backup) + credentials + SettingsWrites(s, m) + LegacyWrites(s) + MarkerWrites(s, m)
  }

  /** Every write of one uninterrupted run, in order. */
  function Writes(p: Platform, revision: Dict<Json> -> string, s: Machine, backup: bool): seq<Write>
    requires Prepare(p, s).Success?
  {
    PhaseWrites(revision, s, Prepare(p, s).value, CredentialWrites(p, s), backup)
  }

  /** One run that is interrupted after at most k writes; a refused run writes nothing. */
  function RunFor(p: Platform, revision: Dict<Json> -> string, s: Machine, backup: bool, k: nat): Machine {
    if Prepare(p, s).Failure? then s
    else
      var ws := Writes(p, revision, s, backup);
      After(s, if k < |ws| then ws[..k] else ws)
  }

  /** One uninterrupted run. */
  function FullRun(p: Platform, revision: Dict<Json> -> string, s: Machine, backup: bool): Machine {
    if Prepare(p, s).Failure? then s else After(s, Writes(p, revision, s, backup))
  }

  /** A run that dies after some writes; whether it makes backups is each run's own choice. */
  datatype Crash = Crash(backup: bool, writes: nat)

  /** Runs interrupted one after the other, each starting from what the last one left. */
  function Crashes(p: Platform, revision: Dict<Json> -> string, s: Machine, cs: seq<Crash>): Machine {
    if cs == [] then s
    else
      var last := cs[|cs| - 1];
      RunFor(p, revision, Crashes(p, revision, s, cs[..|cs| - 1]), last.backup, last.writes)
  }
}
