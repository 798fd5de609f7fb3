/** The three edits as a whole: what each validates, what it rewrites, which credential effect it returns. */
module ConfigEdits {
  import opened Basics
  import opened ConfigDocument
  import opened Resolver
  import opened ModelMutations

  datatype CredentialAction = Keep | Replace | Clear

  /** The dashboard's form for one model; efforts are lower-cased and non-empty. */
  datatype ModelForm = ModelForm(
    id: string,
    efforts: seq<string>,
    defaultEffort: string,
    image: bool,
    tiers: Option<Tiers>)

  datatype UpsertInput = UpsertInput(
    profileId: string,
    protocol: string,
    baseURL: string,
    replaceModels: bool,
    catalogIds: seq<string>,
    catalogModels: seq<CatalogModel>,
    manualIds: seq<string>,
    previousModelId: string,
    model: ModelForm,
    tiersProvided: bool,
    visionProvided: bool,
    visionModel: string,
    protectedIds: seq<string>,
    credentialAction: CredentialAction,
    apiKey: string,
    credentialReferences: Option<seq<string>>,
    switchToModel: bool)

  /** The random draws of one edit: a new provider's id and the suffixes of fresh references. */
  datatype Draw = Draw(providerId: string, suffixes: seq<string>)

  datatype CredentialEffect =
    | NoEffect
    | SetSecret(ref: string, secret: string, cleanup: Option<string>)
    | ClearSecret(cleared: string)

  datatype Edited = Edited(document: Document, provider: string, effect: CredentialEffect)

  // ----- Catalogs -----

  function NormalizeIds(host: Host, ids: seq<string>, limit: nat, invalid: MutationError): Result<seq<string>, MutationError> {
    if |ids| > limit || exists i | 0 <= i < |ids| :: !ValidModelIdentifier(ids[i]) then Failure(invalid)
    else
      var unique := AddAllUnique([], ids);
      var index := CreateIndex(host, unique);
      if index.Failure? then Failure(index.error) else Success(unique)
  }

  /** The catalog id that equals an id up to case. */
  function FoldedId(host: Host, ids: seq<string>, id: string): Option<string> {
    if ids == [] then None
    else if host.lower(ids[|ids| - 1]) == host.lower(id) then Some(ids[|ids| - 1])
    else FoldedId(host, ids[..|ids| - 1], id)
  }

  function DefaultIn(efforts: seq<string>, effort: string): Option<string> {
    if effort in efforts then Some(effort) else None
  }

  /** normalizeCatalogModels: metadata under confirmed ids, the first entry of each id. */
  function NormalizeCatalog(host: Host, ids: seq<string>, models: seq<CatalogModel>): Result<seq<CatalogModel>, MutationError> {
    if |models| > 2048 then Failure(InvalidCatalog) else CatalogEntries(host, ids, models)
  }

  function CatalogEntries(host: Host, ids: seq<string>, models: seq<CatalogModel>): Result<seq<CatalogModel>, MutationError> {
    if models == [] then Success([])
    else
      var before :- CatalogEntries(host, ids, models[..|models| - 1]);
      var m := models[|models| - 1];
      var id := FoldedId(host, ids, m.id);
      if id.None? || !ValidModelIdentifier(m.id) then Failure(InvalidCatalog)
      else if CatalogIndex(before, id.value) < |before| then Success(before)
      else
        var default := if m.defaultEffort.Some? then DefaultIn(m.efforts, m.defaultEffort.value) else None;
        Success(before + [CatalogModel(id.value, m.efforts, default, m.image)])
  }

  // ----- Saving a model: what is decided before anything is rewritten -----

  datatype Plan = Plan(
    provider: string,
    existing: Option<Provider>,
    endpointChanged: bool,
    replacing: bool,
    previous: string,
    model: Model,
    retained: seq<Model>,
    index: Index,
    catalog: seq<CatalogModel>,
    agentTiers: Option<Tiers>,
    agentVision: string)

  function EndpointChanged(existing: Option<Provider>, protocol: string, baseURL: string): bool {
    && existing.Some?
    && (ProtocolOf(existing.value.protocol) != ProtocolOf(protocol) || existing.value.baseURL != baseURL)
  }

  /** Main models the new endpoint's catalog confirms; their tiers keep confirmed ids only. */
  function RetainModels(host: Host, idx: Index, catalogIds: seq<string>, models: seq<Model>, next: string, previous: string): seq<Model> {
    if models == [] then []
    else
      var before := RetainModels(host, idx, catalogIds, models[..|models| - 1], next, previous);
      var m := models[|models| - 1];
      if !m.routingOnly && m.id in catalogIds && (m.id == next || m.id != previous)
      then before + [m.(tiers := RetainLocalTiers(host, idx, catalogIds, m.tiers))]
      else before
  }

  /** Another model whose id differs from the saved one only in case. */
  predicate CaseTwin(host: Host, models: seq<Model>, id: string, previous: string) {
    exists i | 0 <= i < |models| ::
      host.lower(models[i].id) == host.lower(id) && models[i].id != previous && models[i].id != id
  }

  function RetainFormTiers(host: Host, idx: Index, allowed: seq<string>, tiers: Option<Tiers>): Option<Tiers> {
    if tiers.None? then None
    else
      var kept := RetainLocalTiers(host, idx, allowed, tiers.value);
      if kept == [] then None else Some(kept)
  }

  function FormTiers(form: ModelForm): Tiers {
    if form.tiers.Some? then form.tiers.value else []
  }

  /** The model the form replaces, the id it is saved under, and the evidence for that id. */
  datatype Target = Target(previous: string, id: string, evidence: Index)

  function ChooseTarget(host: Host, models: seq<Model>, replacing: bool, catalogIds: seq<string>, input: UpsertInput): Result<Target, MutationError> {
    var existingIndex :- CreateIndex(host, Ids(models));
    var previous := Canonical(host, existingIndex, input.previousModelId);
    if input.previousModelId != "" && !Declares(models, previous) then Failure(ModelNotFound)
    else
      var evidence :- CreateIndex(host, (if replacing then [] else Ids(models)) + catalogIds);
      var id := Canonical(host, evidence, input.model.id);
      if id == "" then Failure(InvalidModelId)
      else if !replacing && CaseTwin(host, models, id, previous) then Failure(CaseCollision)
      else if !replacing && previous != "" && previous != id && Declares(models, id) then Failure(RenameConflict)
      else Success(Target(previous, id, evidence))
  }

  /** The saved model and the agent routes, cut down to the new endpoint's ids when the endpoint changed. */
  function BuildPlan(
    host: Host, provider: string, existing: Option<Provider>, endpointChanged: bool, target: Target,
    retained: seq<Model>, allowed: seq<string>, index: Index, catalog: seq<CatalogModel>, input: UpsertInput): Plan
  {
    var form := input.model;
    var tiers := if endpointChanged then RetainLocalTiers(host, index, allowed, FormTiers(form)) else FormTiers(form);
    var vision := Canonical(host, index, input.visionModel);
    Plan(
      provider, existing, endpointChanged, existing.None? || input.replaceModels || endpointChanged, target.previous,
      Model(target.id, form.efforts, DefaultIn(form.efforts, form.defaultEffort), form.image, tiers, false),
      retained, index, catalog,
      if endpointChanged then RetainFormTiers(host, index, allowed, form.tiers) else form.tiers,
      if endpointChanged then (if vision in allowed then vision else "") else input.visionModel)
  }

  /** The plan once the confirmed and the manual ids are known. */
  function PlanFrom(
    host: Host, provider: string, existing: Option<Provider>, confirmed: seq<string>, manual: seq<string>,
    catalog: seq<CatalogModel>, input: UpsertInput): Result<Plan, MutationError>
  {
    var models := if existing.Some? then existing.value.models else [];
    var endpointChanged := EndpointChanged(existing, input.protocol, input.baseURL);
    var replacing := existing.None? || input.replaceModels || endpointChanged;
    var target :- ChooseTarget(host, models, replacing, confirmed, input);
    var retained := if endpointChanged && !input.replaceModels
                    then RetainModels(host, target.evidence, confirmed, models, target.id, target.previous) else [];
    var allowed := confirmed + manual + [target.id];
    var index :- CreateIndex(host, Ids(if replacing then retained else models) + allowed);
    Success(BuildPlan(host, provider, existing, endpointChanged, target, retained, allowed, index, catalog, input))
  }

  /** Everything upsertProviderModel decides before it rewrites the document. */
  function PlanUpsert(host: Host, d: Document, input: UpsertInput, draw: Draw): Result<Plan, MutationError> {
    var provider := if input.profileId != "" then input.profileId else "provider-" + draw.providerId;
    var existing := if Has(d.providers, provider) then Some(Get(d.providers, provider)) else None;
    if input.profileId != "" && existing.None? then Failure(ProviderNotFound)
    else
      var confirmed :- NormalizeIds(host, input.catalogIds, 2048, InvalidCatalog);
      var catalog :- NormalizeCatalog(host, confirmed, input.catalogModels);
      var manual :- NormalizeIds(host, input.manualIds, 4, InvalidManualIds);
      PlanFrom(host, provider, existing, confirmed, manual, catalog, input)
  }

  // ----- Credentials -----

  function DocumentReferences(d: Dict<Provider>): seq<string> {
    if d == [] then []
    else
      DocumentReferences(d[..|d| - 1])
      + if d[|d| - 1].1.auth.Credential? then [d[|d| - 1].1.auth.ref] else []
  }

  /** The references that count as in use: the caller's snapshot of all scopes, or this document's own. */
  function UsedReferences(d: Document, provided: Option<seq<string>>): seq<string> {
    if provided.Some? then provided.value else DocumentReferences(d.providers)
  }

  /** otherCredentialReferenceCount: uses of a reference, not counting the current provider's own. */
  function OtherUses(used: seq<string>, ref: string, own: string): nat {
    var n := if ref == "" then 0 else multiset(used)[ref];
    if own == ref && n > 0 then n - 1 else n
  }

  /** The first drawn reference that nothing uses. */
  function FreshRef(host: Host, provider: string, used: seq<string>, suffixes: seq<string>): Option<string> {
    if suffixes == [] then None
    else
      var candidate := CredentialRefFor(host, provider) + "_" + suffixes[0];
      if candidate !in used then Some(candidate) else FreshRef(host, provider, used, suffixes[1..])
  }

  function AuthOf(existing: Option<Provider>): Auth {
    if existing.Some? then existing.value.auth else Ambient
  }

  function OwnRef(auth: Auth): string {
    if auth.Credential? then auth.ref else ""
  }

  function EffectiveAction(plan: Plan, requested: CredentialAction): CredentialAction {
    if plan.endpointChanged && requested != Replace then Clear else requested
  }

  function CredentialStep(host: Host, used: seq<string>, plan: Plan, input: UpsertInput, suffixes: seq<string>)
    : Result<(Auth, CredentialEffect), MutationError>
  {
    var auth := AuthOf(plan.existing);
    var own := OwnRef(auth);
    var preferred := CredentialRefFor(host, plan.provider);
    match EffectiveAction(plan, input.credentialAction)
    case Replace =>
      var ref := if own != "" || preferred in used then FreshRef(host, plan.provider, used, suffixes) else Some(preferred);
      if ref.None? then Failure(CredentialRefCollision)
      else
        var cleanup := if own != "" && OtherUses(used, own, own) == 0 && own != ref.value then Some(own) else None;
        Success((Credential(ref.value), SetSecret(ref.value, input.apiKey, cleanup)))
    case Clear =>
      var ref := if own != "" then own else preferred;
      var unused := (own != "" || input.credentialAction == Clear) && OtherUses(used, ref, own) == 0;
      Success((NoAuth, if unused then ClearSecret(ref) else NoEffect))
    case Keep => Success((auth, NoEffect))
  }

  // ----- Saving a model: the rewrite -----

  function KeptAgents(plan: Plan): Agents {
    if plan.existing.None? then NO_AGENTS
    else if plan.replacing then NO_AGENTS.(compat := plan.existing.value.agents.compat)
    else plan.existing.value.agents
  }

  /** updateProviderAgents. */
  function UpdateAgents(agents: Agents, plan: Plan, input: UpsertInput): Agents {
    var tiers := if input.tiersProvided && plan.agentTiers.Some? then plan.agentTiers.value else agents.tiers;
    var named := agents.vision.Some? && agents.vision.value.model.Some? && agents.vision.value.model.value != "";
    var vision :=
      if input.visionProvided then
        Some(LocalVision(
          plan.agentVision != "",
          if plan.agentVision == "" then None else Some(plan.agentVision),
          agents.vision.Some? ==> agents.vision.value.autoUse))
      else if input.model.image && !named then Some(LocalVision(true, Some(plan.model.id), true))
      else agents.vision;
    agents.(tiers := tiers, vision := vision)
  }

  /** What the rewrite has before routes are normalised. */
  datatype Moved = Moved(models: seq<Model>, agents: Agents, routing: Routing, selection: Option<Ref>)

  function MoveReferences(d: Document, plan: Plan): Moved {
    var next := plan.model;
    if plan.replacing then
      var available := WithoutModel(plan.retained, next.id) + [next];
      Moved(
        plan.retained,
        KeptAgents(plan),
        ReplaceRouting(d.routing, plan.provider, available, next),
        ReplaceSelection(d.selection, plan.provider, available, next))
    else
      var models := if plan.existing.Some? then plan.existing.value.models else [];
      if plan.previous != "" && plan.previous != next.id then
        Moved(
          WithoutModel(MigrateModels(models, plan.previous, next.id), plan.previous),
          MigrateAgents(KeptAgents(plan), plan.previous, next.id, false),
          MigrateRouting(d.routing, plan.provider, plan.previous, next.id, false),
          MigrateSelection(d.selection, plan.provider, plan.previous, next.id))
      else Moved(models, KeptAgents(plan), d.routing, d.selection)
  }

  function SavedProvider(plan: Plan, input: UpsertInput, auth: Auth, ensured: Ensured): Provider {
    Provider(
      ProtocolOf(input.protocol), input.baseURL, auth, ensured.models, ensured.agents,
      if plan.existing.Some? then plan.existing.value.reliability else Reliability(None, None, None, None))
  }

  /** The document once the provider's models, agents and routes are settled. */
  function Settle(d: Document, provider: string, p: Provider, selection: Option<Ref>, routing: Routing): Document {
    Document(
      Put(d.providers, provider, p),
      ReconcileSelection(selection, provider, p.models),
      ReconcileRouting(routing, provider, p.models))
  }

  function SwitchTo(d: Document, provider: string, m: Model): Document {
    d.(selection := Some(Ref(provider, m.id, m.defaultEffort)), routing := RetainRoutes(d.routing, provider))
  }

  function ApplyUpsert(host: Host, d: Document, plan: Plan, input: UpsertInput, suffixes: seq<string>): Result<Edited, MutationError> {
    var moved := MoveReferences(d, plan);
    var credential :- CredentialStep(host, UsedReferences(d, input.credentialReferences), plan, input, suffixes);
    var ensured :- EnsureRouting(
      host, moved.routing, plan.provider, PutModel(moved.models, plan.model), UpdateAgents(moved.agents, plan, input),
      plan.index, plan.catalog, if plan.replacing then [] else input.protectedIds);
    var settled := Settle(d, plan.provider, SavedProvider(plan, input, credential.0, ensured), moved.selection, ensured.routing);
    Success(Edited(
      if input.switchToModel then SwitchTo(settled, plan.provider, plan.model) else settled,
      plan.provider, credential.1))
  }

  /** upsertProviderModel. */
  function Upsert(host: Host, d: Document, input: UpsertInput, draw: Draw): Result<Edited, MutationError> {
    var plan :- PlanUpsert(host, d, input, draw);
    ApplyUpsert(host, d, plan, input, draw.suffixes)
  }

  // ----- Deletion -----

  function RemovalEffect(auth: Auth, used: seq<string>): CredentialEffect {
    if auth.Credential? && auth.ref != "" && OtherUses(used, auth.ref, auth.ref) == 0
    then ClearSecret(auth.ref) else NoEffect
  }

  /** deleteProvider. */
  function DeleteProvider(d: Document, id: string, provided: Option<seq<string>>): Result<Edited, MutationError> {
    if !Has(d.providers, id) then Failure(ProviderNotFound)
    else
      var rest := Remove(d.providers, id);
      var selection := if d.selection.Some? && d.selection.value.provider == id then FirstSelection(rest) else d.selection;
      var routing := RetainRoutes(DropRouting(d.routing, id), if selection.Some? then selection.value.provider else "");
      Success(Edited(
        Document(rest, selection, routing), id,
        RemovalEffect(Get(d.providers, id).auth, UsedReferences(d, provided))))
  }

  /** The document once a deleted model's references lead to the first selectable model left. */
  function WithModelDeleted(host: Host, d: Document, id: string, target: string, protectedIds: seq<string>): Result<Edited, MutationError>
    requires Has(d.providers, id)
    requires var models := WithoutModel(Get(d.providers, id).models, target); SelectableIndex(models) < |models|
  {
    var p := Get(d.providers, id);
    var models := WithoutModel(p.models, target);
    var fallback := models[SelectableIndex(models)].id;
    var index :- CreateIndex(host, Ids(models));
    var ensured :- EnsureRouting(
      host, MigrateRouting(d.routing, id, target, fallback, true), id,
      MigrateModels(models, target, fallback), MigrateAgents(p.agents, target, fallback, true),
      index, [], protectedIds);
    Success(Edited(
      Settle(d, id, p.(models := ensured.models, agents := ensured.agents),
             MigrateSelection(d.selection, id, target, fallback), ensured.routing),
      id, NoEffect))
  }

  /** deleteProviderModel. */
  function DeleteModel(host: Host, d: Document, id: string, modelId: string, protectedIds: seq<string>, provided: Option<seq<string>>)
    : Result<Edited, MutationError>
  {
    if !Has(d.providers, id) then Failure(ProviderNotFound)
    else
      var p := Get(d.providers, id);
      var existingIndex :- CreateIndex(host, Ids(p.models));
      var target := Canonical(host, existingIndex, modelId);
      var models := WithoutModel(p.models, target);
      if |models| == |p.models| then Failure(ModelNotFound)
      else if SelectableIndex(models) == |models| then DeleteProvider(d, id, provided)
      else WithModelDeleted(host, d, id, target, protectedIds)
  }
}
