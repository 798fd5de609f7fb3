/**
  What the three settings mutations compute: saving one provider-owned model,
  deleting one model, deleting one provider. Each returns a new document and
  the credential effect its caller must apply.
 */
module ModelMutations {
  import opened Basics
  import opened ConfigDocument
  import opened Resolver

  datatype MutationError =
    | ProviderNotFound
    | ModelNotFound
    | InvalidModelId
    | InvalidCatalog
    | InvalidManualIds
    | CaseCollision
    | RenameConflict
    | CredentialRefCollision

  // ----- Canonical model ids -----

  datatype Index = Index(exact: set<string>, byFold: map<string, string>)

  function IndexAdd(host: Host, idx: Index, id: string): Result<Index, MutationError> {
    if id == "" || id in idx.exact then Success(idx)
    else
      var folded := host.lower(id);
      if folded in idx.byFold && idx.byFold[folded] != id then Failure(CaseCollision)
      else Success(Index(idx.exact + {id}, idx.byFold[folded := id]))
  }

  /** createCanonicalModelIndex: the ids as given, and each one under its lower-cased form. */
  function CreateIndex(host: Host, ids: seq<string>): Result<Index, MutationError> {
    if ids == [] then Success(Index({}, map[]))
    else
      var before :- CreateIndex(host, ids[..|ids| - 1]);
      IndexAdd(host, before, ids[|ids| - 1])
  }

  function Canonical(host: Host, idx: Index, id: string): string {
    if id == "" || id in idx.exact then id
    else if host.lower(id) in idx.byFold && idx.byFold[host.lower(id)] != "" then idx.byFold[host.lower(id)]
    else id
  }

  predicate ValidModelIdentifier(id: string) {
    0 < |id| <= 160 && forall i | 0 <= i < |id| :: id[i] !in {'\r', '\n', '\t', '\0'}
  }

  // ----- Local tiers -----

  /** Tiers with canonical ids; a tier without an id is dropped. */
  function CanonicalTiers(host: Host, idx: Index, tiers: Tiers): Tiers {
    if tiers == [] then []
    else
      var before := CanonicalTiers(host, idx, tiers[..|tiers| - 1]);
      var (tier, id) := tiers[|tiers| - 1];
      if Canonical(host, idx, id) == "" then before else before + [(tier, Canonical(host, idx, id))]
  }

  function TierValues(tiers: Tiers): (ids: seq<string>)
    ensures |ids| == |tiers|
    ensures forall i | 0 <= i < |tiers| :: ids[i] == tiers[i].1
  {
    seq(|tiers|, i requires 0 <= i < |tiers| => tiers[i].1)
  }

  /** Tiers whose canonical id is allowed. */
  function RetainLocalTiers(host: Host, idx: Index, allowed: seq<string>, tiers: Tiers): Tiers {
    if tiers == [] then []
    else
      var before := RetainLocalTiers(host, idx, allowed, tiers[..|tiers| - 1]);
      var (tier, id) := tiers[|tiers| - 1];
      if Canonical(host, idx, id) in allowed then before + [(tier, Canonical(host, idx, id))] else before
  }

  /** replaceLocalTierReferences. */
  function ReplaceTiers(tiers: Tiers, previous: string, replacement: string, disableVision: bool): Tiers {
    if tiers == [] then []
    else
      var before := ReplaceTiers(tiers[..|tiers| - 1], previous, replacement, disableVision);
      var (tier, id) := tiers[|tiers| - 1];
      if id != previous then before + [(tier, id)]
      else if disableVision && tier == "vision" then before
      else before + [(tier, replacement)]
  }

  /** migrateLocalModelReferences. */
  function MigrateModels(models: seq<Model>, previous: string, replacement: string): (r: seq<Model>)
    ensures |r| == |models|
    ensures forall i | 0 <= i < |models| ::
              r[i] == models[i].(tiers := ReplaceTiers(models[i].tiers, previous, replacement, false))
  {
    seq(|models|, i requires 0 <= i < |models| =>
      models[i].(tiers := ReplaceTiers(models[i].tiers, previous, replacement, false)))
  }

  /** migrateLocalAgentReferences. */
  function MigrateAgents(agents: Agents, previous: string, replacement: string, disableVision: bool): Agents {
    agents.(
      tiers := ReplaceTiers(agents.tiers, previous, replacement, disableVision),
      vision := if agents.vision.Some? && agents.vision.value.model == Some(previous)
                then Some(if disableVision then agents.vision.value.(enabled := false, model := None)
                          else agents.vision.value.(model := Some(replacement)))
                else agents.vision)
  }

  // ----- Models -----

  function WithoutModel(models: seq<Model>, id: string): seq<Model> {
    if models == [] then []
    else
      var before := WithoutModel(models[..|models| - 1], id);
      if models[|models| - 1].id == id then before else before + [models[|models| - 1]]
  }

  function PutModel(models: seq<Model>, m: Model): seq<Model> {
    var i := ModelIndex(models, m.id);
    if i < |models| then models[i := m] else models + [m]
  }

  /** Position of the first selectable model, or |models|. */
  function SelectableIndex(models: seq<Model>): (i: nat)
    ensures i <= |models|
    ensures i < |models| ==> !models[i].routingOnly
    ensures forall j | 0 <= j < i :: models[j].routingOnly
  {
    if models == [] then 0
    else if !models[0].routingOnly then 0
    else
      var rest := SelectableIndex(models[1..]);
      assert forall j | 0 < j < rest + 1 :: models[j] == models[1..][j - 1];
      rest + 1
  }

  // ----- Qualified routes -----

  /** migrateQualifiedModelReferences on the tiers. */
  function MigrateRouteTiers(d: Dict<Ref>, provider: string, previous: string, replacement: string, disableVision: bool): Dict<Ref> {
    if d == [] then []
    else
      var before := MigrateRouteTiers(d[..|d| - 1], provider, previous, replacement, disableVision);
      var (tier, r) := d[|d| - 1];
      if r.provider != provider || r.model != previous then before + [(tier, r)]
      else if disableVision && tier == "vision" then before
      else before + [(tier, r.(model := replacement))]
  }

  function MigrateRouting(r: Routing, provider: string, previous: string, replacement: string, disableVision: bool): Routing {
    r.(
      tiers := MigrateRouteTiers(r.tiers, provider, previous, replacement, disableVision),
      vision := if r.vision.Some? && r.vision.value.model.Some?
                   && r.vision.value.model.value.provider == provider && r.vision.value.model.value.model == previous
                then Some(if disableVision then r.vision.value.(enabled := false, model := None)
                          else r.vision.value.(model := Some(r.vision.value.model.value.(model := replacement))))
                else r.vision)
  }

  /** replaceQualifiedProviderReferences on the tiers. */
  function ReplaceRouteTiers(d: Dict<Ref>, provider: string, available: seq<Model>, fallback: Model): (r: Dict<Ref>)
    ensures |r| == |d|
  {
    seq(|d|, i requires 0 <= i < |d| =>
      (d[i].0,
       if d[i].1.provider == provider && !Declares(available, d[i].1.model) then d[i].1.(model := fallback.id) else d[i].1))
  }

  function ReplaceRouting(r: Routing, provider: string, available: seq<Model>, fallback: Model): Routing {
    r.(
      tiers := ReplaceRouteTiers(r.tiers, provider, available, fallback),
      vision := if r.vision.Some? && r.vision.value.model.Some? && r.vision.value.model.value.provider == provider
                   && !Declares(available, r.vision.value.model.value.model)
                then Some(if fallback.image
                          then r.vision.value.(model := Some(r.vision.value.model.value.(model := fallback.id)))
                          else r.vision.value.(enabled := false, model := None))
                else r.vision)
  }

  /** The touched provider's routes with canonical ids. */
  function CanonicalRouteTiers(host: Host, idx: Index, d: Dict<Ref>, provider: string): (r: Dict<Ref>)
    ensures |r| == |d|
  {
    seq(|d|, i requires 0 <= i < |d| =>
      (d[i].0, if d[i].1.provider == provider then d[i].1.(model := Canonical(host, idx, d[i].1.model)) else d[i].1))
  }

  function CanonicalRouting(host: Host, idx: Index, r: Routing, provider: string): Routing {
    r.(
      tiers := CanonicalRouteTiers(host, idx, r.tiers, provider),
      vision := if r.vision.Some? && r.vision.value.model.Some? && r.vision.value.model.value.provider == provider
                then Some(r.vision.value.(model := Some(r.vision.value.model.value.(
                  model := Canonical(host, idx, r.vision.value.model.value.model)))))
                else r.vision)
  }

  /** reconcileReferenceReasoning. */
  function ReconcileRef(r: Ref, models: seq<Model>, at: nat): (s: Ref)
    ensures s.provider == r.provider && s.model == r.model
    ensures s.effort.Some? ==> at < |models| && s.effort.value in models[at].efforts
  {
    if r.effort.None? then r
    else if at < |models| && r.effort.value in models[at].efforts then r
    else if at < |models| && models[at].defaultEffort.Some? && models[at].defaultEffort.value in models[at].efforts then
      r.(effort := models[at].defaultEffort)
    else r.(effort := None)
  }

  function ReconcileRouteTiers(d: Dict<Ref>, provider: string, models: seq<Model>): (r: Dict<Ref>)
    ensures |r| == |d|
  {
    seq(|d|, i requires 0 <= i < |d| =>
      (d[i].0,
       if d[i].1.provider == provider then ReconcileRef(d[i].1, models, ModelIndex(models, d[i].1.model)) else d[i].1))
  }

  /** reconcileQualifiedRoutingReasoning. */
  function ReconcileRouting(r: Routing, provider: string, models: seq<Model>): Routing {
    r.(
      tiers := ReconcileRouteTiers(r.tiers, provider, models),
      vision := if r.vision.Some? && r.vision.value.model.Some? && r.vision.value.model.value.provider == provider
                then Some(r.vision.value.(model := Some(
                  ReconcileRef(r.vision.value.model.value, models, ModelIndex(models, r.vision.value.model.value.model)))))
                else r.vision)
  }

  function DropRouteTiers(d: Dict<Ref>, provider: string): Dict<Ref> {
    if d == [] then []
    else
      var before := DropRouteTiers(d[..|d| - 1], provider);
      if d[|d| - 1].1.provider == provider then before else before + [d[|d| - 1]]
  }

  /** removeProviderFromRouting. */
  function DropRouting(r: Routing, provider: string): Routing {
    r.(
      tiers := DropRouteTiers(r.tiers, provider),
      vision := if r.vision.Some? && r.vision.value.model.Some? && r.vision.value.model.value.provider == provider
                then None else r.vision)
  }

  // ----- Default selection -----

  /** migrateDefaultModelReference. */
  function MigrateSelection(s: Option<Ref>, provider: string, previous: string, replacement: string): Option<Ref> {
    if s.Some? && s.value.provider == provider && s.value.model == previous then Some(s.value.(model := replacement)) else s
  }

  /** replaceDefaultProviderSelection. */
  function ReplaceSelection(s: Option<Ref>, provider: string, available: seq<Model>, fallback: Model): Option<Ref> {
    if s.Some? && s.value.provider == provider && !Declares(available, s.value.model)
    then Some(Ref(provider, fallback.id, fallback.defaultEffort))
    else s
  }

  /** reconcileDefaultSelectionReasoning: the selected model, or the first selectable one. */
  function ReconcileSelection(s: Option<Ref>, provider: string, models: seq<Model>): Option<Ref> {
    if s.None? || s.value.provider != provider then s
    else
      var i := ModelIndex(models, s.value.model);
      if i < |models| && !models[i].routingOnly then Some(ReconcileRef(s.value, models, i))
      else
        var j := SelectableIndex(models);
        if j < |models| then Some(ReconcileRef(s.value.(model := models[j].id), models, j)) else s
  }

  /** firstProviderSelection. */
  function FirstSelection(d: Dict<Provider>): Option<Ref> {
    if d == [] then None
    else
      var i := SelectableIndex(d[0].1.models);
      if i < |d[0].1.models| then Some(Ref(d[0].0, d[0].1.models[i].id, None)) else FirstSelection(d[1..])
  }

  // ----- Routing-only declarations -----

  /** Catalog metadata for one confirmed model. */
  datatype CatalogModel = CatalogModel(id: string, efforts: seq<string>, defaultEffort: Option<string>, image: bool)

  function CatalogIndex(catalog: seq<CatalogModel>, id: string): (i: nat)
    ensures i <= |catalog|
    ensures i < |catalog| ==> catalog[i].id == id
  {
    if catalog == [] then 0 else if catalog[0].id == id then 0 else CatalogIndex(catalog[1..], id) + 1
  }

  /** routingModelDeclaration without an earlier declaration. */
  function Placeholder(id: string, catalog: seq<CatalogModel>): Model {
    var c := CatalogIndex(catalog, id);
    if c < |catalog| then Model(id, catalog[c].efforts, catalog[c].defaultEffort, catalog[c].image, [], true)
    else Model(id, [], None, false, [], true)
  }

  /** routingModelDeclaration over an earlier declaration: the catalog's reasoning wins when it has any. */
  function Redeclare(m: Model, id: string, catalog: seq<CatalogModel>): Model {
    var c := CatalogIndex(catalog, id);
    if !m.routingOnly || c == |catalog| then m
    else if catalog[c].efforts != [] then
      m.(id := id, efforts := catalog[c].efforts, defaultEffort := catalog[c].defaultEffort, image := catalog[c].image)
    else m.(id := id, image := catalog[c].image)
  }

  function NormalizeModel(host: Host, idx: Index, catalog: seq<CatalogModel>, m: Model): Model {
    Redeclare(m, Canonical(host, idx, m.id), catalog).(tiers := CanonicalTiers(host, idx, m.tiers))
  }

  function NormalizeModels(host: Host, idx: Index, catalog: seq<CatalogModel>, models: seq<Model>): (r: seq<Model>)
    ensures |r| == |models|
    ensures forall i | 0 <= i < |models| :: r[i] == NormalizeModel(host, idx, catalog, models[i])
  {
    seq(|models|, i requires 0 <= i < |models| => NormalizeModel(host, idx, catalog, models[i]))
  }

  /** Every id that the models' own tiers name, canonical. */
  function RoutedByModels(host: Host, idx: Index, models: seq<Model>): seq<string> {
    if models == [] then []
    else RoutedByModels(host, idx, models[..|models| - 1])
         + TierValues(CanonicalTiers(host, idx, models[|models| - 1].tiers))
  }

  function OptionalId(id: string): seq<string> {
    if id == "" then [] else [id]
  }

  function RoutedByVision(host: Host, idx: Index, agents: Agents): seq<string> {
    if agents.vision.Some? && agents.vision.value.model.Some?
    then OptionalId(Canonical(host, idx, agents.vision.value.model.value)) else []
  }

  function RoutedByRoutes(host: Host, idx: Index, d: Dict<Ref>, provider: string): seq<string> {
    if d == [] then []
    else
      RoutedByRoutes(host, idx, d[..|d| - 1], provider)
      + if d[|d| - 1].1.provider == provider then OptionalId(Canonical(host, idx, d[|d| - 1].1.model)) else []
  }

  function RoutedByRouteVision(host: Host, idx: Index, r: Routing, provider: string): seq<string> {
    if r.vision.Some? && r.vision.value.model.Some? && r.vision.value.model.value.provider == provider
    then OptionalId(Canonical(host, idx, r.vision.value.model.value.model)) else []
  }

  /** Every id that some route of the provider names, in the order the source meets them. */
  function Routed(host: Host, idx: Index, models: seq<Model>, agents: Agents, r: Routing, provider: string): seq<string> {
    RoutedByModels(host, idx, models)
    + TierValues(CanonicalTiers(host, idx, agents.tiers))
    + RoutedByVision(host, idx, agents)
    + RoutedByRoutes(host, idx, r.tiers, provider)
    + RoutedByRouteVision(host, idx, r, provider)
  }

  /** The canonical ids of declared models, as recorded for the case check. */
  function RecordedModels(host: Host, idx: Index, models: seq<Model>): seq<string> {
    if models == [] then []
    else RecordedModels(host, idx, models[..|models| - 1]) + OptionalId(Canonical(host, idx, models[|models| - 1].id))
  }

  /** Two recorded ids that differ only in case. */
  predicate Collides(host: Host, ids: seq<string>) {
    exists i, j | 0 <= i < j < |ids| ::
      ids[i] != ids[j] && host.lower(ids[i]) == host.lower(ids[j])
  }

  /** Declared ids that another scope still routes to. */
  function Protected(ids: seq<string>, declared: seq<string>): seq<string> {
    if ids == [] then []
    else
      Protected(ids[..|ids| - 1], declared)
      + if ValidModelIdentifier(ids[|ids| - 1]) && ids[|ids| - 1] in declared then [ids[|ids| - 1]] else []
  }

  function AddPlaceholders(models: seq<Model>, ids: seq<string>, catalog: seq<CatalogModel>): seq<Model> {
    if ids == [] then models
    else
      var before := AddPlaceholders(models, ids[..|ids| - 1], catalog);
      if Declares(before, ids[|ids| - 1]) then before else before + [Placeholder(ids[|ids| - 1], catalog)]
  }

  /** Selectable models, and routing-only ones that some route names. */
  function KeepRouted(models: seq<Model>, routed: seq<string>): seq<Model> {
    if models == [] then []
    else
      var before := KeepRouted(models[..|models| - 1], routed);
      var m := models[|models| - 1];
      if !m.routingOnly || m.id in routed then before + [m] else before
  }

  datatype Ensured = Ensured(models: seq<Model>, agents: Agents, routing: Routing)

  function CanonicalAgents(host: Host, idx: Index, agents: Agents): Agents {
    agents.(
      tiers := CanonicalTiers(host, idx, agents.tiers),
      vision := if agents.vision.Some? && agents.vision.value.model.Some?
                then Some(agents.vision.value.(
                  model := var id := Canonical(host, idx, agents.vision.value.model.value); if id == "" then None else Some(id)))
                else agents.vision)
  }

  /** ensureProviderRoutingModels. */
  function EnsureRouting(
    host: Host, r: Routing, provider: string, models: seq<Model>, agents: Agents, idx: Index,
    catalog: seq<CatalogModel>, protectedIds: seq<string>): Result<Ensured, MutationError>
  {
    var routed := Routed(host, idx, models, agents, r, provider);
    if Collides(host, RecordedModels(host, idx, models) + routed) then Failure(CaseCollision)
    else
      var all := AddAllUnique([], routed + Protected(protectedIds, Ids(models)));
      Success(Ensured(
        KeepRouted(AddPlaceholders(NormalizeModels(host, idx, catalog, models), all, catalog), all),
        CanonicalAgents(host, idx, agents),
        CanonicalRouting(host, idx, r, provider)))
  }
}
