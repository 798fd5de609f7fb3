/**
  Layered resolution of settings documents: base, global, project and
  environment, in that order. The functions say what each loop computes; the
  methods are the loops; the lemmas say what a resolved snapshot means.
 */
module Resolver {
  import opened Basics
  import opened ConfigDocument

  const BASE: nat := 0
  const GLOBAL: nat := 1
  const LAYERS: nat := 4

  datatype ResolveError = InvalidDocument | ProviderScopeConflict | ReferenceError | ReferenceScopeError

  /** A resolved provider and the layer that owns it. */
  datatype Owned = Owned(provider: Provider, source: nat)

  /** A value and the layer it was taken from. */
  datatype Sourced<T> = Sourced(value: T, source: nat)

  datatype ResolvedRouting = ResolvedRouting(
    tiers: map<string, Sourced<Ref>>,
    vision: Option<Sourced<RouteVision>>,
    compat: Option<Sourced<string>>)

  datatype Snapshot = Snapshot(
    providers: map<string, Owned>,
    selection: Option<Sourced<Ref>>,
    routing: ResolvedRouting)

  // ----- Providers -----

  function Or(value: Option<nat>, default: nat): Option<nat> {
    if value.Some? then value else Some(default)
  }

  function Materialize(p: Provider): Provider {
    p.(reliability := Reliability(
      Or(p.reliability.maxRetries, 5),
      Or(p.reliability.timeoutMs, 900_000),
      Or(p.reliability.idleTimeoutMs, 300_000),
      Or(p.reliability.maxResponseBytes, 33_554_432)))
  }

  predicate HexDigit(c: char) {
    '0' <= c <= '9' || 'a' <= c <= 'f' || 'A' <= c <= 'F'
  }

  /** The ids that old single-model profiles shared between scopes: gw- and twelve hex digits. */
  predicate SharedGatewayId(id: string) {
    && |id| == 15
    && (id[0] == 'g' || id[0] == 'G')
    && (id[1] == 'w' || id[1] == 'W')
    && id[2] == '-'
    && forall i | 3 <= i < 15 :: HexDigit(id[i])
  }

  function Endpoint(host: Host, p: Provider): string {
    if p.baseURL == "" then "" else host.canonicalUrl(p.baseURL)
  }

  function ProtocolOf(protocol: string): string {
    if protocol == "" then "openai-chat" else protocol
  }

  predicate SameOwnedChannel(host: Host, existing: Provider, incoming: Provider, id: string) {
    || SharedGatewayId(id)
    || (&& Endpoint(host, existing) != ""
        && ProtocolOf(existing.protocol) == ProtocolOf(incoming.protocol)
        && Endpoint(host, existing) == Endpoint(host, incoming))
  }

  predicate ReplacesBase(previous: nat, rank: nat) {
    previous == BASE && rank == GLOBAL
  }

  type Owners = map<string, Owned>

  function OwnEntry(host: Host, owners: Owners, rank: nat, id: string, raw: Provider): Result<Owners, ResolveError> {
    if id in owners && !ReplacesBase(owners[id].source, rank) then
      if SameOwnedChannel(host, owners[id].provider, raw, id) then Success(owners)
      else Failure(ProviderScopeConflict)
    else
      Success(owners[id := Owned(Materialize(raw), rank)])
  }

  /** The first n providers of one layer. */
  function OwnLayer(host: Host, owners: Owners, rank: nat, d: Dict<Provider>, n: nat): Result<Owners, ResolveError>
    requires n <= |d|
  {
    if n == 0 then Success(owners)
    else
      var before :- OwnLayer(host, owners, rank, d, n - 1);
      OwnEntry(host, before, rank, d[n - 1].0, d[n - 1].1)
  }

  /** The first n layers. */
  function OwnLayers(host: Host, layers: seq<Document>, n: nat): Result<Owners, ResolveError>
    requires n <= |layers|
  {
    if n == 0 then Success(map[])
    else
      var before :- OwnLayers(host, layers, n - 1);
      OwnLayer(host, before, n - 1, layers[n - 1].providers, |layers[n - 1].providers|)
  }

  // ----- Default selection and routes -----

  function SelectionOf(layers: seq<Document>, n: nat): Option<Sourced<Ref>>
    requires n <= |layers|
  {
    if n == 0 then None
    else if layers[n - 1].selection.Some? then Some(Sourced(layers[n - 1].selection.value, n - 1))
    else SelectionOf(layers, n - 1)
  }

  function ActiveProvider(selection: Option<Sourced<Ref>>): string {
    if selection.Some? then selection.value.value.provider else ""
  }

  function RouteTiers(tiers: map<string, Sourced<Ref>>, rank: nat, d: Dict<Ref>, active: string): map<string, Sourced<Ref>> {
    if d == [] then tiers
    else
      var before := RouteTiers(tiers, rank, d[..|d| - 1], active);
      var (tier, reference) := d[|d| - 1];
      if reference.provider != active then before
      else before[tier := Sourced(reference, rank)]
  }

  function RouteLayer(r: ResolvedRouting, rank: nat, routing: Routing, active: string): ResolvedRouting {
    ResolvedRouting(
      RouteTiers(r.tiers, rank, routing.tiers, active),
      if routing.vision.Some? && (routing.vision.value.model.None? || routing.vision.value.model.value.provider == active)
      then Some(Sourced(routing.vision.value, rank)) else r.vision,
      if routing.compat.Some? then Some(Sourced(routing.compat.value, rank)) else r.compat)
  }

  function RouteLayers(layers: seq<Document>, active: string, n: nat): ResolvedRouting
    requires n <= |layers|
  {
    if n == 0 then ResolvedRouting(map[], None, None)
    else RouteLayer(RouteLayers(layers, active, n - 1), n - 1, layers[n - 1].routing, active)
  }

  // ----- Reference checks -----

  predicate EffortAllowed(effort: Option<string>, m: Model) {
    effort.Some? && |m.efforts| > 0 ==> effort.value in m.efforts
  }

  /** assertResolvedModelReference against the models of the referenced provider. */
  predicate ModelResolves(r: Ref, models: seq<Model>, allowRoutingOnly: bool) {
    && Declares(models, r.model)
    && var m := models[ModelIndex(models, r.model)];
       && (m.routingOnly ==> allowRoutingOnly)
       && EffortAllowed(r.effort, m)
  }

  predicate RefResolves(r: Ref, providers: map<string, Provider>, allowRoutingOnly: bool) {
    r.provider in providers && ModelResolves(r, providers[r.provider].models, allowRoutingOnly)
  }

  predicate InScope(r: Ref, rank: nat, owners: Owners) {
    r.provider in owners ==> owners[r.provider].source <= rank
  }

  predicate TiersDeclared(tiers: Tiers, models: seq<Model>) {
    forall i | 0 <= i < |tiers| :: Declares(models, tiers[i].1)
  }

  /** validateResolvedProviders for one provider. */
  predicate LocalReferencesDeclared(p: Provider) {
    && (forall i | 0 <= i < |p.models| :: TiersDeclared(p.models[i].tiers, p.models))
    && TiersDeclared(p.agents.tiers, p.models)
    && (p.agents.vision.Some? && p.agents.vision.value.model.Some? ==> Declares(p.models, p.agents.vision.value.model.value))
  }

  predicate AllLocalReferencesDeclared(owners: Owners) {
    forall id | id in owners :: LocalReferencesDeclared(owners[id].provider)
  }

  function LayerReferenceError(r: Ref, rank: nat, available: map<string, Provider>, owners: Owners, allowRoutingOnly: bool): Option<ResolveError> {
    if !InScope(r, rank, owners) then Some(ReferenceScopeError)
    else if !RefResolves(r, available, allowRoutingOnly) then Some(ReferenceError)
    else None
  }

  function Available(available: map<string, Provider>, d: Dict<Provider>, n: nat): map<string, Provider>
    requires n <= |d|
  {
    if n == 0 then available
    else Available(available, d, n - 1)[d[n - 1].0 := Materialize(d[n - 1].1)]
  }

  function AvailableUpTo(layers: seq<Document>, n: nat): map<string, Provider>
    requires n <= |layers|
  {
    if n == 0 then map[]
    else Available(AvailableUpTo(layers, n - 1), layers[n - 1].providers, |layers[n - 1].providers|)
  }

  function LayerTierError(d: Dict<Ref>, rank: nat, available: map<string, Provider>, owners: Owners, active: string): Option<ResolveError> {
    if d == [] then None
    else
      var before := LayerTierError(d[..|d| - 1], rank, available, owners, active);
      var reference := d[|d| - 1].1;
      if before.Some? || reference.provider != active then before
      else LayerReferenceError(reference, rank, available, owners, true)
  }

  /** The first reference of one raw layer that does not stand on its own. */
  function LayerError(d: Document, rank: nat, available: map<string, Provider>, owners: Owners, active: string): Option<ResolveError> {
    var selection := if d.selection.Some?
                     then LayerReferenceError(d.selection.value, rank, available, owners, false) else None;
    if selection.Some? then selection
    else
      var tiers := LayerTierError(d.routing.tiers, rank, available, owners, active);
      if tiers.Some? then tiers
      else if d.routing.vision.Some? && d.routing.vision.value.model.Some? && d.routing.vision.value.model.value.provider == active
      then LayerReferenceError(d.routing.vision.value.model.value, rank, available, owners, true)
      else None
  }

  function LayersError(layers: seq<Document>, owners: Owners, active: string, n: nat): Option<ResolveError>
    requires n <= |layers|
  {
    if n == 0 then None
    else
      var before := LayersError(layers, owners, active, n - 1);
      if before.Some? then before
      else LayerError(layers[n - 1], n - 1, AvailableUpTo(layers, n), owners, active)
  }

  function ProvidersOf(owners: Owners): map<string, Provider> {
    map id | id in owners :: owners[id].provider
  }

  /** assertResolvedModelReference, then assertReferenceScope. */
  function SourcedError(s: Sourced<Ref>, owners: Owners, allowRoutingOnly: bool): Option<ResolveError> {
    if !RefResolves(s.value, ProvidersOf(owners), allowRoutingOnly) then Some(ReferenceError)
    else if !InScope(s.value, s.source, owners) then Some(ReferenceScopeError)
    else None
  }

  predicate RoutingResolves(routing: ResolvedRouting, owners: Owners) {
    && (forall t | t in routing.tiers :: SourcedError(routing.tiers[t], owners, true).None?)
    && (routing.vision.Some? && routing.vision.value.value.model.Some? ==>
          SourcedError(VisionRef(routing.vision.value), owners, true).None?)
  }

  function VisionRef(v: Sourced<RouteVision>): Sourced<Ref>
    requires v.value.model.Some?
  {
    Sourced(v.value.model.value, v.source)
  }

  predicate ValidLayers(layers: seq<Document>) {
    |layers| == LAYERS && forall i | 0 <= i < LAYERS :: ValidDocument(layers[i])
  }

  /**
    What resolveSettingsLayers returns. A resolved route out of scope cannot
    be reached after the layer checks (ScopeHolds), so the last failure is
    always a reference failure.
   */
  function Resolve(host: Host, layers: seq<Document>): Result<Snapshot, ResolveError>
    requires |layers| == LAYERS
  {
    if !ValidLayers(layers) then Failure(InvalidDocument)
    else
      var owners :- OwnLayers(host, layers, LAYERS);
      var selection := SelectionOf(layers, LAYERS);
      var routing := RouteLayers(layers, ActiveProvider(selection), LAYERS);
      var layerError := LayersError(layers, owners, ActiveProvider(selection), LAYERS);
      if !AllLocalReferencesDeclared(owners) then Failure(ReferenceError)
      else if layerError.Some? then Failure(layerError.value)
      else if selection.Some? && SourcedError(selection.value, owners, false).Some? then
        Failure(SourcedError(selection.value, owners, false).value)
      else if !RoutingResolves(routing, owners) then Failure(ReferenceError)
      else Success(Snapshot(owners, selection, routing))
  }

  // ----- What ownership means -----

  /** Layer s owns id among the first n layers: the first to define it, except that global replaces base. */
  ghost predicate IsOwner(layers: seq<Document>, n: nat, id: string, s: nat)
    requires n <= |layers|
  {
    && s < n
    && Has(layers[s].providers, id)
    && (forall j: nat | j < s :: Has(layers[j].providers, id) ==> j == BASE && s == GLOBAL)
    && !(s == BASE && GLOBAL < n && Has(layers[GLOBAL].providers, id))
  }

  ghost predicate EntryConflicts(host: Host, owners: Owners, rank: nat, id: string, raw: Provider) {
    && id in owners
    && !ReplacesBase(owners[id].source, rank)
    && !SameOwnedChannel(host, owners[id].provider, raw, id)
  }

  /** Layer k redefines, on another channel, a provider that an earlier layer keeps. */
  ghost predicate Conflict(host: Host, layers: seq<Document>, k: nat, id: string, owner: nat)
    requires k < |layers|
  {
    && IsOwner(layers, k, id, owner)
    && Has(layers[k].providers, id)
    && !ReplacesBase(owner, k)
    && !SameOwnedChannel(host, Materialize(Get(layers[owner].providers, id)), Get(layers[k].providers, id), id)
  }

  /** The owner of an id once the first n providers of layer `rank` are in. */
  function OwnedAfter(owners: Owners, rank: nat, d: Dict<Provider>, n: nat, id: string): Option<Owned> {
    if KeyIndex(d, id) < n && KeyIndex(d, id) < |d| && (id !in owners || ReplacesBase(owners[id].source, rank)) then
      Some(Owned(Materialize(Get(d, id)), rank))
    else if id in owners then Some(owners[id])
    else None
  }

  function Lookup(owners: Owners, id: string): Option<Owned> {
    if id in owners then Some(owners[id]) else None
  }

  lemma {:induction false} OwnLayerMeaning(host: Host, owners: Owners, rank: nat, d: Dict<Provider>, n: nat)
    requires DistinctKeys(d) && n <= |d|
    ensures var r := OwnLayer(host, owners, rank, d, n);
            && (r.Success? <==> forall j | 0 <= j < n :: !EntryConflicts(host, owners, rank, d[j].0, d[j].1))
            && (r.Success? ==> forall id :: Lookup(r.value, id) == OwnedAfter(owners, rank, d, n, id))
  {
    if n > 0 {
      OwnLayerMeaning(host, owners, rank, d, n - 1);
      var before := OwnLayer(host, owners, rank, d, n - 1);
      if before.Success? {
        OwnEntryMeaning(host, owners, rank, d, n - 1, before.value);
      }
    }
  }

  lemma {:induction false} OwnEntryMeaning(host: Host, owners: Owners, rank: nat, d: Dict<Provider>, n: nat, before: Owners)
    requires DistinctKeys(d) && n < |d|
    requires forall id :: Lookup(before, id) == OwnedAfter(owners, rank, d, n, id)
    ensures var r := OwnEntry(host, before, rank, d[n].0, d[n].1);
            && (r.Success? <==> !EntryConflicts(host, owners, rank, d[n].0, d[n].1))
            && (r.Success? ==> forall id :: Lookup(r.value, id) == OwnedAfter(owners, rank, d, n + 1, id))
  {
    KeyAt(d, n);
    assert Lookup(before, d[n].0) == Lookup(owners, d[n].0);
    var r := OwnEntry(host, before, rank, d[n].0, d[n].1);
    if r.Success? {
      forall id ensures Lookup(r.value, id) == OwnedAfter(owners, rank, d, n + 1, id) {
        if id != d[n].0 {
          assert KeyIndex(d, id) != n;
          assert Lookup(r.value, id) == Lookup(before, id);
        }
      }
    }
  }

  ghost predicate DistinctProviders(layers: seq<Document>) {
    forall i | 0 <= i < |layers| :: DistinctKeys(layers[i].providers)
  }

  /** What the first n layers make of one id. */
  ghost predicate OwnedExactly(layers: seq<Document>, n: nat, id: string, o: Option<Owned>)
    requires n <= |layers|
  {
    if o.None? then forall k: nat | k < n :: !Has(layers[k].providers, id)
    else
      && IsOwner(layers, n, id, o.value.source)
      && o.value.provider == Materialize(Get(layers[o.value.source].providers, id))
  }

  ghost predicate OwnersExact(layers: seq<Document>, n: nat, owners: Owners)
    requires n <= |layers|
  {
    forall id :: OwnedExactly(layers, n, id, Lookup(owners, id))
  }

  ghost predicate LayerFree(host: Host, layers: seq<Document>, k: nat)
    requires k < |layers|
  {
    forall id, owner: nat :: !Conflict(host, layers, k, id, owner)
  }

  ghost predicate ConflictFree(host: Host, layers: seq<Document>, n: nat)
    requires n <= |layers|
  {
    forall k: nat | k < n :: LayerFree(host, layers, k)
  }

  lemma {:induction false} OwnersStep(host: Host, layers: seq<Document>, k: nat, before: Owners)
    requires DistinctProviders(layers) && k < |layers| && OwnersExact(layers, k, before)
    ensures var r := OwnLayer(host, before, k, layers[k].providers, |layers[k].providers|);
            && (r.Success? <==> LayerFree(host, layers, k))
            && (r.Success? ==> OwnersExact(layers, k + 1, r.value))
  {
    LastLayerConflicts(host, layers, k, before);
    OwnLayerMeaning(host, before, k, layers[k].providers, |layers[k].providers|);
    var r := OwnLayer(host, before, k, layers[k].providers, |layers[k].providers|);
    if r.Success? {
      forall id ensures OwnedExactly(layers, k + 1, id, Lookup(r.value, id)) {
        LastLayerOwner(layers, k, before, id);
      }
    }
  }

  ghost predicate OwnersMean(host: Host, layers: seq<Document>, n: nat, r: Result<Owners, ResolveError>)
    requires n <= |layers|
  {
    && (r.Success? <==> ConflictFree(host, layers, n))
    && (r.Success? ==> OwnersExact(layers, n, r.value))
  }

  lemma {:induction false} OwnersNext(host: Host, layers: seq<Document>, k: nat, before: Result<Owners, ResolveError>, after: Result<Owners, ResolveError>)
    requires DistinctProviders(layers) && k < |layers| && OwnersMean(host, layers, k, before)
    requires before.Success? ==> after == OwnLayer(host, before.value, k, layers[k].providers, |layers[k].providers|)
    requires before.Failure? ==> after.Failure?
    ensures OwnersMean(host, layers, k + 1, after)
  {
    if before.Success? {
      OwnersStep(host, layers, k, before.value);
    }
  }

  lemma {:induction false} OwnLayersNext(host: Host, layers: seq<Document>, n: nat)
    requires 0 < n <= |layers|
    ensures var before := OwnLayers(host, layers, n - 1);
            OwnLayers(host, layers, n)
            == if before.Failure? then before
               else OwnLayer(host, before.value, n - 1, layers[n - 1].providers, |layers[n - 1].providers|)
  {
  }

  /**
    Resolution of providers fails exactly when some layer redefines a kept
    provider on another channel; otherwise each provider is the materialized
    definition from its owner.
   */
  lemma {:induction false} OwnersMeaning(host: Host, layers: seq<Document>, n: nat)
    requires DistinctProviders(layers) && n <= |layers|
    ensures OwnersMean(host, layers, n, OwnLayers(host, layers, n))
  {
    if n > 0 {
      OwnersMeaning(host, layers, n - 1);
      OwnLayersNext(host, layers, n);
      OwnersNext(host, layers, n - 1, OwnLayers(host, layers, n - 1), OwnLayers(host, layers, n));
    }
  }

  lemma {:induction false} LastLayerOwner(layers: seq<Document>, k: nat, before: Owners, id: string)
    requires k < |layers| && OwnedExactly(layers, k, id, Lookup(before, id))
    ensures OwnedExactly(layers, k + 1, id, OwnedAfter(before, k, layers[k].providers, |layers[k].providers|, id))
  {
  }

  /** Conflicts of layer k, read off the owners of the earlier layers. */
  lemma {:induction false} LastLayerConflicts(host: Host, layers: seq<Document>, k: nat, owners: Owners)
    requires DistinctProviders(layers) && k < |layers|
    requires OwnersExact(layers, k, owners)
    ensures var d := layers[k].providers;
            (forall j | 0 <= j < |d| :: !EntryConflicts(host, owners, k, d[j].0, d[j].1))
            <==> LayerFree(host, layers, k)
  {
    var d := layers[k].providers;
    forall j | 0 <= j < |d| && EntryConflicts(host, owners, k, d[j].0, d[j].1)
      ensures Conflict(host, layers, k, d[j].0, owners[d[j].0].source)
    {
      KeyAt(d, j);
      assert OwnedExactly(layers, k, d[j].0, Lookup(owners, d[j].0));
    }
    forall id, owner: nat | Conflict(host, layers, k, id, owner)
      ensures EntryConflicts(host, owners, k, d[KeyIndex(d, id)].0, d[KeyIndex(d, id)].1)
    {
      assert OwnedExactly(layers, k, id, Lookup(owners, id));
      OwnerUnique(layers, k, id, owner, owners[id].source);
    }
  }

  lemma {:induction false} OwnerUnique(layers: seq<Document>, n: nat, id: string, s: nat, t: nat)
    requires n <= |layers| && IsOwner(layers, n, id, s) && IsOwner(layers, n, id, t)
    ensures s == t
  {
  }

  // ----- What a snapshot means -----

  lemma {:induction false} SelectionMeaning(layers: seq<Document>, n: nat)
    requires n <= |layers|
    ensures var s := SelectionOf(layers, n);
            if s.None? then forall j: nat | j < n :: layers[j].selection.None?
            else
              && s.value.source < n
              && layers[s.value.source].selection == Some(s.value.value)
              && forall j: nat | s.value.source < j < n :: layers[j].selection.None?
  {
    if n > 0 && layers[n - 1].selection.None? {
      SelectionMeaning(layers, n - 1);
    }
  }

  predicate ActiveRoute(d: Dict<Ref>, tier: string, active: string) {
    Has(d, tier) && Get(d, tier).provider == active
  }

  lemma {:induction false} KeyIndexInit<V>(d: Dict<V>, key: string)
    requires d != []
    ensures var init := d[..|d| - 1];
            KeyIndex(d, key) == if Has(init, key) then KeyIndex(init, key)
                                else if d[|d| - 1].0 == key then |d| - 1 else |d|
  {
    var init := d[..|d| - 1];
    assert forall j | 0 <= j < |init| :: init[j] == d[j];
    var i := KeyIndex(d, key);
    if i < |init| { assert init[i].0 == key; }
  }

  function TierAt(tiers: map<string, Sourced<Ref>>, tier: string): Option<Sourced<Ref>> {
    if tier in tiers then Some(tiers[tier]) else None
  }

  lemma {:induction false} RouteTiersMeaning(tiers: map<string, Sourced<Ref>>, rank: nat, d: Dict<Ref>, active: string, tier: string)
    requires DistinctKeys(d)
    ensures TierAt(RouteTiers(tiers, rank, d, active), tier)
            == if ActiveRoute(d, tier, active) then Some(Sourced(Get(d, tier), rank)) else TierAt(tiers, tier)
  {
    if d != [] {
      RouteTiersMeaning(tiers, rank, d[..|d| - 1], active, tier);
      KeyIndexInit(d, tier);
    }
  }

  /** The route kept for a tier: the highest layer's route to the active provider. */
  ghost predicate RouteFrom(layers: seq<Document>, n: nat, active: string, tier: string, s: Option<Sourced<Ref>>)
    requires n <= |layers|
  {
    if s.None? then forall j: nat | j < n :: !ActiveRoute(layers[j].routing.tiers, tier, active)
    else
      && s.value.source < n
      && ActiveRoute(layers[s.value.source].routing.tiers, tier, active)
      && s.value.value == Get(layers[s.value.source].routing.tiers, tier)
      && forall j: nat | s.value.source < j < n :: !ActiveRoute(layers[j].routing.tiers, tier, active)
  }

  predicate TakesVision(r: Routing, active: string) {
    r.vision.Some? && (r.vision.value.model.None? || r.vision.value.model.value.provider == active)
  }

  ghost predicate VisionFrom(layers: seq<Document>, n: nat, active: string, s: Option<Sourced<RouteVision>>)
    requires n <= |layers|
  {
    if s.None? then forall j: nat | j < n :: !TakesVision(layers[j].routing, active)
    else
      && s.value.source < n
      && TakesVision(layers[s.value.source].routing, active)
      && s.value.value == layers[s.value.source].routing.vision.value
      && forall j: nat | s.value.source < j < n :: !TakesVision(layers[j].routing, active)
  }

  ghost predicate DistinctRoutes(layers: seq<Document>) {
    forall i | 0 <= i < |layers| :: DistinctKeys(layers[i].routing.tiers)
  }

  lemma {:induction false} RouteFromNext(
    layers: seq<Document>, k: nat, active: string, tier: string, before: Option<Sourced<Ref>>, after: Option<Sourced<Ref>>)
    requires k < |layers| && RouteFrom(layers, k, active, tier, before)
    requires var d := layers[k].routing.tiers;
             after == if ActiveRoute(d, tier, active) then Some(Sourced(Get(d, tier), k)) else before
    ensures RouteFrom(layers, k + 1, active, tier, after)
  {
  }

  lemma {:induction false} TierRoutesMeaning(layers: seq<Document>, active: string, n: nat, tier: string)
    requires DistinctRoutes(layers) && n <= |layers|
    ensures RouteFrom(layers, n, active, tier, TierAt(RouteLayers(layers, active, n).tiers, tier))
  {
    if n > 0 {
      var before, after := RouteLayers(layers, active, n - 1).tiers, RouteLayers(layers, active, n).tiers;
      TierRoutesMeaning(layers, active, n - 1, tier);
      RouteTiersMeaning(before, n - 1, layers[n - 1].routing.tiers, active, tier);
      RouteFromNext(layers, n - 1, active, tier, TierAt(before, tier), TierAt(after, tier));
    }
  }

  lemma {:induction false} VisionRouteMeaning(layers: seq<Document>, active: string, n: nat)
    requires n <= |layers|
    ensures VisionFrom(layers, n, active, RouteLayers(layers, active, n).vision)
  {
    if n > 0 {
      VisionRouteMeaning(layers, active, n - 1);
    }
  }

  lemma {:induction false} RoutesMeaning(layers: seq<Document>, active: string, n: nat, tier: string)
    requires DistinctRoutes(layers) && n <= |layers|
    ensures RouteFrom(layers, n, active, tier, TierAt(RouteLayers(layers, active, n).tiers, tier))
    ensures VisionFrom(layers, n, active, RouteLayers(layers, active, n).vision)
  {
    TierRoutesMeaning(layers, active, n, tier);
    VisionRouteMeaning(layers, active, n);
  }

  lemma {:induction false} TierErrorMeaning(d: Dict<Ref>, rank: nat, available: map<string, Provider>, owners: Owners, active: string)
    ensures LayerTierError(d, rank, available, owners, active).None? <==>
            forall i | 0 <= i < |d| :: d[i].1.provider == active ==> LayerReferenceError(d[i].1, rank, available, owners, true).None?
  {
    if d != [] {
      var init := d[..|d| - 1];
      TierErrorMeaning(init, rank, available, owners, active);
      assert forall i | 0 <= i < |init| :: init[i] == d[i];
      assert d[|d| - 1] == d[|init|];
    }
  }

  /** Every checked reference of layer k stands on the providers of layers 0 to k. */
  predicate LayerStands(layers: seq<Document>, owners: Owners, active: string, k: nat)
    requires k < |layers|
  {
    LayerError(layers[k], k, AvailableUpTo(layers, k + 1), owners, active).None?
  }

  lemma {:induction false} LayersErrorMeaning(layers: seq<Document>, owners: Owners, active: string, n: nat)
    requires n <= |layers|
    ensures LayersError(layers, owners, active, n).None? <==>
            forall k: nat | k < n :: LayerStands(layers, owners, active, k)
  {
    if n > 0 {
      var k := n - 1;
      LayersErrorMeaning(layers, owners, active, k);
      assert LayersError(layers, owners, active, n).None? <==>
             LayersError(layers, owners, active, k).None? && LayerStands(layers, owners, active, k);
    }
  }

  lemma {:induction false} TierInScope(layers: seq<Document>, owners: Owners, active: string, tier: string)
    requires DistinctRoutes(layers) && LayersError(layers, owners, active, |layers|).None?
    requires tier in RouteLayers(layers, active, |layers|).tiers
    ensures var r := RouteLayers(layers, active, |layers|).tiers[tier]; InScope(r.value, r.source, owners)
  {
    LayersErrorMeaning(layers, owners, active, |layers|);
    TierRoutesMeaning(layers, active, |layers|, tier);
    var k := RouteLayers(layers, active, |layers|).tiers[tier].source;
    assert LayerStands(layers, owners, active, k);
    TierErrorMeaning(layers[k].routing.tiers, k, AvailableUpTo(layers, k + 1), owners, active);
  }

  lemma {:induction false} VisionInScope(layers: seq<Document>, owners: Owners, active: string)
    requires LayersError(layers, owners, active, |layers|).None?
    ensures var v := RouteLayers(layers, active, |layers|).vision;
            v.Some? && v.value.value.model.Some? ==> InScope(VisionRef(v.value).value, v.value.source, owners)
  {
    LayersErrorMeaning(layers, owners, active, |layers|);
    VisionRouteMeaning(layers, active, |layers|);
    var v := RouteLayers(layers, active, |layers|).vision;
    if v.Some? { assert LayerStands(layers, owners, active, v.value.source); }
  }

  lemma {:induction false} SelectionInScope(layers: seq<Document>, owners: Owners, active: string)
    requires LayersError(layers, owners, active, |layers|).None?
    ensures var s := SelectionOf(layers, |layers|);
            s.Some? ==> InScope(s.value.value, s.value.source, owners)
  {
    LayersErrorMeaning(layers, owners, active, |layers|);
    SelectionMeaning(layers, |layers|);
    var s := SelectionOf(layers, |layers|);
    if s.Some? { assert LayerStands(layers, owners, active, s.value.source); }
  }

  /** Once the layer checks pass, every resolved reference is in scope. */
  lemma {:induction false} ScopeHolds(layers: seq<Document>, owners: Owners, active: string)
    requires DistinctRoutes(layers) && LayersError(layers, owners, active, |layers|).None?
    ensures var r := RouteLayers(layers, active, |layers|);
            && (forall t | t in r.tiers :: InScope(r.tiers[t].value, r.tiers[t].source, owners))
            && (r.vision.Some? && r.vision.value.value.model.Some? ==>
                  InScope(VisionRef(r.vision.value).value, r.vision.value.source, owners))
    ensures var s := SelectionOf(layers, |layers|);
            s.Some? ==> InScope(s.value.value, s.value.source, owners)
  {
    forall t | t in RouteLayers(layers, active, |layers|).tiers
      ensures var r := RouteLayers(layers, active, |layers|).tiers[t]; InScope(r.value, r.source, owners)
    {
      TierInScope(layers, owners, active, t);
    }
    VisionInScope(layers, owners, active);
    SelectionInScope(layers, owners, active);
  }

  /** A reference of the snapshot: it resolves, and no layer below its provider's owner supplied it. */
  predicate Kept(s: Sourced<Ref>, owners: Owners, allowRoutingOnly: bool) {
    && RefResolves(s.value, ProvidersOf(owners), allowRoutingOnly)
    && owners[s.value.provider].source <= s.source
  }

  /** The default is the highest layer's, selectable, and owned no higher than that layer. */
  ghost predicate DefaultMeaning(layers: seq<Document>, s: Snapshot) {
    match s.selection
    case None => forall j: nat | j < |layers| :: layers[j].selection.None?
    case Some(d) =>
      && d.source < |layers|
      && layers[d.source].selection == Some(d.value)
      && (forall j: nat | d.source < j < |layers| :: layers[j].selection.None?)
      && Kept(d, s.providers, false)
  }

  ghost predicate TierMeaning(layers: seq<Document>, s: Snapshot, tier: string) {
    && RouteFrom(layers, |layers|, ActiveProvider(s.selection), tier, TierAt(s.routing.tiers, tier))
    && (tier in s.routing.tiers ==> Kept(s.routing.tiers[tier], s.providers, true))
  }

  ghost predicate VisionMeaning(layers: seq<Document>, s: Snapshot) {
    && VisionFrom(layers, |layers|, ActiveProvider(s.selection), s.routing.vision)
    && (s.routing.vision.Some? && s.routing.vision.value.value.model.Some? ==>
          Kept(VisionRef(s.routing.vision.value), s.providers, true))
  }

  ghost predicate ProvidersMeaning(host: Host, layers: seq<Document>, s: Snapshot) {
    && ConflictFree(host, layers, |layers|)
    && OwnersExact(layers, |layers|, s.providers)
    && AllLocalReferencesDeclared(s.providers)
  }

  ghost predicate RoutingMeaning(layers: seq<Document>, s: Snapshot) {
    && (forall t :: TierMeaning(layers, s, t))
    && VisionMeaning(layers, s)
  }

  lemma {:induction false} ResolvedSnapshotMeaning(host: Host, layers: seq<Document>)
    requires |layers| == LAYERS && Resolve(host, layers).Success?
    ensures var s := Resolve(host, layers).value;
            ProvidersMeaning(host, layers, s) && DefaultMeaning(layers, s) && RoutingMeaning(layers, s)
  {
    var s := Resolve(host, layers).value;
    OwnersMeaning(host, layers, LAYERS);
    SelectionMeaning(layers, LAYERS);
    ScopeHolds(layers, s.providers, ActiveProvider(s.selection));
    RoutesMeaning(layers, ActiveProvider(s.selection), LAYERS, "");
    forall t ensures TierMeaning(layers, s, t) {
      RoutesMeaning(layers, ActiveProvider(s.selection), LAYERS, t);
    }
  }

  // ----- Routes of inactive providers -----

  function RetainTiers(d: Dict<Ref>, provider: string): Dict<Ref> {
    if d == [] then []
    else
      var before := RetainTiers(d[..|d| - 1], provider);
      if d[|d| - 1].1.provider != provider then before else before + [d[|d| - 1]]
  }

  /** What retainQualifiedAgentRoutesForProvider leaves. */
  function RetainRoutes(r: Routing, provider: string): Routing {
    Routing(
      RetainTiers(r.tiers, provider),
      if r.vision.Some? && r.vision.value.model.Some?
         && r.vision.value.model.value.provider != "" && r.vision.value.model.value.provider != provider
      then None else r.vision,
      r.compat)
  }

  function RetainLayers(layers: seq<Document>, provider: string): (r: seq<Document>)
    ensures |r| == |layers|
    ensures forall i | 0 <= i < |r| :: r[i] == layers[i].(routing := RetainRoutes(layers[i].routing, provider))
  {
    seq(|layers|, i requires 0 <= i < |layers| => layers[i].(routing := RetainRoutes(layers[i].routing, provider)))
  }

  lemma {:induction false} RetainedEntries(d: Dict<Ref>, provider: string, r: Dict<Ref>)
    requires r == RetainTiers(d, provider)
    ensures forall j | 0 <= j < |r| :: r[j] in d && r[j].1.provider == provider
    ensures DistinctKeys(d) ==> DistinctKeys(r)
  {
    if d != [] {
      var init := d[..|d| - 1];
      RetainedEntries(init, provider, RetainTiers(init, provider));
      assert forall e | e in init :: e in d;
      assert forall e | e in init :: exists i :: 0 <= i < |init| && d[i] == e;
    }
  }

  lemma {:induction false} RetainedRouteTiers(tiers: map<string, Sourced<Ref>>, rank: nat, d: Dict<Ref>, active: string)
    ensures RouteTiers(tiers, rank, RetainTiers(d, active), active) == RouteTiers(tiers, rank, d, active)
  {
    if d != [] {
      var init := d[..|d| - 1];
      RetainedRouteTiers(tiers, rank, init, active);
      var kept := RetainTiers(init, active);
      assert (kept + [d[|d| - 1]])[..|kept|] == kept;
    }
  }

  lemma {:induction false} RetainedTierError(d: Dict<Ref>, rank: nat, available: map<string, Provider>, owners: Owners, active: string)
    ensures LayerTierError(RetainTiers(d, active), rank, available, owners, active)
            == LayerTierError(d, rank, available, owners, active)
  {
    if d != [] {
      var init := d[..|d| - 1];
      RetainedTierError(init, rank, available, owners, active);
      var kept := RetainTiers(init, active);
      assert (kept + [d[|d| - 1]])[..|kept|] == kept;
    }
  }

  lemma {:induction false} RetainedAvailable(layers: seq<Document>, active: string, n: nat)
    requires n <= |layers|
    ensures AvailableUpTo(RetainLayers(layers, active), n) == AvailableUpTo(layers, n)
  {
    if n > 0 {
      RetainedAvailable(layers, active, n - 1);
    }
  }

  lemma {:induction false} RetainedProviders(host: Host, layers: seq<Document>, active: string, n: nat)
    requires n <= |layers|
    ensures var kept := RetainLayers(layers, active);
            && OwnLayers(host, kept, n) == OwnLayers(host, layers, n)
            && SelectionOf(kept, n) == SelectionOf(layers, n)
  {
    if n > 0 {
      RetainedProviders(host, layers, active, n - 1);
    }
  }

  lemma {:induction false} RetainedRoutes(layers: seq<Document>, active: string, n: nat)
    requires n <= |layers|
    requires forall i | 0 <= i < |layers| :: ValidRouting(layers[i].routing)
    ensures RouteLayers(RetainLayers(layers, active), active, n) == RouteLayers(layers, active, n)
  {
    if n > 0 {
      RetainedRoutes(layers, active, n - 1);
      RetainedRouteTiers(RouteLayers(layers, active, n - 1).tiers, n - 1, layers[n - 1].routing.tiers, active);
    }
  }

  lemma {:induction false} RetainedLayerError(d: Document, rank: nat, available: map<string, Provider>, owners: Owners, active: string)
    requires ValidRouting(d.routing)
    ensures LayerError(d.(routing := RetainRoutes(d.routing, active)), rank, available, owners, active)
            == LayerError(d, rank, available, owners, active)
  {
    RetainedTierError(d.routing.tiers, rank, available, owners, active);
  }

  lemma {:induction false} RetainedErrorAt(layers: seq<Document>, owners: Owners, active: string, k: nat)
    requires k < |layers| && ValidRouting(layers[k].routing)
    ensures LayerError(RetainLayers(layers, active)[k], k, AvailableUpTo(RetainLayers(layers, active), k + 1), owners, active)
            == LayerError(layers[k], k, AvailableUpTo(layers, k + 1), owners, active)
  {
    RetainedAvailable(layers, active, k + 1);
    RetainedLayerError(layers[k], k, AvailableUpTo(layers, k + 1), owners, active);
  }

  ghost predicate SameErrorAt(a: seq<Document>, b: seq<Document>, owners: Owners, active: string, k: nat)
    requires |a| == |b| && k < |a|
  {
    LayerError(a[k], k, AvailableUpTo(a, k + 1), owners, active) == LayerError(b[k], k, AvailableUpTo(b, k + 1), owners, active)
  }

  lemma {:induction false} SameErrors(a: seq<Document>, b: seq<Document>, owners: Owners, active: string, n: nat)
    requires |a| == |b| && n <= |a|
    requires forall k: nat | k < n :: SameErrorAt(a, b, owners, active, k)
    ensures LayersError(a, owners, active, n) == LayersError(b, owners, active, n)
  {
    if n > 0 {
      SameErrors(a, b, owners, active, n - 1);
      assert SameErrorAt(a, b, owners, active, n - 1);
    }
  }

  lemma {:induction false} RetainedErrors(layers: seq<Document>, owners: Owners, active: string, n: nat)
    requires n <= |layers|
    requires forall i | 0 <= i < |layers| :: ValidRouting(layers[i].routing)
    ensures LayersError(RetainLayers(layers, active), owners, active, n) == LayersError(layers, owners, active, n)
  {
    forall k: nat | k < n ensures SameErrorAt(RetainLayers(layers, active), layers, owners, active, k) {
      RetainedErrorAt(layers, owners, active, k);
    }
    SameErrors(RetainLayers(layers, active), layers, owners, active, n);
  }

  lemma {:induction false} RetainedValid(r: Routing, provider: string)
    requires ValidRouting(r)
    ensures ValidRouting(RetainRoutes(r, provider))
  {
    RetainedEntries(r.tiers, provider, RetainTiers(r.tiers, provider));
  }

  /**
    Routes owned by any provider but the resolved default's never affect
    resolution: dropping them all gives the same snapshot or the same failure.
   */
  lemma {:induction false} InactiveRoutesIrrelevant(host: Host, layers: seq<Document>)
    requires ValidLayers(layers)
    ensures var active := ActiveProvider(SelectionOf(layers, LAYERS));
            Resolve(host, RetainLayers(layers, active)) == Resolve(host, layers)
  {
    var active := ActiveProvider(SelectionOf(layers, LAYERS));
    var kept := RetainLayers(layers, active);
    forall i | 0 <= i < LAYERS ensures ValidDocument(kept[i]) {
      RetainedValid(layers[i].routing, active);
    }
    var owners := OwnLayers(host, layers, LAYERS);
    RetainedProviders(host, layers, active, LAYERS);
    RetainedRoutes(layers, active, LAYERS);
    RetainedErrors(layers, if owners.Success? then owners.value else map[], active, LAYERS);
  }
}
