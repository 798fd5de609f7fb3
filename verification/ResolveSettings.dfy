/** The loops of layered resolution, each proved against the function that says what it computes. */
module ResolveSettings {
  import opened Basics
  import opened ConfigDocument
  import opened Resolver

  lemma {:induction false} OwnLayerFailureStays(host: Host, owners: Owners, rank: nat, d: Dict<Provider>, n: nat, m: nat)
    requires n <= m <= |d| && OwnLayer(host, owners, rank, d, n).Failure?
    ensures OwnLayer(host, owners, rank, d, m) == OwnLayer(host, owners, rank, d, n)
  {
    if n < m {
      OwnLayerFailureStays(host, owners, rank, d, n, m - 1);
    }
  }

  lemma {:induction false} OwnLayersFailureStays(host: Host, layers: seq<Document>, n: nat, m: nat)
    requires n <= m <= |layers| && OwnLayers(host, layers, n).Failure?
    ensures OwnLayers(host, layers, m) == OwnLayers(host, layers, n)
  {
    if n < m {
      OwnLayersFailureStays(host, layers, n, m - 1);
    }
  }

  method ResolveProviders(host: Host, layers: seq<Document>) returns (r: Result<Owners, ResolveError>)
    ensures r == OwnLayers(host, layers, |layers|)
  {
    var owners: Owners := map[];
    for rank := 0 to |layers|
      invariant OwnLayers(host, layers, rank) == Success(owners)
    {
      var candidates := layers[rank].providers;
      ghost var before := owners;
      for i := 0 to |candidates|
        invariant OwnLayer(host, before, rank, candidates, i) == Success(owners)
      {
        var (id, raw) := candidates[i];
        if id in owners {
          var replacesBase := owners[id].source == BASE && rank == GLOBAL;
          if !replacesBase && !SameOwnedChannel(host, owners[id].provider, raw, id) {
            OwnLayerFailureStays(host, before, rank, candidates, i + 1, |candidates|);
            OwnLayersFailureStays(host, layers, rank + 1, |layers|);
            return Failure(ProviderScopeConflict);
          }
          if !replacesBase {
            continue;
          }
        }
        owners := owners[id := Owned(Materialize(raw), rank)];
      }
    }
    return Success(owners);
  }

  method ResolveDefaultSelection(layers: seq<Document>) returns (selection: Option<Sourced<Ref>>)
    ensures selection == SelectionOf(layers, |layers|)
  {
    selection := None;
    for rank := 0 to |layers|
      invariant selection == SelectionOf(layers, rank)
    {
      if layers[rank].selection.Some? {
        selection := Some(Sourced(layers[rank].selection.value, rank));
      }
    }
  }

  method ResolveAgentRouting(layers: seq<Document>, active: string) returns (r: ResolvedRouting)
    ensures r == RouteLayers(layers, active, |layers|)
  {
    var tiers: map<string, Sourced<Ref>>, vision, compat := map[], None, None;
    for rank := 0 to |layers|
      invariant ResolvedRouting(tiers, vision, compat) == RouteLayers(layers, active, rank)
    {
      var candidate := layers[rank].routing;
      ghost var before := tiers;
      for i := 0 to |candidate.tiers|
        invariant tiers == RouteTiers(before, rank, candidate.tiers[..i], active)
      {
        var (tier, reference) := candidate.tiers[i];
        assert candidate.tiers[..i + 1][..i] == candidate.tiers[..i];
        if reference.provider != active {
          continue;
        }
        tiers := tiers[tier := Sourced(reference, rank)];
      }
      assert candidate.tiers[..|candidate.tiers|] == candidate.tiers;
      if candidate.vision.Some? {
        var reference := candidate.vision.value.model;
        if reference.None? || reference.value.provider == active {
          vision := Some(Sourced(candidate.vision.value, rank));
        }
      }
      if candidate.compat.Some? {
        compat := Some(Sourced(candidate.compat.value, rank));
      }
    }
    r := ResolvedRouting(tiers, vision, compat);
  }

  method TiersAreDeclared(tiers: Tiers, models: seq<Model>) returns (ok: bool)
    ensures ok <==> TiersDeclared(tiers, models)
  {
    for i := 0 to |tiers|
      invariant forall j | 0 <= j < i :: Declares(models, tiers[j].1)
    {
      if !Declares(models, tiers[i].1) {
        return false;
      }
    }
    return true;
  }

  method ValidateProvider(p: Provider) returns (ok: bool)
    ensures ok <==> LocalReferencesDeclared(p)
  {
    for i := 0 to |p.models|
      invariant forall j | 0 <= j < i :: TiersDeclared(p.models[j].tiers, p.models)
    {
      ok := TiersAreDeclared(p.models[i].tiers, p.models);
      if !ok {
        return;
      }
    }
    ok := TiersAreDeclared(p.agents.tiers, p.models);
    if ok && p.agents.vision.Some? && p.agents.vision.value.model.Some? {
      ok := Declares(p.models, p.agents.vision.value.model.value);
    }
  }

  method ValidateResolvedProviders(owners: Owners) returns (ok: bool)
    ensures ok <==> AllLocalReferencesDeclared(owners)
  {
    var left := owners.Keys;
    while left != {}
      invariant left <= owners.Keys
      invariant forall id | id in owners.Keys - left :: LocalReferencesDeclared(owners[id].provider)
    {
      var id :| id in left;
      ok := ValidateProvider(owners[id].provider);
      if !ok {
        return;
      }
      left := left - {id};
    }
    return true;
  }

  lemma {:induction false} TierErrorStays(d: Dict<Ref>, n: nat, rank: nat, available: map<string, Provider>, owners: Owners, active: string)
    requires n <= |d| && LayerTierError(d[..n], rank, available, owners, active).Some?
    ensures LayerTierError(d, rank, available, owners, active) == LayerTierError(d[..n], rank, available, owners, active)
  {
    if n < |d| {
      var init := d[..|d| - 1];
      assert init[..n] == d[..n];
      TierErrorStays(init, n, rank, available, owners, active);
    } else {
      assert d[..n] == d;
    }
  }

  lemma {:induction false} LayersErrorStays(layers: seq<Document>, owners: Owners, active: string, n: nat, m: nat)
    requires n <= m <= |layers| && LayersError(layers, owners, active, n).Some?
    ensures LayersError(layers, owners, active, m) == LayersError(layers, owners, active, n)
  {
    if n < m {
      LayersErrorStays(layers, owners, active, n, m - 1);
    }
  }

  /** The references of one raw layer, in the order the source visits them. */
  method ValidateLayer(d: Document, rank: nat, available: map<string, Provider>, owners: Owners, active: string)
    returns (error: Option<ResolveError>)
    ensures error == LayerError(d, rank, available, owners, active)
  {
    if d.selection.Some? {
      error := LayerReferenceError(d.selection.value, rank, available, owners, false);
      if error.Some? {
        return;
      }
    }
    var tiers := d.routing.tiers;
    for i := 0 to |tiers|
      invariant LayerTierError(tiers[..i], rank, available, owners, active).None?
    {
      assert tiers[..i + 1][..i] == tiers[..i];
      if tiers[i].1.provider != active {
        continue;
      }
      error := LayerReferenceError(tiers[i].1, rank, available, owners, true);
      if error.Some? {
        TierErrorStays(tiers, i + 1, rank, available, owners, active);
        return;
      }
    }
    assert tiers[..|tiers|] == tiers;
    error := None;
    if d.routing.vision.Some? && d.routing.vision.value.model.Some? {
      var vision := d.routing.vision.value.model.value;
      if vision.provider != active {
        return;
      }
      error := LayerReferenceError(vision, rank, available, owners, true);
    }
  }

  method ValidateLayerReferences(layers: seq<Document>, owners: Owners, active: string) returns (error: Option<ResolveError>)
    ensures error == LayersError(layers, owners, active, |layers|)
  {
    var available: map<string, Provider> := map[];
    for rank := 0 to |layers|
      invariant available == AvailableUpTo(layers, rank)
      invariant LayersError(layers, owners, active, rank).None?
    {
      var d := layers[rank].providers;
      ghost var before := available;
      for i := 0 to |d|
        invariant available == Available(before, d, i)
      {
        available := available[d[i].0 := Materialize(d[i].1)];
      }
      error := ValidateLayer(layers[rank], rank, available, owners, active);
      if error.Some? {
        LayersErrorStays(layers, owners, active, rank + 1, |layers|);
        return;
      }
    }
    return None;
  }

  predicate RoutingInScope(routing: ResolvedRouting, owners: Owners) {
    && (forall t | t in routing.tiers :: InScope(routing.tiers[t].value, routing.tiers[t].source, owners))
    && (routing.vision.Some? && routing.vision.value.value.model.Some? ==>
          InScope(VisionRef(routing.vision.value).value, routing.vision.value.source, owners))
  }

  method ValidateResolvedAgentRouting(routing: ResolvedRouting, owners: Owners) returns (error: Option<ResolveError>)
    ensures error.None? <==> RoutingResolves(routing, owners)
    ensures error.Some? && RoutingInScope(routing, owners) ==> error.value == ReferenceError
  {
    var left := routing.tiers.Keys;
    while left != {}
      invariant left <= routing.tiers.Keys
      invariant forall t | t in routing.tiers.Keys - left :: SourcedError(routing.tiers[t], owners, true).None?
    {
      var t :| t in left;
      error := SourcedError(routing.tiers[t], owners, true);
      if error.Some? {
        return;
      }
      left := left - {t};
    }
    error := None;
    if routing.vision.Some? && routing.vision.value.value.model.Some? {
      error := SourcedError(VisionRef(routing.vision.value), owners, true);
    }
  }

  /** resolveSettingsLayers, for the four layers in order. */
  method ResolveSettingsLayers(host: Host, layers: seq<Document>) returns (r: Result<Snapshot, ResolveError>)
    requires |layers| == LAYERS
    ensures r == Resolve(host, layers)
  {
    for i := 0 to LAYERS
      invariant forall j | 0 <= j < i :: ValidDocument(layers[j])
    {
      if !ValidDocument(layers[i]) {
        return Failure(InvalidDocument);
      }
    }
    var resolved := ResolveProviders(host, layers);
    if resolved.Failure? {
      return Failure(resolved.error);
    }
    var owners := resolved.value;
    var selection := ResolveDefaultSelection(layers);
    var active := if selection.Some? then selection.value.value.provider else "";
    var routing := ResolveAgentRouting(layers, active);
    var declared := ValidateResolvedProviders(owners);
    if !declared {
      return Failure(ReferenceError);
    }
    var error := ValidateLayerReferences(layers, owners, active);
    if error.Some? {
      return Failure(error.value);
    }
    if selection.Some? {
      error := SourcedError(selection.value, owners, false);
      if error.Some? {
        return Failure(error.value);
      }
    }
    ScopeHolds(layers, owners, active);
    error := ValidateResolvedAgentRouting(routing, owners);
    if error.Some? {
      return Failure(error.value);
    }
    return Success(Snapshot(owners, selection, routing));
  }
}
