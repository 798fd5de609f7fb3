/** When the resolver accepts one settings document on its own, in terms of the document alone. */
module Acceptance {
  import opened Basics
  import opened ConfigDocument
  import opened Resolver

  /** One document in the global layer and nothing elsewhere. */
  function Alone(d: Document): (layers: seq<Document>)
    ensures |layers| == LAYERS
  {
    [EMPTY_DOCUMENT, d, EMPTY_DOCUMENT, EMPTY_DOCUMENT]
  }

  predicate Accepts(host: Host, d: Document) {
    Resolve(host, Alone(d)).Success?
  }

  predicate RefHolds(d: Document, r: Ref, allowRoutingOnly: bool) {
    Has(d.providers, r.provider) && ModelResolves(r, Get(d.providers, r.provider).models, allowRoutingOnly)
  }

  predicate LocalsHold(d: Document) {
    forall i | 0 <= i < |d.providers| :: LocalReferencesDeclared(d.providers[i].1)
  }

  predicate SelectionHolds(d: Document) {
    d.selection.Some? ==> RefHolds(d, d.selection.value, false)
  }

  /** Every qualified route to one provider names a declared model and a declared effort. */
  predicate RoutesHold(d: Document, provider: string) {
    && (forall i | 0 <= i < |d.routing.tiers| ::
          d.routing.tiers[i].1.provider == provider ==> RefHolds(d, d.routing.tiers[i].1, true))
    && (d.routing.vision.Some? && d.routing.vision.value.model.Some? && d.routing.vision.value.model.value.provider == provider ==>
          RefHolds(d, d.routing.vision.value.model.value, true))
  }

  function DefaultProvider(d: Document): string {
    if d.selection.Some? then d.selection.value.provider else ""
  }

  ghost predicate Acceptable(d: Document) {
    && ValidDocument(d)
    && LocalsHold(d)
    && SelectionHolds(d)
    && RoutesHold(d, DefaultProvider(d))
  }

  /** Acceptable, with the routes of inactive providers held to the same standard. */
  ghost predicate Closed(d: Document) {
    && ValidDocument(d)
    && LocalsHold(d)
    && SelectionHolds(d)
    && forall p :: RoutesHold(d, p)
  }

  lemma {:induction false} AvailableMeaning(available: map<string, Provider>, d: Dict<Provider>, n: nat, id: string)
    requires DistinctKeys(d) && n <= |d|
    ensures var r := Available(available, d, n);
            && (id in r <==> id in available || KeyIndex(d, id) < n)
            && (KeyIndex(d, id) < n ==> r[id] == Materialize(Get(d, id)))
            && (KeyIndex(d, id) >= n && id in available ==> r[id] == available[id])
  {
    if n > 0 {
      AvailableMeaning(available, d, n - 1, id);
      KeyAt(d, n - 1);
    }
  }

  /** The available and owned providers of a lone document are its own, materialized. */
  ghost predicate OwnProviders(d: Document, m: map<string, Provider>) {
    forall id :: (id in m <==> Has(d.providers, id)) && (id in m ==> m[id] == Materialize(Get(d.providers, id)))
  }

  lemma {:induction false} AloneAvailable(d: Document)
    requires ValidDocument(d)
    ensures AvailableUpTo(Alone(d), 1) == map[]
    ensures OwnProviders(d, AvailableUpTo(Alone(d), 2))
    ensures AvailableUpTo(Alone(d), 3) == AvailableUpTo(Alone(d), 2)
    ensures AvailableUpTo(Alone(d), 4) == AvailableUpTo(Alone(d), 2)
  {
    forall id {
      AvailableMeaning(map[], d.providers, |d.providers|, id);
    }
    assert AvailableUpTo(Alone(d), 2) == Available(AvailableUpTo(Alone(d), 1), d.providers, |d.providers|);
  }

  lemma {:induction false} AloneOwners(host: Host, d: Document)
    requires ValidDocument(d)
    ensures var owners := OwnLayers(host, Alone(d), LAYERS);
            && owners.Success?
            && OwnProviders(d, ProvidersOf(owners.value))
            && forall id | id in owners.value :: owners.value[id].source == GLOBAL
  {
    var layers := Alone(d);
    OwnersMeaning(host, layers, LAYERS);
    assert forall k: nat | k < LAYERS && k != GLOBAL :: layers[k].providers == [];
    forall k: nat | k < LAYERS ensures LayerFree(host, layers, k) {
    }
    var owners := OwnLayers(host, layers, LAYERS).value;
    forall id
      ensures id in owners <==> Has(d.providers, id)
      ensures id in owners ==> owners[id].source == GLOBAL && owners[id].provider == Materialize(Get(d.providers, id))
    {
      assert OwnedExactly(layers, LAYERS, id, Lookup(owners, id));
      assert layers[GLOBAL] == d;
    }
  }

  lemma {:induction false} LookupMatches(d: Document, m: map<string, Provider>, r: Ref, allowRoutingOnly: bool)
    requires OwnProviders(d, m)
    ensures RefResolves(r, m, allowRoutingOnly) <==> RefHolds(d, r, allowRoutingOnly)
  {
    assert r.provider in m <==> Has(d.providers, r.provider);
  }

  lemma {:induction false} LocalsMatch(d: Document, owners: Owners)
    requires DistinctKeys(d.providers) && OwnProviders(d, ProvidersOf(owners))
    ensures AllLocalReferencesDeclared(owners) <==> LocalsHold(d)
  {
    var m := ProvidersOf(owners);
    if AllLocalReferencesDeclared(owners) {
      forall i | 0 <= i < |d.providers| ensures LocalReferencesDeclared(d.providers[i].1) {
        KeyAt(d.providers, i);
        var id := d.providers[i].0;
        assert id in m && m[id] == Materialize(Get(d.providers, id));
        MaterializeLocal(d.providers[i].1);
      }
    }
    if LocalsHold(d) {
      forall id | id in owners ensures LocalReferencesDeclared(owners[id].provider) {
        assert id in m && m[id] == Materialize(Get(d.providers, id));
        MaterializeLocal(d.providers[KeyIndex(d.providers, id)].1);
      }
    }
  }

  lemma {:induction false} MaterializeLocal(p: Provider)
    ensures LocalReferencesDeclared(Materialize(p)) <==> LocalReferencesDeclared(p)
  {
  }

  /** The layer checks on a lone document are exactly its selection and active routes. */
  lemma {:induction false} AloneLayerError(d: Document, m: map<string, Provider>, owners: Owners)
    requires OwnProviders(d, m)
    requires forall id | id in owners :: owners[id].source == GLOBAL
    ensures LayerError(d, GLOBAL, m, owners, DefaultProvider(d)).None?
            <==> SelectionHolds(d) && RoutesHold(d, DefaultProvider(d))
  {
    TierErrorMeaning(d.routing.tiers, GLOBAL, m, owners, DefaultProvider(d));
    if d.selection.Some? { LookupMatches(d, m, d.selection.value, false); }
    if d.routing.vision.Some? && d.routing.vision.value.model.Some? {
      LookupMatches(d, m, d.routing.vision.value.model.value, true);
    }
    forall i | 0 <= i < |d.routing.tiers|
      ensures RefResolves(d.routing.tiers[i].1, m, true) <==> RefHolds(d, d.routing.tiers[i].1, true)
    {
      LookupMatches(d, m, d.routing.tiers[i].1, true);
    }
  }

  lemma {:induction false} AloneLayers(d: Document, owners: Owners)
    requires ValidDocument(d)
    requires forall id | id in owners :: owners[id].source == GLOBAL
    ensures LayersError(Alone(d), owners, DefaultProvider(d), LAYERS).None?
            <==> SelectionHolds(d) && RoutesHold(d, DefaultProvider(d))
  {
    var layers := Alone(d);
    var active := DefaultProvider(d);
    LayersErrorMeaning(layers, owners, active, LAYERS);
    AloneAvailable(d);
    AloneLayerError(d, AvailableUpTo(layers, 2), owners);
    assert LayerStands(layers, owners, active, 0);
    assert LayerStands(layers, owners, active, 1) <==> SelectionHolds(d) && RoutesHold(d, active);
    assert LayerStands(layers, owners, active, 2);
    assert LayerStands(layers, owners, active, 3);
  }

  /** What passes the layer checks passes the final ones: a lone document has one definition per provider. */
  lemma {:induction false} AloneFinalChecks(d: Document, owners: Owners)
    requires ValidDocument(d) && OwnProviders(d, ProvidersOf(owners))
    requires forall id | id in owners :: owners[id].source == GLOBAL
    requires SelectionHolds(d) && RoutesHold(d, DefaultProvider(d))
    ensures d.selection.Some? ==> SourcedError(Sourced(d.selection.value, GLOBAL), owners, false).None?
    ensures RoutingResolves(RouteLayers(Alone(d), DefaultProvider(d), LAYERS), owners)
  {
    if d.selection.Some? { LookupMatches(d, ProvidersOf(owners), d.selection.value, false); }
    var r := RouteLayers(Alone(d), DefaultProvider(d), LAYERS);
    forall t | t in r.tiers ensures SourcedError(r.tiers[t], owners, true).None? {
      AloneTier(d, owners, t);
    }
    AloneVision(d, owners);
  }

  lemma {:induction false} AloneTier(d: Document, owners: Owners, t: string)
    requires ValidDocument(d) && OwnProviders(d, ProvidersOf(owners)) && RoutesHold(d, DefaultProvider(d))
    requires forall id | id in owners :: owners[id].source == GLOBAL
    requires t in RouteLayers(Alone(d), DefaultProvider(d), LAYERS).tiers
    ensures SourcedError(RouteLayers(Alone(d), DefaultProvider(d), LAYERS).tiers[t], owners, true).None?
  {
    var r := RouteLayers(Alone(d), DefaultProvider(d), LAYERS);
    RoutesMeaning(Alone(d), DefaultProvider(d), LAYERS, t);
    assert Alone(d)[r.tiers[t].source].routing.tiers == d.routing.tiers;
    assert r.tiers[t].source == GLOBAL;
    LookupMatches(d, ProvidersOf(owners), r.tiers[t].value, true);
  }

  lemma {:induction false} AloneVision(d: Document, owners: Owners)
    requires ValidDocument(d) && OwnProviders(d, ProvidersOf(owners)) && RoutesHold(d, DefaultProvider(d))
    requires forall id | id in owners :: owners[id].source == GLOBAL
    ensures var r := RouteLayers(Alone(d), DefaultProvider(d), LAYERS);
            r.vision.Some? && r.vision.value.value.model.Some? ==> SourcedError(VisionRef(r.vision.value), owners, true).None?
  {
    var r := RouteLayers(Alone(d), DefaultProvider(d), LAYERS);
    RoutesMeaning(Alone(d), DefaultProvider(d), LAYERS, "");
    if r.vision.Some? && r.vision.value.value.model.Some? {
      assert r.vision.value.source == GLOBAL;
      LookupMatches(d, ProvidersOf(owners), VisionRef(r.vision.value).value, true);
    }
  }

  lemma {:induction false} AloneSelection(d: Document)
    ensures SelectionOf(Alone(d), LAYERS) == if d.selection.Some? then Some(Sourced(d.selection.value, GLOBAL)) else None
  {
    SelectionMeaning(Alone(d), LAYERS);
    var s := SelectionOf(Alone(d), LAYERS);
    assert s.Some? ==> s.value.source == GLOBAL;
    assert Alone(d)[GLOBAL] == d;
  }

  lemma {:induction false} AloneValid(d: Document)
    ensures ValidLayers(Alone(d)) <==> ValidDocument(d)
  {
    assert Alone(d)[GLOBAL] == d;
    assert ValidDocument(EMPTY_DOCUMENT);
  }

  lemma {:induction false} AcceptsIff(host: Host, d: Document)
    ensures Accepts(host, d) <==> Acceptable(d)
  {
    AloneValid(d);
    if ValidDocument(d) {
      AloneOwners(host, d);
      var owners := OwnLayers(host, Alone(d), LAYERS).value;
      LocalsMatch(d, owners);
      AloneSelection(d);
      AloneLayers(d, owners);
      if SelectionHolds(d) && RoutesHold(d, DefaultProvider(d)) {
        AloneFinalChecks(d, owners);
      }
    }
  }

  lemma {:induction false} ClosedIsAccepted(host: Host, d: Document)
    requires Closed(d)
    ensures Accepts(host, d)
  {
    AcceptsIff(host, d);
  }
}
