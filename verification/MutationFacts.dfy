/** Facts about the pieces of an edit that its closure theorems rest on. */
module MutationFacts {
  import opened Basics
  import opened ConfigDocument
  import opened Resolver
  import opened ModelMutations

  // ----- Lists of models -----

  lemma {:induction false} MemberDeclares(models: seq<Model>, m: Model)
    requires m in models
    ensures Declares(models, m.id)
    ensures UniqueIds(models) ==> models[ModelIndex(models, m.id)] == m
  {
  }

  lemma {:induction false} WithoutModelMembers(models: seq<Model>, id: string)
    ensures forall m :: m in WithoutModel(models, id) <==> m in models && m.id != id
    ensures |WithoutModel(models, id)| <= |models|
    ensures |WithoutModel(models, id)| == |models| <==> WithoutModel(models, id) == models
  {
    if models != [] {
      WithoutModelMembers(models[..|models| - 1], id);
      assert models == models[..|models| - 1] + [models[|models| - 1]];
    }
  }

  lemma {:induction false} WithoutModelUnique(models: seq<Model>, id: string)
    requires UniqueIds(models)
    ensures UniqueIds(WithoutModel(models, id))
  {
    if models != [] {
      var init, m := models[..|models| - 1], models[|models| - 1];
      WithoutModelUnique(init, id);
      WithoutModelMembers(init, id);
      var before := WithoutModel(init, id);
      forall k | 0 <= k < |before| ensures before[k].id != m.id {
        assert before[k] in init;
      }
    }
  }

  lemma {:induction false} PutModelMeaning(models: seq<Model>, m: Model)
    requires UniqueIds(models)
    ensures var r := PutModel(models, m);
            && UniqueIds(r)
            && m in r
            && (forall x :: x in r <==> x == m || (x in models && x.id != m.id))
  {
    var r := PutModel(models, m);
    var i := ModelIndex(models, m.id);
    forall x
      ensures x in r <==> x == m || (x in models && x.id != m.id)
    {
      if x in models && x.id != m.id {
        var j :| 0 <= j < |models| && models[j] == x;
        assert r[j] == x;
      }
      if x in r {
        var j :| 0 <= j < |r| && r[j] == x;
        assert j != i ==> r[j] == models[j];
      }
    }
    assert r[if i < |models| then i else |models|] == m;
  }

  /** Models that contain some others first, declare some ids, and are otherwise placeholders for them. */
  ghost predicate Extends(r: seq<Model>, models: seq<Model>, ids: seq<string>, catalog: seq<CatalogModel>) {
    && UniqueIds(r)
    && models <= r
    && (forall id | id in ids :: Declares(r, id))
    && (forall m | m in r :: m in models || (m.id in ids && m == Placeholder(m.id, catalog)))
  }

  lemma {:induction false} DeclaresMore(models: seq<Model>, m: Model, id: string)
    requires Declares(models, id)
    ensures Declares(models + [m], id)
  {
    var x := models[ModelIndex(models, id)];
    assert (models + [m])[ModelIndex(models, id)] == x;
    MemberDeclares(models + [m], x);
  }

  lemma {:induction false} OnePlaceholder(before: seq<Model>, models: seq<Model>, init: seq<string>, id: string, catalog: seq<CatalogModel>)
    requires Extends(before, models, init, catalog) && !Declares(before, id)
    ensures Extends(before + [Placeholder(id, catalog)], models, init + [id], catalog)
  {
    var m := Placeholder(id, catalog);
    var r := before + [m];
    assert r[|before|] == m;
    MemberDeclares(r, m);
    forall x | x in init ensures Declares(r, x) { DeclaresMore(before, m, x); }
    forall k | 0 <= k < |before| ensures Declares(before, before[k].id) {
      MemberDeclares(before, before[k]);
    }
  }

  lemma {:induction false} PlaceholdersMeaning(models: seq<Model>, ids: seq<string>, catalog: seq<CatalogModel>)
    requires UniqueIds(models)
    ensures Extends(AddPlaceholders(models, ids, catalog), models, ids, catalog)
  {
    if ids != [] {
      var init, id := ids[..|ids| - 1], ids[|ids| - 1];
      PlaceholdersMeaning(models, init, catalog);
      assert ids == init + [id];
      var before := AddPlaceholders(models, init, catalog);
      if !Declares(before, id) {
        OnePlaceholder(before, models, init, id, catalog);
      }
    }
  }

  lemma {:induction false} KeepRoutedMeaning(models: seq<Model>, routed: seq<string>)
    ensures var r := KeepRouted(models, routed);
            && (forall m :: m in r <==> m in models && (!m.routingOnly || m.id in routed))
            && (UniqueIds(models) ==> UniqueIds(r))
  {
    if models != [] {
      var init, m := models[..|models| - 1], models[|models| - 1];
      KeepRoutedMeaning(init, routed);
      assert models == init + [m];
      var before := KeepRouted(init, routed);
      if UniqueIds(models) {
        forall k | 0 <= k < |before| ensures before[k].id != m.id {
          assert before[k] in init;
        }
      }
    }
  }

  // ----- Ids and tiers -----

  lemma {:induction false} IndexKnows(host: Host, ids: seq<string>)
    requires CreateIndex(host, ids).Success?
    ensures forall id :: id in CreateIndex(host, ids).value.exact <==> id != "" && id in ids
  {
    if ids != [] {
      IndexKnows(host, ids[..|ids| - 1]);
      assert ids == ids[..|ids| - 1] + [ids[|ids| - 1]];
    }
  }

  /** An id of the evidence is its own canonical form. */
  lemma {:induction false} CanonicalKnown(host: Host, ids: seq<string>, id: string)
    requires CreateIndex(host, ids).Success? && id in ids
    ensures Canonical(host, CreateIndex(host, ids).value, id) == id
  {
    IndexKnows(host, ids);
  }

  lemma {:induction false} CanonicalTiersMeaning(host: Host, idx: Index, tiers: Tiers)
    ensures "" !in TierValues(CanonicalTiers(host, idx, tiers))
  {
    if tiers != [] {
      CanonicalTiersMeaning(host, idx, tiers[..|tiers| - 1]);
      var before := CanonicalTiers(host, idx, tiers[..|tiers| - 1]);
      var r := CanonicalTiers(host, idx, tiers);
      forall k | 0 <= k < |r| ensures TierValues(r)[k] != "" {
        if k < |before| { assert TierValues(before)[k] != ""; }
      }
    }
  }

  lemma {:induction false} RoutedByModelsMeaning(host: Host, idx: Index, models: seq<Model>)
    ensures forall m, id | m in models && id in TierValues(CanonicalTiers(host, idx, m.tiers)) ::
              id in RoutedByModels(host, idx, models)
    ensures "" !in RoutedByModels(host, idx, models)
  {
    if models != [] {
      RoutedByModelsMeaning(host, idx, models[..|models| - 1]);
      CanonicalTiersMeaning(host, idx, models[|models| - 1].tiers);
      assert models == models[..|models| - 1] + [models[|models| - 1]];
    }
  }

  lemma {:induction false} RoutedByRoutesMeaning(host: Host, idx: Index, d: Dict<Ref>, provider: string)
    ensures forall e | e in d && e.1.provider == provider && Canonical(host, idx, e.1.model) != "" ::
              Canonical(host, idx, e.1.model) in RoutedByRoutes(host, idx, d, provider)
    ensures "" !in RoutedByRoutes(host, idx, d, provider)
  {
    if d != [] {
      RoutedByRoutesMeaning(host, idx, d[..|d| - 1], provider);
      assert d == d[..|d| - 1] + [d[|d| - 1]];
    }
  }

  lemma {:induction false} CanonicalNonEmpty(host: Host, idx: Index, id: string)
    ensures Canonical(host, idx, id) == "" <==> id == ""
  {
  }

  lemma {:induction false} ProtectedNonEmpty(ids: seq<string>, declared: seq<string>)
    ensures "" !in Protected(ids, declared)
  {
    if ids != [] {
      ProtectedNonEmpty(ids[..|ids| - 1], declared);
    }
  }

  // ----- ensureProviderRoutingModels -----

  predicate ValidCatalog(catalog: seq<CatalogModel>) {
    forall i | 0 <= i < |catalog| :: catalog[i].defaultEffort.Some? ==> catalog[i].defaultEffort.value in catalog[i].efforts
  }

  /** The models an edit hands to the routing step: distinct, well-formed up to their tiers, and known to the index. */
  ghost predicate Prepared(host: Host, idx: Index, models: seq<Model>) {
    && UniqueIds(models)
    && forall m | m in models ::
         && m.id != ""
         && (m.defaultEffort.Some? ==> m.defaultEffort.value in m.efforts)
         && Canonical(host, idx, m.id) == m.id
  }

  lemma {:induction false} NormalizedModels(host: Host, idx: Index, catalog: seq<CatalogModel>, models: seq<Model>)
    requires Prepared(host, idx, models) && ValidCatalog(catalog)
    ensures var r := NormalizeModels(host, idx, catalog, models);
            && UniqueIds(r)
            && (forall m | m in r :: exists x | x in models :: m == NormalizeModel(host, idx, catalog, x))
            && (forall m | m in r :: ValidModel(m))
            && (forall x | x in models && !x.routingOnly :: x.(tiers := CanonicalTiers(host, idx, x.tiers)) in r)
  {
    var r := NormalizeModels(host, idx, catalog, models);
    forall i | 0 <= i < |models|
      ensures r[i].id == models[i].id
      ensures ValidModel(r[i])
    {
      assert models[i] in models;
      NormalizedModelValid(host, idx, catalog, models[i]);
    }
    forall x | x in models && !x.routingOnly ensures x.(tiers := CanonicalTiers(host, idx, x.tiers)) in r {
      var i :| 0 <= i < |models| && models[i] == x;
      assert r[i] == x.(tiers := CanonicalTiers(host, idx, x.tiers));
    }
  }

  lemma {:induction false} NormalizedModelValid(host: Host, idx: Index, catalog: seq<CatalogModel>, m: Model)
    requires ValidCatalog(catalog) && m.id != "" && Canonical(host, idx, m.id) == m.id
    requires m.defaultEffort.Some? ==> m.defaultEffort.value in m.efforts
    ensures NormalizeModel(host, idx, catalog, m).id == m.id
    ensures ValidModel(NormalizeModel(host, idx, catalog, m))
  {
    CanonicalTiersMeaning(host, idx, m.tiers);
    var t := CanonicalTiers(host, idx, m.tiers);
    assert forall i | 0 <= i < |t| :: t[i].1 == TierValues(t)[i];
  }

  /** What the routing step establishes for the touched provider. */
  ghost predicate Settled(r: Ensured, provider: string) {
    && UniqueIds(r.models)
    && (forall m | m in r.models :: ValidModel(m) && TiersDeclared(m.tiers, r.models))
    && TiersDeclared(r.agents.tiers, r.models)
    && (forall i | 0 <= i < |r.agents.tiers| :: r.agents.tiers[i].1 != "")
    && (r.agents.vision.Some? && r.agents.vision.value.model.Some? ==>
          r.agents.vision.value.model.value != "" && Declares(r.models, r.agents.vision.value.model.value))
    && (forall e | e in r.routing.tiers && e.1.provider == provider :: Declares(r.models, e.1.model))
    && (r.routing.vision.Some? && r.routing.vision.value.model.Some? && r.routing.vision.value.model.value.provider == provider ==>
          Declares(r.models, r.routing.vision.value.model.value.model))
  }

  /** Filtering keeps every declared id that is routed. */
  lemma {:induction false} KeptDeclares(models: seq<Model>, routed: seq<string>)
    requires UniqueIds(models) && forall id | id in routed :: Declares(models, id)
    ensures UniqueIds(KeepRouted(models, routed))
    ensures forall id | id in routed :: Declares(KeepRouted(models, routed), id)
  {
    KeepRoutedMeaning(models, routed);
    forall id | id in routed ensures Declares(KeepRouted(models, routed), id) {
      MemberDeclares(KeepRouted(models, routed), models[ModelIndex(models, id)]);
    }
  }

  /** The final models: every routed id is declared, and their tiers name routed ids only. */
  lemma {:induction false} EnsuredModels(host: Host, idx: Index, catalog: seq<CatalogModel>, models: seq<Model>, routed: seq<string>)
    requires Prepared(host, idx, models) && ValidCatalog(catalog) && "" !in routed
    requires forall m, id | m in models && id in TierValues(CanonicalTiers(host, idx, m.tiers)) :: id in routed
    ensures var r := KeepRouted(AddPlaceholders(NormalizeModels(host, idx, catalog, models), routed, catalog), routed);
            && UniqueIds(r)
            && (forall id | id in routed :: Declares(r, id))
            && (forall m | m in r :: ValidModel(m))
            && (forall m, id | m in r && id in TierValues(m.tiers) :: id in routed)
            && (forall x | x in models && !x.routingOnly :: x.(tiers := CanonicalTiers(host, idx, x.tiers)) in r)
  {
    var n := NormalizeModels(host, idx, catalog, models);
    NormalizedModels(host, idx, catalog, models);
    PlaceholdersMeaning(n, routed, catalog);
    var p := AddPlaceholders(n, routed, catalog);
    KeptDeclares(p, routed);
    KeepRoutedMeaning(p, routed);
    forall x | x in models && !x.routingOnly ensures x.(tiers := CanonicalTiers(host, idx, x.tiers)) in p {
      assert x.(tiers := CanonicalTiers(host, idx, x.tiers)) in n;
    }
  }

  lemma {:induction false} TiersWithin(tiers: Tiers, models: seq<Model>, routed: seq<string>)
    requires forall id | id in TierValues(tiers) :: id in routed
    requires forall id | id in routed :: Declares(models, id)
    ensures TiersDeclared(tiers, models)
  {
    forall i | 0 <= i < |tiers| ensures Declares(models, tiers[i].1) {
      assert TierValues(tiers)[i] in TierValues(tiers);
    }
  }

  lemma {:induction false} RoutedMeaning(host: Host, idx: Index, models: seq<Model>, agents: Agents, r: Routing, provider: string, protectedIds: seq<string>, all: seq<string>)
    requires all == AddAllUnique([], Routed(host, idx, models, agents, r, provider) + Protected(protectedIds, Ids(models)))
    ensures "" !in all
    ensures forall m, id | m in models && id in TierValues(CanonicalTiers(host, idx, m.tiers)) :: id in all
    ensures forall id | id in TierValues(CanonicalTiers(host, idx, agents.tiers)) :: id in all
    ensures forall id | id in RoutedByVision(host, idx, agents) :: id in all
    ensures forall id | id in RoutedByRoutes(host, idx, r.tiers, provider) :: id in all
    ensures forall id | id in RoutedByRouteVision(host, idx, r, provider) :: id in all
  {
    RoutedByModelsMeaning(host, idx, models);
    CanonicalTiersMeaning(host, idx, agents.tiers);
    RoutedByRoutesMeaning(host, idx, r.tiers, provider);
    ProtectedNonEmpty(protectedIds, Ids(models));
  }

  /** Every id in a routed list is declared, and the models' own tiers name routed ids only. */
  ghost predicate Covers(models: seq<Model>, routed: seq<string>) {
    && (forall id | id in routed :: Declares(models, id))
    && (forall m, id | m in models && id in TierValues(m.tiers) :: id in routed)
  }

  lemma {:induction false} CoveredModels(models: seq<Model>, routed: seq<string>)
    requires Covers(models, routed)
    ensures forall m | m in models :: TiersDeclared(m.tiers, models)
  {
    forall m | m in models ensures TiersDeclared(m.tiers, models) {
      TiersWithin(m.tiers, models, routed);
    }
  }

  lemma {:induction false} CoveredAgents(host: Host, idx: Index, agents: Agents, models: seq<Model>, routed: seq<string>)
    requires Covers(models, routed)
    requires forall id | id in TierValues(CanonicalTiers(host, idx, agents.tiers)) :: id in routed
    requires forall id | id in RoutedByVision(host, idx, agents) :: id in routed
    ensures var a := CanonicalAgents(host, idx, agents);
            && TiersDeclared(a.tiers, models)
            && (forall i | 0 <= i < |a.tiers| :: a.tiers[i].1 != "")
            && (a.vision.Some? && a.vision.value.model.Some? ==>
                  a.vision.value.model.value != "" && Declares(models, a.vision.value.model.value))
  {
    var tiers := CanonicalTiers(host, idx, agents.tiers);
    TiersWithin(tiers, models, routed);
    CanonicalTiersMeaning(host, idx, agents.tiers);
    forall i | 0 <= i < |tiers| ensures tiers[i].1 != "" {
      assert tiers[i].1 == TierValues(tiers)[i];
    }
  }

  lemma {:induction false} CoveredRoutes(host: Host, idx: Index, r: Routing, provider: string, models: seq<Model>, routed: seq<string>)
    requires Covers(models, routed) && ValidRouting(r)
    requires forall id | id in RoutedByRoutes(host, idx, r.tiers, provider) :: id in routed
    requires forall id | id in RoutedByRouteVision(host, idx, r, provider) :: id in routed
    ensures var c := CanonicalRouting(host, idx, r, provider);
            && (forall e | e in c.tiers && e.1.provider == provider :: Declares(models, e.1.model))
            && (c.vision.Some? && c.vision.value.model.Some? && c.vision.value.model.value.provider == provider ==>
                  Declares(models, c.vision.value.model.value.model))
  {
    RoutedByRoutesMeaning(host, idx, r.tiers, provider);
    var tiers := CanonicalRouteTiers(host, idx, r.tiers, provider);
    forall i | 0 <= i < |tiers| && tiers[i].1.provider == provider ensures Declares(models, tiers[i].1.model) {
      assert r.tiers[i] in r.tiers;
      CanonicalNonEmpty(host, idx, r.tiers[i].1.model);
    }
  }

  lemma {:induction false} EnsureRoutingSettles(
    host: Host, r: Routing, provider: string, models: seq<Model>, agents: Agents, idx: Index,
    catalog: seq<CatalogModel>, protectedIds: seq<string>)
    requires Prepared(host, idx, models) && ValidCatalog(catalog) && ValidRouting(r)
    requires EnsureRouting(host, r, provider, models, agents, idx, catalog, protectedIds).Success?
    ensures var e := EnsureRouting(host, r, provider, models, agents, idx, catalog, protectedIds).value;
            && Settled(e, provider)
            && forall x | x in models && !x.routingOnly :: x.(tiers := CanonicalTiers(host, idx, x.tiers)) in e.models
  {
    var e := EnsureRouting(host, r, provider, models, agents, idx, catalog, protectedIds).value;
    var all := AddAllUnique([], Routed(host, idx, models, agents, r, provider) + Protected(protectedIds, Ids(models)));
    RoutedMeaning(host, idx, models, agents, r, provider, protectedIds, all);
    EnsuredModels(host, idx, catalog, models, all);
    assert Covers(e.models, all);
    CoveredModels(e.models, all);
    CoveredAgents(host, idx, agents, e.models, all);
    CoveredRoutes(host, idx, r, provider, e.models, all);
  }
}
