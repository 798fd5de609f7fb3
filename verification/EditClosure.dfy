/**
  Every edit keeps the resolver satisfied: a document that passes the checks is
  turned into one that passes them, with the one exception that is stated and
  delimited here.
 */
module EditClosure {
  import opened Basics
  import opened ConfigDocument
  import opened Resolver
  import opened Acceptance
  import opened ModelMutations
  import opened MutationFacts
  import opened ConfigEdits

  // ----- Routes of other providers are carried over -----

  ghost predicate TiersCarried(d: Dict<Ref>, r: Dict<Ref>, provider: string) {
    && (DistinctKeys(d) ==> DistinctKeys(r))
    && (forall e | e in r :: exists o | o in d :: o.0 == e.0)
    && (forall e | e in r :: e.1.provider == provider || e in d)
  }

  /** r is d with nothing but routes of one provider rewritten or dropped, or others dropped. */
  ghost predicate Carried(d: Routing, r: Routing, provider: string) {
    && TiersCarried(d.tiers, r.tiers, provider)
    && (r.vision.Some? && r.vision.value.model.Some? && r.vision.value.model.value.provider != provider ==> r.vision == d.vision)
  }

  lemma {:induction false} CarriedTransitive(a: Routing, b: Routing, c: Routing, provider: string)
    requires Carried(a, b, provider) && Carried(b, c, provider)
    ensures Carried(a, c, provider)
  {
    forall e | e in c.tiers ensures exists o | o in a.tiers :: o.0 == e.0 {
      var o :| o in b.tiers && o.0 == e.0;
    }
  }

  ghost predicate ValidTierRefs(d: Dict<Ref>) {
    forall e | e in d :: ValidRef(e.1)
  }

  /** Appending at most one entry, under the key of the last entry of d, carries d. */
  lemma {:induction false} CarriedStep(d: Dict<Ref>, before: Dict<Ref>, last: Ref, keep: bool, provider: string)
    requires d != [] && TiersCarried(d[..|d| - 1], before, provider)
    requires keep ==> last.provider == provider || last == d[|d| - 1].1
    ensures TiersCarried(d, if keep then before + [(d[|d| - 1].0, last)] else before, provider)
  {
    var init, e := d[..|d| - 1], d[|d| - 1];
    assert d == init + [e];
    if DistinctKeys(d) {
      forall k | 0 <= k < |before| ensures before[k].0 != e.0 {
        assert before[k] in before;
        var o :| o in init && o.0 == before[k].0;
      }
    }
  }

  lemma {:induction false} MigrateTiersCarried(d: Dict<Ref>, provider: string, previous: string, replacement: string, disableVision: bool)
    requires replacement != ""
    ensures TiersCarried(d, MigrateRouteTiers(d, provider, previous, replacement, disableVision), provider)
    ensures ValidTierRefs(d) ==> ValidTierRefs(MigrateRouteTiers(d, provider, previous, replacement, disableVision))
  {
    if d != [] {
      var init, e := d[..|d| - 1], d[|d| - 1];
      MigrateTiersCarried(init, provider, previous, replacement, disableVision);
      assert d == init + [e];
      var hit := e.1.provider == provider && e.1.model == previous;
      CarriedStep(d, MigrateRouteTiers(init, provider, previous, replacement, disableVision),
                  if hit then e.1.(model := replacement) else e.1, !(hit && disableVision && e.0 == "vision"), provider);
    }
  }

  lemma {:induction false} DropTiersCarried(d: Dict<Ref>, provider: string)
    ensures TiersCarried(d, DropRouteTiers(d, provider), provider)
    ensures forall e | e in DropRouteTiers(d, provider) :: e in d && e.1.provider != provider
  {
    if d != [] {
      DropTiersCarried(d[..|d| - 1], provider);
      CarriedStep(d, DropRouteTiers(d[..|d| - 1], provider), d[|d| - 1].1, d[|d| - 1].1.provider != provider, provider);
      assert d == d[..|d| - 1] + [d[|d| - 1]];
    }
  }

  lemma {:induction false} RetainTiersCarried(d: Dict<Ref>, keep: string, provider: string)
    ensures TiersCarried(d, RetainTiers(d, keep), provider)
    ensures forall e | e in RetainTiers(d, keep) :: e in d && e.1.provider == keep
  {
    if d != [] {
      RetainTiersCarried(d[..|d| - 1], keep, provider);
      CarriedStep(d, RetainTiers(d[..|d| - 1], keep), d[|d| - 1].1, d[|d| - 1].1.provider == keep, provider);
      assert d == d[..|d| - 1] + [d[|d| - 1]];
    }
  }

  /** A rewrite of single references, entry by entry, that touches one provider's only. */
  lemma {:induction false} MappedCarried(d: Dict<Ref>, r: Dict<Ref>, provider: string)
    requires |r| == |d|
    requires forall i | 0 <= i < |d| :: r[i].0 == d[i].0
    requires forall i | 0 <= i < |d| :: if d[i].1.provider == provider then r[i].1.provider == provider else r[i] == d[i]
    ensures TiersCarried(d, r, provider)
  {
    forall e | e in r ensures exists o | o in d :: o.0 == e.0 {
      var i :| 0 <= i < |r| && r[i] == e;
      assert d[i] in d;
    }
  }

  lemma {:induction false} MembersAreEntries(d: Dict<Ref>)
    ensures ValidTierRefs(d) <==> forall i | 0 <= i < |d| :: ValidRef(d[i].1)
  {
    forall i | 0 <= i < |d| && ValidTierRefs(d) ensures ValidRef(d[i].1) {
      assert d[i] in d;
    }
  }

  lemma {:induction false} ReplaceCarried(r: Routing, provider: string, available: seq<Model>, fallback: Model)
    requires fallback.id != ""
    ensures Carried(r, ReplaceRouting(r, provider, available, fallback), provider)
    ensures ValidRouting(r) ==> ValidRouting(ReplaceRouting(r, provider, available, fallback))
  {
    MappedCarried(r.tiers, ReplaceRouteTiers(r.tiers, provider, available, fallback), provider);
  }

  lemma {:induction false} MigrateCarried(r: Routing, provider: string, previous: string, replacement: string, disableVision: bool)
    requires replacement != ""
    ensures Carried(r, MigrateRouting(r, provider, previous, replacement, disableVision), provider)
    ensures ValidRouting(r) ==> ValidRouting(MigrateRouting(r, provider, previous, replacement, disableVision))
  {
    MigrateTiersCarried(r.tiers, provider, previous, replacement, disableVision);
    MembersAreEntries(r.tiers);
    MembersAreEntries(MigrateRouteTiers(r.tiers, provider, previous, replacement, disableVision));
  }

  lemma {:induction false} CanonicalCarried(host: Host, idx: Index, r: Routing, provider: string)
    ensures Carried(r, CanonicalRouting(host, idx, r, provider), provider)
    ensures ValidRouting(r) ==> ValidRouting(CanonicalRouting(host, idx, r, provider))
  {
    MappedCarried(r.tiers, CanonicalRouteTiers(host, idx, r.tiers, provider), provider);
  }

  lemma {:induction false} ReconcileCarried(r: Routing, provider: string, models: seq<Model>)
    ensures Carried(r, ReconcileRouting(r, provider, models), provider)
    ensures ValidRouting(r) ==> ValidRouting(ReconcileRouting(r, provider, models))
  {
    MappedCarried(r.tiers, ReconcileRouteTiers(r.tiers, provider, models), provider);
  }

  lemma {:induction false} RetainCarried(r: Routing, keep: string, provider: string)
    ensures Carried(r, RetainRoutes(r, keep), provider)
    ensures ValidRouting(r) ==> ValidRouting(RetainRoutes(r, keep))
  {
    RetainTiersCarried(r.tiers, keep, provider);
    MembersAreEntries(r.tiers);
    MembersAreEntries(RetainTiers(r.tiers, keep));
  }

  // ----- The settled document -----

  /** Reasoning efforts on references to a provider are declared or absent. */
  predicate EffortDeclared(r: Ref, models: seq<Model>) {
    r.effort.Some? ==> Declares(models, r.model) && r.effort.value in models[ModelIndex(models, r.model)].efforts
  }

  ghost predicate TouchedEffortsDeclared(d: Document, provider: string, models: seq<Model>) {
    && (d.selection.Some? && d.selection.value.provider == provider ==> EffortDeclared(d.selection.value, models))
    && (forall e | e in d.routing.tiers && e.1.provider == provider :: EffortDeclared(e.1, models))
    && (d.routing.vision.Some? && d.routing.vision.value.model.Some? && d.routing.vision.value.model.value.provider == provider ==>
          EffortDeclared(d.routing.vision.value.model.value, models))
  }

  lemma {:induction false} ReconciledRef(r: Ref, models: seq<Model>)
    requires Declares(models, r.model)
    ensures var s := ReconcileRef(r, models, ModelIndex(models, r.model));
            s.provider == r.provider && s.model == r.model && EffortDeclared(s, models) && ModelResolves(s, models, true)
  {
  }

  /** After the reconcile step every route to the provider resolves, with a declared effort or none. */
  lemma {:induction false} SettledRoutes(routing: Routing, provider: string, models: seq<Model>)
    requires forall e | e in routing.tiers && e.1.provider == provider :: Declares(models, e.1.model)
    requires routing.vision.Some? && routing.vision.value.model.Some? && routing.vision.value.model.value.provider == provider ==>
               Declares(models, routing.vision.value.model.value.model)
    ensures var r := ReconcileRouting(routing, provider, models);
            && (forall e | e in r.tiers && e.1.provider == provider :: EffortDeclared(e.1, models) && ModelResolves(e.1, models, true))
            && (r.vision.Some? && r.vision.value.model.Some? && r.vision.value.model.value.provider == provider ==>
                  EffortDeclared(r.vision.value.model.value, models) && ModelResolves(r.vision.value.model.value, models, true))
  {
    var r := ReconcileRouting(routing, provider, models);
    forall i | 0 <= i < |r.tiers| && r.tiers[i].1.provider == provider
      ensures EffortDeclared(r.tiers[i].1, models) && ModelResolves(r.tiers[i].1, models, true)
    {
      assert routing.tiers[i] in routing.tiers;
      ReconciledRef(routing.tiers[i].1, models);
    }
    if routing.vision.Some? && routing.vision.value.model.Some? && routing.vision.value.model.value.provider == provider {
      ReconciledRef(routing.vision.value.model.value, models);
    }
  }

  lemma {:induction false} SelectedModel(s: Ref, models: seq<Model>, i: nat)
    requires i < |models| && !models[i].routingOnly && UniqueIds(models)
    ensures var r := ReconcileRef(s.(model := models[i].id), models, i);
            ModelIndex(models, r.model) == i && ModelResolves(r, models, false) && EffortDeclared(r, models)
  {
  }

  lemma {:induction false} SettledSelection(s: Option<Ref>, provider: string, models: seq<Model>)
    requires s.Some? && s.value.provider == provider && SelectableIndex(models) < |models| && UniqueIds(models)
    ensures var r := ReconcileSelection(s, provider, models);
            r.Some? && r.value.provider == provider && ModelResolves(r.value, models, false) && EffortDeclared(r.value, models)
  {
    var i, j := ModelIndex(models, s.value.model), SelectableIndex(models);
    if i < |models| && !models[i].routingOnly {
      SelectedModel(s.value, models, i);
      assert s.value.(model := models[i].id) == s.value;
    } else {
      SelectedModel(s.value, models, j);
    }
  }

  /** A provider in good order: what Settled gives plus a selectable model. */
  ghost predicate GoodProvider(p: Provider) {
    ValidProvider(p) && LocalReferencesDeclared(p) && SelectableIndex(p.models) < |p.models|
  }

  lemma {:induction false} SettleProviders(d: Document, provider: string, p: Provider)
    requires ValidDocument(d)
    ensures var r := Put(d.providers, provider, p);
            && DistinctKeys(r)
            && Has(r, provider) && Get(r, provider) == p
            && (forall q | q != provider :: Has(r, q) <==> Has(d.providers, q))
            && (forall q | q != provider && Has(d.providers, q) :: Get(r, q) == Get(d.providers, q))
            && (forall e | e in r :: e == (provider, p) || e in d.providers)
  {
    GetPut(d.providers, provider, p, provider);
    forall q { GetPut(d.providers, provider, p, q); }
  }

  lemma {:induction false} SettleLocals(d: Document, provider: string, p: Provider, selection: Option<Ref>, routing: Routing)
    requires ValidDocument(d) && provider != "" && GoodProvider(p)
    ensures var r := Settle(d, provider, p, selection, routing);
            && (forall i | 0 <= i < |r.providers| :: r.providers[i].0 != "" && ValidProvider(r.providers[i].1))
            && (LocalsHold(d) ==> LocalsHold(r))
  {
    var r := Settle(d, provider, p, selection, routing);
    SettleProviders(d, provider, p);
    forall i | 0 <= i < |r.providers|
      ensures r.providers[i].0 != "" && ValidProvider(r.providers[i].1)
      ensures LocalsHold(d) ==> LocalReferencesDeclared(r.providers[i].1)
    {
      assert r.providers[i] in r.providers;
    }
  }

  /** Routes to a provider whose definition did not change keep holding. */
  lemma {:induction false} CarriedRoutesHold(d: Document, r: Document, provider: string, q: string)
    requires Carried(d.routing, r.routing, provider) && q != provider
    requires Has(d.providers, q) ==> Has(r.providers, q) && Get(r.providers, q) == Get(d.providers, q)
    requires RoutesHold(d, q)
    ensures RoutesHold(r, q)
  {
    forall i | 0 <= i < |r.routing.tiers| && r.routing.tiers[i].1.provider == q
      ensures RefHolds(r, r.routing.tiers[i].1, true)
    {
      assert r.routing.tiers[i] in d.routing.tiers;
      var j :| 0 <= j < |d.routing.tiers| && d.routing.tiers[j] == r.routing.tiers[i];
    }
  }

  lemma {:induction false} EntriesHold(d: Document, provider: string, models: seq<Model>)
    requires Has(d.providers, provider) && Get(d.providers, provider).models == models
    requires forall e | e in d.routing.tiers && e.1.provider == provider :: ModelResolves(e.1, models, true)
    requires d.routing.vision.Some? && d.routing.vision.value.model.Some? && d.routing.vision.value.model.value.provider == provider ==>
               ModelResolves(d.routing.vision.value.model.value, models, true)
    ensures RoutesHold(d, provider)
  {
    forall i | 0 <= i < |d.routing.tiers| && d.routing.tiers[i].1.provider == provider
      ensures RefHolds(d, d.routing.tiers[i].1, true)
    {
      assert d.routing.tiers[i] in d.routing.tiers;
    }
  }

  /** The default selection still belongs to the same provider, and is untouched unless that is the edited one. */
  predicate SameDefault(before: Option<Ref>, now: Option<Ref>, provider: string) {
    if before.Some? && before.value.provider == provider then now.Some? && ValidRef(now.value) && now.value.provider == provider
    else now == before
  }

  /** What settling one provider establishes, whatever happened to its own references before. */
  ghost predicate SettledOver(d: Document, r: Document, provider: string, p: Provider) {
    && ValidDocument(r)
    && Has(r.providers, provider) && Get(r.providers, provider) == p
    && RoutesHold(r, provider)
    && TouchedEffortsDeclared(r, provider, p.models)
    && (LocalsHold(d) ==> LocalsHold(r))
    && (SelectionHolds(d) ==> SelectionHolds(r))
    && DefaultProvider(r) == DefaultProvider(d)
    && (forall q | q != provider && RoutesHold(d, q) :: RoutesHold(r, q))
  }

  lemma {:induction false} SettleCloses(d: Document, provider: string, p: Provider, selection: Option<Ref>, routing: Routing)
    requires ValidDocument(d) && provider != "" && GoodProvider(p) && ValidRouting(routing)
    requires Carried(d.routing, routing, provider) && SameDefault(d.selection, selection, provider)
    requires forall e | e in routing.tiers && e.1.provider == provider :: Declares(p.models, e.1.model)
    requires routing.vision.Some? && routing.vision.value.model.Some? && routing.vision.value.model.value.provider == provider ==>
               Declares(p.models, routing.vision.value.model.value.model)
    ensures SettledOver(d, Settle(d, provider, p, selection, routing), provider, p)
  {
    var r := Settle(d, provider, p, selection, routing);
    SettleProviders(d, provider, p);
    SettleLocals(d, provider, p, selection, routing);
    ReconcileCarried(routing, provider, p.models);
    CarriedTransitive(d.routing, routing, r.routing, provider);
    SettledRoutes(routing, provider, p.models);
    EntriesHold(r, provider, p.models);
    forall q | q != provider && RoutesHold(d, q) ensures RoutesHold(r, q) {
      CarriedRoutesHold(d, r, provider, q);
    }
    SettleDefault(d, provider, p, selection, routing);
  }

  lemma {:induction false} SettleDefault(d: Document, provider: string, p: Provider, selection: Option<Ref>, routing: Routing)
    requires ValidDocument(d) && GoodProvider(p) && SameDefault(d.selection, selection, provider)
    ensures var r := Settle(d, provider, p, selection, routing);
            && (r.selection.Some? ==> ValidRef(r.selection.value))
            && DefaultProvider(r) == DefaultProvider(d)
            && (SelectionHolds(d) ==> SelectionHolds(r))
            && (r.selection.Some? && r.selection.value.provider == provider ==> EffortDeclared(r.selection.value, p.models))
  {
    var r := Settle(d, provider, p, selection, routing);
    SettleProviders(d, provider, p);
    if selection.Some? && selection.value.provider == provider {
      SettledSelection(selection, provider, p.models);
      var m := r.selection.value.model;
      assert ValidModel(p.models[ModelIndex(p.models, m)]);
    }
  }
}
