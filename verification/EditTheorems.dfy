/** The closure theorems: the three edits against the resolver. */
module EditTheorems {
  import opened Basics
  import opened ConfigDocument
  import opened Resolver
  import opened Acceptance
  import opened ModelMutations
  import opened MutationFacts
  import opened ConfigEdits
  import opened EditClosure

  // ----- What a plan guarantees -----

  lemma {:induction false} CatalogEntriesValid(host: Host, ids: seq<string>, models: seq<CatalogModel>)
    requires CatalogEntries(host, ids, models).Success?
    ensures ValidCatalog(CatalogEntries(host, ids, models).value)
  {
    if models != [] {
      CatalogEntriesValid(host, ids, models[..|models| - 1]);
    }
  }

  lemma {:induction false} RetainModelsMembers(host: Host, idx: Index, catalogIds: seq<string>, models: seq<Model>, next: string, previous: string)
    ensures forall m | m in RetainModels(host, idx, catalogIds, models, next, previous) :: exists x | x in models :: m == x.(tiers := m.tiers)
  {
    if models != [] {
      var init, last := models[..|models| - 1], models[|models| - 1];
      RetainModelsMembers(host, idx, catalogIds, init, next, previous);
      assert models == init + [last];
      assert last in models;
    }
  }

  lemma {:induction false} RetainModelsUnique(host: Host, idx: Index, catalogIds: seq<string>, models: seq<Model>, next: string, previous: string)
    requires UniqueIds(models)
    ensures UniqueIds(RetainModels(host, idx, catalogIds, models, next, previous))
  {
    if models != [] {
      var init, last := models[..|models| - 1], models[|models| - 1];
      RetainModelsUnique(host, idx, catalogIds, init, next, previous);
      RetainModelsMembers(host, idx, catalogIds, init, next, previous);
      var before := RetainModels(host, idx, catalogIds, init, next, previous);
      forall k | 0 <= k < |before| ensures before[k].id != last.id {
        var x :| x in init && before[k] == x.(tiers := before[k].tiers);
      }
    }
  }

  lemma {:induction false} RetainModelsMeaning(host: Host, idx: Index, catalogIds: seq<string>, models: seq<Model>, next: string, previous: string)
    ensures var r := RetainModels(host, idx, catalogIds, models, next, previous);
            && (forall m | m in r :: exists x | x in models :: m == x.(tiers := m.tiers))
            && (UniqueIds(models) ==> UniqueIds(r))
  {
    RetainModelsMembers(host, idx, catalogIds, models, next, previous);
    if UniqueIds(models) {
      RetainModelsUnique(host, idx, catalogIds, models, next, previous);
    }
  }

  ghost predicate Known(host: Host, idx: Index, models: seq<Model>) {
    forall m | m in models :: Canonical(host, idx, m.id) == m.id
  }

  /** Well-formed up to what the index knows. */
  ghost predicate Shaped(models: seq<Model>) {
    && UniqueIds(models)
    && forall m | m in models :: m.id != "" && (m.defaultEffort.Some? ==> m.defaultEffort.value in m.efforts)
  }

  ghost predicate PlanSound(host: Host, d: Document, plan: Plan) {
    && plan.provider != ""
    && plan.existing == (if Has(d.providers, plan.provider) then Some(Get(d.providers, plan.provider)) else None)
    && (!plan.replacing ==> plan.existing.Some? && Known(host, plan.index, plan.existing.value.models))
    && ValidCatalog(plan.catalog)
    && Shaped(plan.retained) && (plan.replacing ==> Known(host, plan.index, plan.retained))
    && Shaped([plan.model]) && Known(host, plan.index, [plan.model]) && !plan.model.routingOnly
  }

  lemma {:induction false} IndexKnowsModels(host: Host, models: seq<Model>, more: seq<string>)
    requires CreateIndex(host, Ids(models) + more).Success?
    ensures Known(host, CreateIndex(host, Ids(models) + more).value, models)
  {
    var ids := Ids(models) + more;
    forall m | m in models ensures Canonical(host, CreateIndex(host, ids).value, m.id) == m.id {
      var i :| 0 <= i < |models| && models[i] == m;
      assert ids[i] == m.id;
      CanonicalKnown(host, ids, m.id);
    }
  }

  lemma {:induction false} ValidProviderShaped(p: Provider)
    requires ValidProvider(p)
    ensures Shaped(p.models)
  {
    forall m | m in p.models ensures ValidModel(m) {
      var i :| 0 <= i < |p.models| && p.models[i] == m;
    }
  }

  lemma {:induction false} BuiltModel(
    host: Host, provider: string, existing: Option<Provider>, endpointChanged: bool, target: Target,
    retained: seq<Model>, bases: seq<Model>, catalogIds: seq<string>, index: Index, catalog: seq<CatalogModel>, input: UpsertInput)
    requires target.id != ""
    requires CreateIndex(host, Ids(bases) + (catalogIds + [target.id])) == Success(index)
    ensures var plan := BuildPlan(host, provider, existing, endpointChanged, target, retained, catalogIds + [target.id], index, catalog, input);
            && Shaped([plan.model]) && Known(host, index, [plan.model]) && !plan.model.routingOnly
            && Known(host, index, bases)
  {
    var allowed := catalogIds + [target.id];
    IndexKnowsModels(host, bases, allowed);
    assert allowed[|allowed| - 1] == target.id;
    CanonicalKnown(host, Ids(bases) + allowed, target.id);
  }

  lemma {:induction false} PlanFromProvider(
    host: Host, provider: string, existing: Option<Provider>, confirmed: seq<string>, manual: seq<string>,
    catalog: seq<CatalogModel>, input: UpsertInput)
    requires PlanFrom(host, provider, existing, confirmed, manual, catalog, input).Success?
    ensures var plan := PlanFrom(host, provider, existing, confirmed, manual, catalog, input).value;
            plan.provider == provider && plan.existing == existing
  {
  }

  lemma {:induction false} PlanProvider(host: Host, d: Document, input: UpsertInput, draw: Draw)
    requires PlanUpsert(host, d, input, draw).Success?
    ensures var plan := PlanUpsert(host, d, input, draw).value;
            && plan.provider != ""
            && plan.existing == (if Has(d.providers, plan.provider) then Some(Get(d.providers, plan.provider)) else None)
  {
    var provider := if input.profileId != "" then input.profileId else "provider-" + draw.providerId;
    var existing := if Has(d.providers, provider) then Some(Get(d.providers, provider)) else None;
    var confirmed := NormalizeIds(host, input.catalogIds, 2048, InvalidCatalog).value;
    var manual := NormalizeIds(host, input.manualIds, 4, InvalidManualIds).value;
    var catalog := NormalizeCatalog(host, confirmed, input.catalogModels).value;
    PlanFromProvider(host, provider, existing, confirmed, manual, catalog, input);
  }

  /** The target and the index behind a plan that succeeds. */
  lemma {:induction false} PlanParts(
    host: Host, provider: string, existing: Option<Provider>, confirmed: seq<string>, manual: seq<string>,
    catalog: seq<CatalogModel>, input: UpsertInput) returns (target: Target)
    requires PlanFrom(host, provider, existing, confirmed, manual, catalog, input).Success?
    ensures var plan := PlanFrom(host, provider, existing, confirmed, manual, catalog, input).value;
            var models := if existing.Some? then existing.value.models else [];
            && target.id != ""
            && (plan.retained == [] || plan.retained == RetainModels(host, target.evidence, confirmed, models, target.id, target.previous))
            && CreateIndex(host, Ids(if plan.replacing then plan.retained else models) + (confirmed + manual + [target.id]))
               == Success(plan.index)
            && plan == BuildPlan(host, provider, existing, plan.endpointChanged, target, plan.retained,
                                 confirmed + manual + [target.id], plan.index, catalog, input)
  {
    var models := if existing.Some? then existing.value.models else [];
    var replacing := existing.None? || input.replaceModels || EndpointChanged(existing, input.protocol, input.baseURL);
    target := ChooseTarget(host, models, replacing, confirmed, input).value;
  }

  lemma {:induction false} PlanFromSound(
    host: Host, d: Document, provider: string, existing: Option<Provider>, confirmed: seq<string>, manual: seq<string>,
    catalog: seq<CatalogModel>, input: UpsertInput)
    requires provider != "" && existing == (if Has(d.providers, provider) then Some(Get(d.providers, provider)) else None)
    requires (existing.Some? ==> ValidProvider(existing.value)) && ValidCatalog(catalog)
    requires PlanFrom(host, provider, existing, confirmed, manual, catalog, input).Success?
    ensures PlanSound(host, d, PlanFrom(host, provider, existing, confirmed, manual, catalog, input).value)
  {
    var plan := PlanFrom(host, provider, existing, confirmed, manual, catalog, input).value;
    var models := if existing.Some? then existing.value.models else [];
    var target := PlanParts(host, provider, existing, confirmed, manual, catalog, input);
    if existing.Some? { ValidProviderShaped(existing.value); }
    RetainModelsMeaning(host, target.evidence, confirmed, models, target.id, target.previous);
    BuiltModel(host, provider, existing, plan.endpointChanged, target, plan.retained,
               if plan.replacing then plan.retained else models, confirmed + manual, plan.index, catalog, input);
  }

  lemma {:induction false} PlanIsSound(host: Host, d: Document, input: UpsertInput, draw: Draw)
    requires ValidDocument(d) && PlanUpsert(host, d, input, draw).Success?
    ensures PlanSound(host, d, PlanUpsert(host, d, input, draw).value)
  {
    var provider := if input.profileId != "" then input.profileId else "provider-" + draw.providerId;
    var existing := if Has(d.providers, provider) then Some(Get(d.providers, provider)) else None;
    var confirmed := NormalizeIds(host, input.catalogIds, 2048, InvalidCatalog).value;
    var manual := NormalizeIds(host, input.manualIds, 4, InvalidManualIds).value;
    var catalog := NormalizeCatalog(host, confirmed, input.catalogModels).value;
    CatalogEntriesValid(host, confirmed, input.catalogModels);
    PlanFromSound(host, d, provider, existing, confirmed, manual, catalog, input);
  }

  // ----- Moving references -----

  lemma {:induction false} MigrateModelsMeaning(models: seq<Model>, previous: string, replacement: string)
    requires Shaped(models)
    ensures var r := MigrateModels(models, previous, replacement);
            && Shaped(r)
            && (forall m | m in r :: exists x | x in models :: m == x.(tiers := m.tiers))
  {
    var r := MigrateModels(models, previous, replacement);
    forall i | 0 <= i < |r| ensures exists x | x in models :: r[i] == x.(tiers := r[i].tiers) {
      assert models[i] in models;
    }
  }

  lemma {:induction false} MovedModels(host: Host, d: Document, plan: Plan)
    requires ValidDocument(d) && PlanSound(host, d, plan)
    ensures Prepared(host, plan.index, PutModel(MoveReferences(d, plan).models, plan.model))
  {
    var moved := MoveReferences(d, plan);
    if !plan.replacing {
      var models := plan.existing.value.models;
      ValidProviderShaped(plan.existing.value);
      if plan.previous != "" && plan.previous != plan.model.id {
        MigrateModelsMeaning(models, plan.previous, plan.model.id);
        var migrated := MigrateModels(models, plan.previous, plan.model.id);
        WithoutModelMembers(migrated, plan.previous);
        WithoutModelUnique(migrated, plan.previous);
      }
    }
    PutModelMeaning(moved.models, plan.model);
    assert plan.model in [plan.model];
  }

  lemma {:induction false} MovedRoutes(host: Host, d: Document, plan: Plan)
    requires ValidDocument(d) && PlanSound(host, d, plan)
    ensures var moved := MoveReferences(d, plan);
            && ValidRouting(moved.routing)
            && Carried(d.routing, moved.routing, plan.provider)
            && SameDefault(d.selection, moved.selection, plan.provider)
  {
    assert plan.model in [plan.model];
    if plan.replacing {
      ReplaceCarried(d.routing, plan.provider, WithoutModel(plan.retained, plan.model.id) + [plan.model], plan.model);
    } else if plan.previous != "" && plan.previous != plan.model.id {
      MigrateCarried(d.routing, plan.provider, plan.previous, plan.model.id, false);
    }
  }

  // ----- Saving a model -----

  lemma {:induction false} EnsuredProvider(models: seq<Model>, m: Model, p: Provider, e: Ensured, provider: string)
    requires Settled(e, provider) && p.models == e.models && p.agents == e.agents
    requires p.auth.Credential? ==> p.auth.ref != ""
    requires m in e.models && !m.routingOnly
    ensures GoodProvider(p)
    ensures Declares(p.models, m.id) && p.models[ModelIndex(p.models, m.id)] == m
  {
    MemberDeclares(e.models, m);
    forall i | 0 <= i < |p.models| ensures ValidModel(p.models[i]) && TiersDeclared(p.models[i].tiers, p.models) {
      assert p.models[i] in e.models;
    }
  }

  lemma {:induction false} FreshRefMeaning(host: Host, provider: string, used: seq<string>, suffixes: seq<string>)
    ensures var r := FreshRef(host, provider, used, suffixes);
            r.Some? ==> r.value !in used && r.value != ""
  {
    if suffixes != [] {
      FreshRefMeaning(host, provider, used, suffixes[1..]);
    }
  }

  lemma {:induction false} StepAuth(host: Host, d: Document, plan: Plan, input: UpsertInput, suffixes: seq<string>)
    requires ValidDocument(d) && PlanSound(host, d, plan)
    requires CredentialStep(host, UsedReferences(d, input.credentialReferences), plan, input, suffixes).Success?
    ensures var auth := CredentialStep(host, UsedReferences(d, input.credentialReferences), plan, input, suffixes).value.0;
            auth.Credential? ==> auth.ref != ""
  {
    FreshRefMeaning(host, plan.provider, UsedReferences(d, input.credentialReferences), suffixes);
  }

  /** What a saved model looks like once its provider is settled. */
  function SavedModel(host: Host, plan: Plan): Model {
    plan.model.(tiers := CanonicalTiers(host, plan.index, plan.model.tiers))
  }

  lemma {:induction false} UpsertSettles(host: Host, d: Document, plan: Plan, input: UpsertInput, suffixes: seq<string>)
    returns (settled: Document, p: Provider)
    requires ValidDocument(d) && PlanSound(host, d, plan)
    requires ApplyUpsert(host, d, plan, input, suffixes).Success?
    ensures SettledOver(d, settled, plan.provider, p) && GoodProvider(p)
    ensures Declares(p.models, plan.model.id) && p.models[ModelIndex(p.models, plan.model.id)] == SavedModel(host, plan)
    ensures ApplyUpsert(host, d, plan, input, suffixes).value.document
            == if input.switchToModel then SwitchTo(settled, plan.provider, plan.model) else settled
  {
    var moved := MoveReferences(d, plan);
    var auth := CredentialStep(host, UsedReferences(d, input.credentialReferences), plan, input, suffixes).value.0;
    var models, agents := PutModel(moved.models, plan.model), UpdateAgents(moved.agents, plan, input);
    var protectedIds := if plan.replacing then [] else input.protectedIds;
    var e := EnsureRouting(host, moved.routing, plan.provider, models, agents, plan.index, plan.catalog, protectedIds).value;
    MovedModels(host, d, plan);
    MovedRoutes(host, d, plan);
    EnsureRoutingSettles(host, moved.routing, plan.provider, models, agents, plan.index, plan.catalog, protectedIds);
    PutModelMember(moved.models, plan.model);
    p := SavedProvider(plan, input, auth, e);
    StepAuth(host, d, plan, input, suffixes);
    EnsuredProvider(models, SavedModel(host, plan), p, e, plan.provider);
    CanonicalCarried(host, plan.index, moved.routing, plan.provider);
    CarriedTransitive(d.routing, moved.routing, e.routing, plan.provider);
    SettleCloses(d, plan.provider, p, moved.selection, e.routing);
    settled := Settle(d, plan.provider, p, moved.selection, e.routing);
  }

  lemma {:induction false} PutModelMember(models: seq<Model>, m: Model)
    ensures m in PutModel(models, m)
  {
    var r, i := PutModel(models, m), ModelIndex(models, m.id);
    assert r[if i < |models| then i else |models|] == m;
  }

  /** Choosing the saved model as default keeps its provider's routes only; they already hold. */
  lemma {:induction false} SwitchHolds(d: Document, provider: string, p: Provider, m: Model, saved: Model)
    requires ValidDocument(d) && Has(d.providers, provider) && Get(d.providers, provider) == p && provider != ""
    requires saved == m.(tiers := saved.tiers) && !m.routingOnly && m.id != ""
    requires m.defaultEffort.Some? ==> m.defaultEffort.value in m.efforts
    requires Declares(p.models, m.id) && p.models[ModelIndex(p.models, m.id)] == saved
    requires RoutesHold(d, provider) && TouchedEffortsDeclared(d, provider, p.models)
    ensures var r := SwitchTo(d, provider, m);
            && ValidDocument(r)
            && SelectionHolds(r)
            && (forall q :: RoutesHold(r, q))
            && TouchedEffortsDeclared(r, provider, p.models)
            && DefaultProvider(r) == provider
            && (LocalsHold(d) ==> LocalsHold(r))
  {
    var r := SwitchTo(d, provider, m);
    RetainCarried(d.routing, provider, provider);
    RetainTiersCarried(d.routing.tiers, provider, provider);
    forall i | 0 <= i < |r.routing.tiers| ensures RefHolds(r, r.routing.tiers[i].1, true) {
      assert r.routing.tiers[i] in d.routing.tiers;
      var j :| 0 <= j < |d.routing.tiers| && d.routing.tiers[j] == r.routing.tiers[i];
    }
    forall q ensures RoutesHold(r, q) {
      if r.routing.vision.Some? && r.routing.vision.value.model.Some? && r.routing.vision.value.model.value.provider == q {
        assert ValidRef(r.routing.vision.value.model.value);
        assert q == provider;
      }
    }
  }

  /** What a save leaves in order, whether or not the saved model becomes the default. */
  ghost predicate SaveKeeps(d: Document, r: Document, provider: string, p: Provider) {
    && ValidDocument(r) && LocalsHold(r) && SelectionHolds(r)
    && (forall q | q == provider || RoutesHold(d, q) :: RoutesHold(r, q))
    && (DefaultProvider(r) == DefaultProvider(d) || DefaultProvider(r) == provider)
    && Has(r.providers, provider) && Get(r.providers, provider) == p
    && TouchedEffortsDeclared(r, provider, p.models)
  }

  lemma {:induction false} SettledCloses(d: Document, settled: Document, provider: string, p: Provider, m: Model, saved: Model, choose: bool)
    requires LocalsHold(d) && SelectionHolds(d) && SettledOver(d, settled, provider, p) && provider != ""
    requires saved == m.(tiers := saved.tiers) && !m.routingOnly && Shaped([m])
    requires Declares(p.models, m.id) && p.models[ModelIndex(p.models, m.id)] == saved
    ensures SaveKeeps(d, if choose then SwitchTo(settled, provider, m) else settled, provider, p)
  {
    if choose {
      assert m in [m];
      SwitchHolds(settled, provider, p, m, saved);
    }
  }

  lemma {:induction false} ApplyClosure(host: Host, d: Document, plan: Plan, input: UpsertInput, suffixes: seq<string>)
    returns (p: Provider)
    requires ValidDocument(d) && LocalsHold(d) && SelectionHolds(d) && PlanSound(host, d, plan)
    requires ApplyUpsert(host, d, plan, input, suffixes).Success?
    ensures SaveKeeps(d, ApplyUpsert(host, d, plan, input, suffixes).value.document, plan.provider, p)
  {
    var settled;
    settled, p := UpsertSettles(host, d, plan, input, suffixes);
    SettledCloses(d, settled, plan.provider, p, plan.model, SavedModel(host, plan), input.switchToModel);
  }

  lemma {:induction false} UpsertApplies(host: Host, d: Document, input: UpsertInput, draw: Draw)
    requires Upsert(host, d, input, draw).Success?
    ensures PlanUpsert(host, d, input, draw).Success?
    ensures var plan := PlanUpsert(host, d, input, draw).value;
            && ApplyUpsert(host, d, plan, input, draw.suffixes) == Upsert(host, d, input, draw)
            && Upsert(host, d, input, draw).value.provider == plan.provider
  {
  }

  lemma {:induction false} UpsertClosure(host: Host, d: Document, input: UpsertInput, draw: Draw)
    returns (p: Provider)
    requires ValidDocument(d) && LocalsHold(d) && SelectionHolds(d) && Upsert(host, d, input, draw).Success?
    ensures var e := Upsert(host, d, input, draw).value; SaveKeeps(d, e.document, e.provider, p)
  {
    UpsertApplies(host, d, input, draw);
    PlanIsSound(host, d, input, draw);
    p := ApplyClosure(host, d, PlanUpsert(host, d, input, draw).value, input, draw.suffixes);
  }

  /**
    Saving a model keeps the resolver satisfied, and leaves every reference to
    the saved provider with a declared effort or none.
   */
  lemma {:induction false} UpsertKeepsAccepted(host: Host, d: Document, input: UpsertInput, draw: Draw)
    requires Accepts(host, d) && Upsert(host, d, input, draw).Success?
    ensures var e := Upsert(host, d, input, draw).value;
            && Accepts(host, e.document)
            && Has(e.document.providers, e.provider)
            && TouchedEffortsDeclared(e.document, e.provider, Get(e.document.providers, e.provider).models)
  {
    AcceptsIff(host, d);
    var _ := UpsertClosure(host, d, input, draw);
    AcceptsIff(host, Upsert(host, d, input, draw).value.document);
  }

  /** The same for documents whose inactive routes are in order too. */
  lemma {:induction false} UpsertKeepsClosed(host: Host, d: Document, input: UpsertInput, draw: Draw)
    requires Closed(d) && Upsert(host, d, input, draw).Success?
    ensures Closed(Upsert(host, d, input, draw).value.document)
  {
    var _ := UpsertClosure(host, d, input, draw);
  }

  // ----- Deleting a provider -----

  lemma {:induction false} FirstSelectionMeaning(d: Dict<Provider>)
    requires DistinctKeys(d)
    ensures var s := FirstSelection(d);
            if s.None? then forall i | 0 <= i < |d| :: SelectableIndex(d[i].1.models) == |d[i].1.models|
            else
              && s.value.effort.None?
              && Has(d, s.value.provider)
              && var models := Get(d, s.value.provider).models;
                 SelectableIndex(models) < |models| && s.value.model == models[SelectableIndex(models)].id
  {
    if d != [] && SelectableIndex(d[0].1.models) == |d[0].1.models| {
      FirstSelectionMeaning(d[1..]);
      var s := FirstSelection(d);
      assert forall i | 0 < i < |d| :: d[i] == d[1..][i - 1];
    }
  }

  lemma {:induction false} RemovedEntries(d: Dict<Provider>, id: string)
    ensures forall e | e in Remove(d, id) :: e in d
  {
  }

  lemma {:induction false} DeletionProviders(d: Document, id: string)
    requires ValidDocument(d)
    ensures var rest := Remove(d.providers, id);
            && DistinctKeys(rest) && !Has(rest, id)
            && (forall i | 0 <= i < |rest| :: rest[i] in d.providers)
            && (forall i | 0 <= i < |rest| :: rest[i].0 != "" && ValidProvider(rest[i].1))
            && (LocalsHold(d) ==> forall i | 0 <= i < |rest| :: LocalReferencesDeclared(rest[i].1))
  {
    var rest := Remove(d.providers, id);
    GetRemove(d.providers, id, id);
    RemovedEntries(d.providers, id);
    forall i | 0 <= i < |rest|
      ensures rest[i] in d.providers && rest[i].0 != "" && ValidProvider(rest[i].1)
      ensures LocalsHold(d) ==> LocalReferencesDeclared(rest[i].1)
    {
      assert rest[i] in rest;
      var j :| 0 <= j < |d.providers| && d.providers[j] == rest[i];
    }
  }

  lemma {:induction false} DeletionRouting(r: Routing, id: string, keep: string)
    requires ValidRouting(r)
    ensures ValidRouting(RetainRoutes(DropRouting(r, id), keep))
  {
    DropTiersCarried(r.tiers, id);
    var dropped := DropRouting(r, id);
    MembersAreEntries(r.tiers);
    MembersAreEntries(dropped.tiers);
    RetainCarried(dropped, keep, keep);
  }

  /** The default after a deletion, and the routes it leaves. */
  lemma {:induction false} DeletionMeaning(d: Document, id: string, provided: Option<seq<string>>)
    requires ValidDocument(d) && LocalsHold(d) && SelectionHolds(d) && Has(d.providers, id)
    ensures var r := DeleteProvider(d, id, provided).value.document;
            && ValidDocument(r) && LocalsHold(r) && SelectionHolds(r)
            && !Has(r.providers, id)
            && DefaultProvider(r) != id
            && (forall q :: RoutesHold(r, q) <==> (q == DefaultProvider(r) ==> RoutesHold(d, q)))
  {
    var r := DeleteProvider(d, id, provided).value.document;
    DeletionProviders(d, id);
    DeletionDefault(d, id, provided);
    DeletionRouting(d.routing, id, DefaultProvider(r));
    forall q ensures RoutesHold(r, q) <==> (q == DefaultProvider(r) ==> RoutesHold(d, q)) {
      DeletionRoutes(d, id, provided, q);
    }
  }

  /** The first selectable model of some providers is a reference that resolves there. */
  lemma {:induction false} FirstSelectionResolves(d: Dict<Provider>)
    requires DistinctKeys(d) && FirstSelection(d).Some?
    requires forall e | e in d :: e.0 != "" && ValidProvider(e.1)
    ensures var s := FirstSelection(d).value;
            ValidRef(s) && Has(d, s.provider) && ModelResolves(s, Get(d, s.provider).models, false)
  {
    FirstSelectionMeaning(d);
    var s := FirstSelection(d).value;
    assert d[KeyIndex(d, s.provider)] in d;
    var models := Get(d, s.provider).models;
    var j := SelectableIndex(models);
    assert ValidModel(models[j]);
    assert ModelIndex(models, models[j].id) == j;
  }

  lemma {:induction false} DeletionDefault(d: Document, id: string, provided: Option<seq<string>>)
    requires ValidDocument(d) && SelectionHolds(d) && Has(d.providers, id)
    ensures var r := DeleteProvider(d, id, provided).value.document;
            && SelectionHolds(r) && DefaultProvider(r) != id
            && (r.selection.Some? ==> ValidRef(r.selection.value) && Has(r.providers, r.selection.value.provider))
  {
    var r := DeleteProvider(d, id, provided).value.document;
    var rest := Remove(d.providers, id);
    GetRemove(d.providers, id, id);
    if d.selection.Some? && d.selection.value.provider == id {
      if r.selection.Some? {
        RemovedEntries(d.providers, id);
        FirstSelectionResolves(rest);
      } else {
        assert id != "";
      }
    } else {
      GetRemove(d.providers, id, DefaultProvider(d));
      assert id != "" by { assert d.providers[KeyIndex(d.providers, id)].0 == id; }
    }
  }

  lemma {:induction false} TiersKeepEntries(d: Dict<Ref>, id: string, keep: string)
    ensures forall e | e in d && e.1.provider == keep && keep != id :: e in RetainTiers(DropRouteTiers(d, id), keep)
    ensures forall e | e in RetainTiers(DropRouteTiers(d, id), keep) :: e in d && e.1.provider == keep
  {
    DropTiersCarried(d, id);
    RetainTiersCarried(DropRouteTiers(d, id), keep, keep);
    DropKeeps(d, id);
    RetainKeeps(DropRouteTiers(d, id), keep);
  }

  lemma {:induction false} DropKeeps(d: Dict<Ref>, id: string)
    ensures forall e | e in d && e.1.provider != id :: e in DropRouteTiers(d, id)
  {
    if d != [] {
      DropKeeps(d[..|d| - 1], id);
      assert d == d[..|d| - 1] + [d[|d| - 1]];
    }
  }

  lemma {:induction false} RetainKeeps(d: Dict<Ref>, keep: string)
    ensures forall e | e in d && e.1.provider == keep :: e in RetainTiers(d, keep)
  {
    if d != [] {
      RetainKeeps(d[..|d| - 1], keep);
      assert d == d[..|d| - 1] + [d[|d| - 1]];
    }
  }

  /** Routes to a provider that both documents describe alike hold in one when they hold in the other. */
  lemma {:induction false} RoutesTransfer(d: Document, r: Document, q: string)
    requires RoutesHold(r, q)
    requires Has(d.providers, q) == Has(r.providers, q) && (Has(d.providers, q) ==> Get(d.providers, q) == Get(r.providers, q))
    requires forall e | e in d.routing.tiers && e.1.provider == q :: e in r.routing.tiers
    requires d.routing.vision.Some? && d.routing.vision.value.model.Some? && d.routing.vision.value.model.value.provider == q ==>
               d.routing.vision == r.routing.vision
    ensures RoutesHold(d, q)
  {
    forall i | 0 <= i < |d.routing.tiers| && d.routing.tiers[i].1.provider == q ensures RefHolds(d, d.routing.tiers[i].1, true) {
      assert d.routing.tiers[i] in r.routing.tiers;
      var j :| 0 <= j < |r.routing.tiers| && r.routing.tiers[j] == d.routing.tiers[i];
    }
  }

  /** After a deletion only routes to the default provider are left, exactly as they were. */
  lemma {:induction false} DeletionRoutes(d: Document, id: string, provided: Option<seq<string>>, q: string)
    requires ValidDocument(d) && SelectionHolds(d) && Has(d.providers, id)
    ensures var r := DeleteProvider(d, id, provided).value.document;
            RoutesHold(r, q) <==> (q == DefaultProvider(r) ==> RoutesHold(d, q))
  {
    var r := DeleteProvider(d, id, provided).value.document;
    DeletionDefault(d, id, provided);
    GetRemove(d.providers, id, q);
    var keep := DefaultProvider(r);
    TiersKeepEntries(d.routing.tiers, id, keep);
    if q == keep {
      if RoutesHold(r, q) { RoutesTransfer(d, r, q); }
      if RoutesHold(d, q) { RoutesTransfer(r, d, q); }
    } else {
      forall i | 0 <= i < |r.routing.tiers| ensures r.routing.tiers[i].1.provider != q {
        assert r.routing.tiers[i] in r.routing.tiers;
      }
    }
  }

  /** The provider that becomes the default when the current default is deleted. */
  function Successor(d: Document, id: string): Option<string> {
    if DefaultProvider(d) != id then None
    else
      var s := FirstSelection(Remove(d.providers, id));
      if s.Some? then Some(s.value.provider) else None
  }

  /**
    Deleting a provider keeps the resolver satisfied exactly when the routes of
    the provider that takes over as default are in order: as long as that
    provider was inactive nothing had checked them.
   */
  lemma {:induction false} DeleteProviderAcceptedIff(host: Host, d: Document, id: string, provided: Option<seq<string>>)
    requires Accepts(host, d) && DeleteProvider(d, id, provided).Success?
    ensures Accepts(host, DeleteProvider(d, id, provided).value.document)
            <==> (Successor(d, id).Some? ==> RoutesHold(d, Successor(d, id).value))
  {
    AcceptsIff(host, d);
    var r := DeleteProvider(d, id, provided).value.document;
    DeletionMeaning(d, id, provided);
    AcceptsIff(host, r);
    assert Has(d.providers, id) && id != "" by {
      assert d.providers[KeyIndex(d.providers, id)].0 == id;
    }
    if DefaultProvider(d) != id {
      assert DefaultProvider(r) == DefaultProvider(d);
    } else if Successor(d, id).None? {
      assert DefaultProvider(r) == "";
      NoRoutesToNobody(d);
    }
  }

  lemma {:induction false} NoRoutesToNobody(d: Document)
    requires ValidDocument(d)
    ensures RoutesHold(d, "")
  {
  }

  lemma {:induction false} DeleteProviderKeepsClosed(d: Document, id: string, provided: Option<seq<string>>)
    requires Closed(d) && DeleteProvider(d, id, provided).Success?
    ensures Closed(DeleteProvider(d, id, provided).value.document)
  {
    DeletionMeaning(d, id, provided);
  }

  function PlainModel(id: string): Model {
    Model(id, [], None, false, [], false)
  }

  function PlainProvider(model: string): Provider {
    Provider("openai-chat", "https://host", Ambient, [PlainModel(model)], NO_AGENTS, Reliability(None, None, None, None))
  }

  /** A stale route of an inactive provider, and the deletion that activates it. */
  const STALE: Document :=
    Document(
      [("a", PlainProvider("m")), ("b", PlainProvider("n"))],
      Some(Ref("a", "m", None)),
      Routing([("fast", Ref("b", "gone", None))], None, None))

  lemma {:induction false} StaleIsValid()
    ensures ValidDocument(STALE)
  {
  }

  lemma {:induction false} StaleHolds()
    ensures LocalsHold(STALE) && SelectionHolds(STALE) && RoutesHold(STALE, "a")
  {
    assert KeyIndex(STALE.providers, "a") == 0;
    assert Declares(PlainProvider("m").models, "m");
    assert RefHolds(STALE, Ref("a", "m", None), false);
  }

  lemma {:induction false} StaleIsAccepted(host: Host)
    ensures Accepts(host, STALE)
  {
    StaleIsValid();
    StaleHolds();
    AcceptsIff(host, STALE);
  }

  /** Where the stale route leads once its provider has taken over. */
  lemma {:induction false} StaleRouteDangles()
    ensures Has(STALE.providers, "a") && Successor(STALE, "a") == Some("b") && !RoutesHold(STALE, "b")
  {
    var b := PlainProvider("n");
    assert KeyIndex(STALE.providers, "a") == 0 && KeyIndex(STALE.providers, "b") == 1;
    assert Remove(STALE.providers, "a") == [("b", b)];
    assert FirstSelection([("b", b)]) == Some(Ref("b", "n", None));
    assert !Declares(b.models, "gone");
    assert !RefHolds(STALE, STALE.routing.tiers[0].1, true);
  }

  lemma {:induction false} DeletionCanBreakAcceptance(host: Host)
    ensures Accepts(host, STALE)
    ensures DeleteProvider(STALE, "a", None).Success?
    ensures !Accepts(host, DeleteProvider(STALE, "a", None).value.document)
  {
    StaleIsAccepted(host);
    StaleRouteDangles();
    DeleteProviderAcceptedIff(host, STALE, "a", None);
  }

  // ----- Deleting a model -----

  /** Deletion of a model that leaves no selectable one deletes the provider. */
  predicate FallsBackToProvider(host: Host, d: Document, id: string, modelId: string) {
    && Has(d.providers, id)
    && var models := Get(d.providers, id).models;
       var index := CreateIndex(host, Ids(models));
       && index.Success?
       && var rest := WithoutModel(models, Canonical(host, index.value, modelId));
          |rest| != |models| && SelectableIndex(rest) == |rest|
  }

  /** The models left after a deletion are prepared for the routing step. */
  lemma {:induction false} RemainingModels(host: Host, d: Document, id: string, target: string, index: Index)
    requires ValidDocument(d) && Has(d.providers, id)
    requires var models := WithoutModel(Get(d.providers, id).models, target);
             CreateIndex(host, Ids(models)) == Success(index) && SelectableIndex(models) < |models|
    ensures var models := WithoutModel(Get(d.providers, id).models, target);
            var fallback := models[SelectableIndex(models)].id;
            var migrated := MigrateModels(models, target, fallback);
            fallback != "" && Prepared(host, index, migrated) && migrated[SelectableIndex(models)] in migrated
  {
    var was := Get(d.providers, id).models;
    ValidProviderShaped(Get(d.providers, id));
    var models := WithoutModel(was, target);
    WithoutModelMembers(was, target);
    WithoutModelUnique(was, target);
    var s := SelectableIndex(models);
    assert models[s] in models;
    assert Ids(models) + [] == Ids(models);
    IndexKnowsModels(host, models, []);
    MigrateModelsMeaning(models, target, models[s].id);
    assert MigrateModels(models, target, models[s].id)[s] in MigrateModels(models, target, models[s].id);
  }

  lemma {:induction false} DeleteModelSettles(host: Host, d: Document, id: string, modelId: string, protectedIds: seq<string>, provided: Option<seq<string>>)
    returns (p: Provider)
    requires ValidDocument(d)
    requires DeleteModel(host, d, id, modelId, protectedIds, provided).Success? && !FallsBackToProvider(host, d, id, modelId)
    ensures SettledOver(d, DeleteModel(host, d, id, modelId, protectedIds, provided).value.document, id, p)
  {
    var was := Get(d.providers, id);
    assert ValidProvider(was) && id != "" by { assert d.providers[KeyIndex(d.providers, id)].0 == id; }
    var target := Canonical(host, CreateIndex(host, Ids(was.models)).value, modelId);
    var models := WithoutModel(was.models, target);
    var s := SelectableIndex(models);
    var fallback := models[s].id;
    var index := CreateIndex(host, Ids(models)).value;
    RemainingModels(host, d, id, target, index);
    var routing := MigrateRouting(d.routing, id, target, fallback, true);
    MigrateCarried(d.routing, id, target, fallback, true);
    var migrated := MigrateModels(models, target, fallback);
    var agents := MigrateAgents(was.agents, target, fallback, true);
    var e := EnsureRouting(host, routing, id, migrated, agents, index, [], protectedIds).value;
    EnsureRoutingSettles(host, routing, id, migrated, agents, index, [], protectedIds);
    p := was.(models := e.models, agents := e.agents);
    EnsuredProvider(migrated, migrated[s].(tiers := CanonicalTiers(host, index, migrated[s].tiers)), p, e, id);
    CanonicalCarried(host, index, routing, id);
    CarriedTransitive(d.routing, routing, e.routing, id);
    DeletionSettled(d, id, p, target, fallback, e.routing);
  }

  lemma {:induction false} DeletionSettled(d: Document, id: string, p: Provider, target: string, fallback: string, routing: Routing)
    requires ValidDocument(d) && id != "" && GoodProvider(p) && ValidRouting(routing) && fallback != ""
    requires Carried(d.routing, routing, id)
    requires forall e | e in routing.tiers && e.1.provider == id :: Declares(p.models, e.1.model)
    requires routing.vision.Some? && routing.vision.value.model.Some? && routing.vision.value.model.value.provider == id ==>
               Declares(p.models, routing.vision.value.model.value.model)
    ensures SettledOver(d, Settle(d, id, p, MigrateSelection(d.selection, id, target, fallback), routing), id, p)
  {
    SettleCloses(d, id, p, MigrateSelection(d.selection, id, target, fallback), routing);
  }

  /**
    Deleting a model keeps the resolver satisfied, and every reference to its
    provider with a declared effort or none, except when it has to delete the
    whole provider; then the condition on the successor applies.
   */
  lemma {:induction false} DeleteModelAcceptedIff(host: Host, d: Document, id: string, modelId: string, protectedIds: seq<string>, provided: Option<seq<string>>)
    requires Accepts(host, d) && DeleteModel(host, d, id, modelId, protectedIds, provided).Success?
    ensures Accepts(host, DeleteModel(host, d, id, modelId, protectedIds, provided).value.document)
            <==> (FallsBackToProvider(host, d, id, modelId) && Successor(d, id).Some? ==> RoutesHold(d, Successor(d, id).value))
    ensures !FallsBackToProvider(host, d, id, modelId) ==>
              var r := DeleteModel(host, d, id, modelId, protectedIds, provided).value.document;
              Has(r.providers, id) && TouchedEffortsDeclared(r, id, Get(r.providers, id).models)
  {
    AcceptsIff(host, d);
    if FallsBackToProvider(host, d, id, modelId) {
      DeleteProviderAcceptedIff(host, d, id, provided);
    } else {
      var _ := DeleteModelSettles(host, d, id, modelId, protectedIds, provided);
      AcceptsIff(host, DeleteModel(host, d, id, modelId, protectedIds, provided).value.document);
    }
  }

  lemma {:induction false} DeleteModelKeepsClosed(host: Host, d: Document, id: string, modelId: string, protectedIds: seq<string>, provided: Option<seq<string>>)
    requires Closed(d) && DeleteModel(host, d, id, modelId, protectedIds, provided).Success?
    ensures Closed(DeleteModel(host, d, id, modelId, protectedIds, provided).value.document)
  {
    if FallsBackToProvider(host, d, id, modelId) {
      DeleteProviderKeepsClosed(d, id, provided);
    } else {
      var _ := DeleteModelSettles(host, d, id, modelId, protectedIds, provided);
    }
  }
}
