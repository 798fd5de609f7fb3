/**
  upsertProviderModel, deleteProviderModel and deleteProvider as the source
  runs them: catalogs are checked in loops, references counted, a cloned
  document edited in place. Each is proved to return exactly the edit that the
  closure and credential theorems are about.
 */
module SaveModel {
  import opened Basics
  import opened ConfigDocument
  import opened Resolver
  import opened ModelMutations
  import opened MutationFacts
  import opened ConfigEdits
  import opened EditTheorems
  import opened MutateDocument
  import opened DraftRoutes

  // ----- Catalogs -----

  method NormalizeCatalogModelIds(host: Host, ids: seq<string>, limit: nat, invalid: MutationError)
    returns (r: Result<seq<string>, MutationError>)
    ensures r == NormalizeIds(host, ids, limit, invalid)
  {
    if |ids| > limit {
      return Failure(invalid);
    }
    var unique: seq<string> := [];
    for i := 0 to |ids|
      invariant unique == AddAllUnique([], ids[..i])
      invariant forall j | 0 <= j < i :: ValidModelIdentifier(ids[j])
    {
      assert ids[..i + 1][..i] == ids[..i];
      if !ValidModelIdentifier(ids[i]) {
        return Failure(invalid);
      }
      if ids[i] !in unique {
        unique := unique + [ids[i]];
      }
    }
    assert ids[..|ids|] == ids;
    var index := CreateCanonicalModelIndex(host, unique);
    return if index.Failure? then Failure(index.error) else Success(unique);
  }

  lemma {:induction false} EntriesFailureStays(host: Host, ids: seq<string>, models: seq<CatalogModel>, n: nat)
    requires n <= |models| && CatalogEntries(host, ids, models[..n]) == Failure(InvalidCatalog)
    ensures CatalogEntries(host, ids, models) == Failure(InvalidCatalog)
  {
    if n < |models| {
      var init := models[..|models| - 1];
      assert init[..n] == models[..n];
      EntriesFailureStays(host, ids, init, n);
    } else {
      assert models[..n] == models;
    }
  }

  /** Catalog ids under their lower-cased form, as the source's Map holds them. */
  method FoldCatalogIds(host: Host, ids: seq<string>) returns (r: map<string, string>)
    ensures forall id :: FoldedId(host, ids, id) == if host.lower(id) in r then Some(r[host.lower(id)]) else None
  {
    r := map[];
    for i := 0 to |ids|
      invariant forall id :: FoldedId(host, ids[..i], id) == if host.lower(id) in r then Some(r[host.lower(id)]) else None
    {
      assert ids[..i + 1][..i] == ids[..i];
      r := r[host.lower(ids[i]) := ids[i]];
    }
    assert ids[..|ids|] == ids;
  }

  method NormalizeCatalogModels(host: Host, ids: seq<string>, models: seq<CatalogModel>)
    returns (r: Result<seq<CatalogModel>, MutationError>)
    ensures r == NormalizeCatalog(host, ids, models)
  {
    if |models| > 2048 {
      return Failure(InvalidCatalog);
    }
    var canonicalByFold := FoldCatalogIds(host, ids);
    var kept: seq<CatalogModel> := [];
    for i := 0 to |models|
      invariant CatalogEntries(host, ids, models[..i]) == Success(kept)
    {
      assert models[..i + 1][..i] == models[..i];
      var m := models[i];
      assert FoldedId(host, ids, m.id) == if host.lower(m.id) in canonicalByFold then Some(canonicalByFold[host.lower(m.id)]) else None;
      if host.lower(m.id) !in canonicalByFold || !ValidModelIdentifier(m.id) {
        EntriesFailureStays(host, ids, models, i + 1);
        return Failure(InvalidCatalog);
      }
      var id := canonicalByFold[host.lower(m.id)];
      if CatalogIndex(kept, id) < |kept| {
        continue;
      }
      var default := if m.defaultEffort.Some? then DefaultIn(m.efforts, m.defaultEffort.value) else None;
      kept := kept + [CatalogModel(id, m.efforts, default, m.image)];
    }
    assert models[..|models|] == models;
    return Success(kept);
  }

  method RetainCatalogAgentModelTiers(host: Host, idx: Index, allowed: seq<string>, tiers: Tiers) returns (r: Tiers)
    ensures r == RetainLocalTiers(host, idx, allowed, tiers)
  {
    r := [];
    for i := 0 to |tiers|
      invariant r == RetainLocalTiers(host, idx, allowed, tiers[..i])
    {
      assert tiers[..i + 1][..i] == tiers[..i];
      var id := Canonical(host, idx, tiers[i].1);
      if id in allowed {
        r := r + [(tiers[i].0, id)];
      }
    }
    assert tiers[..|tiers|] == tiers;
  }

  method RetainConfirmedModels(host: Host, idx: Index, catalogIds: seq<string>, models: seq<Model>, next: string, previous: string)
    returns (r: seq<Model>)
    ensures r == RetainModels(host, idx, catalogIds, models, next, previous)
  {
    r := [];
    for i := 0 to |models|
      invariant r == RetainModels(host, idx, catalogIds, models[..i], next, previous)
    {
      assert models[..i + 1][..i] == models[..i];
      var m := models[i];
      if !m.routingOnly && m.id in catalogIds && (m.id == next || m.id != previous) {
        var tiers := RetainCatalogAgentModelTiers(host, idx, catalogIds, m.tiers);
        r := r + [m.(tiers := tiers)];
      }
    }
    assert models[..|models|] == models;
  }

  method RemoveModel(models: seq<Model>, id: string) returns (r: seq<Model>)
    ensures r == WithoutModel(models, id)
  {
    r := [];
    for i := 0 to |models|
      invariant r == WithoutModel(models[..i], id)
    {
      assert models[..i + 1][..i] == models[..i];
      if models[i].id != id {
        r := r + [models[i]];
      }
    }
    assert models[..|models|] == models;
  }

  // ----- Credentials -----

  /** The counts are the multiset of references in use. */
  ghost predicate CountsOf(counts: map<string, nat>, used: seq<string>) {
    && (forall ref | ref in counts :: ref != "" && counts[ref] == multiset(used)[ref] > 0)
    && (forall ref | ref in used :: ref != "" ==> ref in counts)
  }

  lemma {:induction false} CountOneMore(counts: map<string, nat>, used: seq<string>, ref: string)
    requires CountsOf(counts, used)
    ensures ref == "" ==> CountsOf(counts, used + [ref])
    ensures ref != "" ==> CountsOf(counts[ref := (if ref in counts then counts[ref] else 0) + 1], used + [ref])
  {
    assert multiset(used + [ref]) == multiset(used) + multiset{ref};
  }

  /** References of the caller's snapshot, or of this document's own providers. */
  method CredentialReferences(d: Dict<Provider>, provided: Option<seq<string>>) returns (used: seq<string>)
    ensures used == if provided.Some? then provided.value else DocumentReferences(d)
  {
    if provided.Some? {
      return provided.value;
    }
    used := [];
    for i := 0 to |d|
      invariant used == DocumentReferences(d[..i])
    {
      assert d[..i + 1][..i] == d[..i];
      if d[i].1.auth.Credential? {
        used := used + [d[i].1.auth.ref];
      } else {
        assert used + [] == used;
      }
    }
    assert d[..|d|] == d;
  }

  method CredentialReferenceCounts(d: Dict<Provider>, provided: Option<seq<string>>) returns (counts: map<string, nat>)
    ensures CountsOf(counts, if provided.Some? then provided.value else DocumentReferences(d))
  {
    var references := CredentialReferences(d, provided);
    counts := map[];
    for i := 0 to |references|
      invariant CountsOf(counts, references[..i])
    {
      assert references[..i + 1] == references[..i] + [references[i]];
      var ref := references[i];
      CountOneMore(counts, references[..i], ref);
      if ref != "" {
        counts := counts[ref := (if ref in counts then counts[ref] else 0) + 1];
      }
    }
    assert references[..|references|] == references;
  }

  function OtherCount(counts: map<string, nat>, ref: string, current: string): nat {
    var n := if ref in counts then counts[ref] else 0;
    if current == ref && n > 0 then n - 1 else n
  }

  lemma {:induction false} CountsAgree(counts: map<string, nat>, used: seq<string>, ref: string, current: string)
    requires CountsOf(counts, used)
    ensures OtherCount(counts, ref, current) == OtherUses(used, ref, current)
    ensures ref != "" ==> (ref in counts <==> ref in used)
  {
  }

  /** The first drawn reference with no count. */
  method IndependentCredentialReference(host: Host, provider: string, counts: map<string, nat>, ghost used: seq<string>, suffixes: seq<string>)
    returns (r: Option<string>)
    requires CountsOf(counts, used)
    ensures r == FreshRef(host, provider, used, suffixes)
  {
    var base := CredentialRefFor(host, provider);
    for attempt := 0 to |suffixes|
      invariant FreshRef(host, provider, used, suffixes[attempt..]) == FreshRef(host, provider, used, suffixes)
    {
      var candidate := base + "_" + suffixes[attempt];
      assert suffixes[attempt..][0] == suffixes[attempt] && suffixes[attempt..][1..] == suffixes[attempt + 1..];
      CountsAgree(counts, used, candidate, "");
      if candidate !in counts {
        return Some(candidate);
      }
    }
    return None;
  }

  /** The provider's new authentication and what its secret store must do. */
  method MutateCredential(host: Host, counts: map<string, nat>, ghost used: seq<string>, plan: Plan, input: UpsertInput, suffixes: seq<string>)
    returns (r: Result<(Auth, CredentialEffect), MutationError>)
    requires CountsOf(counts, used)
    ensures r == CredentialStep(host, used, plan, input, suffixes)
  {
    var auth := AuthOf(plan.existing);
    var own := OwnRef(auth);
    var preferred := CredentialRefFor(host, plan.provider);
    CountsAgree(counts, used, own, own);
    CountsAgree(counts, used, preferred, own);
    var action := EffectiveAction(plan, input.credentialAction);
    if action == Replace {
      var ref := Some(preferred);
      if own != "" || preferred in counts {
        ref := IndependentCredentialReference(host, plan.provider, counts, used, suffixes);
        if ref.None? {
          return Failure(CredentialRefCollision);
        }
      }
      var cleanup := if own != "" && OtherCount(counts, own, own) == 0 && own != ref.value then Some(own) else None;
      return Success((Credential(ref.value), SetSecret(ref.value, input.apiKey, cleanup)));
    }
    if action == Clear {
      var ref := if own != "" then own else preferred;
      if (own != "" || input.credentialAction == Clear) && OtherCount(counts, ref, own) == 0 {
        return Success((NoAuth, ClearSecret(ref)));
      }
      return Success((NoAuth, NoEffect));
    }
    return Success((auth, NoEffect));
  }

  // ----- Saving a model -----

  /** Some other model than the previous one has the id in another case. */
  method FindCaseTwin(host: Host, models: seq<Model>, id: string, previous: string) returns (found: bool)
    ensures found == CaseTwin(host, models, id, previous)
  {
    for i := 0 to |models|
      invariant forall j | 0 <= j < i ::
                  !(host.lower(models[j].id) == host.lower(id) && models[j].id != previous && models[j].id != id)
    {
      if host.lower(models[i].id) == host.lower(id) && models[i].id != previous && models[i].id != id {
        return true;
      }
    }
    return false;
  }

  method TargetOf(host: Host, models: seq<Model>, replacing: bool, catalogIds: seq<string>, input: UpsertInput) returns (r: Result<Target, MutationError>)
    ensures r == ChooseTarget(host, models, replacing, catalogIds, input)
  {
    var existingIndex :- CreateCanonicalModelIndex(host, Ids(models));
    var previous := Canonical(host, existingIndex, input.previousModelId);
    if input.previousModelId != "" && !Declares(models, previous) {
      return Failure(ModelNotFound);
    }
    var evidence :- CreateCanonicalModelIndex(host, (if replacing then [] else Ids(models)) + catalogIds);
    var id := Canonical(host, evidence, input.model.id);
    if id == "" {
      return Failure(InvalidModelId);
    }
    var collides := FindCaseTwin(host, models, id, previous);
    if !replacing && collides {
      return Failure(CaseCollision);
    }
    if !replacing && previous != "" && previous != id && Declares(models, id) {
      return Failure(RenameConflict);
    }
    return Success(Target(previous, id, evidence));
  }

  /** The saved model and agent input; a changed endpoint keeps only ids its catalog confirms. */
  method PlanFor(
    host: Host, provider: string, existing: Option<Provider>, endpointChanged: bool, target: Target,
    retained: seq<Model>, allowed: seq<string>, index: Index, catalog: seq<CatalogModel>, input: UpsertInput) returns (plan: Plan)
    ensures plan == BuildPlan(host, provider, existing, endpointChanged, target, retained, allowed, index, catalog, input)
  {
    var form := input.model;
    var tiers, agentTiers, vision := FormTiers(form), form.tiers, input.visionModel;
    if endpointChanged {
      tiers := RetainCatalogAgentModelTiers(host, index, allowed, FormTiers(form));
      if form.tiers.Some? {
        agentTiers := if tiers == [] then None else Some(tiers);
      }
      vision := Canonical(host, index, input.visionModel);
      if vision !in allowed {
        vision := "";
      }
    }
    return Plan(
      provider, existing, endpointChanged, existing.None? || input.replaceModels || endpointChanged, target.previous,
      Model(target.id, form.efforts, DefaultIn(form.efforts, form.defaultEffort), form.image, tiers, false),
      retained, index, catalog, agentTiers, vision);
  }

  method PlanSave(host: Host, d: Document, input: UpsertInput, draw: Draw) returns (r: Result<Plan, MutationError>)
    ensures r == PlanUpsert(host, d, input, draw)
  {
    var provider := if input.profileId != "" then input.profileId else "provider-" + draw.providerId;
    var existing := if Has(d.providers, provider) then Some(Get(d.providers, provider)) else None;
    if input.profileId != "" && existing.None? {
      return Failure(ProviderNotFound);
    }
    var models := if existing.Some? then existing.value.models else [];
    var endpointChanged := EndpointChanged(existing, input.protocol, input.baseURL);
    var replacing := existing.None? || input.replaceModels || endpointChanged;
    var catalogIds :- NormalizeCatalogModelIds(host, input.catalogIds, 2048, InvalidCatalog);
    var catalog :- NormalizeCatalogModels(host, catalogIds, input.catalogModels);
    var manualIds :- NormalizeCatalogModelIds(host, input.manualIds, 4, InvalidManualIds);
    var target :- TargetOf(host, models, replacing, catalogIds, input);
    var retained: seq<Model> := [];
    if endpointChanged && !input.replaceModels {
      retained := RetainConfirmedModels(host, target.evidence, catalogIds, models, target.id, target.previous);
    }
    var allowed := catalogIds + manualIds + [target.id];
    var index :- CreateCanonicalModelIndex(host, Ids(if replacing then retained else models) + allowed);
    var plan := PlanFor(host, provider, existing, endpointChanged, target, retained, allowed, index, catalog, input);
    return Success(plan);
  }

  method UpdateProviderAgents(agents: Agents, plan: Plan, input: UpsertInput) returns (r: Agents)
    ensures r == UpdateAgents(agents, plan, input)
  {
    r := agents;
    if input.tiersProvided && plan.agentTiers.Some? {
      r := r.(tiers := plan.agentTiers.value);
    }
    if input.visionProvided {
      r := r.(vision := Some(LocalVision(
        plan.agentVision != "",
        if plan.agentVision == "" then None else Some(plan.agentVision),
        agents.vision.Some? ==> agents.vision.value.autoUse)));
    } else if input.model.image
              && !(agents.vision.Some? && agents.vision.value.model.Some? && agents.vision.value.model.value != "") {
      r := r.(vision := Some(LocalVision(true, Some(plan.model.id), true)));
    }
  }

  /** Repoints every reference to a replaced or renamed model, in the draft and in the provider's own copy. */
  method MoveInPlace(draft: ConfigDraft, plan: Plan) returns (models: seq<Model>, agents: Agents)
    modifies draft`routing, draft`selection
    ensures var moved := MoveReferences(old(draft.Contents()), plan);
            models == moved.models && agents == moved.agents && draft.routing == moved.routing && draft.selection == moved.selection
  {
    var next := plan.model;
    agents := KeptAgents(plan);
    models := if plan.replacing then plan.retained else if plan.existing.Some? then plan.existing.value.models else [];
    if plan.replacing {
      var others := RemoveModel(models, next.id);
      var available := others + [next];
      draft.ReplaceQualifiedProviderReferences(plan.provider, available, next);
      draft.ReplaceDefaultProviderSelection(plan.provider, available, next);
    } else if plan.previous != "" && plan.previous != next.id {
      models := MigrateLocalModelReferences(models, plan.previous, next.id);
      agents := MigrateLocalAgentReferences(agents, plan.previous, next.id, false);
      draft.MigrateQualifiedModelReferences(plan.provider, plan.previous, next.id, false);
      draft.MigrateDefaultModelReference(plan.provider, plan.previous, next.id);
      models := RemoveModel(models, plan.previous);
    }
  }

  lemma {:induction false} PreparedKnown(host: Host, idx: Index, models: seq<Model>)
    requires Prepared(host, idx, models)
    ensures KnownIds(host, idx, models)
  {
    forall i | 0 <= i < |models| ensures Canonical(host, idx, models[i].id) == models[i].id {
      assert models[i] in models;
    }
  }

  lemma {:induction false} MovedKnown(host: Host, d: Document, plan: Plan)
    requires ValidDocument(d) && PlanSound(host, d, plan)
    ensures KnownIds(host, plan.index, PutModel(MoveReferences(d, plan).models, plan.model))
  {
    MovedModels(host, d, plan);
    PreparedKnown(host, plan.index, PutModel(MoveReferences(d, plan).models, plan.model));
  }

  /** Both edits end alike: models and routes are normalized, and references to the stored provider are reconciled. */
  method StoreProvider(
    draft: ConfigDraft, ghost d: Document, host: Host, provider: string, base: Provider,
    idx: Index, catalog: seq<CatalogModel>, protectedIds: seq<string>) returns (failure: Option<MutationError>)
    requires draft.providers == d.providers && KnownIds(host, idx, base.models)
    modifies draft
    ensures var e := EnsureRouting(host, old(draft.routing), provider, base.models, base.agents, idx, catalog, protectedIds);
            && (e.Failure? ==> failure == Some(e.error))
            && (e.Success? ==>
                  && failure == None
                  && draft.Contents() == Settle(d, provider, base.(models := e.value.models, agents := e.value.agents),
                                                old(draft.selection), e.value.routing))
  {
    var ensured := draft.EnsureProviderRoutingModels(host, provider, base.models, base.agents, idx, catalog, protectedIds);
    if ensured.Failure? {
      return Some(ensured.error);
    }
    var models := ensured.value.0;
    draft.providers := Put(draft.providers, provider, base.(models := models, agents := ensured.value.1));
    draft.ReconcileDefaultSelectionReasoning(provider, models);
    draft.ReconcileQualifiedRoutingReasoning(provider, models);
    return None;
  }

  /** Carries out a plan on a draft of the document. */
  method ApplyPlan(host: Host, d: Document, plan: Plan, input: UpsertInput, suffixes: seq<string>) returns (r: Result<Edited, MutationError>)
    requires KnownIds(host, plan.index, PutModel(MoveReferences(d, plan).models, plan.model))
    ensures r == ApplyUpsert(host, d, plan, input, suffixes)
  {
    var draft := new ConfigDraft(d);
    var models, agents := MoveInPlace(draft, plan);
    models := PutModel(models, plan.model);

    var counts := CredentialReferenceCounts(draft.providers, input.credentialReferences);
    var credential :- MutateCredential(
      host, counts, UsedReferences(d, input.credentialReferences), plan, input, suffixes);

    agents := UpdateProviderAgents(agents, plan, input);
    var failure := StoreProvider(
      draft, d, host, plan.provider,
      Provider(
        ProtocolOf(input.protocol), input.baseURL, credential.0, models, agents,
        if plan.existing.Some? then plan.existing.value.reliability else Reliability(None, None, None, None)),
      plan.index, plan.catalog, if plan.replacing then [] else input.protectedIds);
    if failure.Some? {
      return Failure(failure.value);
    }
    if input.switchToModel {
      draft.selection := Some(Ref(plan.provider, plan.model.id, plan.model.defaultEffort));
      draft.RetainQualifiedAgentRoutesForProvider(plan.provider);
    }
    return Success(Edited(draft.Contents(), plan.provider, credential.1));
  }

  method UpsertProviderModel(host: Host, d: Document, input: UpsertInput, draw: Draw) returns (r: Result<Edited, MutationError>)
    requires ValidDocument(d)
    ensures r == Upsert(host, d, input, draw)
  {
    var plan :- PlanSave(host, d, input, draw);
    PlanIsSound(host, d, input, draw);
    MovedKnown(host, d, plan);
    r := ApplyPlan(host, d, plan, input, draw.suffixes);
  }

  // ----- Deletion -----

  /** The first provider, in table order, that has a selectable model. */
  method FirstProviderSelection(d: Dict<Provider>) returns (r: Option<Ref>)
    ensures r == FirstSelection(d)
  {
    for i := 0 to |d|
      invariant FirstSelection(d[i..]) == FirstSelection(d)
    {
      assert d[i..][0] == d[i] && d[i..][1..] == d[i + 1..];
      var at := SelectableIndex(d[i].1.models);
      if at < |d[i].1.models| {
        return Some(Ref(d[i].0, d[i].1.models[at].id, None));
      }
    }
    return None;
  }

  method RemoveProvider(d: Document, id: string, provided: Option<seq<string>>) returns (r: Result<Edited, MutationError>)
    ensures r == DeleteProvider(d, id, provided)
  {
    if !Has(d.providers, id) {
      return Failure(ProviderNotFound);
    }
    var draft := new ConfigDraft(d);
    var auth := Get(d.providers, id).auth;
    var counts := CredentialReferenceCounts(draft.providers, provided);
    draft.providers := Remove(draft.providers, id);
    if draft.selection.Some? && draft.selection.value.provider == id {
      var replacement := FirstProviderSelection(draft.providers);
      draft.selection := replacement;
    }
    draft.RemoveProviderFromRouting(id);
    draft.RetainQualifiedAgentRoutesForProvider(if draft.selection.Some? then draft.selection.value.provider else "");
    CountsAgree(counts, UsedReferences(d, provided), OwnRef(auth), OwnRef(auth));
    var unused := auth.Credential? && auth.ref != "" && OtherCount(counts, auth.ref, auth.ref) == 0;
    return Success(Edited(draft.Contents(), id, if unused then ClearSecret(auth.ref) else NoEffect));
  }

  lemma {:induction false} RemainingKnown(host: Host, d: Document, id: string, target: string, index: Index)
    requires ValidDocument(d) && Has(d.providers, id)
    requires var models := WithoutModel(Get(d.providers, id).models, target);
             SelectableIndex(models) < |models| && CreateIndex(host, Ids(models)) == Success(index)
    ensures var models := WithoutModel(Get(d.providers, id).models, target);
            KnownIds(host, index, MigrateModels(models, target, models[SelectableIndex(models)].id))
  {
    RemainingModels(host, d, id, target, index);
    var models := WithoutModel(Get(d.providers, id).models, target);
    PreparedKnown(host, index, MigrateModels(models, target, models[SelectableIndex(models)].id));
  }

  /** Repoints the draft and a provider from one model to another. */
  method RepointDraft(draft: ConfigDraft, id: string, p: Provider, target: string, fallback: string) returns (q: Provider)
    modifies draft
    ensures q == p.(models := MigrateModels(p.models, target, fallback), agents := MigrateAgents(p.agents, target, fallback, true))
    ensures draft.providers == old(draft.providers)
    ensures draft.routing == MigrateRouting(old(draft.routing), id, target, fallback, true)
    ensures draft.selection == MigrateSelection(old(draft.selection), id, target, fallback)
  {
    var models := MigrateLocalModelReferences(p.models, target, fallback);
    var agents := MigrateLocalAgentReferences(p.agents, target, fallback, true);
    draft.MigrateQualifiedModelReferences(id, target, fallback, true);
    draft.MigrateDefaultModelReference(id, target, fallback);
    return p.(models := models, agents := agents);
  }

  /** Repoints every reference to the deleted model, then settles its provider. */
  method DeleteModelInPlace(host: Host, d: Document, id: string, target: string, protectedIds: seq<string>)
    returns (r: Result<Edited, MutationError>)
    requires ValidDocument(d) && Has(d.providers, id)
    requires var models := WithoutModel(Get(d.providers, id).models, target); SelectableIndex(models) < |models|
    ensures r == WithModelDeleted(host, d, id, target, protectedIds)
  {
    var draft := new ConfigDraft(d);
    var p := Get(d.providers, id);
    var models := RemoveModel(p.models, target);
    var fallback := models[SelectableIndex(models)].id;
    var index :- CreateCanonicalModelIndex(host, Ids(models));
    RemainingKnown(host, d, id, target, index);
    var base := RepointDraft(draft, id, p.(models := models), target, fallback);
    var failure := StoreProvider(draft, d, host, id, base, index, [], protectedIds);
    if failure.Some? {
      return Failure(failure.value);
    }
    return Success(Edited(draft.Contents(), id, NoEffect));
  }

  method DeleteProviderModel(host: Host, d: Document, id: string, modelId: string, protectedIds: seq<string>, provided: Option<seq<string>>)
    returns (r: Result<Edited, MutationError>)
    requires ValidDocument(d)
    ensures r == DeleteModel(host, d, id, modelId, protectedIds, provided)
  {
    if !Has(d.providers, id) {
      return Failure(ProviderNotFound);
    }
    var p := Get(d.providers, id);
    var existingIndex :- CreateCanonicalModelIndex(host, Ids(p.models));
    var target := Canonical(host, existingIndex, modelId);
    var models := RemoveModel(p.models, target);
    if |models| == |p.models| {
      return Failure(ModelNotFound);
    }
    if SelectableIndex(models) == |models| {
      r := RemoveProvider(d, id, provided);
    } else {
      r := DeleteModelInPlace(host, d, id, target, protectedIds);
    }
  }
}
