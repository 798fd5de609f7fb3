/** The V1 import and the stripping as the source performs them, in loops that fill and delete fields. */
module MigrateDocument {
  import opened Basics
  import opened JsonValues
  import opened ConfigDocument
  import opened ModelMutations
  import opened LegacyImport
  import opened ImportFacts

  // ----- Profiles -----

  lemma {:induction false} ConfiguredFailureStays(p: Platform, items: seq<Json>, lab: Dict<Json>, n: nat, e: ImportError)
    requires n <= |items| && ConfiguredProfiles(p, items[..n], lab) == Failure(e)
    ensures ConfiguredProfiles(p, items, lab) == Failure(e)
  {
    if n < |items| {
      var init := items[..|items| - 1];
      assert init[..n] == items[..n];
      ConfiguredFailureStays(p, init, lab, n, e);
    } else {
      assert items[..n] == items;
    }
  }

  method ConfiguredLegacyProfiles(p: Platform, configured: seq<Json>, lab: Dict<Json>) returns (r: Result<seq<Profile>, ImportError>)
    ensures r == ConfiguredProfiles(p, configured, lab)
  {
    var profiles: seq<Profile> := [];
    for i := 0 to |configured|
      invariant ConfiguredProfiles(p, configured[..i], lab) == Success(profiles)
    {
      assert configured[..i + 1][..i] == configured[..i];
      var profile := ImportRawProfile(p, Fields(Some(configured[i])), lab);
      if profile.Failure? {
        ConfiguredFailureStays(p, configured, lab, i + 1, profile.error);
        return Failure(profile.error);
      }
      if profile.value.None? {
        continue;
      }
      if ProfileIndex(profiles, profile.value.value.id) < |profiles| {
        ConfiguredFailureStays(p, configured, lab, i + 1, DuplicateProviderId);
        return Failure(DuplicateProviderId);
      }
      profiles := profiles + [profile.value.value];
    }
    assert configured[..|configured|] == configured;
    return Success(profiles);
  }

  method LegacyProfilesFromDocument(p: Platform, source: Dict<Json>) returns (r: Result<seq<Profile>, ImportError>)
    ensures r == Profiles(p, source)
  {
    var lab := Fields(Field(source, "lab"));
    var profiles :- ConfiguredLegacyProfiles(p, Items(Field(lab, "gatewayProfiles")), lab);
    if Text(p, Field(lab, "gatewayUrl")) == "" {
      return Success(profiles);
    }
    var top :- TopProfile(p, source, lab, profiles);
    var at := ProfileIndex(profiles, top.id);
    if at < |profiles| {
      profiles := profiles[at := MergeProfile(p, profiles[at], top, lab)];
    } else {
      profiles := profiles + [top];
    }
    return Success(profiles);
  }

  // ----- Routing-only models -----

  lemma {:induction false} NonEmptyStep(routed: seq<string>, values: seq<string>, i: nat)
    requires i < |values|
    ensures var before := AddAllUnique(routed, NonEmpty(values[..i]));
            AddAllUnique(routed, NonEmpty(values[..i + 1])) == if values[i] == "" then before else AddUnique(before, values[i])
  {
    assert values[..i + 1][..i] == values[..i];
    var init := NonEmpty(values[..i]);
    assert NonEmpty(values[..i + 1]) == init + OptionalId(values[i]);
    if values[i] == "" {
      assert init + [] == init;
    } else {
      AddAllUniqueAppend(routed, init, values[i]);
    }
  }

  /** Adds the non-empty ids of one tier table to the routed set. */
  method AddTierIds(routed: seq<string>, tiers: Tiers) returns (r: seq<string>)
    ensures r == AddAllUnique(routed, NonEmpty(TierValues(tiers)))
  {
    r := routed;
    var values := TierValues(tiers);
    for i := 0 to |values|
      invariant r == AddAllUnique(routed, NonEmpty(values[..i]))
    {
      NonEmptyStep(routed, values, i);
      if values[i] != "" {
        r := AddUnique(r, values[i]);
      }
    }
    assert values[..|values|] == values;
  }

  /** Every routed id: the models' tiers, then the agents' tiers, then the vision model. */
  method CollectRouted(models: seq<Model>, agents: Agents) returns (routed: seq<string>)
    ensures routed == LocalRoutes(models, agents)
  {
    routed := [];
    for i := 0 to |models|
      invariant routed == AddAllUnique([], ModelTierIds(models[..i]))
    {
      assert models[..i + 1][..i] == models[..i];
      AddAllUniqueSplit([], ModelTierIds(models[..i]), NonEmpty(TierValues(models[i].tiers)));
      routed := AddTierIds(routed, models[i].tiers);
    }
    assert models[..|models|] == models;
    AddAllUniqueSplit([], ModelTierIds(models), NonEmpty(TierValues(agents.tiers)));
    routed := AddTierIds(routed, agents.tiers);
    ghost var before := ModelTierIds(models) + NonEmpty(TierValues(agents.tiers));
    if agents.vision.Some? && agents.vision.value.model.Some? && agents.vision.value.model.value != "" {
      AddAllUniqueAppend([], before, agents.vision.value.model.value);
      routed := AddUnique(routed, agents.vision.value.model.value);
    } else {
      assert before + [] == before;
    }
  }

  /** addRoutingOnlyModels: declares the routed ids that no model declares. */
  method AddRoutingOnlyModels(models: seq<Model>, agents: Agents) returns (r: seq<Model>)
    ensures r == DeclareRouted(models, agents)
  {
    var declared := Ids(models);
    var routed := CollectRouted(models, agents);
    r := models;
    for i := 0 to |routed|
      invariant r == AddPlaceholders(models, routed[..i], [])
      invariant declared == Ids(r)
    {
      assert routed[..i + 1][..i] == routed[..i];
      DeclaresIff(r, routed[i]);
      if routed[i] in declared {
        continue;
      }
      r := r + [Model(routed[i], [], None, false, [], true)];
      declared := declared + [routed[i]];
    }
    assert routed[..|routed|] == routed;
  }

  // ----- One document -----

  lemma {:induction false} ImportFailureStays(
    p: Platform, scope: Scope, inherited: Dict<Provider>, lab: Dict<Json>, credentials: Dict<string>, profiles: seq<Profile>,
    n: nat, e: ImportError)
    requires n <= |profiles| && ImportProfiles(p, scope, inherited, lab, credentials, profiles[..n]) == Failure(e)
    ensures ImportProfiles(p, scope, inherited, lab, credentials, profiles) == Failure(e)
  {
    if n < |profiles| {
      var init := profiles[..|profiles| - 1];
      assert init[..n] == profiles[..n];
      ImportFailureStays(p, scope, inherited, lab, credentials, init, n, e);
    } else {
      assert profiles[..n] == profiles;
    }
  }

  method LegacyProfileToProvider(p: Platform, id: string, profile: Profile, lab: Dict<Json>) returns (r: Provider)
    ensures r == ImportProvider(p, id, profile, lab)
  {
    var agents := ImportAgents(p, profile.agents);
    var models := AddRoutingOnlyModels(profile.models, agents);
    var auth := Ambient;
    if profile.credential.Disabled? {
      auth := NoAuth;
    } else if profile.credential.Secret? {
      auth := Credential(CredentialRefFor(p.host, id));
    }
    return Provider(profile.protocol, profile.baseURL, auth, models, agents, ImportReliability(p, lab));
  }

  /** The profile loop of migrateRawDocument, filling providers, mapping and secrets. */
  method ImportEachProfile(
    p: Platform, scope: Scope, inherited: Dict<Provider>, lab: Dict<Json>, known: Dict<string>, profiles: seq<Profile>)
    returns (r: Result<Import, ImportError>)
    ensures r == ImportProfiles(p, scope, inherited, lab, known, profiles)
  {
    var providers: Dict<Provider>, mapped: Dict<string>, credentials := [], [], known;
    for i := 0 to |profiles|
      invariant ImportProfiles(p, scope, inherited, lab, known, profiles[..i]) == Success(Import(providers, mapped, credentials))
    {
      assert profiles[..i + 1][..i] == profiles[..i];
      ghost var step := ImportProfile(p, scope, inherited, lab, Import(providers, mapped, credentials), profiles[i]);
      if step.Failure? { ImportFailureStays(p, scope, inherited, lab, known, profiles, i + 1, step.error); }
      var profile := profiles[i];
      var clone := Rebased(p, scope, inherited, profile);
      if clone.Some? {
        mapped := Put(mapped, profile.id, clone.value);
        continue;
      }
      var id :- ProviderIdFor(p, scope, inherited, providers, profile);
      if Has(providers, id) {
        return Failure(DuplicateProviderId);
      }
      mapped := Put(mapped, profile.id, id);
      var provider := LegacyProfileToProvider(p, id, profile, lab);
      if profile.credential.Secret? {
        var ref := CredentialRefFor(p.host, id);
        if Has(credentials, ref) && Get(credentials, ref) != profile.credential.value {
          return Failure(CredentialCollision);
        }
        credentials := Put(credentials, ref, profile.credential.value);
      }
      providers := Put(providers, id, provider);
    }
    assert profiles[..|profiles|] == profiles;
    return Success(Import(providers, mapped, credentials));
  }

  lemma {:induction false} RouteFailureStays(p: Platform, d: Dict<Provider>, selection: Option<Ref>, tiers: Dict<Json>, n: nat, e: ImportError)
    requires n <= |tiers| && ImportRouteTiers(p, d, selection, tiers[..n]) == Failure(e)
    ensures ImportRouteTiers(p, d, selection, tiers) == Failure(e)
  {
    if n < |tiers| {
      var init := tiers[..|tiers| - 1];
      assert init[..n] == tiers[..n];
      RouteFailureStays(p, d, selection, init, n, e);
    } else {
      assert tiers[..n] == tiers;
    }
  }

  method LegacyRouteTiers(p: Platform, d: Dict<Provider>, selection: Option<Ref>, tiers: Dict<Json>) returns (r: Result<Dict<Ref>, ImportError>)
    ensures r == ImportRouteTiers(p, d, selection, tiers)
  {
    var modelTiers: Dict<Ref> := [];
    for i := 0 to |tiers|
      invariant ImportRouteTiers(p, d, selection, tiers[..i]) == Success(modelTiers)
    {
      assert tiers[..i + 1][..i] == tiers[..i];
      var ref := RouteFor(d, selection, Text(p, Some(tiers[i].1)));
      if ref.Failure? {
        RouteFailureStays(p, d, selection, tiers, i + 1, ref.error);
        return Failure(ref.error);
      }
      if ref.value.Some? {
        modelTiers := modelTiers + [(tiers[i].0, ref.value.value)];
      }
    }
    assert tiers[..|tiers|] == tiers;
    return Success(modelTiers);
  }

  method LegacyAgentRouting(p: Platform, source: Dict<Json>, selection: Option<Ref>, candidates: Dict<Provider>) returns (r: Result<Routing, ImportError>)
    ensures r == ImportRouting(p, source, selection, candidates)
  {
    var agents := Fields(Field(source, "agents"));
    var modelTiers :- LegacyRouteTiers(p, candidates, selection, Fields(Field(agents, "modelTiers")));
    var raw := Fields(Field(agents, "vision"));
    var ref :- RouteFor(candidates, selection, Text(p, Field(raw, "model")));
    var vision := None;
    if ref.Some? {
      vision := Some(RouteVision(!IsFalse(Field(raw, "enabled")), ref, !IsFalse(Field(raw, "autoUseWhenMainModelTextOnly"))));
    }
    return Success(Routing(modelTiers, vision, None));
  }

  method MigrateRawDocument(p: Platform, source: Dict<Json>, scope: Scope, inherited: Dict<Provider>, credentials: Dict<string>)
    returns (r: Result<Imported, ImportError>)
    ensures r == MigrateRaw(p, source, scope, inherited, credentials)
  {
    if p.settings(source).Some? {
      return Success(Imported(p.settings(source).value, credentials, []));
    }
    var profiles :- LegacyProfilesFromDocument(p, source);
    var acc :- ImportEachProfile(p, scope, inherited, Fields(Field(source, "lab")), credentials, profiles);
    var selection := ImportSelection(p, source, profiles, acc.mapped, inherited);
    var routing :- LegacyAgentRouting(p, source, selection, Merged(inherited, acc.providers));
    return Success(Imported(Document(acc.providers, selection, routing), acc.credentials, acc.mapped));
  }

  // ----- Stripping -----

  lemma {:induction false} DropTwice<V>(d: Dict<V>, keys: seq<string>, key: string)
    ensures Drop(Drop(d, keys), [key]) == Drop(d, keys + [key])
  {
    if d != [] {
      DropTwice(d[..|d| - 1], keys, key);
      var before := Drop(d[..|d| - 1], keys);
      assert (before + [d[|d| - 1]])[..|before|] == before;
    }
  }

  /** Deletes the keys one after the other. */
  method DeleteKeys<V>(d: Dict<V>, keys: seq<string>) returns (r: Dict<V>)
    ensures r == Drop(d, keys)
  {
    r := d;
    DropNothing(d, []);
    for i := 0 to |keys|
      invariant r == Drop(d, keys[..i])
    {
      DropTwice(d, keys[..i], keys[i]);
      assert keys[..i + 1] == keys[..i] + [keys[i]];
      r := Drop(r, [keys[i]]);
    }
    assert keys[..|keys|] == keys;
  }

  /** Strips `vision` inside the agents table. */
  method StripAgentVision(d: Dict<Json>) returns (r: Dict<Json>)
    ensures r == StripVision(d)
  {
    r := [];
    for i := 0 to |d|
      invariant r == StripVision(d[..i])
    {
      assert d[..i + 1][..i] == d[..i];
      var (key, v) := d[i];
      if key == "vision" && v.Obj? {
        var rest := DeleteKeys(v.fields, ["model"]);
        if rest != [] {
          r := r + [(key, Obj(rest))];
        }
      } else {
        r := r + [(key, v)];
      }
    }
    assert d[..|d|] == d;
  }

  method StripLegacyModelFields(d: Dict<Json>) returns (r: Dict<Json>)
    ensures r == Strip(d)
  {
    var next := DeleteKeys(d, TOP_FIELDS);
    r := [];
    for i := 0 to |next|
      invariant r == StripNested(next[..i])
    {
      assert next[..i + 1][..i] == next[..i];
      var (key, v) := next[i];
      if key == "lab" && v.Obj? {
        var lab := DeleteKeys(v.fields, LAB_FIELDS);
        if lab != [] {
          r := r + [(key, Obj(lab))];
        }
      } else if key == "agents" && v.Obj? {
        var kept := DeleteKeys(v.fields, ["modelTiers"]);
        var agents := StripAgentVision(kept);
        if agents != [] {
          r := r + [(key, Obj(agents))];
        }
      } else {
        r := r + [(key, v)];
      }
    }
    assert next[..|next|] == next;
  }
}
