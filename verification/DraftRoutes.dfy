/**
  The document a mutation edits in place: provider table, default selection
  and qualified routes. Each method rewrites one of the three and is proved to
  leave exactly what the matching function computes.
 */
module DraftRoutes {
  import opened Basics
  import opened ConfigDocument
  import opened Resolver
  import opened ModelMutations
  import opened ConfigEdits
  import opened MutateDocument

  lemma {:induction false} Regroup(m: seq<string>, a: seq<string>, b: seq<string>, c: seq<string>, d: seq<string>, e: seq<string>)
    ensures m + a + b + c + d + e == m + (a + b + c + d + e)
  {
    assert m + a + b == m + (a + b);
    assert m + (a + b) + c == m + (a + b + c);
    assert m + (a + b + c) + d == m + (a + b + c + d);
    assert m + (a + b + c + d) + e == m + (a + b + c + d + e);
  }

  /** The ids met so far, phase by phase, lead to the ids of the whole provider. */
  lemma {:induction false} Phases(
    host: Host, idx: Index, models: seq<Model>, agents: Agents, r: Routing, provider: string,
    s4: seq<string>, s5: seq<string>, s6: seq<string>)
    requires s4 == LocalIds(host, idx, models, agents)
    requires s5 == s4 + RoutedByRoutes(host, idx, r.tiers, provider)
    requires s6 == s5 + RoutedByRouteVision(host, idx, r, provider)
    ensures s6 == RecordedModels(host, idx, models) + Routed(host, idx, models, agents, r, provider)
    ensures s4 <= s5 <= s6
  {
    Regroup(
      RecordedModels(host, idx, models), RoutedByModels(host, idx, models), TierValues(CanonicalTiers(host, idx, agents.tiers)),
      RoutedByVision(host, idx, agents), RoutedByRoutes(host, idx, r.tiers, provider), RoutedByRouteVision(host, idx, r, provider));
  }

  lemma {:induction false} PhaseIds(
    host: Host, idx: Index, models: seq<Model>, agents: Agents, r: Routing, provider: string, kept: seq<string>)
    ensures var a := AddAllUnique([], RoutedByModels(host, idx, models));
            var b := AddAllUnique(a, TierValues(CanonicalTiers(host, idx, agents.tiers)));
            var c := AddAllUnique(b, RoutedByVision(host, idx, agents));
            var d := AddAllUnique(c, RoutedByRoutes(host, idx, r.tiers, provider));
            var e := AddAllUnique(d, RoutedByRouteVision(host, idx, r, provider));
            AddAllUnique(e, kept) == AddAllUnique([], Routed(host, idx, models, agents, r, provider) + kept)
  {
    var m, t, v := RoutedByModels(host, idx, models), TierValues(CanonicalTiers(host, idx, agents.tiers)), RoutedByVision(host, idx, agents);
    var q, w := RoutedByRoutes(host, idx, r.tiers, provider), RoutedByRouteVision(host, idx, r, provider);
    AddAllUniqueSplit([], m, t);
    AddAllUniqueSplit([], m + t, v);
    AddAllUniqueSplit([], m + t + v, q);
    AddAllUniqueSplit([], m + t + v + q, w);
    AddAllUniqueSplit([], m + t + v + q + w, kept);
  }

  predicate KnownIds(host: Host, idx: Index, models: seq<Model>) {
    forall i | 0 <= i < |models| :: Canonical(host, idx, models[i].id) == models[i].id
  }

  lemma {:induction false} NormalizedIds(host: Host, idx: Index, catalog: seq<CatalogModel>, models: seq<Model>)
    requires KnownIds(host, idx, models)
    ensures Ids(NormalizeModels(host, idx, catalog, models)) == Ids(models)
  {
    forall i | 0 <= i < |models| ensures NormalizeModel(host, idx, catalog, models[i]).id == models[i].id {
    }
  }

  /** What the provider-local phases of ensureProviderRoutingModels leave. */
  datatype Local = Local(models: seq<Model>, agents: Agents, routed: seq<string>)

  ghost function LocalIds(host: Host, idx: Index, models: seq<Model>, agents: Agents): seq<string> {
    RecordedModels(host, idx, models) + RoutedByModels(host, idx, models)
    + TierValues(CanonicalTiers(host, idx, agents.tiers)) + RoutedByVision(host, idx, agents)
  }

  ghost function LocalRouted(host: Host, idx: Index, models: seq<Model>, agents: Agents): seq<string> {
    AddAllUnique(AddAllUnique(
      AddAllUnique([], RoutedByModels(host, idx, models)),
      TierValues(CanonicalTiers(host, idx, agents.tiers))), RoutedByVision(host, idx, agents))
  }

  lemma {:induction false} Prefixes(a: seq<string>, b: seq<string>, c: seq<string>, d: seq<string>)
    ensures [] + a <= [] + a + b <= [] + a + b + c <= a + b + c + d == [] + a + b + c + d
  {
    assert [] + a == a;
  }

  method NormalizeLocal(recorder: IdRecorder, models: seq<Model>, agents: Agents, catalog: seq<CatalogModel>)
    returns (r: Result<Local, MutationError>)
    requires recorder.Valid() && recorder.recorded == []
    modifies recorder
    ensures recorder.Valid()
    ensures r.Success? ==>
              && r.value.models == NormalizeModels(recorder.host, recorder.idx, catalog, models)
              && r.value.agents == CanonicalAgents(recorder.host, recorder.idx, agents)
              && r.value.routed == LocalRouted(recorder.host, recorder.idx, models, agents)
              && recorder.recorded == LocalIds(recorder.host, recorder.idx, models, agents)
    ensures r.Failure? ==> r.error == CaseCollision && Collides(recorder.host, LocalIds(recorder.host, recorder.idx, models, agents))
  {
    var host, idx := recorder.host, recorder.idx;
    ghost var s1 := [] + RecordedModels(host, idx, models);
    ghost var s2 := s1 + RoutedByModels(host, idx, models);
    ghost var s3 := s2 + TierValues(CanonicalTiers(host, idx, agents.tiers));
    ghost var all := LocalIds(host, idx, models, agents);
    Prefixes(RecordedModels(host, idx, models), RoutedByModels(host, idx, models),
             TierValues(CanonicalTiers(host, idx, agents.tiers)), RoutedByVision(host, idx, agents));
    var declared := RecordModels(recorder, models, catalog);
    if declared.Failure? {
      CollidesPrefix(host, s1, all);
      return Failure(CaseCollision);
    }
    var next := NormalizeModelTiers(recorder, models, declared.value, catalog);
    if next.Failure? {
      CollidesPrefix(host, s2, all);
      return Failure(CaseCollision);
    }
    var tiers := NormalizeTiers(recorder, next.value.1, agents.tiers);
    if tiers.Failure? {
      CollidesPrefix(host, s3, all);
      return Failure(CaseCollision);
    }
    var vision :- NormalizeVision(recorder, tiers.value.1, agents);
    return Success(Local(next.value.0, agents.(tiers := tiers.value.0, vision := vision.0), vision.1));
  }

  class ConfigDraft {
    var providers: Dict<Provider>
    var selection: Option<Ref>
    var routing: Routing

    constructor (d: Document)
      ensures Contents() == d
    {
      providers, selection, routing := d.providers, d.selection, d.routing;
    }

    function Contents(): Document
      reads this
    {
      Document(providers, selection, routing)
    }

    // ----- Qualified routes -----

    method MigrateQualifiedModelReferences(provider: string, previous: string, replacement: string, disableVision: bool)
      modifies this`routing
      ensures routing == MigrateRouting(old(routing), provider, previous, replacement, disableVision)
    {
      var tiers := routing.tiers;
      var next: Dict<Ref> := [];
      for i := 0 to |tiers|
        invariant next == MigrateRouteTiers(tiers[..i], provider, previous, replacement, disableVision)
      {
        assert tiers[..i + 1][..i] == tiers[..i];
        var (tier, ref) := tiers[i];
        if ref.provider != provider || ref.model != previous {
          next := next + [(tier, ref)];
        } else if !(disableVision && tier == "vision") {
          next := next + [(tier, ref.(model := replacement))];
        }
      }
      assert tiers[..|tiers|] == tiers;
      var vision := routing.vision;
      if vision.Some? && vision.value.model.Some? && vision.value.model.value.provider == provider
         && vision.value.model.value.model == previous {
        vision := Some(
          if disableVision then vision.value.(enabled := false, model := None)
          else vision.value.(model := Some(vision.value.model.value.(model := replacement))));
      }
      routing := routing.(tiers := next, vision := vision);
    }

    method ReplaceQualifiedProviderReferences(provider: string, available: seq<Model>, fallback: Model)
      modifies this`routing
      ensures routing == ReplaceRouting(old(routing), provider, available, fallback)
    {
      var next := routing.tiers;
      ghost var done := ReplaceRouteTiers(routing.tiers, provider, available, fallback);
      for i := 0 to |next|
        invariant routing == old(routing)
        invariant DoneUpTo(next, routing.tiers, done, i)
      {
        OneMore(next, routing.tiers, done, i);
        var (tier, ref) := next[i];
        if ref.provider == provider && !Declares(available, ref.model) {
          next := next[i := (tier, ref.(model := fallback.id))];
        } else {
          assert next[i := done[i]] == next;
        }
      }
      assert next == done;
      routing := routing.(tiers := next);
      if routing.vision.Some? && routing.vision.value.model.Some? && routing.vision.value.model.value.provider == provider {
        var vision := routing.vision.value;
        if Declares(available, vision.model.value.model) {
          return;
        }
        routing := routing.(vision := Some(
          if fallback.image then vision.(model := Some(vision.model.value.(model := fallback.id)))
          else vision.(enabled := false, model := None)));
      }
    }

    method ReconcileQualifiedRoutingReasoning(provider: string, models: seq<Model>)
      modifies this`routing
      ensures routing == ReconcileRouting(old(routing), provider, models)
    {
      var next := routing.tiers;
      ghost var done := ReconcileRouteTiers(routing.tiers, provider, models);
      for i := 0 to |next|
        invariant routing == old(routing)
        invariant DoneUpTo(next, routing.tiers, done, i)
      {
        OneMore(next, routing.tiers, done, i);
        var (tier, ref) := next[i];
        if ref.provider == provider {
          next := next[i := (tier, ReconcileRef(ref, models, ModelIndex(models, ref.model)))];
        } else {
          assert next[i := done[i]] == next;
        }
      }
      assert next == done;
      routing := routing.(tiers := next);
      if routing.vision.Some? && routing.vision.value.model.Some? && routing.vision.value.model.value.provider == provider {
        var ref := routing.vision.value.model.value;
        routing := routing.(vision := Some(routing.vision.value.(
          model := Some(ReconcileRef(ref, models, ModelIndex(models, ref.model))))));
      }
    }

    method RetainQualifiedAgentRoutesForProvider(provider: string)
      modifies this`routing
      ensures routing == RetainRoutes(old(routing), provider)
    {
      var tiers := routing.tiers;
      var next: Dict<Ref> := [];
      for i := 0 to |tiers|
        invariant next == RetainTiers(tiers[..i], provider)
      {
        assert tiers[..i + 1][..i] == tiers[..i];
        if tiers[i].1.provider == provider {
          next := next + [tiers[i]];
        }
      }
      assert tiers[..|tiers|] == tiers;
      routing := routing.(tiers := next);
      if routing.vision.Some? && routing.vision.value.model.Some?
         && routing.vision.value.model.value.provider != "" && routing.vision.value.model.value.provider != provider {
        routing := routing.(vision := None);
      }
    }

    method RemoveProviderFromRouting(provider: string)
      modifies this`routing
      ensures routing == DropRouting(old(routing), provider)
    {
      var tiers := routing.tiers;
      var next: Dict<Ref> := [];
      for i := 0 to |tiers|
        invariant next == DropRouteTiers(tiers[..i], provider)
      {
        assert tiers[..i + 1][..i] == tiers[..i];
        if tiers[i].1.provider != provider {
          next := next + [tiers[i]];
        }
      }
      assert tiers[..|tiers|] == tiers;
      routing := routing.(tiers := next);
      if routing.vision.Some? && routing.vision.value.model.Some? && routing.vision.value.model.value.provider == provider {
        routing := routing.(vision := None);
      }
    }

    /** Canonical routes, a declaration for every routed id, and no routing-only model that nothing names. */
    method EnsureProviderRoutingModels(
      host: Host, provider: string, models: seq<Model>, agents: Agents, idx: Index,
      catalog: seq<CatalogModel>, protectedIds: seq<string>)
      returns (r: Result<(seq<Model>, Agents), MutationError>)
      requires KnownIds(host, idx, models)
      modifies this`routing
      ensures var e := EnsureRouting(host, old(routing), provider, models, agents, idx, catalog, protectedIds);
              && (e.Success? ==> r == Success((e.value.models, e.value.agents)) && routing == e.value.routing)
              && (e.Failure? ==> r == Failure(e.error))
    {
      var recorder := new IdRecorder(host, idx);
      ghost var s4 := LocalIds(host, idx, models, agents);
      ghost var s5 := s4 + RoutedByRoutes(host, idx, routing.tiers, provider);
      ghost var s6 := s5 + RoutedByRouteVision(host, idx, routing, provider);
      Phases(host, idx, models, agents, routing, provider, s4, s5, s6);
      var local := NormalizeLocal(recorder, models, agents, catalog);
      if local.Failure? {
        CollidesPrefix(host, s4, s6);
        return Failure(CaseCollision);
      }
      var tiers := NormalizeRouteTiers(recorder, local.value.routed, routing.tiers, provider);
      if tiers.Failure? {
        CollidesPrefix(host, s5, s6);
        return Failure(CaseCollision);
      }
      var vision :- NormalizeRouteVision(recorder, tiers.value.1, routing, provider);
      FoldedAccepts(host, s6);
      NormalizedIds(host, idx, catalog, models);
      PhaseIds(host, idx, models, agents, routing, provider, Protected(protectedIds, Ids(models)));
      routing := routing.(tiers := tiers.value.0, vision := vision.0);
      var routed := AddProtected(vision.1, protectedIds, Ids(models));
      var declared := AddRoutingModels(local.value.models, routed, catalog, Ids(models));
      var kept := DropUnroutedModels(declared, routed);
      return Success((kept, local.value.agents));
    }

    // ----- Default selection -----

    method MigrateDefaultModelReference(provider: string, previous: string, replacement: string)
      modifies this`selection
      ensures selection == MigrateSelection(old(selection), provider, previous, replacement)
      ensures previous != replacement && selection.Some? && selection.value.provider == provider ==> selection.value.model != previous
      ensures old(selection).Some? <==> selection.Some?
    {
      if selection.Some? && selection.value.provider == provider && selection.value.model == previous {
        selection := Some(selection.value.(model := replacement));
      }
    }

    method ReplaceDefaultProviderSelection(provider: string, available: seq<Model>, fallback: Model)
      modifies this`selection
      ensures selection == ReplaceSelection(old(selection), provider, available, fallback)
      ensures selection.Some? && selection.value.provider == provider ==>
                Declares(available, selection.value.model) || selection.value.model == fallback.id
    {
      if selection.None? || selection.value.provider != provider {
        return;
      }
      if Declares(available, selection.value.model) {
        return;
      }
      selection := Some(selection.value.(model := fallback.id));
      if fallback.defaultEffort.Some? {
        selection := Some(selection.value.(effort := fallback.defaultEffort));
      } else {
        selection := Some(selection.value.(effort := None));
      }
    }

    method ReconcileDefaultSelectionReasoning(provider: string, models: seq<Model>)
      modifies this`selection
      ensures selection == ReconcileSelection(old(selection), provider, models)
    {
      if selection.None? || selection.value.provider != provider {
        return;
      }
      var at := ModelIndex(models, selection.value.model);
      if at == |models| || models[at].routingOnly {
        at := SelectableIndex(models);
        if at == |models| {
          return;
        }
        selection := Some(selection.value.(model := models[at].id));
      }
      selection := Some(ReconcileRef(selection.value, models, at));
    }
  }
}
