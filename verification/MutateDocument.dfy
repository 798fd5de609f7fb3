/**
  The settings mutations as the source performs them: a cloned document is
  edited in place, reference by reference. Every method is proved equal to the
  function that says what it computes.
 */
module MutateDocument {
  import opened Basics
  import opened ConfigDocument
  import opened Resolver
  import opened ModelMutations
  import opened ConfigEdits

  // ----- Canonical ids -----

  lemma {:induction false} IndexFailureStays(host: Host, ids: seq<string>, n: nat)
    requires n <= |ids| && CreateIndex(host, ids[..n]).Failure?
    ensures CreateIndex(host, ids) == Failure(CaseCollision)
  {
    if n < |ids| {
      var init := ids[..|ids| - 1];
      assert init[..n] == ids[..n];
      IndexFailureStays(host, init, n);
    } else {
      assert ids[..n] == ids;
      IndexFailureIsCollision(host, ids);
    }
  }

  lemma {:induction false} IndexFailureIsCollision(host: Host, ids: seq<string>)
    ensures CreateIndex(host, ids).Failure? ==> CreateIndex(host, ids).error == CaseCollision
  {
    if ids != [] {
      IndexFailureIsCollision(host, ids[..|ids| - 1]);
    }
  }

  method CreateCanonicalModelIndex(host: Host, values: seq<string>) returns (r: Result<Index, MutationError>)
    ensures r == CreateIndex(host, values)
  {
    var exact: set<string>, byFold: map<string, string> := {}, map[];
    for i := 0 to |values|
      invariant CreateIndex(host, values[..i]) == Success(Index(exact, byFold))
    {
      assert values[..i + 1][..i] == values[..i];
      var id := values[i];
      if id == "" || id in exact {
        continue;
      }
      var folded := host.lower(id);
      if folded in byFold && byFold[folded] != id {
        IndexFailureStays(host, values, i + 1);
        return Failure(CaseCollision);
      }
      exact := exact + {id};
      byFold := byFold[folded := id];
    }
    assert values[..|values|] == values;
    return Success(Index(exact, byFold));
  }

  // ----- Local references -----

  method ReplaceLocalTierReferences(tiers: Tiers, previous: string, replacement: string, disableVision: bool) returns (r: Tiers)
    ensures r == ReplaceTiers(tiers, previous, replacement, disableVision)
  {
    r := [];
    for i := 0 to |tiers|
      invariant r == ReplaceTiers(tiers[..i], previous, replacement, disableVision)
    {
      assert tiers[..i + 1][..i] == tiers[..i];
      var (tier, model) := tiers[i];
      if model != previous {
        r := r + [(tier, model)];
        continue;
      }
      if !(disableVision && tier == "vision") {
        r := r + [(tier, replacement)];
      }
    }
    assert tiers[..|tiers|] == tiers;
  }

  method MigrateLocalModelReferences(models: seq<Model>, previous: string, replacement: string) returns (r: seq<Model>)
    ensures r == MigrateModels(models, previous, replacement)
  {
    r := models;
    for i := 0 to |models|
      invariant |r| == |models|
      invariant r[..i] == MigrateModels(models, previous, replacement)[..i]
      invariant r[i..] == models[i..]
    {
      assert r[i] == r[i..][0];
      var tiers := ReplaceLocalTierReferences(r[i].tiers, previous, replacement, false);
      r := r[i := r[i].(tiers := tiers)];
    }
  }

  method MigrateLocalAgentReferences(agents: Agents, previous: string, replacement: string, disableVision: bool) returns (r: Agents)
    ensures r == MigrateAgents(agents, previous, replacement, disableVision)
  {
    var tiers := ReplaceLocalTierReferences(agents.tiers, previous, replacement, disableVision);
    r := agents.(tiers := tiers);
    if r.vision.Some? && r.vision.value.model == Some(previous) {
      if disableVision {
        r := r.(vision := Some(r.vision.value.(enabled := false, model := None)));
      } else {
        r := r.(vision := Some(r.vision.value.(model := Some(replacement))));
      }
    }
  }

  // ----- Recording ids for the case check -----

  lemma {:induction false} CollidesPrefix(host: Host, a: seq<string>, b: seq<string>)
    requires a <= b && Collides(host, a)
    ensures Collides(host, b)
  {
    var i, j :| 0 <= i < j < |a| && a[i] != a[j] && host.lower(a[i]) == host.lower(a[j]);
    assert b[i] == a[i] && b[j] == a[j];
  }

  /** The recorded ids under their lower-cased form; None once two of them differ only in case. */
  ghost function Folded(host: Host, ids: seq<string>): Option<map<string, string>> {
    if ids == [] then Some(map[])
    else
      var before := Folded(host, ids[..|ids| - 1]);
      var id := ids[|ids| - 1];
      if before.None? || (host.lower(id) in before.value && before.value[host.lower(id)] != id) then None
      else Some(before.value[host.lower(id) := id])
  }

  lemma {:induction false} FoldedHas(host: Host, ids: seq<string>, f: string)
    requires Folded(host, ids).Some? && f in Folded(host, ids).value
    ensures exists i :: 0 <= i < |ids| && host.lower(ids[i]) == f && Folded(host, ids).value[f] == ids[i]
  {
    var n := |ids| - 1;
    if host.lower(ids[n]) != f {
      FoldedHas(host, ids[..n], f);
      var i :| 0 <= i < n && host.lower(ids[..n][i]) == f && Folded(host, ids[..n]).value[f] == ids[..n][i];
      assert ids[i] == ids[..n][i];
    }
  }

  /** The table refuses an id exactly when it differs only in case from one already there. */
  lemma {:induction false} FoldedRefuses(host: Host, ids: seq<string>)
    requires Folded(host, ids).None?
    ensures Collides(host, ids)
  {
    var n := |ids| - 1;
    if Folded(host, ids[..n]).None? {
      FoldedRefuses(host, ids[..n]);
      CollidesPrefix(host, ids[..n], ids);
    } else {
      FoldedHas(host, ids[..n], host.lower(ids[n]));
      var i :| 0 <= i < n && host.lower(ids[..n][i]) == host.lower(ids[n]) && Folded(host, ids[..n]).value[host.lower(ids[n])] == ids[..n][i];
      assert ids[i] == ids[..n][i];
    }
  }

  lemma {:induction false} FoldedAt(host: Host, ids: seq<string>, i: nat)
    requires Folded(host, ids).Some? && i < |ids|
    ensures host.lower(ids[i]) in Folded(host, ids).value && Folded(host, ids).value[host.lower(ids[i])] == ids[i]
  {
    var n := |ids| - 1;
    if i < n {
      FoldedAt(host, ids[..n], i);
    }
  }

  lemma {:induction false} FoldedAccepts(host: Host, ids: seq<string>)
    requires Folded(host, ids).Some?
    ensures !Collides(host, ids)
  {
    forall i, j | 0 <= i < j < |ids| ensures ids[i] == ids[j] || host.lower(ids[i]) != host.lower(ids[j]) {
      FoldedAt(host, ids, i);
      FoldedAt(host, ids, j);
    }
  }

  /** The closure that canonicalises ids and refuses two that differ only in case. */
  class IdRecorder {
    const host: Host
    const idx: Index
    var byFold: map<string, string>
    ghost var recorded: seq<string>

    ghost predicate Valid()
      reads this
    {
      Folded(host, recorded) == Some(byFold)
    }

    constructor (host: Host, idx: Index)
      ensures Valid() && recorded == [] && this.host == host && this.idx == idx
    {
      this.host, this.idx, byFold, recorded := host, idx, map[], [];
    }

    method Record(value: string) returns (r: Result<string, MutationError>)
      requires Valid()
      modifies this
      ensures Valid()
      ensures r.Success? ==>
                && r.value == Canonical(host, idx, value)
                && recorded == old(recorded) + OptionalId(r.value)
      ensures r.Failure? ==>
                && r.error == CaseCollision
                && Canonical(host, idx, value) != ""
                && Collides(host, old(recorded) + [Canonical(host, idx, value)])
    {
      var id := Canonical(host, idx, value);
      if id == "" {
        assert recorded == recorded + OptionalId(id);
        return Success("");
      }
      assert (recorded + [id])[..|recorded|] == recorded;
      var folded := host.lower(id);
      if folded in byFold && byFold[folded] != id {
        FoldedRefuses(host, recorded + [id]);
        return Failure(CaseCollision);
      }
      byFold := byFold[folded := id];
      recorded := recorded + [id];
      return Success(id);
    }
  }

  lemma {:induction false} TierValuesAppend(tiers: Tiers, tier: string, id: string)
    ensures TierValues(tiers + [(tier, id)]) == TierValues(tiers) + [id]
  {
  }

  /** A refusal at tier i is a collision among the ids of the whole table. */
  lemma {:induction false} RefusedTier(host: Host, idx: Index, tiers: Tiers, i: nat, start: seq<string>)
    requires i < |tiers|
    requires var c := Canonical(host, idx, tiers[i].1);
             c != "" && Collides(host, start + TierValues(CanonicalTiers(host, idx, tiers[..i])) + [c])
    ensures Collides(host, start + TierValues(CanonicalTiers(host, idx, tiers)))
  {
    var before := CanonicalTiers(host, idx, tiers[..i]);
    var c := Canonical(host, idx, tiers[i].1);
    assert tiers[..i + 1][..i] == tiers[..i];
    TierValuesAppend(before, tiers[i].0, c);
    assert start + TierValues(before) + [c] == start + (TierValues(before) + [c]);
    TierValuesPrefix(host, idx, tiers, i + 1);
    CollidesPrefix(host, start + TierValues(before) + [c], start + TierValues(CanonicalTiers(host, idx, tiers)));
  }

  /** The first i tiers of a table are canonical, routed and recorded. */
  ghost predicate TiersUpTo(
    host: Host, idx: Index, tiers: Tiers, start: seq<string>, routed: seq<string>,
    kept: Tiers, ids: seq<string>, recorded: seq<string>, i: nat)
  {
    && i <= |tiers|
    && kept == CanonicalTiers(host, idx, tiers[..i])
    && ids == AddAllUnique(routed, TierValues(kept))
    && recorded == start + TierValues(kept)
  }

  lemma {:induction false} TiersStep(
    host: Host, idx: Index, tiers: Tiers, start: seq<string>, routed: seq<string>,
    kept: Tiers, ids: seq<string>, recorded: seq<string>, i: nat)
    requires TiersUpTo(host, idx, tiers, start, routed, kept, ids, recorded, i) && i < |tiers|
    ensures var id := Canonical(host, idx, tiers[i].1);
            TiersUpTo(host, idx, tiers, start, routed,
                      if id == "" then kept else kept + [(tiers[i].0, id)],
                      if id == "" then ids else AddUnique(ids, id), recorded + OptionalId(id), i + 1)
  {
    var id := Canonical(host, idx, tiers[i].1);
    assert tiers[..i + 1][..i] == tiers[..i];
    if id != "" {
      TierValuesAppend(kept, tiers[i].0, id);
      AddAllUniqueAppend(routed, TierValues(kept), id);
      assert start + TierValues(kept) + [id] == start + (TierValues(kept) + [id]);
    } else {
      assert recorded + [] == recorded;
    }
  }

  lemma {:induction false} TiersEnd(
    host: Host, idx: Index, tiers: Tiers, start: seq<string>, routed: seq<string>, kept: Tiers, ids: seq<string>, recorded: seq<string>)
    requires TiersUpTo(host, idx, tiers, start, routed, kept, ids, recorded, |tiers|)
    ensures kept == CanonicalTiers(host, idx, tiers) && ids == AddAllUnique(routed, TierValues(kept)) && recorded == start + TierValues(kept)
  {
    assert tiers[..|tiers|] == tiers;
  }

  /** Canonical tiers of one table; its ids join the routed set. */
  method NormalizeTiers(recorder: IdRecorder, routed: seq<string>, tiers: Tiers) returns (r: Result<(Tiers, seq<string>), MutationError>)
    requires recorder.Valid()
    modifies recorder
    ensures recorder.Valid()
    ensures var t := CanonicalTiers(recorder.host, recorder.idx, tiers);
            && (r.Success? ==>
                  && r.value == (t, AddAllUnique(routed, TierValues(t)))
                  && recorder.recorded == old(recorder.recorded) + TierValues(t))
            && (r.Failure? ==> r.error == CaseCollision && Collides(recorder.host, old(recorder.recorded) + TierValues(t)))
  {
    var host, idx := recorder.host, recorder.idx;
    var kept, ids := [], routed;
    ghost var start := recorder.recorded;
    assert start + [] == start;
    for i := 0 to |tiers|
      invariant recorder.Valid()
      invariant TiersUpTo(host, idx, tiers, start, routed, kept, ids, recorder.recorded, i)
    {
      TiersStep(host, idx, tiers, start, routed, kept, ids, recorder.recorded, i);
      var id := recorder.Record(tiers[i].1);
      if id.Failure? {
        RefusedTier(host, idx, tiers, i, start);
        return Failure(CaseCollision);
      }
      if id.value != "" {
        kept := kept + [(tiers[i].0, id.value)];
        ids := AddUnique(ids, id.value);
      }
    }
    TiersEnd(host, idx, tiers, start, routed, kept, ids, recorder.recorded);
    return Success((kept, ids));
  }

  lemma {:induction false} TierValuesPrefix(host: Host, idx: Index, tiers: Tiers, n: nat)
    requires n <= |tiers|
    ensures TierValues(CanonicalTiers(host, idx, tiers[..n])) <= TierValues(CanonicalTiers(host, idx, tiers))
  {
    if n < |tiers| {
      var init := tiers[..|tiers| - 1];
      assert init[..n] == tiers[..n];
      TierValuesPrefix(host, idx, init, n);
    } else {
      assert tiers[..n] == tiers;
    }
  }

  lemma {:induction false} RecordedModelsPrefix(host: Host, idx: Index, models: seq<Model>, n: nat)
    requires n <= |models|
    ensures RecordedModels(host, idx, models[..n]) <= RecordedModels(host, idx, models)
  {
    if n < |models| {
      var init := models[..|models| - 1];
      assert init[..n] == models[..n];
      RecordedModelsPrefix(host, idx, init, n);
    } else {
      assert models[..n] == models;
    }
  }

  lemma {:induction false} RoutedByModelsPrefix(host: Host, idx: Index, models: seq<Model>, n: nat)
    requires n <= |models|
    ensures RoutedByModels(host, idx, models[..n]) <= RoutedByModels(host, idx, models)
  {
    if n < |models| {
      var init := models[..|models| - 1];
      assert init[..n] == models[..n];
      RoutedByModelsPrefix(host, idx, init, n);
    } else {
      assert models[..n] == models;
    }
  }

  lemma {:induction false} RoutedByRoutesPrefix(host: Host, idx: Index, d: Dict<Ref>, provider: string, n: nat)
    requires n <= |d|
    ensures RoutedByRoutes(host, idx, d[..n], provider) <= RoutedByRoutes(host, idx, d, provider)
  {
    if n < |d| {
      var init := d[..|d| - 1];
      assert init[..n] == d[..n];
      RoutedByRoutesPrefix(host, idx, init, provider, n);
    } else {
      assert d[..n] == d;
    }
  }

  // ----- ensureProviderRoutingModels, step by step -----

  /** An in-place pass over `from` whose first i entries have their final value. */
  ghost predicate DoneUpTo<T>(next: seq<T>, from: seq<T>, done: seq<T>, i: nat) {
    |next| == |from| == |done| && i <= |next| && next == done[..i] + from[i..]
  }

  lemma {:induction false} OneMore<T>(next: seq<T>, from: seq<T>, done: seq<T>, i: nat)
    requires DoneUpTo(next, from, done, i) && i < |next|
    ensures next[i] == from[i]
    ensures DoneUpTo(next[i := done[i]], from, done, i + 1)
  {
  }

  ghost function RedeclareAll(host: Host, idx: Index, catalog: seq<CatalogModel>, models: seq<Model>): (r: seq<Model>)
    ensures |r| == |models|
  {
    seq(|models|, i requires 0 <= i < |models| => Redeclare(models[i], Canonical(host, idx, models[i].id), catalog))
  }

  lemma {:induction false} RefusedId(host: Host, idx: Index, models: seq<Model>, i: nat, start: seq<string>)
    requires i < |models| && Canonical(host, idx, models[i].id) != ""
    requires Collides(host, start + RecordedModels(host, idx, models[..i]) + [Canonical(host, idx, models[i].id)])
    ensures Collides(host, start + RecordedModels(host, idx, models))
  {
    assert models[..i + 1][..i] == models[..i];
    assert start + RecordedModels(host, idx, models[..i]) + [Canonical(host, idx, models[i].id)] == start + RecordedModels(host, idx, models[..i + 1]);
    RecordedModelsPrefix(host, idx, models, i + 1);
    CollidesPrefix(host, start + RecordedModels(host, idx, models[..i + 1]), start + RecordedModels(host, idx, models));
  }

  /** The first i models are refreshed and their ids recorded. */
  ghost predicate Recording(
    host: Host, idx: Index, catalog: seq<CatalogModel>, models: seq<Model>, start: seq<string>, next: seq<Model>, recorded: seq<string>, i: nat)
  {
    && DoneUpTo(next, models, RedeclareAll(host, idx, catalog, models), i)
    && i <= |models| && recorded == start + RecordedModels(host, idx, models[..i])
  }

  lemma {:induction false} RecordStep(
    host: Host, idx: Index, catalog: seq<CatalogModel>, models: seq<Model>, start: seq<string>, next: seq<Model>, recorded: seq<string>, i: nat)
    requires Recording(host, idx, catalog, models, start, next, recorded, i) && i < |models|
    ensures |next| == |models| && next[i] == models[i]
    ensures var id := Canonical(host, idx, models[i].id);
            && Recording(host, idx, catalog, models, start, next[i := Redeclare(models[i], id, catalog)], recorded + OptionalId(id), i + 1)
            && (id != "" && Collides(host, recorded + [id]) ==> Collides(host, start + RecordedModels(host, idx, models)))
  {
    var id := Canonical(host, idx, models[i].id);
    OneMore(next, models, RedeclareAll(host, idx, catalog, models), i);
    assert models[..i + 1][..i] == models[..i];
    assert recorded + OptionalId(id) == start + RecordedModels(host, idx, models[..i + 1]);
    if id != "" && Collides(host, recorded + [id]) { RefusedId(host, idx, models, i, start); }
  }

  lemma {:induction false} RecordEnd(
    host: Host, idx: Index, catalog: seq<CatalogModel>, models: seq<Model>, start: seq<string>, next: seq<Model>, recorded: seq<string>)
    requires Recording(host, idx, catalog, models, start, next, recorded, |models|)
    ensures next == RedeclareAll(host, idx, catalog, models) && recorded == start + RecordedModels(host, idx, models)
  {
    assert models[..|models|] == models;
  }

  /** Records the declared ids and refreshes routing-only declarations from the catalog. */
  method RecordModels(recorder: IdRecorder, models: seq<Model>, catalog: seq<CatalogModel>) returns (r: Result<seq<Model>, MutationError>)
    requires recorder.Valid()
    modifies recorder
    ensures recorder.Valid()
    ensures r.Success? ==>
              && r.value == RedeclareAll(recorder.host, recorder.idx, catalog, models)
              && recorder.recorded == old(recorder.recorded) + RecordedModels(recorder.host, recorder.idx, models)
    ensures r.Failure? ==>
              r.error == CaseCollision
              && Collides(recorder.host, old(recorder.recorded) + RecordedModels(recorder.host, recorder.idx, models))
  {
    var host, idx := recorder.host, recorder.idx;
    ghost var start := recorder.recorded;
    var next := models;
    for i := 0 to |models|
      invariant recorder.Valid()
      invariant Recording(host, idx, catalog, models, start, next, recorder.recorded, i)
    {
      RecordStep(host, idx, catalog, models, start, next, recorder.recorded, i);
      var id :- recorder.Record(next[i].id);
      next := next[i := Redeclare(next[i], id, catalog)];
    }
    RecordEnd(host, idx, catalog, models, start, next, recorder.recorded);
    r := Success(next);
  }

  lemma {:induction false} RoutedLast(host: Host, idx: Index, models: seq<Model>, i: nat)
    requires i < |models|
    ensures RoutedByModels(host, idx, models[..i + 1])
            == RoutedByModels(host, idx, models[..i]) + TierValues(CanonicalTiers(host, idx, models[i].tiers))
  {
    assert models[..i + 1][..i] == models[..i];
  }

  lemma {:induction false} Regrouped(a: seq<string>, b: seq<string>, c: seq<string>)
    ensures a + b + c == a + (b + c)
  {
  }

  lemma {:induction false} NormalizeStep(host: Host, idx: Index, models: seq<Model>, i: nat, start: seq<string>)
    requires i < |models|
    ensures start + RoutedByModels(host, idx, models[..i]) + TierValues(CanonicalTiers(host, idx, models[i].tiers))
            == start + RoutedByModels(host, idx, models[..i + 1])
    ensures AddAllUnique(AddAllUnique([], RoutedByModels(host, idx, models[..i])), TierValues(CanonicalTiers(host, idx, models[i].tiers)))
            == AddAllUnique([], RoutedByModels(host, idx, models[..i + 1]))
  {
    var before, ids := RoutedByModels(host, idx, models[..i]), TierValues(CanonicalTiers(host, idx, models[i].tiers));
    RoutedLast(host, idx, models, i);
    Regrouped(start, before, ids);
    AddAllUniqueSplit([], before, ids);
  }

  lemma {:induction false} RefusedModel(host: Host, idx: Index, models: seq<Model>, i: nat, start: seq<string>)
    requires i < |models|
    requires Collides(host, start + RoutedByModels(host, idx, models[..i]) + TierValues(CanonicalTiers(host, idx, models[i].tiers)))
    ensures Collides(host, start + RoutedByModels(host, idx, models))
  {
    NormalizeStep(host, idx, models, i, start);
    RoutedByModelsPrefix(host, idx, models, i + 1);
    CollidesPrefix(host, start + RoutedByModels(host, idx, models[..i + 1]), start + RoutedByModels(host, idx, models));
  }

  /** The first i models carry canonical tiers, whose ids are routed and recorded. */
  ghost predicate NormalUpTo(
    host: Host, idx: Index, catalog: seq<CatalogModel>, models: seq<Model>, declared: seq<Model>, start: seq<string>,
    next: seq<Model>, routed: seq<string>, recorded: seq<string>, i: nat)
  {
    && i <= |models|
    && DoneUpTo(next, declared, NormalizeModels(host, idx, catalog, models), i)
    && routed == AddAllUnique([], RoutedByModels(host, idx, models[..i]))
    && recorded == start + RoutedByModels(host, idx, models[..i])
  }

  lemma {:induction false} NormalUpStep(
    host: Host, idx: Index, catalog: seq<CatalogModel>, models: seq<Model>, declared: seq<Model>, start: seq<string>,
    next: seq<Model>, routed: seq<string>, recorded: seq<string>, i: nat)
    requires NormalUpTo(host, idx, catalog, models, declared, start, next, routed, recorded, i) && i < |models|
    requires declared == RedeclareAll(host, idx, catalog, models)
    ensures |next| == |models| && next[i] == declared[i] && next[i].tiers == models[i].tiers
    ensures var t := CanonicalTiers(host, idx, models[i].tiers);
            NormalUpTo(host, idx, catalog, models, declared, start, next[i := next[i].(tiers := t)],
                       AddAllUnique(routed, TierValues(t)), recorded + TierValues(t), i + 1)
  {
    OneMore(next, declared, NormalizeModels(host, idx, catalog, models), i);
    NormalizeStep(host, idx, models, i, start);
  }

  lemma {:induction false} NormalUpEnd(
    host: Host, idx: Index, catalog: seq<CatalogModel>, models: seq<Model>, declared: seq<Model>, start: seq<string>,
    next: seq<Model>, routed: seq<string>, recorded: seq<string>)
    requires NormalUpTo(host, idx, catalog, models, declared, start, next, routed, recorded, |models|)
    ensures next == NormalizeModels(host, idx, catalog, models)
    ensures routed == AddAllUnique([], RoutedByModels(host, idx, models)) && recorded == start + RoutedByModels(host, idx, models)
  {
    assert models[..|models|] == models;
  }

  /** Canonical tiers for every model, in place; `declared` holds the refreshed declarations of `models`. */
  method NormalizeModelTiers(recorder: IdRecorder, ghost models: seq<Model>, declared: seq<Model>, ghost catalog: seq<CatalogModel>)
    returns (r: Result<(seq<Model>, seq<string>), MutationError>)
    requires recorder.Valid() && declared == RedeclareAll(recorder.host, recorder.idx, catalog, models)
    modifies recorder
    ensures recorder.Valid()
    ensures r.Success? ==>
              && r.value.0 == NormalizeModels(recorder.host, recorder.idx, catalog, models)
              && r.value.1 == AddAllUnique([], RoutedByModels(recorder.host, recorder.idx, models))
              && recorder.recorded == old(recorder.recorded) + RoutedByModels(recorder.host, recorder.idx, models)
    ensures r.Failure? ==>
              r.error == CaseCollision
              && Collides(recorder.host, old(recorder.recorded) + RoutedByModels(recorder.host, recorder.idx, models))
  {
    var host, idx := recorder.host, recorder.idx;
    ghost var start := recorder.recorded;
    var next, routed := declared, [];
    assert start + RoutedByModels(host, idx, models[..0]) == start;
    for i := 0 to |declared|
      invariant recorder.Valid()
      invariant NormalUpTo(host, idx, catalog, models, declared, start, next, routed, recorder.recorded, i)
    {
      NormalUpStep(host, idx, catalog, models, declared, start, next, routed, recorder.recorded, i);
      var tiers := NormalizeTiers(recorder, routed, next[i].tiers);
      if tiers.Failure? {
        RefusedModel(host, idx, models, i, start);
        return Failure(CaseCollision);
      }
      next := next[i := next[i].(tiers := tiers.value.0)];
      routed := tiers.value.1;
    }
    NormalUpEnd(host, idx, catalog, models, declared, start, next, routed, recorder.recorded);
    return Success((next, routed));
  }

  /** One placeholder for each routed id that no model declares. */
  method AddRoutingModels(models: seq<Model>, routed: seq<string>, catalog: seq<CatalogModel>, declared: seq<string>) returns (r: seq<Model>)
    requires declared == Ids(models)
    ensures r == AddPlaceholders(models, routed, catalog)
  {
    var allIds := declared;
    r := models;
    for i := 0 to |routed|
      invariant r == AddPlaceholders(models, routed[..i], catalog)
      invariant allIds == Ids(r)
    {
      assert routed[..i + 1][..i] == routed[..i];
      DeclaresIff(r, routed[i]);
      if routed[i] in allIds {
        continue;
      }
      r := r + [Placeholder(routed[i], catalog)];
      allIds := allIds + [routed[i]];
    }
    assert routed[..|routed|] == routed;
  }

  method DropUnroutedModels(models: seq<Model>, routed: seq<string>) returns (r: seq<Model>)
    ensures r == KeepRouted(models, routed)
  {
    r := [];
    for i := 0 to |models|
      invariant r == KeepRouted(models[..i], routed)
    {
      assert models[..i + 1][..i] == models[..i];
      if !models[i].routingOnly || models[i].id in routed {
        r := r + [models[i]];
      }
    }
    assert models[..|models|] == models;
  }

  method AddProtected(routed: seq<string>, protectedIds: seq<string>, declared: seq<string>) returns (r: seq<string>)
    ensures r == AddAllUnique(routed, Protected(protectedIds, declared))
  {
    r := routed;
    for i := 0 to |protectedIds|
      invariant r == AddAllUnique(routed, Protected(protectedIds[..i], declared))
    {
      assert protectedIds[..i + 1][..i] == protectedIds[..i];
      var id := protectedIds[i];
      if ValidModelIdentifier(id) && id in declared {
        AddAllUniqueAppend(routed, Protected(protectedIds[..i], declared), id);
        r := AddUnique(r, id);
      } else {
        assert Protected(protectedIds[..i], declared) + [] == Protected(protectedIds[..i], declared);
      }
    }
    assert protectedIds[..|protectedIds|] == protectedIds;
  }

  lemma {:induction false} AddOptional(xs: seq<string>, id: string)
    ensures AddAllUnique(xs, OptionalId(id)) == if id == "" then xs else AddUnique(xs, id)
  {
    if id != "" {
      assert OptionalId(id)[..0] == [];
    }
  }

  /** Canonical vision model of the provider's agents. */
  method NormalizeVision(recorder: IdRecorder, routed: seq<string>, agents: Agents) returns (r: Result<(Option<LocalVision>, seq<string>), MutationError>)
    requires recorder.Valid()
    modifies recorder
    ensures recorder.Valid()
    ensures var ids := RoutedByVision(recorder.host, recorder.idx, agents);
            && (r.Success? ==>
                  && r.value == (CanonicalAgents(recorder.host, recorder.idx, agents).vision, AddAllUnique(routed, ids))
                  && recorder.recorded == old(recorder.recorded) + ids)
            && (r.Failure? ==> r.error == CaseCollision && Collides(recorder.host, old(recorder.recorded) + ids))
  {
    if agents.vision.None? || agents.vision.value.model.None? {
      assert recorder.recorded + [] == recorder.recorded;
      return Success((agents.vision, routed));
    }
    var id :- recorder.Record(agents.vision.value.model.value);
    AddOptional(routed, id);
    if id == "" {
      return Success((Some(agents.vision.value.(model := None)), routed));
    }
    return Success((Some(agents.vision.value.(model := Some(id))), AddUnique(routed, id)));
  }

  /** The first i qualified routes are canonical and their ids recorded. */
  ghost predicate RoutesUpTo(
    host: Host, idx: Index, d: Dict<Ref>, provider: string, start: seq<string>, before: seq<string>,
    next: Dict<Ref>, recorded: seq<string>, routed: seq<string>, i: nat)
  {
    && i <= |d|
    && DoneUpTo(next, d, CanonicalRouteTiers(host, idx, d, provider), i)
    && recorded == start + RoutedByRoutes(host, idx, d[..i], provider)
    && routed == AddAllUnique(before, RoutedByRoutes(host, idx, d[..i], provider))
  }

  lemma {:induction false} RoutesStep(
    host: Host, idx: Index, d: Dict<Ref>, provider: string, start: seq<string>, before: seq<string>,
    next: Dict<Ref>, recorded: seq<string>, routed: seq<string>, i: nat)
    requires RoutesUpTo(host, idx, d, provider, start, before, next, recorded, routed, i) && i < |d|
    ensures |next| == |d| && next[i] == d[i]
    ensures d[i].1.provider != provider ==>
              RoutesUpTo(host, idx, d, provider, start, before, next, recorded, routed, i + 1)
    ensures d[i].1.provider == provider ==>
              var id := Canonical(host, idx, d[i].1.model);
              && RoutesUpTo(host, idx, d, provider, start, before, next[i := (d[i].0, d[i].1.(model := id))],
                            recorded + OptionalId(id), if id == "" then routed else AddUnique(routed, id), i + 1)
              && (Collides(host, recorded + OptionalId(id)) ==> Collides(host, start + RoutedByRoutes(host, idx, d, provider)))
  {
    var done := CanonicalRouteTiers(host, idx, d, provider);
    OneMore(next, d, done, i);
    assert d[..i + 1][..i] == d[..i];
    var ids := RoutedByRoutes(host, idx, d[..i], provider);
    if d[i].1.provider == provider {
      var id := Canonical(host, idx, d[i].1.model);
      assert recorded + OptionalId(id) == start + (ids + OptionalId(id));
      AddAllUniqueSplit(before, ids, OptionalId(id));
      AddOptional(routed, id);
      RoutedByRoutesPrefix(host, idx, d, provider, i + 1);
      assert start + RoutedByRoutes(host, idx, d[..i + 1], provider) <= start + RoutedByRoutes(host, idx, d, provider);
      if Collides(host, recorded + OptionalId(id)) {
        CollidesPrefix(host, recorded + OptionalId(id), start + RoutedByRoutes(host, idx, d, provider));
      }
    } else {
      assert ids + [] == ids;
      assert next[i := done[i]] == next;
    }
  }

  lemma {:induction false} RoutesEnd(
    host: Host, idx: Index, d: Dict<Ref>, provider: string, start: seq<string>, before: seq<string>,
    next: Dict<Ref>, recorded: seq<string>, routed: seq<string>)
    requires RoutesUpTo(host, idx, d, provider, start, before, next, recorded, routed, |d|)
    ensures next == CanonicalRouteTiers(host, idx, d, provider)
    ensures recorded == start + RoutedByRoutes(host, idx, d, provider)
    ensures routed == AddAllUnique(before, RoutedByRoutes(host, idx, d, provider))
  {
    assert d[..|d|] == d;
  }

  /** Canonical ids on the qualified tiers that name the provider, in place. */
  method NormalizeRouteTiers(recorder: IdRecorder, routed: seq<string>, d: Dict<Ref>, provider: string)
    returns (r: Result<(Dict<Ref>, seq<string>), MutationError>)
    requires recorder.Valid()
    modifies recorder
    ensures recorder.Valid()
    ensures var ids := RoutedByRoutes(recorder.host, recorder.idx, d, provider);
            && (r.Success? ==>
                  && r.value == (CanonicalRouteTiers(recorder.host, recorder.idx, d, provider), AddAllUnique(routed, ids))
                  && recorder.recorded == old(recorder.recorded) + ids)
            && (r.Failure? ==> r.error == CaseCollision && Collides(recorder.host, old(recorder.recorded) + ids))
  {
    var host, idx := recorder.host, recorder.idx;
    ghost var start := recorder.recorded;
    var next, ids := d, routed;
    assert start + [] == start;
    for i := 0 to |d|
      invariant recorder.Valid()
      invariant RoutesUpTo(host, idx, d, provider, start, routed, next, recorder.recorded, ids, i)
    {
      RoutesStep(host, idx, d, provider, start, routed, next, recorder.recorded, ids, i);
      if next[i].1.provider != provider {
        continue;
      }
      var id :- recorder.Record(next[i].1.model);
      next := next[i := (next[i].0, next[i].1.(model := id))];
      if id != "" {
        ids := AddUnique(ids, id);
      }
    }
    RoutesEnd(host, idx, d, provider, start, routed, next, recorder.recorded, ids);
    return Success((next, ids));
  }

  /** Canonical id on the qualified vision route when it names the provider. */
  method NormalizeRouteVision(recorder: IdRecorder, routed: seq<string>, routing: Routing, provider: string)
    returns (r: Result<(Option<RouteVision>, seq<string>), MutationError>)
    requires recorder.Valid()
    modifies recorder
    ensures recorder.Valid()
    ensures var ids := RoutedByRouteVision(recorder.host, recorder.idx, routing, provider);
            && (r.Success? ==>
                  && r.value == (CanonicalRouting(recorder.host, recorder.idx, routing, provider).vision, AddAllUnique(routed, ids))
                  && recorder.recorded == old(recorder.recorded) + ids)
            && (r.Failure? ==> r.error == CaseCollision && Collides(recorder.host, old(recorder.recorded) + ids))
  {
    if routing.vision.None? || routing.vision.value.model.None? || routing.vision.value.model.value.provider != provider {
      assert recorder.recorded + [] == recorder.recorded;
      return Success((routing.vision, routed));
    }
    var ref := routing.vision.value.model.value;
    var id :- recorder.Record(ref.model);
    AddOptional(routed, id);
    return Success((Some(routing.vision.value.(model := Some(ref.(model := id)))), if id == "" then routed else AddUnique(routed, id)));
  }
}
