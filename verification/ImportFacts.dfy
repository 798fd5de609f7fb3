/** What the V1 import guarantees: secrets are kept, routed models declared, the remainder is final. */
module ImportFacts {
  import opened Basics
  import opened JsonValues
  import opened ConfigDocument
  import opened Resolver
  import opened ModelMutations
  import opened MutationFacts
  import opened LegacyImport

  predicate Lacks<V>(d: Dict<V>, keys: seq<string>) {
    forall i | 0 <= i < |d| :: d[i].0 !in keys
  }

  lemma {:induction false} LacksMore<V>(d: Dict<V>, more: Dict<V>, keys: seq<string>)
    requires Lacks(d, keys) && Lacks(more, keys)
    ensures Lacks(d + more, keys)
  {
  }

  lemma {:induction false} DropLacks<V>(d: Dict<V>, keys: seq<string>)
    ensures Lacks(Drop(d, keys), keys)
  {
    if d != [] {
      DropLacks(d[..|d| - 1], keys);
    }
  }

  /** Nothing is dropped from a table without the keys. */
  lemma {:induction false} DropNothing<V>(d: Dict<V>, keys: seq<string>)
    requires Lacks(d, keys)
    ensures Drop(d, keys) == d
  {
    if d != [] {
      DropNothing(d[..|d| - 1], keys);
    }
  }

  lemma {:induction false} DropDropped<V>(d: Dict<V>, keys: seq<string>)
    ensures Drop(Drop(d, keys), keys) == Drop(d, keys)
  {
    DropLacks(d, keys);
    DropNothing(Drop(d, keys), keys);
  }

  // ----- Rewriting a table entry by entry -----

  /** An entry keeps its key or goes. */
  ghost predicate Keyed(entry: (string, Json) -> Dict<Json>) {
    forall k, v :: |entry(k, v)| <= 1 && (entry(k, v) != [] ==> entry(k, v)[0].0 == k)
  }

  /** What is left of an entry is left as it is by another rewriting. */
  ghost predicate Final(entry: (string, Json) -> Dict<Json>) {
    Keyed(entry) && forall k, v :: entry(k, v) != [] ==> entry(k, entry(k, v)[0].1) == entry(k, v)
  }

  lemma {:induction false} RewriteOne(e: (string, Json), entry: (string, Json) -> Dict<Json>)
    ensures Rewrite([e], entry) == entry(e.0, e.1)
  {
    assert [e][..0] == [];
  }

  lemma {:induction false} RewriteAppend(a: Dict<Json>, b: Dict<Json>, entry: (string, Json) -> Dict<Json>)
    ensures Rewrite(a + b, entry) == Rewrite(a, entry) + Rewrite(b, entry)
  {
    if b == [] {
      assert a + b == a;
    } else {
      assert (a + b)[..|a + b| - 1] == a + b[..|b| - 1];
      RewriteAppend(a, b[..|b| - 1], entry);
    }
  }

  lemma {:induction false} RewriteFinal(d: Dict<Json>, entry: (string, Json) -> Dict<Json>)
    requires Final(entry)
    ensures Rewrite(Rewrite(d, entry), entry) == Rewrite(d, entry)
  {
    if d != [] {
      var e := d[|d| - 1];
      var before, kept := Rewrite(d[..|d| - 1], entry), entry(e.0, e.1);
      RewriteFinal(d[..|d| - 1], entry);
      RewriteAppend(before, kept, entry);
      if kept != [] {
        assert kept == [kept[0]];
        RewriteOne(kept[0], entry);
      }
    }
  }

  lemma {:induction false} RewriteLacks(d: Dict<Json>, entry: (string, Json) -> Dict<Json>, keys: seq<string>)
    requires Keyed(entry) && Lacks(d, keys)
    ensures Lacks(Rewrite(d, entry), keys)
  {
    if d != [] {
      RewriteLacks(d[..|d| - 1], entry, keys);
      LacksMore(Rewrite(d[..|d| - 1], entry), entry(d[|d| - 1].0, d[|d| - 1].1), keys);
    }
  }

  // ----- Stripping is final -----

  lemma {:induction false} VisionEntryFinal()
    ensures Final(VisionEntry)
  {
    forall v: Json { DropDropped(Fields(Some(v)), ["model"]); }
  }

  lemma {:induction false} StripAgentsFinal(d: Dict<Json>)
    ensures StripAgents(StripAgents(d)) == StripAgents(d)
  {
    var dropped := Drop(d, ["modelTiers"]);
    VisionEntryFinal();
    DropLacks(d, ["modelTiers"]);
    RewriteFinal(dropped, VisionEntry);
    RewriteLacks(dropped, VisionEntry, ["modelTiers"]);
    DropNothing(StripVision(dropped), ["modelTiers"]);
  }

  lemma {:induction false} NestedEntryOnce(k: string, v: Json)
    ensures var kept := NestedEntry(k, v);
            |kept| <= 1 && (kept != [] ==> kept[0].0 == k && NestedEntry(k, kept[0].1) == kept)
  {
    DropDropped(Fields(Some(v)), LAB_FIELDS);
    StripAgentsFinal(Fields(Some(v)));
  }

  lemma {:induction false} NestedEntryFinal()
    ensures Final(NestedEntry)
  {
    forall k, v: Json { NestedEntryOnce(k, v); }
  }

  /** Stripping a stripped document changes nothing. */
  lemma {:induction false} StripFinal(d: Dict<Json>)
    ensures Strip(Strip(d)) == Strip(d)
  {
    var dropped := Drop(d, TOP_FIELDS);
    NestedEntryFinal();
    DropLacks(d, TOP_FIELDS);
    RewriteFinal(dropped, NestedEntry);
    RewriteLacks(dropped, NestedEntry, TOP_FIELDS);
    DropNothing(StripNested(dropped), TOP_FIELDS);
  }

  // ----- What stripping leaves -----

  lemma {:induction false} FieldAppend(a: Dict<Json>, b: Dict<Json>, key: string)
    ensures Field(a + b, key) == if Has(a, key) then Field(a, key) else Field(b, key)
  {
    var i := KeyIndex(a + b, key);
    assert forall j | 0 <= j < |a| :: (a + b)[j] == a[j];
    if Has(a, key) {
      assert (a + b)[KeyIndex(a, key)] == a[KeyIndex(a, key)];
    } else {
      if i < |a + b| { assert (a + b)[i] == b[i - |a|]; }
      if Has(b, key) { assert (a + b)[|a| + KeyIndex(b, key)] == b[KeyIndex(b, key)]; }
    }
  }

  lemma {:induction false} FieldOne(e: (string, Json), key: string)
    ensures Field([e], key) == if e.0 == key then Some(e.1) else None
  {
  }

  lemma {:induction false} DropField(d: Dict<Json>, keys: seq<string>, key: string)
    ensures Field(Drop(d, keys), key) == if key in keys then None else Field(d, key)
  {
    if d != [] {
      var init, e := d[..|d| - 1], d[|d| - 1];
      DropField(init, keys, key);
      assert d == init + [e];
      FieldAppend(init, [e], key);
      FieldAppend(Drop(init, keys), [e], key);
      FieldOne(e, key);
    }
  }

  lemma {:induction false} HasAppend(d: Dict<Json>, e: (string, Json), key: string)
    ensures Has(d + [e], key) <==> Has(d, key) || e.0 == key
    ensures Field(d + [e], key) == if Has(d, key) then Field(d, key) else if e.0 == key then Some(e.1) else None
  {
    FieldAppend(d, [e], key);
    FieldOne(e, key);
  }

  lemma {:induction false} RewriteLast(d: Dict<Json>, e: (string, Json), entry: (string, Json) -> Dict<Json>, key: string)
    ensures Field(Rewrite(d + [e], entry), key)
            == if Has(Rewrite(d, entry), key) then Field(Rewrite(d, entry), key) else Field(entry(e.0, e.1), key)
  {
    assert (d + [e])[..|d|] == d;
    FieldAppend(Rewrite(d, entry), entry(e.0, e.1), key);
  }

  lemma {:induction false} RewriteAbsent(d: Dict<Json>, entry: (string, Json) -> Dict<Json>, key: string)
    requires Keyed(entry) && !Has(d, key)
    ensures Field(Rewrite(d, entry), key).None?
  {
    if d != [] {
      var init, e := d[..|d| - 1], d[|d| - 1];
      assert d == init + [e];
      HasAppend(init, e, key);
      RewriteAbsent(init, entry, key);
      RewriteLast(init, e, entry, key);
    }
  }

  lemma {:induction false} DistinctInit(init: Dict<Json>, e: (string, Json))
    requires DistinctKeys(init + [e])
    ensures DistinctKeys(init) && !Has(init, e.0)
  {
    var d := init + [e];
    assert d[|init|] == e;
    assert forall i | 0 <= i < |init| :: init[i] == d[i];
  }

  /** The last entry of a table decides its own field and leaves the others. */
  lemma {:induction false} RewriteStep(init: Dict<Json>, e: (string, Json), entry: (string, Json) -> Dict<Json>, key: string)
    requires Keyed(entry) && !Has(init, e.0)
    requires key != e.0 ==> Field(Rewrite(init, entry), key)
                            == if Has(init, key) then Field(entry(key, Field(init, key).value), key) else None
    ensures var d := init + [e];
            Field(Rewrite(d, entry), key) == if Has(d, key) then Field(entry(key, Field(d, key).value), key) else None
  {
    HasAppend(init, e, key);
    RewriteLast(init, e, entry, key);
    if e.0 == key {
      RewriteAbsent(init, entry, key);
    }
  }

  lemma {:induction false} RewriteField(d: Dict<Json>, entry: (string, Json) -> Dict<Json>, key: string)
    requires DistinctKeys(d) && Keyed(entry)
    ensures Field(Rewrite(d, entry), key) == if Has(d, key) then Field(entry(key, Field(d, key).value), key) else None
  {
    if d != [] {
      var init, e := d[..|d| - 1], d[|d| - 1];
      assert d == init + [e];
      DistinctInit(init, e);
      RewriteField(init, entry, key);
      RewriteStep(init, e, entry, key);
    }
  }

  lemma {:induction false} DropDistinct<V>(d: Dict<V>, keys: seq<string>)
    requires DistinctKeys(d)
    ensures DistinctKeys(Drop(d, keys))
    ensures forall e | e in Drop(d, keys) :: e in d
  {
    if d != [] {
      DropDistinct(d[..|d| - 1], keys);
      assert d == d[..|d| - 1] + [d[|d| - 1]];
      var before := Drop(d[..|d| - 1], keys);
      forall i | 0 <= i < |before| ensures before[i].0 != d[|d| - 1].0 {
        assert before[i] in d[..|d| - 1];
      }
    }
  }

  lemma {:induction false} StripTop(d: Dict<Json>, key: string)
    requires DistinctKeys(d)
    ensures Field(Strip(d), key)
            == if key in TOP_FIELDS || !Has(d, key) then None else Field(NestedEntry(key, Field(d, key).value), key)
  {
    NestedEntryFinal();
    DropDistinct(d, TOP_FIELDS);
    DropField(d, TOP_FIELDS, key);
    RewriteField(Drop(d, TOP_FIELDS), NestedEntry, key);
  }

  function LabOf(d: Dict<Json>): Dict<Json> {
    Fields(Field(d, "lab"))
  }

  function AgentsOf(d: Dict<Json>): Dict<Json> {
    Fields(Field(d, "agents"))
  }

  function VisionOf(d: Dict<Json>): Dict<Json> {
    Fields(Field(AgentsOf(d), "vision"))
  }

  lemma {:induction false} StripLabTable(d: Dict<Json>, key: string)
    requires DistinctKeys(d)
    ensures Field(LabOf(Strip(d)), key) == if key in LAB_FIELDS then None else Field(LabOf(d), key)
    ensures Field(Strip(d), "lab") != Some(Obj([]))
  {
    StripTop(d, "lab");
    DropField(LabOf(d), LAB_FIELDS, key);
  }

  /** One field of what is left of the agents table. */
  lemma {:induction false} StripAgentsField(agents: Dict<Json>, key: string)
    requires DistinctKeys(agents)
    ensures Field(StripAgents(agents), key)
            == if key == "modelTiers" || !Has(agents, key) then None else Field(VisionEntry(key, Field(agents, key).value), key)
  {
    VisionEntryFinal();
    DropDistinct(agents, ["modelTiers"]);
    DropField(agents, ["modelTiers"], key);
    RewriteField(Drop(agents, ["modelTiers"]), VisionEntry, key);
  }

  lemma {:induction false} StripAgentsTable(d: Dict<Json>)
    requires DistinctKeys(d)
    ensures AgentsOf(Strip(d)) == StripAgents(AgentsOf(d)) && Field(Strip(d), "agents") != Some(Obj([]))
  {
    StripTop(d, "agents");
  }

  lemma {:induction false} StripVisionTable(agents: Dict<Json>, key: string)
    requires DistinctKeys(agents)
    ensures var was, left := Fields(Field(agents, "vision")), Fields(Field(StripAgents(agents), "vision"));
            Field(left, key) == if key == "model" then None else Field(was, key)
    ensures Field(StripAgents(agents), "vision") != Some(Obj([]))
  {
    StripAgentsField(agents, "vision");
    DropField(Fields(Field(agents, "vision")), ["model"], key);
  }

  /**
    After stripping, no model field is left, no gateway field in `lab`, no
    tiers in `agents` and no model in its `vision`. Every other field of these
    tables is as before, and a table that was emptied is gone.
   */
  lemma {:induction false} StripMeaning(d: Dict<Json>, key: string)
    requires DistinctKeys(d) && DistinctKeys(AgentsOf(d))
    ensures key in TOP_FIELDS ==> Field(Strip(d), key).None?
    ensures key !in TOP_FIELDS && key != "lab" && key != "agents" ==> Field(Strip(d), key) == Field(d, key)
    ensures Field(LabOf(Strip(d)), key) == if key in LAB_FIELDS then None else Field(LabOf(d), key)
    ensures key != "vision" ==> Field(AgentsOf(Strip(d)), key) == if key == "modelTiers" then None else Field(AgentsOf(d), key)
    ensures Field(VisionOf(Strip(d)), key) == if key == "model" then None else Field(VisionOf(d), key)
    ensures Field(Strip(d), "lab") != Some(Obj([])) && Field(Strip(d), "agents") != Some(Obj([]))
    ensures Field(AgentsOf(Strip(d)), "vision") != Some(Obj([]))
  {
    StripTop(d, key);
    StripLabTable(d, key);
    StripAgentsTable(d);
    StripAgentsField(AgentsOf(d), key);
    StripVisionTable(AgentsOf(d), key);
  }

  // ----- Secrets -----

  /** The secrets of `all` are exactly those of `first` and `own`, each under its own value. */
  ghost predicate Union(all: Dict<string>, first: Dict<string>, own: Dict<string>) {
    && (forall ref :: Has(all, ref) <==> Has(first, ref) || Has(own, ref))
    && (forall ref | Has(first, ref) :: Get(all, ref) == Get(first, ref))
    && (forall ref | Has(own, ref) :: Get(all, ref) == Get(own, ref))
  }

  lemma {:induction false} PutUnion(all: Dict<string>, first: Dict<string>, own: Dict<string>, ref: string, v: string)
    requires Union(all, first, own)
    requires Has(all, ref) ==> Get(all, ref) == v
    ensures Union(Put(all, ref, v), first, Put(own, ref, v))
  {
    forall r ensures (Has(Put(all, ref, v), r) <==> Has(all, r) || r == ref)
                     && (Has(Put(own, ref, v), r) <==> Has(own, r) || r == ref)
                     && (Has(Put(all, ref, v), r) ==> Get(Put(all, ref, v), r) == if r == ref then v else Get(all, r))
                     && (Has(Put(own, ref, v), r) ==> Get(Put(own, ref, v), r) == if r == ref then v else Get(own, r)) {
      GetPut(all, ref, v, r);
      GetPut(own, ref, v, r);
    }
  }

  lemma {:induction false} AddSecretUnion(all: Dict<string>, first: Dict<string>, own: Dict<string>, ref: string, secret: Secret)
    requires Union(all, first, own) && AddSecret(all, ref, secret).Success?
    ensures AddSecret(own, ref, secret).Success?
    ensures Union(AddSecret(all, ref, secret).value, first, AddSecret(own, ref, secret).value)
  {
    if secret.Secret? {
      PutUnion(all, first, own, ref, secret.value);
    }
  }

  /** Two imports alike up to the secrets that one of them started with. */
  ghost predicate Agrees(all: Import, first: Dict<string>, own: Import) {
    own.providers == all.providers && own.mapped == all.mapped && Union(all.credentials, first, own.credentials)
  }

  lemma {:induction false} ProfileIndependent(
    p: Platform, scope: Scope, inherited: Dict<Provider>, lab: Dict<Json>, first: Dict<string>, all: Import, own: Import, profile: Profile)
    requires Agrees(all, first, own) && ImportProfile(p, scope, inherited, lab, all, profile).Success?
    ensures ImportProfile(p, scope, inherited, lab, own, profile).Success?
    ensures Agrees(ImportProfile(p, scope, inherited, lab, all, profile).value, first, ImportProfile(p, scope, inherited, lab, own, profile).value)
  {
    if Rebased(p, scope, inherited, profile).None? {
      var id := ProviderIdFor(p, scope, inherited, all.providers, profile).value;
      AddSecretUnion(all.credentials, first, own.credentials, CredentialRefFor(p.host, id), profile.credential);
    }
  }

  /** One step after the other over the first n profiles. */
  function Fold(step: (Import, Profile) -> Result<Import, ImportError>, start: Import, profiles: seq<Profile>, n: nat): Result<Import, ImportError>
    requires n <= |profiles|
  {
    if n == 0 then Success(start)
    else
      var acc :- Fold(step, start, profiles, n - 1);
      step(acc, profiles[n - 1])
  }

  function Importer(p: Platform, scope: Scope, inherited: Dict<Provider>, lab: Dict<Json>): (Import, Profile) -> Result<Import, ImportError> {
    (acc, profile) => ImportProfile(p, scope, inherited, lab, acc, profile)
  }

  /** One profile more, on either side. */
  lemma {:induction false} ImportsNext(
    p: Platform, scope: Scope, inherited: Dict<Provider>, lab: Dict<Json>, first: Dict<string>, init: seq<Profile>, all: seq<Profile>)
    requires all != [] && init == all[..|all| - 1]
    ensures var before := ImportProfiles(p, scope, inherited, lab, first, init);
            ImportProfiles(p, scope, inherited, lab, first, all)
            == if before.Failure? then Failure(before.error) else Importer(p, scope, inherited, lab)(before.value, all[|all| - 1])
  {
  }

  lemma {:induction false} FoldNext(
    step: (Import, Profile) -> Result<Import, ImportError>, start: Import, profiles: seq<Profile>, n: nat)
    requires n < |profiles|
    ensures var before := Fold(step, start, profiles, n);
            Fold(step, start, profiles, n + 1) == if before.Failure? then Failure(before.error) else step(before.value, profiles[n])
  {
  }

  /** The import is such a fold. */
  lemma {:induction false} ImportsFold(
    p: Platform, scope: Scope, inherited: Dict<Provider>, lab: Dict<Json>, first: Dict<string>, profiles: seq<Profile>, n: nat)
    requires n <= |profiles|
    ensures ImportProfiles(p, scope, inherited, lab, first, profiles[..n])
            == Fold(Importer(p, scope, inherited, lab), Import([], [], first), profiles, n)
  {
    if n > 0 {
      assert profiles[..n][..n - 1] == profiles[..n - 1];
      ImportsFold(p, scope, inherited, lab, first, profiles, n - 1);
      ImportsNext(p, scope, inherited, lab, first, profiles[..n - 1], profiles[..n]);
      FoldNext(Importer(p, scope, inherited, lab), Import([], [], first), profiles, n - 1);
    }
  }

  lemma {:induction false} AllImportsFold(
    p: Platform, scope: Scope, inherited: Dict<Provider>, lab: Dict<Json>, first: Dict<string>, profiles: seq<Profile>)
    ensures ImportProfiles(p, scope, inherited, lab, first, profiles)
            == Fold(Importer(p, scope, inherited, lab), Import([], [], first), profiles, |profiles|)
  {
    assert profiles[..|profiles|] == profiles;
    ImportsFold(p, scope, inherited, lab, first, profiles, |profiles|);
  }

  /** Two runs of the same steps that start related stay related. */
  lemma {:induction false} FoldRelates(
    step: (Import, Profile) -> Result<Import, ImportError>, related: (Import, Import) -> bool, a: Import, b: Import, profiles: seq<Profile>, n: nat)
    requires n <= |profiles| && related(a, b) && Fold(step, a, profiles, n).Success?
    requires forall c, d, x | related(c, d) && step(c, x).Success? :: step(d, x).Success? && related(step(c, x).value, step(d, x).value)
    ensures Fold(step, b, profiles, n).Success? && related(Fold(step, a, profiles, n).value, Fold(step, b, profiles, n).value)
  {
    if n > 0 {
      FoldRelates(step, related, a, b, profiles, n - 1);
    }
  }

  lemma {:induction false} FoldsIndependent(
    p: Platform, scope: Scope, inherited: Dict<Provider>, lab: Dict<Json>, first: Dict<string>, profiles: seq<Profile>)
    requires Fold(Importer(p, scope, inherited, lab), Import([], [], first), profiles, |profiles|).Success?
    ensures var step := Importer(p, scope, inherited, lab);
            var own := Fold(step, Import([], [], []), profiles, |profiles|);
            own.Success? && Agrees(Fold(step, Import([], [], first), profiles, |profiles|).value, first, own.value)
  {
    var step := Importer(p, scope, inherited, lab);
    var related := (a, b) => Agrees(a, first, b);
    forall a, b, x | related(a, b) && step(a, x).Success?
      ensures step(b, x).Success? && related(step(a, x).value, step(b, x).value)
    {
      ProfileIndependent(p, scope, inherited, lab, first, a, b, x);
    }
    FoldRelates(step, related, Import([], [], first), Import([], [], []), profiles, |profiles|);
  }

  /** A scope's own import does not depend on the secrets that were extracted before it. */
  lemma {:induction false} SecretsIndependent(
    p: Platform, scope: Scope, inherited: Dict<Provider>, lab: Dict<Json>, first: Dict<string>, profiles: seq<Profile>)
    requires ImportProfiles(p, scope, inherited, lab, first, profiles).Success?
    ensures var own := ImportProfiles(p, scope, inherited, lab, [], profiles);
            own.Success? && Agrees(ImportProfiles(p, scope, inherited, lab, first, profiles).value, first, own.value)
  {
    AllImportsFold(p, scope, inherited, lab, first, profiles);
    AllImportsFold(p, scope, inherited, lab, [], profiles);
    FoldsIndependent(p, scope, inherited, lab, first, profiles);
  }

  lemma {:induction false} MigrationIndependent(p: Platform, source: Dict<Json>, scope: Scope, inherited: Dict<Provider>, first: Dict<string>)
    requires MigrateRaw(p, source, scope, inherited, first).Success?
    ensures var own := MigrateRaw(p, source, scope, inherited, []);
            var all := MigrateRaw(p, source, scope, inherited, first).value;
            own.Success? && own.value.document == all.document && Union(all.credentials, first, own.value.credentials)
  {
    if p.settings(source).None? {
      var profiles := Profiles(p, source).value;
      SecretsIndependent(p, scope, inherited, Fields(Field(source, "lab")), first, profiles);
    }
  }

  // ----- Every secret is kept -----

  ghost predicate DistinctProfiles(profiles: seq<Profile>) {
    forall i, j | 0 <= i < j < |profiles| :: profiles[i].id != profiles[j].id
  }

  lemma {:induction false} ConfiguredDistinct(p: Platform, items: seq<Json>, lab: Dict<Json>)
    requires ConfiguredProfiles(p, items, lab).Success?
    ensures DistinctProfiles(ConfiguredProfiles(p, items, lab).value)
  {
    if items != [] {
      ConfiguredDistinct(p, items[..|items| - 1], lab);
    }
  }

  lemma {:induction false} PutDistinct(profiles: seq<Profile>, top: Profile)
    requires DistinctProfiles(profiles)
    ensures var i := ProfileIndex(profiles, top.id);
            DistinctProfiles(if i < |profiles| then profiles[i := top] else profiles + [top])
  {
  }

  lemma {:induction false} ProfilesDistinct(p: Platform, source: Dict<Json>)
    requires Profiles(p, source).Success?
    ensures DistinctProfiles(Profiles(p, source).value)
  {
    var lab := Fields(Field(source, "lab"));
    ConfiguredDistinct(p, Items(Field(lab, "gatewayProfiles")), lab);
    if Text(p, Field(lab, "gatewayUrl")) != "" {
      var profiles := ConfiguredProfiles(p, Items(Field(lab, "gatewayProfiles")), lab).value;
      var top := TopProfile(p, source, lab, profiles).value;
      if ProfileIndex(profiles, top.id) < |profiles| {
        PutDistinct(profiles, MergeProfile(p, profiles[ProfileIndex(profiles, top.id)], top, lab));
      } else {
        PutDistinct(profiles, top);
      }
    }
  }

  /** The provider of a profile reads its key from the store under a reference that holds the profile's secret. */
  ghost predicate SecretKept(p: Platform, providers: Dict<Provider>, mapped: Dict<string>, credentials: Dict<string>, profile: Profile) {
    profile.credential.Secret? ==>
      && Has(mapped, profile.id)
      && var id := Get(mapped, profile.id);
         var ref := CredentialRefFor(p.host, id);
         && Has(providers, id) && Get(providers, id).auth == Credential(ref)
         && Has(credentials, ref) && Get(credentials, ref) == profile.credential.value
  }

  lemma {:induction false} AddSecretKeeps(credentials: Dict<string>, ref: string, secret: Secret, other: string)
    requires AddSecret(credentials, ref, secret).Success? && Has(credentials, other)
    ensures var r := AddSecret(credentials, ref, secret).value;
            Has(r, other) && Get(r, other) == Get(credentials, other)
  {
    if secret.Secret? {
      GetPut(credentials, ref, secret.value, other);
    }
  }

  /** A new provider for another profile leaves a kept secret where it is. */
  lemma {:induction false} KeptBeside(
    p: Platform, acc: Import, other: string, id: string, provider: Provider, credentials: Dict<string>, profile: Profile)
    requires SecretKept(p, acc.providers, acc.mapped, acc.credentials, profile)
    requires profile.id != other && !Has(acc.providers, id)
    requires forall ref | Has(acc.credentials, ref) :: Has(credentials, ref) && Get(credentials, ref) == Get(acc.credentials, ref)
    ensures SecretKept(p, Put(acc.providers, id, provider), Put(acc.mapped, other, id), credentials, profile)
  {
    if profile.credential.Secret? {
      GetPut(acc.mapped, other, id, profile.id);
      GetPut(acc.providers, id, provider, Get(acc.mapped, profile.id));
    }
  }

  lemma {:induction false} KeptByStep(
    p: Platform, scope: Scope, inherited: Dict<Provider>, lab: Dict<Json>, acc: Import, next: Profile, profile: Profile)
    requires ImportProfile(p, scope, inherited, lab, acc, next).Success?
    requires SecretKept(p, acc.providers, acc.mapped, acc.credentials, profile) && profile.id != next.id
    ensures var r := ImportProfile(p, scope, inherited, lab, acc, next).value;
            SecretKept(p, r.providers, r.mapped, r.credentials, profile)
  {
    var rebased := Rebased(p, scope, inherited, next);
    if rebased.Some? {
      GetPut(acc.mapped, next.id, rebased.value, profile.id);
    } else {
      var id := ProviderIdFor(p, scope, inherited, acc.providers, next).value;
      var credentials := AddSecret(acc.credentials, CredentialRefFor(p.host, id), next.credential).value;
      forall ref | Has(acc.credentials, ref) ensures Has(credentials, ref) && Get(credentials, ref) == Get(acc.credentials, ref) {
        AddSecretKeeps(acc.credentials, CredentialRefFor(p.host, id), next.credential, ref);
      }
      KeptBeside(p, acc, next.id, id, ImportProvider(p, id, next, lab), credentials, profile);
    }
  }

  lemma {:induction false} KeptHere(p: Platform, acc: Import, id: string, provider: Provider, credentials: Dict<string>, profile: Profile)
    requires profile.credential.Secret? && provider.auth == Credential(CredentialRefFor(p.host, id))
    requires Has(credentials, CredentialRefFor(p.host, id)) && Get(credentials, CredentialRefFor(p.host, id)) == profile.credential.value
    ensures SecretKept(p, Put(acc.providers, id, provider), Put(acc.mapped, profile.id, id), credentials, profile)
  {
    GetPut(acc.mapped, profile.id, id, profile.id);
    GetPut(acc.providers, id, provider, id);
  }

  /** A profile with a secret becomes a provider of its own, which reads the secret. */
  lemma {:induction false} OwnStep(p: Platform, scope: Scope, inherited: Dict<Provider>, lab: Dict<Json>, acc: Import, next: Profile)
    returns (id: string)
    requires ImportProfile(p, scope, inherited, lab, acc, next).Success? && next.credential.Secret?
    ensures var r := ImportProfile(p, scope, inherited, lab, acc, next).value;
            && r.providers == Put(acc.providers, id, ImportProvider(p, id, next, lab))
            && r.mapped == Put(acc.mapped, next.id, id)
            && r.credentials == Put(acc.credentials, CredentialRefFor(p.host, id), next.credential.value)
    ensures ImportProvider(p, id, next, lab).auth == Credential(CredentialRefFor(p.host, id))
  {
    id := ProviderIdFor(p, scope, inherited, acc.providers, next).value;
  }

  lemma {:induction false} KeptByOwnStep(p: Platform, scope: Scope, inherited: Dict<Provider>, lab: Dict<Json>, acc: Import, next: Profile)
    requires ImportProfile(p, scope, inherited, lab, acc, next).Success?
    ensures var r := ImportProfile(p, scope, inherited, lab, acc, next).value;
            SecretKept(p, r.providers, r.mapped, r.credentials, next)
  {
    if next.credential.Secret? {
      var id := OwnStep(p, scope, inherited, lab, acc, next);
      var ref := CredentialRefFor(p.host, id);
      GetPut(acc.credentials, ref, next.credential.value, ref);
      KeptHere(p, acc, id, ImportProvider(p, id, next, lab), Put(acc.credentials, ref, next.credential.value), next);
    }
  }

  /** The secrets of the first n profiles are where their providers read them. */
  ghost predicate AllKept(p: Platform, r: Import, profiles: seq<Profile>, n: nat)
    requires n <= |profiles|
  {
    forall i | 0 <= i < n :: SecretKept(p, r.providers, r.mapped, r.credentials, profiles[i])
  }

  /** One more profile brings its own secret and leaves the others where they are. */
  lemma {:induction false} OneMoreKept(
    p: Platform, scope: Scope, inherited: Dict<Provider>, lab: Dict<Json>, acc: Import, profiles: seq<Profile>, n: nat)
    requires n < |profiles| && DistinctProfiles(profiles) && AllKept(p, acc, profiles, n)
    requires ImportProfile(p, scope, inherited, lab, acc, profiles[n]).Success?
    ensures AllKept(p, ImportProfile(p, scope, inherited, lab, acc, profiles[n]).value, profiles, n + 1)
  {
    var r := ImportProfile(p, scope, inherited, lab, acc, profiles[n]).value;
    KeptByOwnStep(p, scope, inherited, lab, acc, profiles[n]);
    forall i | 0 <= i < n ensures SecretKept(p, r.providers, r.mapped, r.credentials, profiles[i]) {
      KeptByStep(p, scope, inherited, lab, acc, profiles[n], profiles[i]);
    }
  }

  lemma {:induction false} FoldKept(
    p: Platform, step: (Import, Profile) -> Result<Import, ImportError>, start: Import, profiles: seq<Profile>, n: nat)
    requires n <= |profiles| && Fold(step, start, profiles, n).Success?
    requires forall acc, k | 0 <= k < |profiles| && AllKept(p, acc, profiles, k) && step(acc, profiles[k]).Success? ::
               AllKept(p, step(acc, profiles[k]).value, profiles, k + 1)
    ensures AllKept(p, Fold(step, start, profiles, n).value, profiles, n)
  {
    if n > 0 {
      FoldKept(p, step, start, profiles, n - 1);
    }
  }

  lemma {:induction false} SecretsKept(
    p: Platform, scope: Scope, inherited: Dict<Provider>, lab: Dict<Json>, first: Dict<string>, profiles: seq<Profile>)
    requires DistinctProfiles(profiles) && ImportProfiles(p, scope, inherited, lab, first, profiles).Success?
    ensures AllKept(p, ImportProfiles(p, scope, inherited, lab, first, profiles).value, profiles, |profiles|)
  {
    var step := Importer(p, scope, inherited, lab);
    AllImportsFold(p, scope, inherited, lab, first, profiles);
    forall acc, k | 0 <= k < |profiles| && AllKept(p, acc, profiles, k) && step(acc, profiles[k]).Success?
      ensures AllKept(p, step(acc, profiles[k]).value, profiles, k + 1)
    {
      OneMoreKept(p, scope, inherited, lab, acc, profiles, k);
    }
    FoldKept(p, step, Import([], [], first), profiles, |profiles|);
  }

  /** Migration extracts every secret of a V1 document, under the reference its provider will read. */
  lemma {:induction false} MigrationKeepsSecrets(p: Platform, source: Dict<Json>, scope: Scope, inherited: Dict<Provider>, first: Dict<string>, i: nat)
    requires p.settings(source).None? && MigrateRaw(p, source, scope, inherited, first).Success?
    requires i < |Profiles(p, source).value|
    ensures var r := MigrateRaw(p, source, scope, inherited, first).value;
            SecretKept(p, r.document.providers, r.mapping, r.credentials, Profiles(p, source).value[i])
  {
    ProfilesDistinct(p, source);
    var profiles := Profiles(p, source).value;
    SecretsKept(p, scope, inherited, Fields(Field(source, "lab")), first, profiles);
  }

  // ----- Local routes of imported providers -----

  lemma {:induction false} ModelTierIdsMeaning(models: seq<Model>, m: Model, i: nat)
    requires m in models && i < |m.tiers| && m.tiers[i].1 != ""
    ensures m.tiers[i].1 in ModelTierIds(models)
  {
    var init := models[..|models| - 1];
    assert models == init + [models[|models| - 1]];
    if m in init {
      ModelTierIdsMeaning(init, m, i);
    } else {
      assert TierValues(m.tiers)[i] == m.tiers[i].1;
    }
  }

  /** Every non-empty local route of an imported provider names a model it declares; the main models come first, unchanged. */
  lemma {:induction false} ImportedRoutesDeclared(models: seq<Model>, agents: Agents)
    requires UniqueIds(models)
    ensures var r := DeclareRouted(models, agents);
            && UniqueIds(r)
            && models <= r && (forall m | m in r :: m in models || m.routingOnly)
            && (forall m, i | m in models && 0 <= i < |m.tiers| && m.tiers[i].1 != "" :: Declares(r, m.tiers[i].1))
            && (forall i | 0 <= i < |agents.tiers| && agents.tiers[i].1 != "" :: Declares(r, agents.tiers[i].1))
            && (agents.vision.Some? && agents.vision.value.model.Some? && agents.vision.value.model.value != "" ==>
                  Declares(r, agents.vision.value.model.value))
  {
    var ids := LocalRoutes(models, agents);
    PlaceholdersMeaning(models, ids, []);
    forall m, i | m in models && 0 <= i < |m.tiers| && m.tiers[i].1 != "" ensures m.tiers[i].1 in ids {
      ModelTierIdsMeaning(models, m, i);
    }
    forall i | 0 <= i < |agents.tiers| && agents.tiers[i].1 != "" ensures agents.tiers[i].1 in ids {
      assert TierValues(agents.tiers)[i] == agents.tiers[i].1;
    }
  }
}
