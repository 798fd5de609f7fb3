/**
  Importing V1 documents: gateway profiles become providers, their keys become
  named credentials, and the model fields are stripped from what remains.
 */
module LegacyImport {
  import opened Basics
  import opened JsonValues
  import opened ConfigDocument
  import opened ModelMutations

  datatype Scope = Global | Project

  datatype ImportError = DuplicateProviderId | CredentialCollision | ProviderIdCollision | AmbiguousModelRef

  /**
    What the importer takes from its platform: trimming, the text and the
    integer value of a JSON value, URL canonicalisation, the digest of an
    endpoint, the recognition of one obsolete reasoning preset, and the
    recognition of a document that already is a V2 settings document.
   */
  datatype Platform = Platform(
    host: Host,
    trim: string -> string,
    text: Json -> string,
    integer: Json -> Option<int>,
    canonicalUrl: string -> string,
    digest: (string, string, string) -> string,
    obsoletePreset: (string, string, seq<string>) -> bool,
    settings: Dict<Json> -> Option<Document>)

  function Text(p: Platform, v: Option<Json>): string {
    if v.None? || v.value.Null? then ""
    else if v.value.Str? then p.trim(v.value.text)
    else p.text(v.value)
  }

  function TextOr(p: Platform, v: Option<Json>, default: string): string {
    var t := Text(p, v);
    if t == "" then default else t
  }

  /** The nullish choice between two fields. */
  function FirstOf(a: Option<Json>, b: Option<Json>): Option<Json> {
    if a.None? || a.value.Null? then b else a
  }

  // ----- Profiles -----

  datatype Secret = NoSecret | Disabled | Secret(value: string)

  datatype Profile = Profile(
    id: string,
    protocol: string,
    baseURL: string,
    modelAlias: string,
    models: seq<Model>,
    agents: Dict<Json>,
    credential: Secret)

  /** A local model id as validation will read it; the empty id is refused there. */
  function LocalId(p: Platform, v: Json): string {
    if v.Str? then p.trim(v.text) else ""
  }

  function LocalTiers(p: Platform, d: Dict<Json>): (r: Tiers)
    ensures |r| == |d|
  {
    seq(|d|, i requires 0 <= i < |d| => (d[i].0, LocalId(p, d[i].1)))
  }

  function Efforts(p: Platform, entries: seq<Json>): seq<string> {
    if entries == [] then []
    else
      var before := Efforts(p, entries[..|entries| - 1]);
      var e := entries[|entries| - 1];
      var id := p.host.lower(Text(p, if e.Obj? then FirstOf(Field(e.fields, "id"), Field(e.fields, "value")) else Some(e)));
      if id == "" then before else before + [id]
  }

  /** normalizeLegacyModel, without the obsolete preset. */
  function ImportModel(p: Platform, protocol: string, v: Json): Option<Model> {
    var raw := if v.Str? then [("id", v)] else Fields(Some(v));
    var id := Text(p, FirstOf(Field(raw, "id"), Field(raw, "model")));
    if id == "" then None
    else
      var efforts := Efforts(p, Items(Field(raw, "reasoningEfforts")));
      var effort := p.host.lower(Text(p, Field(raw, "defaultReasoningEffort")));
      var m := Model(
        id, efforts, if efforts == [] || effort == "" then None else Some(effort),
        exists i | 0 <= i < |Items(Field(raw, "modalities"))| ::
          p.host.lower(Text(p, Some(Items(Field(raw, "modalities"))[i]))) == "image",
        LocalTiers(p, Fields(Field(raw, "agentModelTiers"))), false);
      Some(if p.obsoletePreset(id, protocol, efforts)
           then m.(efforts := Without(efforts, "ultra"), defaultEffort := if m.defaultEffort == Some("ultra") then None else m.defaultEffort)
           else m)
  }

  function Without(xs: seq<string>, x: string): seq<string> {
    if xs == [] then []
    else
      var before := Without(xs[..|xs| - 1], x);
      if xs[|xs| - 1] == x then before else before + [xs[|xs| - 1]]
  }

  function ImportModels(p: Platform, protocol: string, items: seq<Json>): seq<Model> {
    if items == [] then []
    else
      var before := ImportModels(p, protocol, items[..|items| - 1]);
      var m := ImportModel(p, protocol, items[|items| - 1]);
      if m.Some? then before + [m.value] else before
  }

  /** legacyCredential: the profile's own key, else the top-level key of the active profile. */
  function ImportSecret(p: Platform, disabled: bool, key: string, lab: Dict<Json>, id: string): Secret {
    if disabled then Disabled
    else if key != "" then Secret(key)
    else if Text(p, Field(lab, "activeGatewayProfile")) == id then
      if IsTrue(Field(lab, "gatewayApiKeyDisabled")) then Disabled
      else
        var top := Text(p, Field(lab, "gatewayApiKey"));
        if top != "" then Secret(top) else NoSecret
    else NoSecret
  }

  function FirstId(models: seq<Model>): string {
    if models == [] then "" else models[0].id
  }

  /** canonicalEndpoint. */
  function Endpoint(p: Platform, url: string, protocol: string): string {
    if url == "" then "" else protocol + ":" + p.canonicalUrl(url)
  }

  /** stableProviderId: the shortest unused prefix of the digest, from twelve digits in steps of four. */
  function StableFrom(digest: string, length: nat, used: seq<string>): Option<string>
    decreases |digest| - length
  {
    if length > |digest| then None
    else if "provider-" + digest[..length] !in used then Some("provider-" + digest[..length])
    else StableFrom(digest, length + 4, used)
  }

  function StableId(p: Platform, scope: string, protocol: string, url: string, used: seq<string>): Result<string, ImportError> {
    var id := StableFrom(p.digest(scope, protocol, Endpoint(p, url, protocol)), 12, used);
    if id.Some? then Success(id.value) else Failure(ProviderIdCollision)
  }

  /** normalizeLegacyProfile; no base URL, no profile. */
  function ImportRawProfile(p: Platform, raw: Dict<Json>, lab: Dict<Json>): Result<Option<Profile>, ImportError> {
    var protocol := TextOr(p, Field(raw, "gatewayProtocol"), "openai-chat");
    var baseURL := Text(p, Field(raw, "gatewayUrl"));
    if baseURL == "" then Success(None)
    else
      var given := Text(p, Field(raw, "id"));
      var id :- if given != "" then Success(given) else StableId(p, "legacy", protocol, baseURL, []);
      var models := ImportModels(p, protocol, Items(Field(raw, "models")));
      Success(Some(Profile(
        id, protocol, baseURL,
        TextOr(p, Field(raw, "modelAlias"), FirstId(models)),
        models,
        Fields(Field(raw, "agents")),
        ImportSecret(p, IsTrue(Field(raw, "gatewayApiKeyDisabled")), Text(p, Field(raw, "gatewayApiKey")), lab, id))))
  }

  function ProfileIndex(profiles: seq<Profile>, id: string): (i: nat)
    ensures i <= |profiles|
    ensures i < |profiles| ==> profiles[i].id == id
    ensures forall j | 0 <= j < i :: profiles[j].id != id
  {
    if profiles == [] then 0
    else if profiles[0].id == id then 0
    else
      var rest := ProfileIndex(profiles[1..], id);
      assert forall j | 0 < j < rest + 1 :: profiles[j] == profiles[1..][j - 1];
      rest + 1
  }

  /** The configured profiles; a repeated id is refused. */
  function ConfiguredProfiles(p: Platform, items: seq<Json>, lab: Dict<Json>): Result<seq<Profile>, ImportError> {
    if items == [] then Success([])
    else
      var before :- ConfiguredProfiles(p, items[..|items| - 1], lab);
      var profile :- ImportRawProfile(p, Fields(Some(items[|items| - 1])), lab);
      if profile.None? then Success(before)
      else if ProfileIndex(before, profile.value.id) < |before| then Failure(DuplicateProviderId)
      else Success(before + [profile.value])
  }

  function EndpointIndex(p: Platform, profiles: seq<Profile>, endpoint: string): (i: nat)
    ensures i <= |profiles|
  {
    if profiles == [] then 0
    else if Endpoint(p, profiles[0].baseURL, profiles[0].protocol) == endpoint then 0
    else EndpointIndex(p, profiles[1..], endpoint) + 1
  }

  /** mergeLegacyProfile. */
  function MergeProfile(p: Platform, base: Profile, top: Profile, lab: Dict<Json>): Profile {
    top.(
      models := if top.models != [] then top.models else base.models,
      modelAlias := if top.modelAlias != "" then top.modelAlias else base.modelAlias,
      agents := if top.agents != [] then top.agents else base.agents,
      credential := if !top.credential.NoSecret? then top.credential
                    else ImportSecret(p, base.credential.Disabled?,
                                      if base.credential.Secret? then base.credential.value else "", lab, base.id))
  }

  /** The tiers and vision that the top-level agents lend to the top-level profile. */
  function AgentSnapshot(agents: Dict<Json>): Dict<Json> {
    (if Field(agents, "modelTiers").Some? && Field(agents, "modelTiers").value.Obj? then [("modelTiers", Field(agents, "modelTiers").value)] else [])
    + (if Field(agents, "vision").Some? && Field(agents, "vision").value.Obj? then [("vision", Field(agents, "vision").value)] else [])
  }

  /** The profile of the top-level gateway fields, under a configured profile's id when one matches. */
  function TopProfile(p: Platform, source: Dict<Json>, lab: Dict<Json>, profiles: seq<Profile>): Result<Profile, ImportError> {
    var url := Text(p, Field(lab, "gatewayUrl"));
    var protocol := TextOr(p, Field(lab, "gatewayProtocol"), "openai-chat");
    var active := Text(p, Field(lab, "activeGatewayProfile"));
    var byId := ProfileIndex(profiles, active);
    var matching := if byId < |profiles| then byId else EndpointIndex(p, profiles, Endpoint(p, url, protocol));
    var id :- if matching < |profiles| && profiles[matching].id != "" then Success(profiles[matching].id)
              else if active != "" then Success(active)
              else StableId(p, "legacy", protocol, url, []);
    var models := ImportModels(p, protocol, Items(Field(source, "models")));
    Success(Profile(
      id, protocol, url,
      TextOr(p, Field(source, "modelAlias"), FirstId(models)),
      models,
      AgentSnapshot(Fields(Field(source, "agents"))),
      ImportSecret(p, IsTrue(Field(lab, "gatewayApiKeyDisabled")), Text(p, Field(lab, "gatewayApiKey")), lab, id)))
  }

  /** legacyProfilesFromDocument. */
  function Profiles(p: Platform, source: Dict<Json>): Result<seq<Profile>, ImportError> {
    var lab := Fields(Field(source, "lab"));
    var profiles :- ConfiguredProfiles(p, Items(Field(lab, "gatewayProfiles")), lab);
    if Text(p, Field(lab, "gatewayUrl")) == "" then Success(profiles)
    else
      var top :- TopProfile(p, source, lab, profiles);
      var i := ProfileIndex(profiles, top.id);
      Success(if i < |profiles| then profiles[i := MergeProfile(p, profiles[i], top, lab)] else profiles + [top])
  }

  // ----- Providers -----

  function ImportVision(p: Platform, v: Option<Json>): Option<LocalVision> {
    if v.None? then None
    else
      var raw := Fields(v);
      var model := Field(raw, "model");
      Some(LocalVision(
        !IsFalse(Field(raw, "enabled")),
        if model.None? || model.value.Null? then None else Some(LocalId(p, model.value)),
        !IsFalse(Field(raw, "autoUseWhenMainModelTextOnly"))))
  }

  function ImportAgents(p: Platform, agents: Dict<Json>): Agents {
    Agents(
      LocalTiers(p, Fields(Field(agents, "modelTiers"))),
      ImportVision(p, Field(agents, "vision")),
      if Field(agents, "compat").Some? then Some(p.text(Field(agents, "compat").value)) else None)
  }

  function Count(p: Platform, v: Option<Json>, least: int): Option<nat>
    requires least >= 0
  {
    if v.None? then None
    else
      var n := p.integer(v.value);
      if n.Some? && n.value >= least then Some(n.value) else None
  }

  function ImportReliability(p: Platform, lab: Dict<Json>): Reliability {
    Reliability(
      Count(p, Field(lab, "gatewayMaxRetries"), 0),
      Count(p, Field(lab, "gatewayTimeoutMs"), 1),
      Count(p, Field(lab, "gatewayIdleTimeoutMs"), 1),
      Count(p, Field(lab, "gatewayMaxResponseBytes"), 1))
  }

  function NonEmpty(xs: seq<string>): (r: seq<string>)
    ensures forall x :: x in r <==> x in xs && x != ""
  {
    if xs == [] then []
    else
      assert xs == xs[..|xs| - 1] + [xs[|xs| - 1]];
      NonEmpty(xs[..|xs| - 1]) + OptionalId(xs[|xs| - 1])
  }

  function ModelTierIds(models: seq<Model>): seq<string> {
    if models == [] then []
    else ModelTierIds(models[..|models| - 1]) + NonEmpty(TierValues(models[|models| - 1].tiers))
  }

  function VisionIds(agents: Agents): seq<string> {
    if agents.vision.Some? && agents.vision.value.model.Some? then OptionalId(agents.vision.value.model.value) else []
  }

  /** Every id that a local route of a profile names. */
  function LocalRoutes(models: seq<Model>, agents: Agents): seq<string> {
    AddAllUnique([], ModelTierIds(models) + NonEmpty(TierValues(agents.tiers)) + VisionIds(agents))
  }

  /** addRoutingOnlyModels: a routing-only declaration for every routed id that is not a main model. */
  function DeclareRouted(models: seq<Model>, agents: Agents): seq<Model> {
    AddPlaceholders(models, LocalRoutes(models, agents), [])
  }

  function ProviderAuth(p: Platform, id: string, secret: Secret): Auth {
    match secret
    case NoSecret => Ambient
    case Disabled => NoAuth
    case Secret(_) => Credential(CredentialRefFor(p.host, id))
  }

  /** legacyProfileToProvider. */
  function ImportProvider(p: Platform, id: string, profile: Profile, lab: Dict<Json>): Provider {
    var agents := ImportAgents(p, profile.agents);
    Provider(
      profile.protocol, profile.baseURL, ProviderAuth(p, id, profile.credential),
      DeclareRouted(profile.models, agents), agents, ImportReliability(p, lab))
  }

  // ----- Rebasing project profiles on global providers -----

  predicate SameEndpoint(p: Platform, protocol: string, url: string, other: Provider) {
    var left := if protocol == "" then "openai-chat" else protocol;
    var right := if other.protocol == "" then "openai-chat" else other.protocol;
    left == right && Endpoint(p, url, left) == Endpoint(p, other.baseURL, right)
  }

  function Shape(m: Model): (string, multiset<string>, bool) {
    (m.id, multiset(m.efforts), m.image)
  }

  function Shapes(models: seq<Model>): multiset<(string, multiset<string>, bool)> {
    if models == [] then multiset{} else Shapes(models[..|models| - 1]) + multiset{Shape(models[|models| - 1])}
  }

  /** sameProviderIdentity. */
  predicate SameIdentity(p: Platform, profile: Profile, other: Provider) {
    SameEndpoint(p, profile.protocol, profile.baseURL, other) && Shapes(profile.models) == Shapes(other.models)
  }

  /** inheritedCloneForProfile: the first global provider that is the same channel. */
  function InheritedClone(p: Platform, profile: Profile, inherited: Dict<Provider>): Option<string> {
    if inherited == [] then None
    else if SameIdentity(p, profile, inherited[0].1) then Some(inherited[0].0)
    else InheritedClone(p, profile, inherited[1..])
  }

  // ----- One document -----

  function Keys<V>(d: Dict<V>): seq<string> {
    seq(|d|, i requires 0 <= i < |d| => d[i].0)
  }

  /** Providers so far, profile id to provider id, and the secrets of both scopes so far. */
  datatype Import = Import(providers: Dict<Provider>, mapped: Dict<string>, credentials: Dict<string>)

  function ScopeName(scope: Scope): string {
    if scope.Global? then "global" else "project"
  }

  function AddSecret(credentials: Dict<string>, ref: string, secret: Secret): Result<Dict<string>, ImportError> {
    if !secret.Secret? then Success(credentials)
    else if Has(credentials, ref) && Get(credentials, ref) != secret.value then Failure(CredentialCollision)
    else Success(Put(credentials, ref, secret.value))
  }

  /** A profile whose channel the global document already has, and which brings no secret of its own. */
  function Rebased(p: Platform, scope: Scope, inherited: Dict<Provider>, profile: Profile): Option<string> {
    if scope.Project? && profile.credential.NoSecret? then InheritedClone(p, profile, inherited) else None
  }

  /** The profile's own id, or a stable one when a different global provider holds it. */
  function ProviderIdFor(p: Platform, scope: Scope, inherited: Dict<Provider>, providers: Dict<Provider>, profile: Profile)
    : Result<string, ImportError>
  {
    if Has(inherited, profile.id) && !SameIdentity(p, profile, Get(inherited, profile.id)) then
      StableId(p, ScopeName(scope), profile.protocol, profile.baseURL, Keys(inherited) + Keys(providers))
    else Success(profile.id)
  }

  function ImportProfile(p: Platform, scope: Scope, inherited: Dict<Provider>, lab: Dict<Json>, acc: Import, profile: Profile)
    : Result<Import, ImportError>
  {
    var rebased := Rebased(p, scope, inherited, profile);
    if rebased.Some? then Success(acc.(mapped := Put(acc.mapped, profile.id, rebased.value)))
    else
      var id :- ProviderIdFor(p, scope, inherited, acc.providers, profile);
      if Has(acc.providers, id) then Failure(DuplicateProviderId)
      else
        var credentials :- AddSecret(acc.credentials, CredentialRefFor(p.host, id), profile.credential);
        Success(Import(
          Put(acc.providers, id, ImportProvider(p, id, profile, lab)), Put(acc.mapped, profile.id, id), credentials))
  }

  function ImportProfiles(
    p: Platform, scope: Scope, inherited: Dict<Provider>, lab: Dict<Json>, credentials: Dict<string>, profiles: seq<Profile>)
    : Result<Import, ImportError>
  {
    if profiles == [] then Success(Import([], [], credentials))
    else
      var acc :- ImportProfiles(p, scope, inherited, lab, credentials, profiles[..|profiles| - 1]);
      ImportProfile(p, scope, inherited, lab, acc, profiles[|profiles| - 1])
  }

  function SameEndpointIndex(p: Platform, profiles: seq<Profile>, protocol: string, url: string): (i: nat)
    ensures i <= |profiles|
  {
    if profiles == [] then 0
    else
      var left := if profiles[0].protocol == "" then "openai-chat" else profiles[0].protocol;
      if left == protocol && Endpoint(p, profiles[0].baseURL, left) == Endpoint(p, url, protocol) then 0
      else SameEndpointIndex(p, profiles[1..], protocol, url) + 1
  }

  function SelectedProfile(p: Platform, lab: Dict<Json>, profiles: seq<Profile>): (i: nat)
    ensures i <= |profiles|
  {
    var byId := ProfileIndex(profiles, Text(p, Field(lab, "activeGatewayProfile")));
    if byId < |profiles| then byId
    else
      var byEndpoint := SameEndpointIndex(
        p, profiles, TextOr(p, Field(lab, "gatewayProtocol"), "openai-chat"), Text(p, Field(lab, "gatewayUrl")));
      if byEndpoint < |profiles| then byEndpoint else if |profiles| == 1 then 0 else |profiles|
  }

  function SelectedEffort(p: Platform, source: Dict<Json>, models: seq<Model>, model: string): Option<string> {
    var i := ModelIndex(models, model);
    var effort :=
      if Field(source, "reasoningEffort").Some? then p.host.lower(Text(p, Field(source, "reasoningEffort")))
      else if i < |models| && models[i].defaultEffort.Some? then p.host.lower(models[i].defaultEffort.value) else p.host.lower("");
    if i < |models| && effort in models[i].efforts then Some(effort) else None
  }

  /** legacySelection. */
  function ImportSelection(p: Platform, source: Dict<Json>, profiles: seq<Profile>, mapped: Dict<string>, inherited: Dict<Provider>): Option<Ref> {
    var lab := Fields(Field(source, "lab"));
    var s := SelectedProfile(p, lab, profiles);
    var provider :=
      if s < |profiles| then (if Has(mapped, profiles[s].id) then Get(mapped, profiles[s].id) else profiles[s].id)
      else Text(p, Field(lab, "activeGatewayProfile"));
    if provider == "" then None
    else
      var models := if s < |profiles| then profiles[s].models
                    else if Has(inherited, provider) then Get(inherited, provider).models else [];
      var alias := if s < |profiles| && profiles[s].modelAlias != "" then profiles[s].modelAlias else FirstId(models);
      var model := TextOr(p, Field(source, "modelAlias"), alias);
      if model == "" then None else Some(Ref(provider, model, SelectedEffort(p, source, models, model)))
  }

  /** Later entries win over earlier ones under the same key. */
  function Merged<V>(a: Dict<V>, b: Dict<V>): Dict<V> {
    if b == [] then a else Put(Merged(a, b[..|b| - 1]), b[|b| - 1].0, b[|b| - 1].1)
  }

  function Declaring(d: Dict<Provider>, model: string): seq<string> {
    if d == [] then []
    else
      var before := Declaring(d[..|d| - 1], model);
      if Declares(d[|d| - 1].1.models, model) then before + [d[|d| - 1].0] else before
  }

  /** resolveProviderForModel: None when no provider declares the model. */
  function ProviderFor(d: Dict<Provider>, model: string, preferred: string): Result<Option<string>, ImportError> {
    if preferred != "" && Has(d, preferred) && Declares(Get(d, preferred).models, model) then Success(Some(preferred))
    else
      var found := Declaring(d, model);
      if |found| == 1 then Success(Some(found[0])) else if found == [] then Success(None) else Failure(AmbiguousModelRef)
  }

  /** Whether a V1 route becomes a qualified one: only under the selected provider. */
  function RouteFor(d: Dict<Provider>, selection: Option<Ref>, model: string): Result<Option<Ref>, ImportError> {
    if model == "" then Success(None)
    else
      var found :- ProviderFor(d, model, if selection.Some? then selection.value.provider else "");
      Success(if found.Some? && selection.Some? && found.value == selection.value.provider then Some(Ref(found.value, model, None)) else None)
  }

  function ImportRouteTiers(p: Platform, d: Dict<Provider>, selection: Option<Ref>, tiers: Dict<Json>): Result<Dict<Ref>, ImportError> {
    if tiers == [] then Success([])
    else
      var before :- ImportRouteTiers(p, d, selection, tiers[..|tiers| - 1]);
      var ref :- RouteFor(d, selection, Text(p, Some(tiers[|tiers| - 1].1)));
      Success(if ref.Some? then before + [(tiers[|tiers| - 1].0, ref.value)] else before)
  }

  /** legacyAgentRouting. */
  function ImportRouting(p: Platform, source: Dict<Json>, selection: Option<Ref>, candidates: Dict<Provider>): Result<Routing, ImportError> {
    var agents := Fields(Field(source, "agents"));
    var tiers :- ImportRouteTiers(p, candidates, selection, Fields(Field(agents, "modelTiers")));
    var raw := Fields(Field(agents, "vision"));
    var ref :- RouteFor(candidates, selection, Text(p, Field(raw, "model")));
    Success(Routing(
      tiers,
      if ref.Some? then Some(RouteVision(!IsFalse(Field(raw, "enabled")), ref, !IsFalse(Field(raw, "autoUseWhenMainModelTextOnly")))) else None,
      None))
  }

  datatype Imported = Imported(document: Document, credentials: Dict<string>, mapping: Dict<string>)

  /** migrateRawDocument. */
  function MigrateRaw(p: Platform, source: Dict<Json>, scope: Scope, inherited: Dict<Provider>, credentials: Dict<string>): Result<Imported, ImportError> {
    if p.settings(source).Some? then Success(Imported(p.settings(source).value, credentials, []))
    else
      var profiles :- Profiles(p, source);
      var acc :- ImportProfiles(p, scope, inherited, Fields(Field(source, "lab")), credentials, profiles);
      var selection := ImportSelection(p, source, profiles, acc.mapped, inherited);
      var routing :- ImportRouting(p, source, selection, Merged(inherited, acc.providers));
      Success(Imported(Document(acc.providers, selection, routing), acc.credentials, acc.mapped))
  }

  // ----- What remains -----

  const TOP_FIELDS: seq<string> := ["modelAlias", "models", "reasoningEffort"]

  const LAB_FIELDS: seq<string> := [
    "gatewayUrl", "gatewayHealthUrl", "gatewayProtocol", "gatewayApiKey", "gatewayApiKeyDisabled",
    "activeGatewayProfile", "gatewayProfiles"]

  function Drop<V>(d: Dict<V>, keys: seq<string>): Dict<V> {
    if d == [] then []
    else
      var before := Drop(d[..|d| - 1], keys);
      if d[|d| - 1].0 in keys then before else before + [d[|d| - 1]]
  }

  /** Applies a rewrite to one object-valued entry and drops it when nothing is left. */
  function Shrink(key: string, v: Json, rest: Dict<Json>): Dict<Json> {
    if !v.Obj? then [(key, v)] else if rest == [] then [] else [(key, Obj(rest))]
  }

  function VisionEntry(key: string, v: Json): Dict<Json> {
    if key == "vision" then Shrink(key, v, Drop(Fields(Some(v)), ["model"])) else [(key, v)]
  }

  /** What becomes of a table when each entry is rewritten on its own. */
  function Rewrite(d: Dict<Json>, entry: (string, Json) -> Dict<Json>): Dict<Json> {
    if d == [] then [] else Rewrite(d[..|d| - 1], entry) + entry(d[|d| - 1].0, d[|d| - 1].1)
  }

  function StripVision(d: Dict<Json>): Dict<Json> {
    Rewrite(d, VisionEntry)
  }

  function StripAgents(d: Dict<Json>): Dict<Json> {
    StripVision(Drop(d, ["modelTiers"]))
  }

  function NestedEntry(key: string, v: Json): Dict<Json> {
    if key == "lab" then Shrink(key, v, Drop(Fields(Some(v)), LAB_FIELDS))
    else if key == "agents" then Shrink(key, v, StripAgents(Fields(Some(v))))
    else [(key, v)]
  }

  function StripNested(d: Dict<Json>): Dict<Json> {
    Rewrite(d, NestedEntry)
  }

  /** stripLegacyModelFields. */
  function Strip(d: Dict<Json>): Dict<Json> {
    StripNested(Drop(d, TOP_FIELDS))
  }
}
