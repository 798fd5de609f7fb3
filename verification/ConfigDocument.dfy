/**
  Config V2 settings documents in the normal form that validation produces:
  every string is trimmed, and an absent namespace, tier table or route table
  is the same value as an empty one.
 */

/** Results, optional values and JSON objects (entries in insertion order). */
module Basics {
  datatype Option<+T> = None | Some(value: T)

  datatype Result<+T, +E> = Success(value: T) | Failure(error: E) {
    predicate IsFailure() {
      Failure?
    }

    function PropagateFailure<U>(): Result<U, E>
      requires Failure?
    {
      Failure(error)
    }

    function Extract(): T
      requires Success?
    {
      value
    }
  }

  type Dict<V> = seq<(string, V)>

  predicate DistinctKeys<V>(d: Dict<V>) {
    forall i, j | 0 <= i < j < |d| :: d[i].0 != d[j].0
  }

  /** Position of a key, or |d| when the key is absent. */
  function KeyIndex<V>(d: Dict<V>, key: string): (i: nat)
    ensures i <= |d|
    ensures i < |d| ==> d[i].0 == key
    ensures forall j | 0 <= j < i :: d[j].0 != key
  {
    if d == [] then 0
    else if d[0].0 == key then 0
    else
      var rest := KeyIndex(d[1..], key);
      assert forall j | 0 < j < rest + 1 :: d[j] == d[1..][j - 1];
      rest + 1
  }

  predicate Has<V>(d: Dict<V>, key: string) {
    KeyIndex(d, key) < |d|
  }

  function Get<V>(d: Dict<V>, key: string): V
    requires Has(d, key)
  {
    d[KeyIndex(d, key)].1
  }

  /** Assignment to a key: an existing entry keeps its place, a new one goes last. */
  function Put<V>(d: Dict<V>, key: string, v: V): Dict<V> {
    var i := KeyIndex(d, key);
    if i < |d| then d[i := (key, v)] else d + [(key, v)]
  }

  function Remove<V>(d: Dict<V>, key: string): Dict<V> {
    var i := KeyIndex(d, key);
    if i < |d| then d[..i] + d[i + 1..] else d
  }

  lemma {:induction false} KeyAt<V>(d: Dict<V>, i: nat)
    requires DistinctKeys(d) && i < |d|
    ensures KeyIndex(d, d[i].0) == i
  {
  }

  lemma {:induction false} GetPut<V>(d: Dict<V>, key: string, v: V, other: string)
    ensures Has(Put(d, key, v), other) <==> other == key || Has(d, other)
    ensures Has(Put(d, key, v), other) ==>
              Get(Put(d, key, v), other) == if other == key then v else Get(d, other)
    ensures DistinctKeys(d) ==> DistinctKeys(Put(d, key, v))
  {
    var p := Put(d, key, v);
    var i, j, k := KeyIndex(d, key), KeyIndex(p, other), KeyIndex(d, other);
    assert forall n | 0 <= n < |d| && n != i :: p[n] == d[n];
    if other == key {
      assert p[i].0 == key;
    } else {
      if k < |d| { assert p[k] == d[k]; }
      if j < |p| { assert j != i; assert p[j] == d[j]; }
    }
  }

  lemma {:induction false} GetRemove<V>(d: Dict<V>, key: string, other: string)
    requires DistinctKeys(d)
    ensures Has(Remove(d, key), other) <==> other != key && Has(d, other)
    ensures Has(Remove(d, key), other) ==> Get(Remove(d, key), other) == Get(d, other)
    ensures DistinctKeys(Remove(d, key))
  {
    var r := Remove(d, key);
    var i, j, k := KeyIndex(d, key), KeyIndex(r, other), KeyIndex(d, other);
    if i < |d| {
      assert forall n | 0 <= n < |r| :: r[n] == if n < i then d[n] else d[n + 1];
      if k < |d| && other != key {
        assert r[if k < i then k else k - 1] == d[k];
      }
    }
  }

  /** A set kept in insertion order. */
  function AddUnique(xs: seq<string>, x: string): (r: seq<string>)
    ensures forall y :: y in r <==> y in xs || y == x
  {
    if x in xs then xs else xs + [x]
  }

  function AddAllUnique(xs: seq<string>, ys: seq<string>): (r: seq<string>)
    ensures forall y :: y in r <==> y in xs || y in ys
  {
    if ys == [] then xs
    else
      assert ys == ys[..|ys| - 1] + [ys[|ys| - 1]];
      AddUnique(AddAllUnique(xs, ys[..|ys| - 1]), ys[|ys| - 1])
  }

  lemma {:induction false} AddAllUniqueAppend(xs: seq<string>, ys: seq<string>, y: string)
    ensures AddAllUnique(xs, ys + [y]) == AddUnique(AddAllUnique(xs, ys), y)
  {
    assert (ys + [y])[..|ys|] == ys;
  }

  lemma {:induction false} AddAllUniqueSplit(xs: seq<string>, ys: seq<string>, zs: seq<string>)
    ensures AddAllUnique(xs, ys + zs) == AddAllUnique(AddAllUnique(xs, ys), zs)
  {
    if zs == [] {
      assert ys + zs == ys;
    } else {
      var n := |ys + zs| - 1;
      assert (ys + zs)[..n] == ys + zs[..|zs| - 1];
      AddAllUniqueSplit(xs, ys, zs[..|zs| - 1]);
    }
  }
}

/** The settings document and the checks that validation makes on its structure. */
module ConfigDocument {
  import opened Basics

  /** Provider-local routes: tier name to model id. */
  type Tiers = Dict<string>

  /** reasoning.efforts (empty when the model declares no reasoning) and its default. */
  datatype Model = Model(
    id: string,
    efforts: seq<string>,
    defaultEffort: Option<string>,
    image: bool,
    tiers: Tiers,
    routingOnly: bool)

  datatype Ref = Ref(provider: string, model: string, effort: Option<string>)

  datatype LocalVision = LocalVision(enabled: bool, model: Option<string>, autoUse: bool)

  datatype Agents = Agents(tiers: Tiers, vision: Option<LocalVision>, compat: Option<string>)

  const NO_AGENTS := Agents([], None, None)

  datatype Auth = Credential(ref: string) | Ambient | NoAuth

  datatype Reliability = Reliability(
    maxRetries: Option<nat>,
    timeoutMs: Option<nat>,
    idleTimeoutMs: Option<nat>,
    maxResponseBytes: Option<nat>)

  datatype Provider = Provider(
    protocol: string,
    baseURL: string,
    auth: Auth,
    models: seq<Model>,
    agents: Agents,
    reliability: Reliability)

  datatype RouteVision = RouteVision(enabled: bool, model: Option<Ref>, autoUse: bool)

  datatype Routing = Routing(tiers: Dict<Ref>, vision: Option<RouteVision>, compat: Option<string>)

  const NO_ROUTING := Routing([], None, None)

  datatype Document = Document(providers: Dict<Provider>, selection: Option<Ref>, routing: Routing)

  const EMPTY_DOCUMENT := Document([], None, NO_ROUTING)

  /**
    What the source obtains from its platform: lower-casing, the readable name
    and digest that end a provider's credential reference, and URL
    canonicalisation. Nothing is assumed about any of the three.
   */
  datatype Host = Host(
    lower: string -> string,
    credentialSuffix: string -> string,
    canonicalUrl: string -> string)

  function CredentialRefFor(host: Host, provider: string): (ref: string)
    ensures ref != ""
  {
    "ANTCODE_GATEWAY_" + host.credentialSuffix(provider)
  }

  function Ids(models: seq<Model>): (ids: seq<string>)
    ensures |ids| == |models|
    ensures forall i | 0 <= i < |models| :: ids[i] == models[i].id
  {
    seq(|models|, i requires 0 <= i < |models| => models[i].id)
  }

  predicate UniqueIds(models: seq<Model>) {
    forall i, j | 0 <= i < j < |models| :: models[i].id != models[j].id
  }

  /** Position of the first model with an id, or |models|. */
  function ModelIndex(models: seq<Model>, id: string): (i: nat)
    ensures i <= |models|
    ensures i < |models| ==> models[i].id == id
    ensures forall j | 0 <= j < i :: models[j].id != id
  {
    if models == [] then 0
    else if models[0].id == id then 0
    else
      var rest := ModelIndex(models[1..], id);
      assert forall j | 0 < j < rest + 1 :: models[j] == models[1..][j - 1];
      rest + 1
  }

  predicate Declares(models: seq<Model>, id: string) {
    ModelIndex(models, id) < |models|
  }

  lemma {:induction false} DeclaresIff(models: seq<Model>, id: string)
    ensures Declares(models, id) <==> id in Ids(models)
    ensures Declares(models, id) <==> exists i :: 0 <= i < |models| && models[i].id == id
  {
    if Declares(models, id) {
      assert Ids(models)[ModelIndex(models, id)] == id;
    }
  }

  predicate ValidModel(m: Model) {
    && m.id != ""
    && (m.defaultEffort.Some? ==> m.defaultEffort.value in m.efforts)
    && forall i | 0 <= i < |m.tiers| :: m.tiers[i].1 != ""
  }

  predicate ValidProvider(p: Provider) {
    && |p.models| > 0
    && (p.auth.Credential? ==> p.auth.ref != "")
    && UniqueIds(p.models)
    && (forall i | 0 <= i < |p.models| :: ValidModel(p.models[i]))
    && (forall i | 0 <= i < |p.agents.tiers| :: p.agents.tiers[i].1 != "")
    && (p.agents.vision.Some? && p.agents.vision.value.model.Some? ==> p.agents.vision.value.model.value != "")
  }

  predicate ValidRef(r: Ref) {
    r.provider != "" && r.model != ""
  }

  predicate ValidRouting(r: Routing) {
    && DistinctKeys(r.tiers)
    && (forall i | 0 <= i < |r.tiers| :: ValidRef(r.tiers[i].1))
    && (r.vision.Some? && r.vision.value.model.Some? ==> ValidRef(r.vision.value.model.value))
  }

  /** The structural checks of validateSettingsDocument on a normal-form document. */
  predicate ValidDocument(d: Document) {
    && DistinctKeys(d.providers)
    && (forall i | 0 <= i < |d.providers| :: d.providers[i].0 != "" && ValidProvider(d.providers[i].1))
    && (d.selection.Some? ==> ValidRef(d.selection.value))
    && ValidRouting(d.routing)
  }
}
