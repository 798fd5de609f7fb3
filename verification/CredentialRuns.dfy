/**
  Runs of edits over one settings document, with each returned credential
  effect applied to the credential store.
 */
module CredentialRuns {
  import opened Basics
  import opened ConfigDocument
  import opened Resolver
  import opened Acceptance
  import opened ModelMutations
  import opened ConfigEdits
  import opened EditTheorems

  /** `elsewhere` lists the references that other scopes use, when the caller looks them up. */
  datatype Edit =
    | Save(input: UpsertInput, draw: Draw, elsewhere: Option<seq<string>>)
    | RemoveModel(provider: string, model: string, protectedIds: seq<string>, elsewhere: Option<seq<string>>)
    | RemoveProvider(provider: string, elsewhere: Option<seq<string>>)

  type Store = map<string, string>

  /** The snapshot of references across all scopes that the caller hands to an edit. */
  function AcrossScopes(d: Document, elsewhere: Option<seq<string>>): Option<seq<string>> {
    if elsewhere.None? then None else Some(DocumentReferences(d.providers) + elsewhere.value)
  }

  function EditDocument(host: Host, d: Document, e: Edit): Result<Edited, MutationError> {
    match e
    case Save(input, draw, elsewhere) => Upsert(host, d, input.(credentialReferences := AcrossScopes(d, elsewhere)), draw)
    case RemoveModel(provider, model, protectedIds, elsewhere) =>
      DeleteModel(host, d, provider, model, protectedIds, AcrossScopes(d, elsewhere))
    case RemoveProvider(provider, elsewhere) => DeleteProvider(d, provider, AcrossScopes(d, elsewhere))
  }

  function RemovedBy(effect: CredentialEffect): set<string> {
    match effect
    case NoEffect => {}
    case SetSecret(_, _, cleanup) => if cleanup.Some? then {cleanup.value} else {}
    case ClearSecret(ref) => {ref}
  }

  function ApplyEffect(store: Store, effect: CredentialEffect): Store {
    (if effect.SetSecret? then store[effect.ref := effect.secret] else store) - RemovedBy(effect)
  }

  /** `saved` remembers, for the proof, the secret last saved for each provider. */
  datatype State = State(document: Document, store: Store, saved: map<string, string>)

  function Step(host: Host, s: State, e: Edit): State {
    var r := EditDocument(host, s.document, e);
    if r.Failure? then s
    else
      State(
        r.value.document,
        ApplyEffect(s.store, r.value.effect),
        if r.value.effect.SetSecret? then s.saved[r.value.provider := r.value.effect.secret] else s.saved)
  }

  function Run(host: Host, s: State, edits: seq<Edit>): State {
    if edits == [] then s else Step(host, Run(host, s, edits[..|edits| - 1]), edits[|edits| - 1])
  }

  // ----- Counting references -----

  ghost predicate Named(d: Dict<Provider>) {
    DistinctKeys(d) && forall e | e in d :: e.1.auth.Credential? ==> e.1.auth.ref != ""
  }

  ghost predicate Holds(d: Dict<Provider>, q: string, ref: string) {
    Has(d, q) && Get(d, q).auth == Credential(ref)
  }

  lemma {:induction false} HeldOnce(d: Dict<Provider>, i: nat, ref: string)
    requires i < |d| && d[i].1.auth == Credential(ref)
    ensures multiset(DocumentReferences(d))[ref] >= 1
  {
    if i < |d| - 1 { HeldOnce(d[..|d| - 1], i, ref); }
  }

  lemma {:induction false} HeldTwice(d: Dict<Provider>, i: nat, j: nat, ref: string)
    requires i < j < |d| && d[i].1.auth == Credential(ref) && d[j].1.auth == Credential(ref)
    ensures multiset(DocumentReferences(d))[ref] >= 2
  {
    if j < |d| - 1 { HeldTwice(d[..|d| - 1], i, j, ref); } else { HeldOnce(d[..|d| - 1], i, ref); }
  }

  function Elsewhere(elsewhere: Option<seq<string>>): seq<string> {
    if elsewhere.Some? then elsewhere.value else []
  }

  /** A reference with no other uses is held by nobody but its provider. */
  lemma {:induction false} NoOtherUses(d: Document, elsewhere: Option<seq<string>>, p: string, ref: string)
    requires Named(d.providers) && ref != ""
    requires Holds(d.providers, p, ref)
    requires OtherUses(UsedReferences(d, AcrossScopes(d, elsewhere)), ref, ref) == 0
    ensures forall q | q != p :: !Holds(d.providers, q, ref)
    ensures ref !in Elsewhere(elsewhere)
  {
    var i := KeyIndex(d.providers, p);
    HeldOnce(d.providers, i, ref);
    forall q | q != p ensures !Holds(d.providers, q, ref) {
      if Holds(d.providers, q, ref) {
        var j := KeyIndex(d.providers, q);
        if i < j { HeldTwice(d.providers, i, j, ref); } else { HeldTwice(d.providers, j, i, ref); }
      }
    }
  }

  lemma {:induction false} Unused(d: Document, elsewhere: Option<seq<string>>, ref: string)
    requires ref !in UsedReferences(d, AcrossScopes(d, elsewhere))
    ensures forall q :: !Holds(d.providers, q, ref)
    ensures ref !in Elsewhere(elsewhere)
  {
    forall q ensures !Holds(d.providers, q, ref) {
      if Holds(d.providers, q, ref) { HeldOnce(d.providers, KeyIndex(d.providers, q), ref); }
    }
  }

  lemma {:induction false} ReferenceHeld(d: Dict<Provider>, ref: string) returns (i: nat)
    requires ref in DocumentReferences(d)
    ensures i < |d| && d[i].1.auth == Credential(ref)
  {
    i := |d| - 1;
    if d[i].1.auth != Credential(ref) { i := ReferenceHeld(d[..i], ref); }
  }

  lemma {:induction false} ReferenceHeldAgain(d: Dict<Provider>, i: nat, ref: string) returns (j: nat)
    requires i < |d| && multiset(DocumentReferences(d))[ref] >= 2
    ensures j < |d| && j != i && d[j].1.auth == Credential(ref)
  {
    j := |d| - 1;
    if i == j {
      j := ReferenceHeld(d[..j], ref);
    } else if d[j].1.auth != Credential(ref) {
      j := ReferenceHeldAgain(d[..j], i, ref);
    }
  }

  /** A reference that counts other uses is held by another provider, here or elsewhere. */
  lemma {:induction false} OtherUsesHold(d: Document, elsewhere: Option<seq<string>>, p: string, ref: string)
    requires Named(d.providers) && Holds(d.providers, p, ref)
    requires OtherUses(UsedReferences(d, AcrossScopes(d, elsewhere)), ref, ref) > 0
    ensures ref in Elsewhere(elsewhere) || exists q :: q != p && Holds(d.providers, q, ref)
  {
    if ref !in Elsewhere(elsewhere) {
      var i := KeyIndex(d.providers, p);
      var j := ReferenceHeldAgain(d.providers, i, ref);
      KeyAt(d.providers, j);
      assert d.providers[j].0 != p && Holds(d.providers, d.providers[j].0, ref);
    }
  }

  // ----- One edit -----

  /** Credentials of providers other than p are as they were. */
  ghost predicate OthersKept(before: Document, after: Document, p: string) {
    forall q, ref | q != p :: Holds(after.providers, q, ref) ==> Holds(before.providers, q, ref)
  }

  /** What is removed from the store is used by no provider of the new document, and nowhere else. */
  ghost predicate RemovalSafe(after: Document, effect: CredentialEffect, elsewhere: Option<seq<string>>) {
    forall ref | ref in RemovedBy(effect) :: ref !in Elsewhere(elsewhere) && forall q :: !Holds(after.providers, q, ref)
  }

  /** A reference that was held is removed from the store or still held, here or elsewhere. */
  ghost predicate RemovalComplete(before: Document, after: Document, effect: CredentialEffect, elsewhere: Option<seq<string>>) {
    forall q, ref | Holds(before.providers, q, ref) && ref !in RemovedBy(effect) && ref !in Elsewhere(elsewhere) ::
      HeldBySome(after.providers, ref)
  }

  ghost predicate HeldBySome(d: Dict<Provider>, ref: string) {
    exists q :: Holds(d, q, ref)
  }

  /** A secret is set for p under a reference that nobody held; otherwise p's credential, if any, is its old one. */
  ghost predicate OwnCredential(before: Document, after: Document, p: string, effect: CredentialEffect, elsewhere: Option<seq<string>>) {
    if effect.SetSecret? then
      && Holds(after.providers, p, effect.ref)
      && (forall q :: !Holds(before.providers, q, effect.ref))
      && effect.ref !in Elsewhere(elsewhere)
    else forall ref :: Holds(after.providers, p, ref) ==> Holds(before.providers, p, ref)
  }

  ghost predicate EffectSafe(before: Document, after: Document, p: string, effect: CredentialEffect, elsewhere: Option<seq<string>>) {
    && Named(after.providers)
    && OthersKept(before, after, p)
    && RemovalSafe(after, effect, elsewhere)
    && RemovalComplete(before, after, effect, elsewhere)
    && OwnCredential(before, after, p, effect, elsewhere)
  }

  /** What goes is p's own and nobody else's, or nobody's. */
  ghost predicate RemovesUnheld(d: Document, p: string, auth: Auth, effect: CredentialEffect, elsewhere: Option<seq<string>>) {
    forall ref | ref in RemovedBy(effect) ::
      && (forall q | q != p :: !Holds(d.providers, q, ref))
      && ref !in Elsewhere(elsewhere)
      && auth != Credential(ref)
  }

  /** What p gives up but the store keeps has another holder. */
  ghost predicate LeavesHeld(d: Document, p: string, auth: Auth, effect: CredentialEffect, elsewhere: Option<seq<string>>) {
    forall ref | Holds(d.providers, p, ref) && ref !in RemovedBy(effect) && auth != Credential(ref) && ref !in Elsewhere(elsewhere) ::
      exists q :: q != p && Holds(d.providers, q, ref)
  }

  /** What an edit must know about the new credential of p. */
  ghost predicate CredentialSafe(d: Document, p: string, auth: Auth, effect: CredentialEffect, elsewhere: Option<seq<string>>) {
    && (auth.Credential? ==> auth.ref != "")
    && RemovesUnheld(d, p, auth, effect, elsewhere)
    && LeavesHeld(d, p, auth, effect, elsewhere)
    && (if effect.SetSecret? then
          && auth == Credential(effect.ref)
          && (forall q :: !Holds(d.providers, q, effect.ref))
          && effect.ref !in Elsewhere(elsewhere)
        else auth.Credential? ==> Holds(d.providers, p, auth.ref))
  }

  lemma {:induction false} PutHolds(d: Dict<Provider>, p: string, saved: Provider)
    requires Named(d) && (saved.auth.Credential? ==> saved.auth.ref != "")
    ensures Named(Put(d, p, saved))
    ensures forall q, ref :: Holds(Put(d, p, saved), q, ref) <==> if q == p then saved.auth == Credential(ref) else Holds(d, q, ref)
  {
    var r := Put(d, p, saved);
    forall q { GetPut(d, p, saved, q); }
    GetPut(d, p, saved, p);
    forall e | e in r ensures e == (p, saved) || e in d {
      var i :| 0 <= i < |r| && r[i] == e;
    }
  }

  lemma {:induction false} PutSafe(d: Document, r: Document, p: string, saved: Provider, effect: CredentialEffect, elsewhere: Option<seq<string>>)
    requires Named(d.providers) && r.providers == Put(d.providers, p, saved)
    requires CredentialSafe(d, p, saved.auth, effect, elsewhere)
    ensures EffectSafe(d, r, p, effect, elsewhere)
  {
    PutHolds(d.providers, p, saved);
    forall q, ref | Holds(d.providers, q, ref) && ref !in RemovedBy(effect) && ref !in Elsewhere(elsewhere)
      ensures HeldBySome(r.providers, ref)
    {
      if q != p {
        assert Holds(r.providers, q, ref);
      } else if saved.auth == Credential(ref) {
        assert Holds(r.providers, p, ref);
      } else {
        var other :| other != p && Holds(d.providers, other, ref);
        assert Holds(r.providers, other, ref);
      }
    }
  }

  /** What a credential step may remove, and what it gives the provider whose credential was `had`. */
  ghost predicate StepMeaning(used: seq<string>, had: Auth, auth: Auth, effect: CredentialEffect) {
    var own := OwnRef(had);
    && (forall ref | ref in RemovedBy(effect) ::
          auth != Credential(ref) && if own == "" then ref !in used else ref == own && OtherUses(used, own, own) == 0)
    && (if effect.SetSecret? then auth == Credential(effect.ref) && effect.ref !in used && effect.ref != ""
        else auth == had || auth == NoAuth)
    && (own != "" && own !in RemovedBy(effect) && auth != Credential(own) ==> OtherUses(used, own, own) > 0)
  }

  lemma {:induction false} StepHasMeaning(host: Host, used: seq<string>, plan: Plan, input: UpsertInput, suffixes: seq<string>)
    requires CredentialStep(host, used, plan, input, suffixes).Success?
    ensures var (auth, effect) := CredentialStep(host, used, plan, input, suffixes).value;
            StepMeaning(used, AuthOf(plan.existing), auth, effect)
  {
    FreshRefMeaning(host, plan.provider, used, suffixes);
  }

  function Had(d: Document, p: string): Auth {
    if Has(d.providers, p) then Get(d.providers, p).auth else Ambient
  }

  lemma {:induction false} HadIsHeld(d: Document, p: string)
    requires Named(d.providers)
    ensures OwnRef(Had(d, p)) != "" ==> Holds(d.providers, p, OwnRef(Had(d, p)))
    ensures forall ref | Holds(d.providers, p, ref) :: ref == OwnRef(Had(d, p)) && ref != ""
  {
    if Has(d.providers, p) {
      assert d.providers[KeyIndex(d.providers, p)] in d.providers;
    }
  }

  lemma {:induction false} StepRemoves(d: Document, p: string, auth: Auth, effect: CredentialEffect, elsewhere: Option<seq<string>>)
    requires Named(d.providers) && StepMeaning(UsedReferences(d, AcrossScopes(d, elsewhere)), Had(d, p), auth, effect)
    ensures RemovesUnheld(d, p, auth, effect, elsewhere)
  {
    HadIsHeld(d, p);
    forall ref | ref in RemovedBy(effect)
      ensures forall q | q != p :: !Holds(d.providers, q, ref)
      ensures ref !in Elsewhere(elsewhere)
    {
      if OwnRef(Had(d, p)) == "" {
        Unused(d, elsewhere, ref);
      } else {
        NoOtherUses(d, elsewhere, p, ref);
      }
    }
  }

  lemma {:induction false} StepLeaves(d: Document, p: string, auth: Auth, effect: CredentialEffect, elsewhere: Option<seq<string>>)
    requires Named(d.providers) && StepMeaning(UsedReferences(d, AcrossScopes(d, elsewhere)), Had(d, p), auth, effect)
    ensures LeavesHeld(d, p, auth, effect, elsewhere)
  {
    HadIsHeld(d, p);
    forall ref | Holds(d.providers, p, ref) && ref !in RemovedBy(effect) && auth != Credential(ref) && ref !in Elsewhere(elsewhere)
      ensures exists q :: q != p && Holds(d.providers, q, ref)
    {
      OtherUsesHold(d, elsewhere, p, ref);
    }
  }

  lemma {:induction false} StepSafe(d: Document, p: string, auth: Auth, effect: CredentialEffect, elsewhere: Option<seq<string>>)
    requires Named(d.providers) && StepMeaning(UsedReferences(d, AcrossScopes(d, elsewhere)), Had(d, p), auth, effect)
    ensures CredentialSafe(d, p, auth, effect, elsewhere)
  {
    HadIsHeld(d, p);
    StepRemoves(d, p, auth, effect, elsewhere);
    StepLeaves(d, p, auth, effect, elsewhere);
    if effect.SetSecret? { Unused(d, elsewhere, effect.ref); }
  }

  lemma {:induction false} SaveSafe(host: Host, d: Document, input: UpsertInput, draw: Draw, elsewhere: Option<seq<string>>)
    requires Named(d.providers)
    requires EditDocument(host, d, Save(input, draw, elsewhere)).Success?
    ensures var e := EditDocument(host, d, Save(input, draw, elsewhere)).value;
            EffectSafe(d, e.document, e.provider, e.effect, elsewhere)
  {
    var full := input.(credentialReferences := AcrossScopes(d, elsewhere));
    var plan := PlanUpsert(host, d, full, draw).value;
    PlanProvider(host, d, full, draw);
    var e := ApplyUpsert(host, d, plan, full, draw.suffixes).value;
    StepHasMeaning(host, UsedReferences(d, full.credentialReferences), plan, full, draw.suffixes);
    var auth := CredentialStep(host, UsedReferences(d, full.credentialReferences), plan, full, draw.suffixes).value.0;
    StepSafe(d, plan.provider, auth, e.effect, elsewhere);
    var moved := MoveReferences(d, plan);
    var ensured := EnsureRouting(
      host, moved.routing, plan.provider, PutModel(moved.models, plan.model), UpdateAgents(moved.agents, plan, full),
      plan.index, plan.catalog, if plan.replacing then [] else full.protectedIds).value;
    PutSafe(d, e.document, plan.provider, SavedProvider(plan, full, auth, ensured), e.effect, elsewhere);
  }

  lemma {:induction false} RemoveHolds(d: Dict<Provider>, id: string)
    requires Named(d)
    ensures Named(Remove(d, id))
    ensures forall q, ref :: Holds(Remove(d, id), q, ref) <==> q != id && Holds(d, q, ref)
  {
    forall q { GetRemove(d, id, q); }
    GetRemove(d, id, id);
    RemovedEntries(d, id);
  }

  lemma {:induction false} DeleteSafe(d: Document, id: string, elsewhere: Option<seq<string>>)
    requires Named(d.providers) && Has(d.providers, id)
    ensures var e := DeleteProvider(d, id, AcrossScopes(d, elsewhere)).value;
            EffectSafe(d, e.document, id, e.effect, elsewhere)
  {
    var e := DeleteProvider(d, id, AcrossScopes(d, elsewhere)).value;
    RemoveHolds(d.providers, id);
    if e.effect.ClearSecret? {
      NoOtherUses(d, elsewhere, id, e.effect.cleared);
    }
    forall q, ref | Holds(d.providers, q, ref) && ref !in RemovedBy(e.effect) && ref !in Elsewhere(elsewhere)
      ensures HeldBySome(e.document.providers, ref)
    {
      var other := q;
      if q == id {
        OtherUsesHold(d, elsewhere, id, ref);
        other :| other != id && Holds(d.providers, other, ref);
      }
      assert Holds(e.document.providers, other, ref);
    }
  }

  lemma {:induction false} DeleteModelSafe(host: Host, d: Document, id: string, modelId: string, protectedIds: seq<string>, elsewhere: Option<seq<string>>)
    requires Named(d.providers)
    requires DeleteModel(host, d, id, modelId, protectedIds, AcrossScopes(d, elsewhere)).Success?
    ensures var e := DeleteModel(host, d, id, modelId, protectedIds, AcrossScopes(d, elsewhere)).value;
            EffectSafe(d, e.document, e.provider, e.effect, elsewhere)
  {
    if FallsBackToProvider(host, d, id, modelId) {
      DeleteSafe(d, id, elsewhere);
    } else {
      var r := DeleteModel(host, d, id, modelId, protectedIds, AcrossScopes(d, elsewhere)).value;
      DeleteModelPuts(host, d, id, modelId, protectedIds, AcrossScopes(d, elsewhere));
      assert d.providers[KeyIndex(d.providers, id)] in d.providers;
      PutSafe(d, r.document, id, Get(r.document.providers, id), NoEffect, elsewhere);
    }
  }

  lemma {:induction false} EditSafe(host: Host, d: Document, e: Edit)
    requires Named(d.providers) && EditDocument(host, d, e).Success?
    ensures var r := EditDocument(host, d, e).value;
            EffectSafe(d, r.document, r.provider, r.effect, e.elsewhere)
  {
    match e
    case Save(input, draw, elsewhere) => SaveSafe(host, d, input, draw, elsewhere);
    case RemoveProvider(id, elsewhere) => DeleteSafe(d, id, elsewhere);
    case RemoveModel(id, modelId, protectedIds, elsewhere) => DeleteModelSafe(host, d, id, modelId, protectedIds, elsewhere);
  }

  lemma {:induction false} DeleteModelPuts(host: Host, d: Document, id: string, modelId: string, protectedIds: seq<string>, provided: Option<seq<string>>)
    requires DeleteModel(host, d, id, modelId, protectedIds, provided).Success? && !FallsBackToProvider(host, d, id, modelId)
    ensures var r := DeleteModel(host, d, id, modelId, protectedIds, provided).value;
            && r.provider == id && r.effect == NoEffect
            && Has(r.document.providers, id) && Has(d.providers, id)
            && r.document.providers == Put(d.providers, id, Get(r.document.providers, id))
            && Get(r.document.providers, id).auth == Get(d.providers, id).auth
  {
    var was := Get(d.providers, id);
    var target := Canonical(host, CreateIndex(host, Ids(was.models)).value, modelId);
    var models := WithoutModel(was.models, target);
    var fallback := models[SelectableIndex(models)].id;
    var ensured := EnsureRouting(
      host, MigrateRouting(d.routing, id, target, fallback, true), id,
      MigrateModels(models, target, fallback), MigrateAgents(was.agents, target, fallback, true),
      CreateIndex(host, Ids(models)).value, [], protectedIds).value;
    GetPut(d.providers, id, was.(models := ensured.models, agents := ensured.agents), id);
  }

  // ----- Whole runs -----

  /** Every credential-mode provider resolves to the secret last saved for it. */
  ghost predicate Resolves(s: State) {
    && Named(s.document.providers)
    && forall q, ref | Holds(s.document.providers, q, ref) ::
         q in s.saved && ref in s.store && s.store[ref] == s.saved[q]
  }

  lemma {:induction false} StepResolves(host: Host, s: State, e: Edit)
    requires Resolves(s)
    ensures Resolves(Step(host, s, e))
  {
    var r := EditDocument(host, s.document, e);
    if r.Success? {
      EditSafe(host, s.document, e);
      var t := Step(host, s, e);
      var p, effect := r.value.provider, r.value.effect;
      forall q, ref | Holds(t.document.providers, q, ref)
        ensures q in t.saved && ref in t.store && t.store[ref] == t.saved[q]
      {
        assert ref !in RemovedBy(effect);
        if !(q == p && effect.SetSecret?) {
          assert Holds(s.document.providers, q, ref);
        }
      }
    }
  }

  /**
    Over any run of edits no provider loses its secret: each credential-mode
    provider keeps resolving to the one last saved for it.
   */
  lemma {:induction false} RunResolves(host: Host, s: State, edits: seq<Edit>)
    requires Resolves(s)
    ensures Resolves(Run(host, s, edits))
  {
    if edits != [] {
      RunResolves(host, s, edits[..|edits| - 1]);
      StepResolves(host, Run(host, s, edits[..|edits| - 1]), edits[|edits| - 1]);
    }
  }

  // ----- Two scopes over one store -----

  /** The global and the project document edited in any order; both keep their secrets in one store. */
  datatype Scopes = Scopes(
    global: Document, project: Document, store: Store, savedGlobal: map<string, string>, savedProject: map<string, string>)

  datatype ScopedEdit = ScopedEdit(inGlobal: bool, edit: Edit)

  /** Each edit is told the references that the other scope uses. */
  function StepIn(host: Host, s: Scopes, e: ScopedEdit): Scopes {
    if e.inGlobal then
      var t := Step(host, State(s.global, s.store, s.savedGlobal), e.edit.(elsewhere := Some(DocumentReferences(s.project.providers))));
      s.(global := t.document, store := t.store, savedGlobal := t.saved)
    else
      var t := Step(host, State(s.project, s.store, s.savedProject), e.edit.(elsewhere := Some(DocumentReferences(s.global.providers))));
      s.(project := t.document, store := t.store, savedProject := t.saved)
  }

  function RunIn(host: Host, s: Scopes, es: seq<ScopedEdit>): Scopes {
    if es == [] then s else StepIn(host, RunIn(host, s, es[..|es| - 1]), es[|es| - 1])
  }

  ghost predicate BothResolve(s: Scopes) {
    Resolves(State(s.global, s.store, s.savedGlobal)) && Resolves(State(s.project, s.store, s.savedProject))
  }

  /** An edit in one scope that knows the references of the other leaves the other's secrets alone. */
  lemma {:induction false} OtherScopeKeeps(host: Host, own: State, other: Document, saved: map<string, string>, e: Edit)
    requires Resolves(own) && Resolves(State(other, own.store, saved))
    requires e.elsewhere == Some(DocumentReferences(other.providers))
    ensures Resolves(State(other, Step(host, own, e).store, saved))
  {
    var r := EditDocument(host, own.document, e);
    if r.Success? {
      EditSafe(host, own.document, e);
      forall q, ref | Holds(other.providers, q, ref)
        ensures ref in Elsewhere(e.elsewhere)
      {
        HeldOnce(other.providers, KeyIndex(other.providers, q), ref);
      }
    }
  }

  lemma {:induction false} StepInResolves(host: Host, s: Scopes, e: ScopedEdit)
    requires BothResolve(s)
    ensures BothResolve(StepIn(host, s, e))
  {
    if e.inGlobal {
      var edit := e.edit.(elsewhere := Some(DocumentReferences(s.project.providers)));
      StepResolves(host, State(s.global, s.store, s.savedGlobal), edit);
      OtherScopeKeeps(host, State(s.global, s.store, s.savedGlobal), s.project, s.savedProject, edit);
    } else {
      var edit := e.edit.(elsewhere := Some(DocumentReferences(s.global.providers)));
      StepResolves(host, State(s.project, s.store, s.savedProject), edit);
      OtherScopeKeeps(host, State(s.project, s.store, s.savedProject), s.global, s.savedGlobal, edit);
    }
  }

  /**
    Over any interleaving of edits in both scopes no provider of either scope
    loses its secret, though both scopes share one store.
   */
  lemma {:induction false} ScopesResolve(host: Host, s: Scopes, es: seq<ScopedEdit>)
    requires BothResolve(s)
    ensures BothResolve(RunIn(host, s, es))
  {
    if es != [] {
      ScopesResolve(host, s, es[..|es| - 1]);
      StepInResolves(host, RunIn(host, s, es[..|es| - 1]), es[|es| - 1]);
    }
  }

  /** Every key of the store is held by a provider of one scope or the other. */
  ghost predicate NoOrphans(s: Scopes) {
    && Named(s.global.providers) && Named(s.project.providers)
    && forall ref | ref in s.store :: HeldBySome(s.global.providers, ref) || HeldBySome(s.project.providers, ref)
  }

  lemma {:induction false} KeyStaysHeld(
    before: Document, after: Document, p: string, effect: CredentialEffect, store: Store, other: Document, ref: string)
    requires Named(other.providers) && ref in ApplyEffect(store, effect)
    requires EffectSafe(before, after, p, effect, Some(DocumentReferences(other.providers)))
    requires ref in store ==> HeldBySome(before.providers, ref) || HeldBySome(other.providers, ref)
    ensures HeldBySome(after.providers, ref) || HeldBySome(other.providers, ref)
  {
    if effect.SetSecret? && ref == effect.ref {
      assert Holds(after.providers, p, ref);
    } else if ref in DocumentReferences(other.providers) {
      var i := ReferenceHeld(other.providers, ref);
      KeyAt(other.providers, i);
      assert Holds(other.providers, other.providers[i].0, ref);
    } else if HeldBySome(before.providers, ref) {
      var q :| Holds(before.providers, q, ref);
    }
  }

  /** One edit leaves in the store only what its own document or the other one holds. */
  lemma {:induction false} StepKeepsHeld(host: Host, own: State, other: Document, e: Edit)
    requires Named(own.document.providers) && Named(other.providers)
    requires e.elsewhere == Some(DocumentReferences(other.providers))
    requires forall ref | ref in own.store :: HeldBySome(own.document.providers, ref) || HeldBySome(other.providers, ref)
    ensures var t := Step(host, own, e);
            && Named(t.document.providers)
            && forall ref | ref in t.store :: HeldBySome(t.document.providers, ref) || HeldBySome(other.providers, ref)
  {
    var r := EditDocument(host, own.document, e);
    if r.Success? {
      EditSafe(host, own.document, e);
      forall ref | ref in ApplyEffect(own.store, r.value.effect)
        ensures HeldBySome(r.value.document.providers, ref) || HeldBySome(other.providers, ref)
      {
        KeyStaysHeld(own.document, r.value.document, r.value.provider, r.value.effect, own.store, other, ref);
      }
    }
  }

  lemma {:induction false} StepInLeavesNoOrphans(host: Host, s: Scopes, e: ScopedEdit)
    requires NoOrphans(s)
    ensures NoOrphans(StepIn(host, s, e))
  {
    if e.inGlobal {
      var edit := e.edit.(elsewhere := Some(DocumentReferences(s.project.providers)));
      StepKeepsHeld(host, State(s.global, s.store, s.savedGlobal), s.project, edit);
    } else {
      var edit := e.edit.(elsewhere := Some(DocumentReferences(s.global.providers)));
      StepKeepsHeld(host, State(s.project, s.store, s.savedProject), s.global, edit);
    }
  }

  /**
    Over any interleaving of edits in both scopes no secret is orphaned: what
    is in the store stays in use by a provider of one scope or the other.
   */
  lemma {:induction false} ScopesLeaveNoOrphans(host: Host, s: Scopes, es: seq<ScopedEdit>)
    requires NoOrphans(s)
    ensures NoOrphans(RunIn(host, s, es))
  {
    if es != [] {
      ScopesLeaveNoOrphans(host, s, es[..|es| - 1]);
      StepInLeavesNoOrphans(host, RunIn(host, s, es[..|es| - 1]), es[|es| - 1]);
    }
  }

  /** The keys of the store are exactly the references in use, and stay so. */
  lemma {:induction false} StoreStaysExact(host: Host, s: Scopes, es: seq<ScopedEdit>)
    requires BothResolve(s) && NoOrphans(s)
    ensures var t := RunIn(host, s, es);
            forall ref :: ref in t.store <==> HeldBySome(t.global.providers, ref) || HeldBySome(t.project.providers, ref)
  {
    ScopesResolve(host, s, es);
    ScopesLeaveNoOrphans(host, s, es);
  }

  /** Over any run of edits the resolver accepts every document in between. */
  lemma {:induction false} RunStaysAccepted(host: Host, s: State, edits: seq<Edit>)
    requires Closed(s.document)
    ensures Closed(Run(host, s, edits).document)
    ensures Accepts(host, Run(host, s, edits).document)
  {
    if edits != [] {
      var before := Run(host, s, edits[..|edits| - 1]);
      RunStaysAccepted(host, s, edits[..|edits| - 1]);
      var d := before.document;
      var e := edits[|edits| - 1];
      if EditDocument(host, d, e).Success? {
        match e
        case Save(input, draw, elsewhere) =>
          UpsertKeepsClosed(host, d, input.(credentialReferences := AcrossScopes(d, elsewhere)), draw);
        case RemoveModel(provider, model, protectedIds, elsewhere) =>
          DeleteModelKeepsClosed(host, d, provider, model, protectedIds, AcrossScopes(d, elsewhere));
        case RemoveProvider(provider, elsewhere) =>
          DeleteProviderKeepsClosed(d, provider, AcrossScopes(d, elsewhere));
      }
    }
    ClosedIsAccepted(host, Run(host, s, edits).document);
  }
}
