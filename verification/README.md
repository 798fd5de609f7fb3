# Verified protocols of the agent runtime

A Dafny model of the stateful protocols in an agent runtime, with proofs of what
they promise. `dafny verify dfyconfig.toml` checks all of it.

Each protocol appears three times. A *specification* on values says what one
operation does, branch by branch. A *class or method* does the same thing the
way the source does it, in loops over fields that are updated in place, and is
proved equal to the specification. *Lemmas* about the specification then state
what holds over every input, every run or every interleaving.

| group | files |
|---|---|
| settings documents, layered resolution and model edits | `ConfigDocument`, `Resolver`, `ResolveSettings`, `Acceptance`, `ModelMutations`, `MutationFacts`, `MutateDocument`, `DraftRoutes`, `ConfigEdits`, `SaveModel`, `EditClosure`, `EditTheorems`, `CredentialRuns` |
| migration from V1 settings, with crashes and rollback | `JsonValues`, `LegacyImport`, `ImportFacts`, `MigrateDocument`, `Activation`, `ActivationRuns`, `ActivationTheorems`, `Rollback`, `EnsureConfig` |
| the loop of a subagent under its budget | `SubagentBudget`, `SubagentLoop`, `SubagentTheorems`, `SubagentRunner` |
| shared caches, registries and cancellation | `GroupCache`, `GroupCacheTheorems`, `GroupListAnswers`, `GroupJoin`, `RegistrySweep`, `RegistryTheorems`, `Cancellation`, `CancellationTheorems` |
| wake handoffs | `WakeBatches` |
| scanners and path lenses | `BalancedJson`, `JsonText`, `CommandLine`, `PathLens`, `LensLaws` |

Conventions. A JavaScript object whose keys are visited in insertion order is a
`Dict`, a sequence of distinct keys with values. What the source gets from
elsewhere is a parameter: case folding, URL canonicalisation and hashing are
fields of `Host` and `Platform`; clocks, file contents, process observations,
model replies and tool results are arbitrary inputs of a step; random ids are
drawn from a given list. Automatic induction is switched off on every lemma:
each inductive proof is written out.

## Results that differ from what one might expect

- Deleting the default provider can leave a document that the resolver refuses.
  Routes of an inactive provider are never checked, and deletion may make that
  provider the default. `DeletionCanBreakAcceptance` gives the document,
  `DeleteProviderAcceptedIff` and `DeleteModelAcceptedIff` give the exact
  condition. A document whose inactive routes are also in order stays so.
- Joins that *create* a task group do not commute: the first one fills in
  `all` and `true` for what it omits. `CreationOrderCanMatter` gives two joins,
  `CreationOrderFreeIff` says exactly when the order does not matter. On an
  existing group it never does.
- A rollback leaves the V1 documents stripped when the migration made no
  backups (`StrippedForGood` gives the machine), and leaves a rewritten marker
  rewritten if one existed before (`RewrittenForGood`).
  `RollbackIsCompleteIff` gives the exact condition for a complete one.
- A crash between stripping and the first marker loses the markers for good
  (`MarkersCanBeLost`, and `MarkerLost` on one machine). `MarkedIff` says exactly
  when a rerun leaves a marker: when there was one or the scope was not
  complete. A complete scope is never touched again.
- A list call can return groups older than a write that was announced before
  the call, by sharing a scan (`SharedScanCanBeStale`). `AnswerIsRightIff` says,
  in terms of the scan in flight at the call, exactly when no list that the
  call can be given is wrong about a name.
- A forced signal may follow an inspection that saw no identity
  (`ForceWithoutIdentity`). `ForcedFollowsInspection` says what always precedes
  one: an inspection that saw the process alive, and not as a different one.
- A set past the end of an array leaves holes, which the file keeps as null
  (`SkippedSlotIsNull`). `SetInFile` says what every path reads after a set,
  `HoleAfterSetIff` which paths become null and `SetStaysWholeIff` when none
  does, all three in terms of the document before the set.
- Setting a path can make reading a diverging path fail, namely where the set
  had to create an array and the other path asks it for a non-index
  (`MadeArrayTrips`). `ReadElsewhere` says exactly when.
- A slash command never yields an empty argument, even a quoted one
  (`EmptyArgumentIsLost`). `RoundTripIff` says when the arguments come back
  whole.

## Model

| member | source | states |
|---|---|---|
| `ResolveSettings.ResolveProviders` | src/config-v2/resolver.ts:233-260 | the layer loop yields the owner table of the specification, or the conflict error at the first redefinition on another channel |
| `ResolveSettings.ResolveDefaultSelection` | src/config-v2/resolver.ts:304-314 | the loop over the layers yields the specified default and its source |
| `ResolveSettings.ResolveAgentRouting` | src/config-v2/resolver.ts:317-356 | the loop yields the specified tiers, vision and compatibility data, each with its source |
| `ResolveSettings.ValidateResolvedProviders` | src/config-v2/resolver.ts:359-388 | succeeds exactly when every tier and vision id local to a resolved provider is declared there |
| `ResolveSettings.ValidateLayerReferences` | src/config-v2/resolver.ts:162-205 | returns the first reference error of the raw layers, each checked against the providers up to its own layer and against the final owners |
| `ResolveSettings.ValidateResolvedAgentRouting` | src/config-v2/resolver.ts:396-425 | succeeds exactly when every resolved route resolves in scope; with all routes in scope the only failure is an unresolved reference |
| `ResolveSettings.ResolveSettingsLayers` | src/config-v2/resolver.ts:106-150 | the whole resolution, checks in the source's order, returns the specified snapshot or the specified error |
| `Resolver.OwnersMeaning` | src/config-v2/resolver.ts:233-268 | provider resolution succeeds exactly when no layer redefines a kept provider on another channel, and then each provider is the materialized definition of its owner: the first layer to define it, except that global replaces base |
| `Resolver.SelectionMeaning` | src/config-v2/resolver.ts:304-314 | the default is the one of the highest layer that has any |
| `Resolver.RoutesMeaning` | src/config-v2/resolver.ts:317-356 | a tier, and the vision route, comes from the highest layer whose entry belongs to the active provider |
| `Resolver.ScopeHolds` | src/config-v2/resolver.ts:162-205 | after the layer checks no resolved route is out of scope |
| `Resolver.ResolvedSnapshotMeaning` | src/config-v2/resolver.ts:106-150 | a successful resolution: exact owners, highest-layer default, every kept reference resolves, and none comes from a layer below its provider's owner |
| `Resolver.InactiveRoutesIrrelevant` | src/config-v2/model-mutations.ts:417-433 | dropping all routes owned by other providers than the resolved default's gives the same snapshot or the same failure |
| `Acceptance.AcceptsIff` | src/config-v2/resolver.ts:106-150 | the resolver accepts a lone document exactly when it is well formed, its local ids and its default are declared, and the active provider's routes hold |
| `MutateDocument.CreateCanonicalModelIndex` | src/config-v2/model-mutations.ts:1003-1023 | the loop builds the specified id index, or refuses ids that differ only in case |
| `MutateDocument.MigrateLocalModelReferences` | src/config-v2/model-mutations.ts:1052-1056 | every model's local tiers are repointed as specified, nothing else changes |
| `MutateDocument.MigrateLocalAgentReferences` | src/config-v2/model-mutations.ts:1064-1072 | the provider's own tiers and vision are repointed; a deleted vision model is switched off when asked |
| `MutateDocument.ReplaceLocalTierReferences` | src/config-v2/model-mutations.ts:1080-1088 | in-place replacement of one id in a tier table, dropping the vision tier when asked |
| `MutateDocument.IdRecorder.Record` | src/config-v2/model-mutations.ts:606-614 | returns the canonical id and remembers it, or fails only when the ids met so far hold two that differ in case alone |
| `MutateDocument.NormalizeTiers` | src/config-v2/model-mutations.ts:624-638 | a tier table becomes canonical without empty entries, its ids join the routed set; failure only on a case collision |
| `MutateDocument.AddRoutingModels` | src/config-v2/model-mutations.ts:676-680 | routed ids that nothing declares are appended as route-only declarations, once each |
| `MutateDocument.DropUnroutedModels` | src/config-v2/model-mutations.ts:681-683 | route-only models outside the routed set are filtered in one pass |
| `DraftRoutes.ConfigDraft.EnsureProviderRoutingModels` | src/config-v2/model-mutations.ts:586-686 | all phases in order give the specified models, agents and routes, or the same failure |
| `DraftRoutes.ConfigDraft.MigrateQualifiedModelReferences` | src/config-v2/model-mutations.ts:1097-1116 | qualified routes to the renamed or deleted model are repointed in place |
| `DraftRoutes.ConfigDraft.ReplaceQualifiedProviderReferences` | src/config-v2/model-mutations.ts:1124-1147 | routes of a replaced provider keep models that are still there and lead to the saved one otherwise |
| `DraftRoutes.ConfigDraft.ReconcileQualifiedRoutingReasoning` | src/config-v2/model-mutations.ts:1188-1217 | efforts on routes to the provider are kept, defaulted or removed as its models declare |
| `DraftRoutes.ConfigDraft.RetainQualifiedAgentRoutesForProvider` | src/config-v2/model-mutations.ts:417-433 | only routes of one provider stay |
| `DraftRoutes.ConfigDraft.RemoveProviderFromRouting` | src/config-v2/model-mutations.ts:1232-1245 | every route of the deleted provider goes |
| `DraftRoutes.ConfigDraft.MigrateDefaultModelReference` | src/config-v2/model-mutations.ts:1150-1154 | the default follows a rename |
| `DraftRoutes.ConfigDraft.ReplaceDefaultProviderSelection` | src/config-v2/model-mutations.ts:1162-1171 | the default of a replaced provider falls back to the saved model when its own is gone |
| `DraftRoutes.ConfigDraft.ReconcileDefaultSelectionReasoning` | src/config-v2/model-mutations.ts:1174-1185 | the default's effort is reconciled with its selectable model |
| `SaveModel.NormalizeCatalogModelIds` | src/config-v2/model-mutations.ts:795-834 | a catalog or manual id list is bounded, validated, freed of duplicates, and refused on a case collision |
| `SaveModel.NormalizeCatalogModels` | src/config-v2/model-mutations.ts:837-864 | catalog metadata is kept for confirmed ids only, first entry first |
| `SaveModel.RetainCatalogAgentModelTiers` | src/config-v2/model-mutations.ts:758-770 | after an endpoint change a local tier stays only if the new catalog confirms its model |
| `SaveModel.CredentialReferenceCounts` | src/config-v2/model-mutations.ts:1267-1284 | the counting loop yields the multiplicity of every non-empty reference |
| `SaveModel.IndependentCredentialReference` | src/config-v2/model-mutations.ts:1292-1302 | the first drawn reference that nothing uses, or failure after the draws |
| `SaveModel.MutateCredential` | src/config-v2/model-mutations.ts:200-238 | the credential action of a save: the new authentication and the effect on the store |
| `SaveModel.PlanSave` | src/config-v2/model-mutations.ts:95-199 | everything a save decides before it rewrites the document, with the source's failures in order |
| `SaveModel.UpdateProviderAgents` | src/config-v2/model-mutations.ts:709-737 | the provider's own tiers and vision after a save |
| `SaveModel.UpsertProviderModel` | src/config-v2/model-mutations.ts:95-289 | editing a draft in place gives exactly the specified document, provider and credential effect, or the same failure |
| `SaveModel.FirstProviderSelection` | src/config-v2/model-mutations.ts:1220-1229 | the first selectable model in provider order |
| `SaveModel.RemoveProvider` | src/config-v2/model-mutations.ts:311-339 | deleting a provider in place gives the specified document and credential effect |
| `SaveModel.DeleteProviderModel` | src/config-v2/model-mutations.ts:347-388 | deleting a model in place gives the specified document, falls back to deleting the provider when no selectable model is left, or fails alike |
| `MutationFacts.EnsureRoutingSettles` | src/config-v2/model-mutations.ts:586-686 | afterwards every local tier, vision and route of the provider names a declared model, models are distinct and valid, and no selectable model is lost or changed beyond its canonical tiers |
| `EditTheorems.PlanIsSound` | src/config-v2/model-mutations.ts:95-199 | a successful plan hands on distinct, well-formed models that the id index knows, and a selectable saved model |
| `EditTheorems.UpsertKeepsAccepted` | src/config-v2/model-mutations.ts:95-289 | what the resolver accepts it still accepts after any successful save, and every reference to the saved provider has a declared effort or none |
| `EditTheorems.UpsertKeepsClosed` | src/config-v2/model-mutations.ts:95-289 | a save keeps the routes of inactive providers in order too |
| `EditTheorems.DeleteProviderAcceptedIff` | src/config-v2/model-mutations.ts:311-339 | the document stays accepted exactly when the routes of the provider that takes over as default hold |
| `EditTheorems.DeletionCanBreakAcceptance` | src/config-v2/model-mutations.ts:311-339 | an accepted document whose provider deletion the resolver refuses |
| `EditTheorems.DeleteProviderKeepsClosed` | src/config-v2/model-mutations.ts:311-339 | with inactive routes in order, deletion keeps every reference in order |
| `EditTheorems.DeleteModelAcceptedIff` | src/config-v2/model-mutations.ts:347-388 | deleting a model keeps the document accepted, and the provider's efforts declared or absent, unless it deletes the provider; then exactly under the successor's condition |
| `EditTheorems.DeleteModelKeepsClosed` | src/config-v2/model-mutations.ts:347-388 | with inactive routes in order, deleting a model keeps every reference in order |
| `CredentialRuns.EditSafe` | src/config-v2/model-mutations.ts:200-238 | one edit removes no reference that a provider still uses here or in another scope, leaves none behind that nobody uses any more, and sets a secret only under a reference nobody held |
| `CredentialRuns.RunResolves` | src/config-v2/model-mutations.ts:1267-1302 | over any run of edits, effects applied, every credential-mode provider resolves to the secret last saved for it |
| `CredentialRuns.ScopesResolve` | src/config-v2/model-mutations.ts:1259-1302 | the same for both scopes edited in any order over one shared store, each edit told the references of the other scope |
| `CredentialRuns.ScopesLeaveNoOrphans` | src/config-v2/model-mutations.ts:205-238 | and no secret is orphaned: if every key of the store is held by a provider of one scope or the other, this stays so over every interleaving |
| `CredentialRuns.StoreStaysExact` | src/config-v2/model-mutations.ts:311-339 | so from a clean start the keys of the store are exactly the references in use, after saves, clears and deletions in any order |
| `CredentialRuns.RunStaysAccepted` | src/config-v2/model-mutations.ts:95-388 | over any run of edits from a document in order, every document in between is in order and accepted |
| `MigrateDocument.LegacyProfilesFromDocument` | src/config-v2/migrate-v1.ts:149-191 | the profile loop yields the specified profiles: configured ones, with the top-level gateway merged in or appended |
| `MigrateDocument.AddRoutingOnlyModels` | src/config-v2/migrate-v1.ts:334-362 | routed ids that nothing declares are appended as route-only models |
| `MigrateDocument.LegacyProfileToProvider` | src/config-v2/migrate-v1.ts:302-324 | one profile becomes the specified provider |
| `MigrateDocument.LegacyAgentRouting` | src/config-v2/migrate-v1.ts:414-468 | V1 tiers and vision become qualified routes, or the migration fails on an unknown model |
| `MigrateDocument.MigrateRawDocument` | src/config-v2/migrate-v1.ts:73-146 | one V1 document becomes the specified settings, secrets and mapping, or fails alike; a V2 document passes through |
| `MigrateDocument.StripLegacyModelFields` | src/config-v2/migrate-v1.ts:471-499 | the deletions in place give the specified remainder |
| `ImportFacts.StripFinal` | src/config-v2/migrate-v1.ts:471-499 | stripping twice is stripping once |
| `ImportFacts.StripMeaning` | src/config-v2/migrate-v1.ts:471-499 | no model field survives, no gateway field in `lab`, no tiers in `agents`, no model in its `vision`; every other field of these tables is as before, and an emptied table is gone |
| `ImportFacts.MigrationIndependent` | src/config-v2/migrate-v1.ts:35-66 | secrets found earlier never change a scope's document; they are only added to |
| `ImportFacts.MigrationKeepsSecrets` | src/config-v2/migrate-v1.ts:73-146 | every secret of a profile is extracted under the reference its migrated provider reads |
| `ImportFacts.ImportedRoutesDeclared` | src/config-v2/migrate-v1.ts:334-362 | after the import every non-empty local route names a declared model, and the profile's own models come first unchanged |
| `EnsureConfig.PlanCredentialWrites` | src/config-v2/activate.ts:345-360 | writes for the secrets that the store lacks, in order; refusal when it holds another value |
| `EnsureConfig.PrepareRun` | src/config-v2/activate.ts:90-174 | a fresh read is checked and migrated in both scopes into the specified plan, or refused alike |
| `EnsureConfig.Disk.PerformPhases` | src/config-v2/activate.ts:175-234 | a process that dies after any number of writes has performed exactly that prefix of the four phases |
| `EnsureConfig.Disk.EnsureConfigV2` | src/config-v2/activate.ts:90-257 | one run, cut off after any write: the disk holds exactly that prefix; refusals and dry runs write nothing; the result names what was created |
| `EnsureConfig.Disk.RollbackConfigV2` | src/config-v2/activate.ts:265-302 | the restoring and removing loops give the specified machine; on a missing backup they stop with exactly the documents before it restored |
| `ActivationTheorems.CrashesConverge` | src/config-v2/activate.ts:90-257 | after any sequence of crashes and reruns, each with or without backups, one full run reaches the settings, remainders and secrets of one clean run, and a further run writes nothing |
| `ActivationTheorems.OrderHolds` | src/config-v2/activate.ts:175-234 | in every interrupted history a V1 document is stripped only with both settings and all secrets in place, a marker is written only for a complete scope, settings are only created, and stored secrets never change |
| `ActivationTheorems.NoSecretIsLost` | src/config-v2/activate.ts:179-206 | for a scope that had no settings yet: once its V1 document is stripped, each key it carried is stored under the reference that its migrated provider reads |
| `ActivationTheorems.MarkedIff` | src/config-v2/activate.ts:215-234 | after any crash history a full run leaves a scope marked exactly when it was marked or not complete; a complete scope, marker or no marker, stays as it is through every further history |
| `ActivationTheorems.MarkersCanBeLost` | src/config-v2/activate.ts:214-217 | dying just before the markers leaves every scope that was due one complete with the marker it had, if any, through every further history, though a clean run writes a new one |
| `ActivationTheorems.MarkerLost` | src/config-v2/activate.ts:214-217 | a machine and a number of writes after which the marker never comes |
| `Rollback.RollbackRestores` | src/config-v2/activate.ts:265-302 | rolling back a clean migration restores settings and secrets, unrelated ones untouched, and the V1 documents when backups were made |
| `Rollback.RollbackIsCompleteIff` | src/config-v2/activate.ts:265-302 | the rollback restores everything exactly when backups were made or nothing was stripped, and each rewritten marker was absent before or already said the same |
| `Rollback.StrippedForGood` | src/config-v2/activate.ts:265-302 | a machine whose V1 document is still stripped after the rollback of a migration without backups |
| `Rollback.RewrittenForGood` | src/config-v2/activate.ts:265-302 | a machine whose older marker is not restored, with backups or without |
| `SubagentBudget.BudgetTracker.CheckBudget` | src/agents/budget.ts:180-204 | the first limit exceeded, in the source's order; without a hit every limit is kept |
| `SubagentRunner.Subagent.JudgeResult` | src/agents/runner.ts:824-861 | early stop, budget check and answer after a recorded result |
| `SubagentRunner.Subagent.Execute` | src/agents/runner.ts:759-862 | one tool call run, refused or skipped, with its effect on counters, transcript and reason |
| `SubagentRunner.Subagent.HandleReply` | src/agents/runner.ts:642-747 | failed replies, final answers, tool loops in the final report and pending-budget landings |
| `SubagentRunner.Subagent.RunRound` | src/agents/runner.ts:533-881 | one iteration of the loop follows the state machine, returns included |
| `SubagentRunner.Subagent.RunModelSubagent` | src/agents/runner.ts:533-881 | the loop follows the state machine on every history |
| `SubagentTheorems.GuardIsFinal` | src/agents/runner.ts:759-880 | past any limit or web-search stop no tool runs, and at most one request follows, without tools |
| `SubagentTheorems.LimitsHold` | src/agents/budget.ts:180-227 | counters equal the log's; calls, failures, denials and requests never exceed their limits, output by at most one result |
| `SubagentTheorems.BudgetPartialUnreachable` | src/agents/runner.ts:1341-1412 | no run ends in a partial result for a budget limit or web-search stop |
| `SubagentTheorems.GuardedRoundEnds` | src/agents/runner.ts:863-880 | once a guard is hit the next round is the last |
| `SubagentTheorems.TranscriptsShaped` | src/agents/runner.ts:718-862 | at every request each message with tool calls is followed by one answer per call, same ids, same order |
| `GroupCache.GroupListCache.LoadGroupList` | src/agents/task-group-store.ts:249-277 | a call is served only from a clean entry that is young enough, and otherwise waits for the scan in flight, which it starts if there is none |
| `GroupCache.GroupListCache.InvalidateGroupListCache` | src/agents/task-group-store.ts:339-345 | the entry cannot serve any more; a scan in flight stays the one that is shared |
| `GroupCache.GroupListCache.ScanFinished` | src/agents/task-group-store.ts:262-277 | a result is stored only if nothing was invalidated meanwhile |
| `GroupCacheTheorems.ServedIsCurrent` | src/agents/task-group-store.ts:249-277 | in every interleaving a served list equals the directory on all names whose writers have announced their writes |
| `GroupCacheTheorems.QuietCacheIsExact` | src/agents/task-group-store.ts:249-277 | with every write announced, the list that would be served is exactly the directory's groups |
| `GroupCacheTheorems.OneScanAtATime` | src/agents/task-group-store.ts:249-277 | at most one scan of a root is in flight |
| `GroupCacheTheorems.ScanIsCurrent` | src/agents/task-group-store.ts:318-336 | a scan's result is right on every name not written since the scan began |
| `GroupCacheTheorems.AbortIsLocal` | src/agents/task-group-store.ts:286-308 | cancelling one caller leaves the scan, the cache and all other callers as they were |
| `GroupListAnswers.AnswerIsRightIff` | src/agents/task-group-store.ts:249-277 | for a call that is not served: whatever follows, every list it can be given is right on a name not written meanwhile exactly when no scan is in flight, or the one in flight has not yet missed what the directory holds, or it has settled right |
| `GroupCacheTheorems.SharedScanCanBeStale` | src/agents/task-group-store.ts:259-261 | a history in which a call after an announced write gets the older content through a shared scan |
| `GroupJoin.MergeTaskIds` | src/agents/task-group-store.ts:212-214 | the loop yields the duplicate-free union without empty ids, first occurrence first |
| `GroupJoin.JoinStrengthens` | src/agents/task-group-store.ts:74-103 | one join never weakens waiting or waking and forgets no task |
| `GroupJoin.JoinsAccumulate` | src/agents/task-group-store.ts:74-103 | any joins on a group give the maximum of `waitFor`, the disjunction of `wakeParent` and the union of the tasks |
| `GroupJoin.JoinsCommute` | src/agents/task-group-store.ts:74-103 | on an existing group any permutation of the joins gives the same result |
| `GroupJoin.CreatedJoins` | src/agents/task-group-store.ts:74-119 | the same for joins that create the group, where the first one's omissions count as `all` and `true` |
| `GroupJoin.CreationOrderFreeIff` | src/agents/task-group-store.ts:107-119 | creating joins commute exactly when no omitted field meets only weaker given values |
| `GroupJoin.CreationOrderCanMatter` | src/agents/task-group-store.ts:107-119 | two joins that create groups with different `waitFor` in the two orders |
| `RegistrySweep.RootState.RememberPersistedTask` | src/agents/background-terminal-registry.ts:670-679 | the record is the one on file for its name, and during a sweep its name counts as written |
| `RegistrySweep.RootState.ScanBatch` | src/agents/background-terminal-registry.ts:494-534 | the file loop reads as far as the specified batch, under its limits on files, time and bytes |
| `RegistrySweep.RootState.CompactPersistedTaskRoot` | src/agents/background-terminal-registry.ts:571-580 | sorting and deleting leave the specified records |
| `RegistrySweep.RootState.ReadPersistedTaskRoot` | src/agents/background-terminal-registry.ts:472-549 | one call: cached answer, failed listing, or a batch with the end of the sweep, as specified |
| `RegistryTheorems.CallAdvances` | src/agents/background-terminal-registry.ts:494-534 | every call ends the sweep or moves its cursor |
| `RegistryTheorems.SweepIsBounded` | src/agents/background-terminal-registry.ts:472-549 | a sweep takes at most one call per listed entry, whatever is written meanwhile |
| `RegistryTheorems.WrittenIsNotMissing` | src/agents/background-terminal-registry.ts:536-547 | a record on file during a sweep is never dropped as missing; it is there at the end or beyond the newest 200 finished ones |
| `RegistryTheorems.CompactCuts` | src/agents/background-terminal-registry.ts:571-580 | every active task and the 200 newest finished ones stay, and only older finished ones go |
| `RegistryTheorems.SweepIsPlainRead` | src/agents/background-terminal-registry.ts:472-549 | on a static directory a sweep, however batched, ends with one plain read of all valid unexpired records, cut to the active and the 200 newest finished |
| `Cancellation.CheckProcesses` | src/agents/background-terminal-registry.ts:995-1030 | the loop over both recorded processes yields the specified targets, stale code and observations |
| `Cancellation.TerminateVerifiedProcessTree` | src/agents/background-terminal-registry.ts:1087-1130 | the polling loop signals and ends as specified on every observation sequence |
| `CancellationTheorems.StaleIff` | src/agents/background-terminal-registry.ts:995-1030 | a cancellation ends stale exactly when a recorded process is alive without a matching identity, and then nothing was signalled |
| `CancellationTheorems.TargetsAreVerified` | src/agents/background-terminal-registry.ts:1015-1030 | a persisted target's identity is the one recorded or captured, just seen on the live process |
| `CancellationTheorems.FirstSignalIsVerified` | src/agents/background-terminal-registry.ts:1111-1119 | however terminations interleave, the first signal to a persisted pid directly follows an inspection that saw its identity |
| `CancellationTheorems.CancelledMeansGone` | src/agents/background-terminal-registry.ts:1032-1048 | a confirmed cancellation saw every recorded process gone, replaced or exited |
| `CancellationTheorems.TargetsAreIndependent` | src/agents/background-terminal-registry.ts:1039-1044 | each target ends where its own observations alone take it |
| `CancellationTheorems.ForcedFollowsInspection` | src/agents/background-terminal-registry.ts:1111-1127 | however terminations interleave, a forced signal goes to a persisted target only, directly after an inspection that saw it alive with its identity or none; the identity was verified exactly when that inspection had one |
| `CancellationTheorems.ForcedAtMostOnce` | src/agents/background-terminal-registry.ts:1113-1127 | no process is forced twice, and none where signals are not escalated |
| `CancellationTheorems.ForceWithoutIdentity` | src/agents/background-terminal-registry.ts:1121-1127 | a run in which the forced signal follows an inspection without identity |
| `WakeBatches.WakeStore.NoteWakeHandoff` | src/agents/wake-batch.ts:32-55 | a handoff is appended unless it is incomplete or its group is already pending; the answer says which |
| `WakeBatches.WakeStore.TakeWakeHandoffs` | src/agents/wake-batch.ts:65-70 | the batch is returned and emptied |
| `WakeBatches.WakeStore.RestoreWakeHandoffs` | src/agents/wake-batch.ts:72-84 | handoffs not pending again are put in front |
| `WakeBatches.WakeStore.ScheduleIdleWakeContinuation` | src/agents/wake-batch.ts:139-158 | a timer is started or its work replaced, only while handoffs are pending |
| `WakeBatches.WakeStore.CancelIdleWakeContinuation` | src/agents/wake-batch.ts:160-168 | the session's timer is gone |
| `WakeBatches.WakeStore.TimerFired` | src/agents/wake-batch.ts:148-157 | the firing clears its timer and starts work only with handoffs pending |
| `WakeBatches.PendingGroupsDistinct` | src/agents/wake-batch.ts:32-84 | in every interleaving a session's pending groups are distinct |
| `WakeBatches.OneTimerPerSession` | src/agents/wake-batch.ts:139-168 | in every interleaving a session has at most one live timer |
| `WakeBatches.FiringStartsWork` | src/agents/wake-batch.ts:148-157 | a firing starts what was scheduled last exactly when handoffs are pending |
| `WakeBatches.OnlyFiringsStart` | src/agents/wake-batch.ts:139-168 | nothing else starts work |
| `WakeBatches.TakeThenRestore` | src/agents/wake-batch.ts:65-84 | with any notes in between no group is lost or doubled, the older ones first |
| `BalancedJson.ReadBalancedJsonObject` | src/agents/plan-package-store.ts:196-229 | the character loop returns the specified slice, or nothing |
| `BalancedJson.BalancedJsonCandidates` | src/agents/plan-package-store.ts:180-194 | the outer loop returns the specified candidates |
| `BalancedJson.CandidatesAreMinimalObjects` | src/agents/plan-package-store.ts:180-229 | in any text candidates are disjoint, in order, minimal balanced slices; a brace outside them all never closes |
| `JsonText.ObjectsAreFound` | src/agents/plan-package-store.ts:180-229 | printed objects of any nesting and content (RFC 8259, sections 4 and 7) in prose without an opening brace are found exactly, in order |
| `CommandLine.SplitCommandLine` | src/commands/parser.ts:25-51 | the character loop returns the specified parts |
| `CommandLine.SplitReadsArguments` | src/commands/parser.ts:25-51 | arguments written in any mix of plain and quoted pieces, with any white space between, split into exactly the non-empty ones |
| `CommandLine.RoundTripIff` | src/commands/parser.ts:25-51 | the list comes back whole exactly when no argument is empty |
| `CommandLine.EmptyArgumentIsLost` | src/commands/parser.ts:25-51 | one quoted empty argument splits into no argument |
| `CommandLine.QuoteMeaning` | src/commands/parser.ts:25-51 | every text has a quoted form that reads back as itself |
| `CommandLine.CommandRoundTrip` | src/commands/parser.ts:4-20 | a slash, a name and quoted non-empty arguments parse back to the name and the arguments |
| `PathLens.ReadAtPath` | src/config-v2/file-repository.ts:335-348 | the cursor loop reads as specified, an invalid array index included |
| `PathLens.SetAtPath` | src/config-v2/file-repository.ts:283-297 | the descending loop, creating containers, gives the specified document or error |
| `PathLens.UnsetAtPath` | src/config-v2/file-repository.ts:303-329 | the descending loop deletes or splices as specified, and stops at what is missing |
| `PathLens.FileRepository.ApplyPatch` | src/config-v2/file-repository.ts:79-106 | all sets, then all unsets, as JSON keeps the result, or nothing at all on a stale revision or a bad path |
| `LensLaws.ReadAfterSet` | src/config-v2/file-repository.ts:283-348 | reading what was set gives the value |
| `LensLaws.SetTwice` | src/config-v2/file-repository.ts:283-297 | the last of two sets at a path wins |
| `LensLaws.SetWhatIsThere` | src/config-v2/file-repository.ts:283-348 | setting what is there changes nothing |
| `LensLaws.ReadElsewhere` | src/config-v2/file-repository.ts:283-348 | a diverging path reads as before, except exactly where it asks an array made by the set for a non-index |
| `LensLaws.MadeArrayTrips` | src/config-v2/file-repository.ts:283-348 | a document and two diverging paths: setting one makes reading the other fail |
| `LensLaws.ReadAfterUnset` | src/config-v2/file-repository.ts:303-348 | after unsetting an object key or array element every path not above it reads as before, later elements of the array one index down |
| `LensLaws.UnsetKeyIsAbsent` | src/config-v2/file-repository.ts:303-329 | nothing is found at or below an unset object key |
| `LensLaws.ReadSaved` | src/config-v2/file-repository.ts:335-348 | reading the written file finds what reading the document found, and null exactly where the document has a hole |
| `LensLaws.SavedIffWhole` | src/config-v2/file-repository.ts:79-106 | writing and reading back gives the document itself exactly when it has no holes |
| `LensLaws.SavedIsWhole` | src/config-v2/file-repository.ts:79-106 | what a file holds never has holes |
| `LensLaws.HoleAfterSetIff` | src/config-v2/file-repository.ts:283-297 | after a set a diverging path ends in a hole exactly when it did before, or when it names a slot between the end of an array on the way, there or made, and the slot that was set |
| `LensLaws.SetStaysWholeIff` | src/config-v2/file-repository.ts:283-297 | a set keeps a document without holes exactly when the value has none and no array on the way is extended past its end |
| `LensLaws.SetInFile` | src/config-v2/file-repository.ts:283-348 | after a set, as the file shows it: the value at the path; on every diverging path what was there before, null exactly in the holes told from the document before the set, failure exactly where a made array is asked for a non-index |
| `LensLaws.SkippedSlotIsNull` | src/config-v2/file-repository.ts:283-348 | a document in which setting slot 1 of an empty array makes slot 0 null in the file |

## Left out

Configuration documents
- Documents are in the normal form that `validateSettingsDocument` produces (src/config-v2/schema.ts:76-109): trimmed strings, unique ids, no unknown keys. String lengths, character classes, URL syntax and the wording and paths of errors are not modelled; an absent namespace and an empty one are the same.
- Model and provider fields that no route, default, credential or catalog decision reads (display names, context windows, provenance, discovery data, health URLs) are not modelled.
- `updateDefaultModelSelection` (src/config-v2/model-mutations.ts:292-304) is not modelled: it does not check that the model exists, so no closure theorem covers it.
- Unreferenced route-only models are filtered in a single pass, as in the source, so one named only by a dropped route-only model stays; nothing stronger is claimed.
- In-place edits act on the draft's fields; sharing of nested JavaScript objects is not modelled, the source clones before it edits.
- Legacy projection, runtime selection and reasoning presets are not part of this model.

Migration
- Thinking levels and context windows take no part in `compatibleProviderModels`; a V1 preset that the source empties is dropped with its model's efforts; tier values that are not strings count as absent.
- Markers are compared by what they say; their identifiers and revisions stand for the contents they are computed from.
- One process writes at a time: a foreign writer between a read and its revision-checked write, which makes the source's run fail with a conflict, is not modelled.
- Diagnostics, the credential store's description and the printed result beyond what a rollback needs are not modelled.

Subagent
- SubagentTheorems.TranscriptsShaped: assumes that context compaction keeps the shape of a transcript; compaction itself is not part of this model.
- Budget normalisation and defaults, tool execution, hooks, prompts, progress records and the content of results are not modelled; a result is its success, its denial, its interruption and its size.

Caches, registries and cancellation
- Group fields other than the wake contract and the task ids, and reading files in batches of 32, are not modelled; a scan may read its files in any order.
- Eviction from the in-memory task map and pruning of files at the end of a sweep are not modelled; a file's timestamp is a number.
- The delivery of signals, the process probes of each platform and the persistence of a cancellation's status are not modelled; an inspection is an arbitrary observation.

Wake handoffs
- The text of the batched prompt, its byte limit and marking groups as consumed are not modelled.

Scanners and paths
- Parsing candidates as JSON, fenced blocks and Markdown plans are not modelled.
- Descriptors, redaction, path syntax and forbidden path segments are not modelled; a document's content stands for its revision.
