# Hypervibe apply layer: a verified model

Hypervibe converges a reviewed plan onto cloud providers. Its apply layer is a set of steps over
two states: a local store (projects, environments with bindings, components with bindings) and a
provider world that can fail at any call, sometimes after it has acted. This project models those
steps in Dafny and proves what they keep, over any sequence of steps, any provider answer and, for
the migrations, any interfering write while a step waits for a provider.

Each area has three layers: a specification of every step as a function (`*Steps`); what those
functions do, field by field and exactly when (`*Effects`), and what they and all their runs keep
(`*Safety`, `*Conservation`, `*Runs`, `*Topology`, `*Restores`); and classes whose methods work as
the code does, statement by statement with early returns and loops, and are proved to have exactly
the effect of their step (`*Handlers`, `*Runner`, `*Migrator`).

| area | files | main results |
|---|---|---|
| Hosting teardown | `ProviderBoundary`, `HostingReferences`, `HostingSteps`, `HostingEffects`, `HostingSafety`, `HostingHandlers` | no run leaves a dangling reference; a provider switch keeps everything, exactly when; through any run a retained provider loses one entry per carried-out deletion and nothing else |
| Database migration | `DatabaseMigrationSteps`, `DatabaseMigrationEffects`, `DatabaseMigrationSafety`, `DatabaseMigrationConservation`, `DatabaseMigrationRuns`, `DatabaseMigrationTopology`, `DatabaseMigrator` | the optimistic swap under arbitrary interference; every lease returned; no database lost over unbounded retries; when a removal asks for the active database, exactly; a migration is the swap of the datastore steps |
| Storage migration | `StorageMigrationSteps`, `StorageMigrationEffects`, `StorageMigrationSafety`, `StorageMigrationConservation`, `StorageMigrationRuns`, `StorageMigrator` | when a concurrent change can be lost, exactly; the fresh bucket tracked over all runs whatever others write to bindings; when a rollback target is lost, exactly |
| Datastore lifecycle | `DatastoreSteps`, `DatastoreEffects`, `DatastoreSafety`, `DatastoreTopology`, `DatastoreRestores`, `DatastoreHandlers` | failed switches undone over whole runs; an unresolved create is never repeated; stable cache identity; the topology index agrees with the component, migrations included |
| Maintenance | `MaintenanceSteps`, `MaintenanceEffects`, `MaintenanceSafety`, `MaintenanceRunner` | visitors always see the page while anything is suspended or fenced; any environment can be entered in stages and left again, back to the state before; when an active record can be believed, exactly |
| Framing | `WireGuardFraming` | every interleaving and every chunking decodes to the datagrams |
| Redaction | `ExactValueRedaction` (with `Replacement`), `RedactionWalk`, `ResponseRedaction` | exactly which values are guaranteed to disappear; exactly what is shown of everything else |
| Record comparison | `RecordComparison` | sort-and-compare is map equality exactly under an antisymmetric key order |

`Json` and `LocalStore` hold the untyped values and the store shared by the hosting files.

## What the model assumes

- A deletion without permission to mutate changes nothing and succeeds only if the service is
  absent. A confirmed deletion left nothing of its target; a denied one may have been carried out.
- Bound hosting identities have no white space around them when a hosting project is ensured; the
  bindings parser would trim them.
- `ensureProject` verifies the project that is bound, or reports that it created one, and its own
  bindings do not contain a create-recovery map. An inspection reports services that exist.
- A component row keeps its environment and type; a repository write changes its version; ids are
  not reused. JSON text, clocks, hashes and random ids are abstract. The fingerprint of a binding
  is a function of its identity only.
- Observations in the maintenance steps are truthful about what they report and may report
  anything as unknown; provider state changes only through the steps.
- Other writers are arbitrary functions of the component table (or of all storage records), applied
  at every wait. Each lemma states what it needs of them, often nothing.
- A provision that reports success reports an id. A failed database provision created nothing
  unless it reports an id; a failed bucket creation created nothing.
- Scopes are compared as maps outside `RecordComparison`, which proves when the sorted text
  comparison of the code is that. Iteration order over records is arbitrary.
- A websocket whose write failed takes nothing more. Which tick finds the link idle is arbitrary.
- The text patterns that recognise tokens inside strings are an arbitrary function.

## Where the code does less than one would expect

Each of these is a lemma in the project: an exact condition where one is named so, else a whole run
that shows it.

- A component update that leaves out the external id keeps the old one. After a switch or a
  migration to a provider that reports its identity only inside the bindings, the row still goes
  by the old id (`DatabaseMigrationConservation.SwapIdentityExactly`,
  `DatastoreSafety.SwitchIdentityExactly`, `DatastoreTopology.KeptExternalIdDisagrees`).
- The storage migration stores the records it read before its first wait. A concurrent change to any
  binding of the environment can be lost exactly when the run gets as far as writing
  (`StorageMigrationSafety.CanLoseBindingExactly`). A change to the target before the candidate is
  recorded goes unseen by the later check (`StorageMigrationSafety.EarlyChangesGoUnseen`): the run
  completes over it (`StorageMigrationSafety.CompletesOverUnseenChange`), and the other writer's
  bucket is named nowhere (`StorageMigrationRuns.UnseenChangeIsForgotten`).
- A second storage migration forgets the first rollback target, and loses it exactly when nothing
  else names it (`StorageMigrationRuns.RetainedTargetLostExactly`).
- Removing a database's rollback target stores what was read before the provider was asked, so a
  concurrent change of the row can be lost exactly when the removal gets as far as writing
  (`DatabaseMigrationRuns.RemovalCanLoseExactly`, `DatabaseMigrationRuns.RemovalForgetsNewer`); and
  it loses a rollback target nested inside the one removed
  (`DatabaseMigrationRuns.InnerTargetLost`).
- A storage removal, too, stores what it read before its waits: any binding changed and any candidate
  recorded meanwhile can be lost, exactly when it asks and the bucket is gone
  (`StorageMigrationRuns.RemovalCanLoseExactly`, `StorageMigrationRuns.RemovalForgetsFresh`).
- A removal checks the row, or binding, before it waits for its adapter and not again. If another
  writer rolls it back in between, the removal asks for what is active then: this can happen exactly
  when it gets as far as asking (`DatabaseMigrationRuns.CanHitActiveExactly`,
  `StorageMigrationRuns.CanHitActiveExactly`).
- The hosting bindings are parsed before a provider switch, and the parser trims identities: an id
  with white space around it is retained as another id (`HostingSafety.SwitchKeepsServicesExactly`).
- When the host name changes while a page is up, enabling the page again forgets the first one, and
  a finished exit leaves it standing (`MaintenanceSafety.HostChangeLeaksPage`; the exact condition
  for one step is `MaintenanceSafety.PageForgottenExactly`). Only the planner, which is not
  modelled, stands in the way.
- Removing the maintenance page checks only the services and the database that are still desired.
  A suspended service dropped from the desired state stays down behind no page, and its snapshot
  is discarded (`MaintenanceSafety.SafeStepExactly`, `MaintenanceSafety.DroppedWorkloadStaysDown`).
- A suspension is handed the stored snapshot, so a service rebound since is not the one suspended
  (`MaintenanceSafety.SuspendsReviewedExactly`). Three of the six edge fields are enough to store
  an edge, all six are needed to remove it (`MaintenanceSafety.RemovalNeedsEveryField`).
- A failed create under the database's own provider while an earlier provider is stashed, then
  cleaned up, restores the earlier binding but leaves the topology index on the later one
  (`DatastoreTopology.RestoredBehindTheIndex`). It may also rename the bound database
  (`DatastoreSafety.FailedProvisionMovesDatabase`); the guard is for caches only.
- A replica is added to a database whose switch is half done. After the cleanup the first database is
  back and the index names the one that is gone (`DatastoreTopology.ReplicaOfIncompleteDisagrees`;
  the exact condition is `DatastoreTopology.ReplicaAgreesExactly`).
- A failed switch of a cache that is retried and fails in place is marked as incompletely reconciled
  only, so that its cleanup deletes the binding instead of restoring the one before
  (`DatastoreRestores.RetryStaysProvisionalExactly`, `DatastoreRestores.RetriedCacheForgetsOriginal`).
- A restore, an unfence or a removal of the page that is carried out without being confirmed leaves
  the maintenance record active over a boundary that no longer stands
  (`MaintenanceSafety.ActiveStepExactly`, `MaintenanceSafety.AmbiguousCallLeavesActive`).
- A value that overlaps the text `[redacted]` can survive redaction, the value `red` for one
  (`ExactValueRedaction.ScrubbedExactly`, `ExactValueRedaction.PlaceholderPartSurvives`).
- Two keys that collate as equal make sort-and-compare depend on insertion order
  (`RecordComparison.TiedKeysKeepOrder`).

## Model

| member | source | states |
|---|---|---|
| ProviderBoundary.SearchSource | src/application/local-provider-boundary.ts:69-110 | a hosting source is reported exactly when its own scope, a recovery's scope, or a malformed recovery map may fall in the boundary; the certainty reported is one that this very place shows |
| ProviderBoundary.SearchComponents | src/application/local-provider-boundary.ts:112-143 | a component is reported exactly when its binding or its stashed previous binding may fall in the boundary, with its label and the certainty it shows; disagreeing provider names count as possible use |
| ProviderBoundary.SearchEnvironment | src/application/local-provider-boundary.ts:57-162 | all sources of one environment, with only the excluded stash skipped; what is reported names the source and the certainty that it shows |
| ProviderBoundary.FindLocalProviderBoundaryUse | src/application/local-provider-boundary.ts:51-165 | the search of the whole store comes back empty exactly when every hosting source, component, stashed binding and retained slot of the provider, but the excluded stash, has a scope that certainly lies outside |
| ProviderBoundary.UnusedMeansOutside | src/application/local-provider-boundary.ts:32-165 | no record uses the boundary exactly when all of them lie outside: another readable project, or for an environment boundary the same project and another readable environment |
| ProviderBoundary.OutsideMeans | src/application/local-provider-boundary.ts:32-49 | a scope counts as elsewhere, or as exactly the boundary, by its readable project and environment alone |
| HostingReferences.SearchServices | src/application/apply-plan.ts:1884-1961 | a service map blocks exactly when a name other than the skipped one binds the id or cannot be read; bound is reported only for a readable entry of that id in that project |
| HostingReferences.SearchRecoveries | src/application/apply-plan.ts:1884-1961 | a recovery map blocks exactly when an entry of the provider names the id or cannot be decided; bound is reported only for a readable entry of that id in that project |
| HostingReferences.SearchSourceForService | src/application/apply-plan.ts:1884-1961 | the same for one hosting source, fail-closed when its provider cannot be read |
| HostingReferences.LocalServiceBindingUse | src/application/apply-plan.ts:1884-1961 | finds nothing exactly when no source of any environment blocks; a find names an environment with a source that shows it, with that certainty |
| HostingReferences.CertainMeansReferred | src/application/apply-plan.ts:1926-1953 | a find reported as bound is a real reference to that service in that project |
| HostingReferences.NotInUseMeansNoReference | src/application/apply-plan.ts:1884-1961 | an empty search means that no binding, stash or recovery anywhere else refers to the service |
| HostingReferences.NotInUseMeans | src/application/apply-plan.ts:1884-1961 | no other user is found exactly when every other entry of the provider has a readable id, and another one, and every recovery can be read and names no such service |
| HostingEffects.MarkerIsRead | src/domain/ports/hosting.port.ts:110-191 | a recovery marker as it is written is read back as what was recorded |
| HostingEffects.OtherMarkersAreRefused | src/domain/ports/hosting.port.ts:146-191 | what is no consistent marker is refused |
| HostingReferences.UnusedBoundaryHoldsOnlyTheStash | src/application/local-provider-boundary.ts:51-165 | an empty search means that only the excluded stash still refers into the boundary |
| HostingSafety.DestroyServiceSafe | src/application/apply-plan.ts:2912-3095 | destroying a service leaves no dangling reference, whatever the provider answers |
| HostingSafety.ServiceDeletionReviewed | src/application/apply-plan.ts:2925-3084 | nothing is deleted but the service bound under the reviewed name, not desired, unshared, and seen exactly once in a complete inventory |
| HostingSafety.DestroyTaskSafe | src/application/apply-plan.ts:2560-2706 | nor does destroying a leftover task service |
| HostingSafety.DestroyPreviousServiceSafe | src/application/apply-plan.ts:2713-2808 | nor does destroying a service of the abandoned provider |
| HostingSafety.DestroyBoundarySafe | src/application/apply-plan.ts:2810-2910 | nor does deleting a whole abandoned environment or project |
| HostingSafety.BoundaryDeletionReviewed | src/application/apply-plan.ts:2820-2907 | a boundary deletion stays inside the stash's own project, and environment if that is the boundary |
| HostingSafety.EnsureSafe | src/application/apply-plan.ts:1963-2110 | nor does ensuring a hosting project, with or without a provider switch, completed or broken off |
| HostingSafety.ImportSafe | src/application/import-provider.ts:598-740 | nor does retaining an inspected provider for cleanup |
| HostingSafety.NoRunLeavesDangling | src/application/apply-plan.ts:1963-3095 | over every run of these steps a reference points at a live service unless its own deletion was asked for and denied |
| HostingSafety.AllReferencesStayLive | src/application/apply-plan.ts:1963-3095 | with providers whose failures change nothing, every reference stays live through every run |
| HostingSafety.SwitchKeepsServicesExactly | src/application/apply-plan.ts:1990-2032 | a switch moves every service binding unchanged into the stash, with provider, project and environment, exactly when no unreadable stash is in the way and the parser has nothing to trim |
| HostingSafety.StepOnStash | src/application/apply-plan.ts:1963-3095 | while a provider is retained, a step leaves the stash alone, takes away the one entry that a carried-out deletion names, or drops it: with the last entry, unless a project delete is due, or with the boundary |
| HostingSafety.OneProviderRetained | src/application/apply-plan.ts:1993-2002 | through any run a retained provider, with its project and environment, stays the retained one until it is dropped, and its entries left plus the deletions carried out are the entries it had |
| HostingSafety.CleanupEndsExactly | src/application/apply-plan.ts:2794-2802 | over any run a deletion drops the stash exactly when, with it, as many were carried out as there were entries and no project delete is due; otherwise only a confirmed boundary delete drops it |
| HostingSafety.CollectedExactly | src/application/import-provider.ts:673-703 | an inspected provider is retained only if every service is named uniquely, has an id and is managed; then exactly those are recorded |
| HostingEffects.DestroysServiceExactly | src/application/apply-plan.ts:2912-3095 | whom a service deletion asks for, what it removes at the provider, and that it takes just that entry out of the bindings, exactly when |
| HostingEffects.DestroysTaskExactly | src/application/apply-plan.ts:2560-2706 | a leftover task is deleted exactly if the inventory shows just it and nobody in the store may be using it |
| HostingEffects.DestroysPreviousExactly | src/application/apply-plan.ts:2713-2808 | the same for a service of the abandoned provider; the last one takes the stash along unless a project delete is due |
| HostingEffects.DestroysBoundaryExactly | src/application/apply-plan.ts:2810-2910 | a whole boundary is deleted exactly if everything else in the store lies outside; then just the stash is dropped |
| HostingEffects.EnsuresExactly | src/application/apply-plan.ts:2044-2110 | what the provider returned is bound, its own bindings included, and every other field is kept, exactly if the bindings parse, the reserved fields are left alone and a project can be named |
| HostingEffects.SwitchesExactly | src/application/apply-plan.ts:1990-2042 | a switch happens exactly when another provider with a declared teardown is bound and none is retained; the new one starts without project and services |
| HostingEffects.SwitchRetainsExactly | src/application/apply-plan.ts:2011-2027 | the provider that was bound is retained exactly when nothing is and there is a service, or a whole boundary, to clean up |
| HostingEffects.RetainsExactly | src/application/import-provider.ts:606-727 | an inspected provider is retained exactly when confirmed and complete, and the stash holds just what was seen |
| HostingEffects.WellFormedParses | src/domain/ports/hosting.port.ts:197-287 | bindings whose hosting ids are strings with something in them parse |
| HostingEffects.MalformedDoesNotParse | src/domain/ports/hosting.port.ts:197-287 | those with an empty or missing value in their place, or a malformed service map, do not |
| HostingHandlers.Handlers.DestroyService | src/application/apply-plan.ts:2912-3095 | has exactly the effect of its step; success removes the local entry, any other outcome leaves the store alone |
| HostingHandlers.Handlers.DestroyTaskService | src/application/apply-plan.ts:2560-2706 | has exactly the effect of its step; success means that nothing of the target is left |
| HostingHandlers.Handlers.DestroyPreviousHostingService | src/application/apply-plan.ts:2713-2808 | has exactly the effect of its step; failure leaves the store alone |
| HostingHandlers.Handlers.DestroyPreviousHostingBoundary | src/application/apply-plan.ts:2810-2910 | has exactly the effect of its step; success drops the stash |
| HostingHandlers.Handlers.EnsureHostingProject | src/application/apply-plan.ts:1963-2110 | has exactly the effect of its step, which changes nothing when the bound hosting fields do not parse |
| HostingHandlers.Handlers.RetainHostingCleanup | src/application/import-provider.ts:598-740 | has exactly the effect of its step |
| DatabaseMigrationSafety.OptimisticSwap | src/application/apply-data-migration.ts:181-477 | under arbitrary interference at every wait, only the candidate's row is ever written, except for one swap of a completed run, made while source and target are the reviewed ones and after a verified copy; and every access lease is returned exactly once |
| DatabaseMigrationSafety.CopyDataWrites | src/application/apply-data-migration.ts:338-391 | both leases are returned on every path, and only a verified copy with clean releases goes on |
| DatabaseMigrationSafety.NoSecondCandidate | src/application/apply-data-migration.ts:260-282 | no second target is provisioned while an earlier candidate could not be removed |
| DatabaseMigrationConservation.RerunChangesNothing | src/application/apply-data-migration.ts:216-238 | running a migration again after it completed changes nothing and asks nothing |
| DatabaseMigrationSafety.UnidentifiedTargetRefused | src/application/apply-data-migration.ts:248-258 | a migration onto a row without an id, such as an unresolved create, is refused before anything happens |
| DatabaseMigrationConservation.RollbackTargetExact | src/application/apply-data-migration.ts:393-454 | the recorded rollback target is the exact provider, id and bindings of the row that was replaced, which is the reviewed row |
| DatabaseMigrationEffects.CompletedHolds | src/application/apply-data-migration.ts:393-464 | whatever others do, after a completed migration the active row holds the bindings the provider handed out, the marker and the rollback target, and no other field differs; at the swap source and target were as reviewed |
| DatabaseMigrationEffects.CompletingNeedsAll | src/application/apply-data-migration.ts:216-391 | completing needs the planned source, a target that can be named again, no earlier candidate left, and every call to succeed |
| DatabaseMigrationEffects.AloneCompletesExactly | src/application/apply-data-migration.ts:181-477 | left alone it completes exactly then, and table, databases and index are these |
| DatabaseMigrationEffects.AloneFailsCleanly | src/application/apply-data-migration.ts:292-391 | left alone, a failed one changes nothing but the candidate, and leaves exactly what its cleanup could not remove |
| DatabaseMigrationEffects.RemovalAloneExactly | src/application/apply-data-migration.ts:757-820 | left alone, a removal asks exactly for the retained target of the migrated row, and takes just that target out of just that row |
| DatabaseMigrationConservation.SwapIdentityExactly | src/application/apply-data-migration.ts:442-454 | the swapped row names the candidate's database exactly when an external id was reported, none was there to keep, or they agree |
| DatabaseMigrationConservation.CopyConserves | src/application/apply-data-migration.ts:181-477 | one migration loses no database at any of its returns |
| DatabaseMigrationRuns.CreatedIsAccountedFor | src/application/apply-data-migration.ts:292-464 | the database a migration made is the active one, under its own id and alone in the topology index, exactly when it completed; else the tracked candidate, or gone |
| DatabaseMigrationRuns.RemovesOnlyRetained | src/application/apply-data-migration.ts:757-820 | previous-destroy asks only for the planned rollback target of the migrated row |
| DatabaseMigrationRuns.RemovesActiveExactly | src/application/apply-data-migration.ts:757-804 | what it asks for is the database active at that moment, after its first wait, exactly when the row goes by the retained identity then |
| DatabaseMigrationRuns.NoRunAsksForActive | src/application/apply-data-migration.ts:757-820 | over any run with fresh ids, whatever others write before and after, a removal does not ask for the active database unless its row is written while it waits for the adapter |
| DatabaseMigrationRuns.CanHitActiveExactly | src/application/apply-data-migration.ts:797-804 | some other writer, who keeps rollback targets apart, makes it ask for the active one exactly when it gets as far as asking |
| DatabaseMigrationRuns.RemovalIsIdempotent | src/application/apply-data-migration.ts:779-790 | a second removal finds nothing to do |
| DatabaseMigrationRuns.RemovalCanLoseExactly | src/application/apply-data-migration.ts:805-818 | a concurrent change of the row can be lost exactly when the removal gets as far as writing it |
| DatabaseMigrationRuns.RemovalForgetsNewer | src/application/apply-data-migration.ts:805-818 | a database swapped in meanwhile is named nowhere after the removal |
| DatabaseMigrationRuns.RemovalConservesExactly | src/application/apply-data-migration.ts:805-818 | an undisturbed removal loses nothing else exactly when what the retained bindings retain in turn is named beside them |
| DatabaseMigrationRuns.InnerTargetLost | src/application/apply-data-migration.ts:813-818 | an inner target named nowhere else is lost |
| DatabaseMigrationRuns.EveryRunConserves | src/application/apply-data-migration.ts:181-477 | over any number of migrations, also over a retained rollback target, of retries and of removals every live database stays in the store, if removals are undisturbed and forget no inner target named nowhere else |
| DatabaseMigrationTopology.CopyRefines | src/application/apply-data-migration.ts:181-477 | while nobody else writes active databases a whole migration is the swap of the datastore steps if it completed, index included, and changes nothing of them if not |
| DatabaseMigrationTopology.MigrationKeepsAgreement | src/application/apply-data-migration.ts:442-464 | so the topology index agrees with the databases over a migration as it is carried out |
| DatabaseMigrator.Migrator.DestroyDatabaseCandidate | src/application/apply-data-migration.ts:166-179 | deletes the row exactly when the provider confirmed; touches nothing without an adapter |
| DatabaseMigrator.Migrator.ApplyDatabaseMigration | src/application/apply-data-migration.ts:181-477 | has exactly the effect, writes and leases of its step |
| DatabaseMigrator.Migrator.DestroyPreviousDatabaseTarget | src/application/apply-data-migration.ts:757-820 | has exactly the effect of its step |
| StorageMigrationSafety.EveryWriteJustified | src/application/apply-data-migration.ts:499-755 | under arbitrary interference every write touches only the target environment and stores the bindings read at the start, with the swap only after a verified copy and an unchanged source and target, or the bindings just read when those had changed |
| StorageMigrationSafety.CanLoseBindingExactly | src/application/apply-data-migration.ts:591-667 | a concurrent change of any binding can be lost exactly when the run gets as far as its first write, a condition on what it reads and on the answers |
| StorageMigrationSafety.CompletesOverUnseenChange | src/application/apply-data-migration.ts:594-744 | another writer replaces the target binding while the context is resolved: the run completes, and retains for rollback the binding that was there before both |
| StorageMigrationRuns.UnseenChangeIsForgotten | src/application/apply-data-migration.ts:594-744 | the bucket of that other writer is named nowhere afterwards |
| StorageMigrationSafety.EarlyChangesGoUnseen | src/application/apply-data-migration.ts:621-685 | once the candidate is recorded the target compares as unchanged, whatever others did before |
| StorageMigrationSafety.NoSecondCandidate | src/application/apply-data-migration.ts:581-592 | no second bucket is created while an earlier candidate could not be removed |
| StorageMigrationSafety.RerunChangesNothing | src/application/apply-data-migration.ts:534-553 | running a migration again after it completed changes nothing and asks nothing |
| StorageMigrationEffects.AloneCompletesExactly | src/application/apply-data-migration.ts:499-755 | left alone a storage migration completes exactly when source, target, candidate and calls allow it, and the records and buckets are these |
| StorageMigrationEffects.AloneFailsCleanly | src/application/apply-data-migration.ts:649-667 | left alone, a failed copy keeps every binding, and exactly the candidate and bucket that its cleanup could not remove |
| StorageMigrationEffects.SwapHasSeen | src/application/apply-data-migration.ts:669-685 | whatever others do, a completed run swaps over a source binding and a target identity that are as they were read |
| StorageMigrationEffects.RemovalAloneExactly | src/application/apply-data-migration.ts:822-885 | left alone, a removal asks exactly for the retained target in its scope, and takes just that target out of just that binding |
| StorageMigrationConservation.CopyConserves | src/application/apply-data-migration.ts:499-755 | no bucket is lost at any return while nobody else writes the records, but for a rollback target retained from an earlier migration |
| StorageMigrationRuns.FreshIsAccountedFor | src/application/apply-data-migration.ts:608-755 | whatever others write to the bindings meanwhile, the fresh bucket is active exactly when the run completed, else the recorded candidate, or gone |
| StorageMigrationRuns.EveryRunTracksFresh | src/application/apply-data-migration.ts:499-755 | over any run, with others free to write every binding and different bindings given different buckets, of all buckets made for one binding and not swapped in at most one lives, and it is the recorded candidate |
| StorageMigrationRuns.RetainedTargetLostExactly | src/application/apply-data-migration.ts:726-735 | a migration completed over a retained rollback target loses it exactly when it lives and nothing else names it |
| StorageMigrationConservation.RemovesOnlyRetained | src/application/apply-data-migration.ts:840-874 | only the planned rollback target, in its own scope, is ever deleted |
| StorageMigrationRuns.RemovesActiveExactly | src/application/apply-data-migration.ts:845-866 | what it asks for is the bucket active at that moment, after its first wait, exactly when the binding goes by the retained provider and id then, in the retained scope |
| StorageMigrationRuns.NoRunAsksForActive | src/application/apply-data-migration.ts:840-874 | over any run with fresh ids, whatever others write before and after, a removal does not ask for the active bucket unless the records are written while it waits for the adapter |
| StorageMigrationRuns.CanHitActiveExactly | src/application/apply-data-migration.ts:862-866 | some other writer, who keeps rollback targets apart, makes it ask for the active one exactly when it gets as far as asking |
| StorageMigrationConservation.RemovalIsIdempotent | src/application/apply-data-migration.ts:845-856 | a second removal finds nothing to do |
| StorageMigrationConservation.RemovalConserves | src/application/apply-data-migration.ts:867-884 | removing a rollback target loses nothing else while nobody else writes the records |
| StorageMigrationRuns.RemovalCanLoseExactly | src/application/apply-data-migration.ts:867-884 | a concurrent change of any binding, or a candidate recorded meanwhile, can be lost to a removal exactly when it asks and the bucket is gone |
| StorageMigrationRuns.RemovalForgetsFresh | src/application/apply-data-migration.ts:867-884 | the bucket of a migration that starts meanwhile is named nowhere after the removal |
| StorageMigrationRuns.EveryRunConserves | src/application/apply-data-migration.ts:499-885 | over any number of migrations, retries and removals every live bucket stays in the store, if nobody else writes the records and a migration that completes over a retained rollback target has it named elsewhere |
| StorageMigrator.Migrator.PersistStorageState | src/application/apply-data-migration.ts:483-497 | replaces all three records of the environment |
| StorageMigrator.Migrator.ApplyStorageMigration | src/application/apply-data-migration.ts:499-755 | has exactly the effect and writes of its step |
| StorageMigrator.Migrator.DestroyPreviousStorageTarget | src/application/apply-data-migration.ts:822-885 | has exactly the effect of its step |
| DatastoreSafety.FailedSwitchRoundTrip | src/application/apply-plan.ts:3195-3220 | cleaning up a failed switch asks for exactly what the failure left and restores the old binding with its effective id, exactly when that had an id and a scope |
| DatastoreRestores.EveryRunRestores | src/application/apply-plan.ts:283-316 | over any run of failed creates to any number of providers and of cleanups, the original binding is back, with its effective id, exactly once as many cleanups were carried out as switches were recorded |
| DatastoreRestores.RetryStaysProvisionalExactly | src/application/apply-plan.ts:291-302 | a failed retry leaves what a cleanup undoes exactly when it is no in-place update of a cache |
| DatastoreRestores.RetriedCacheForgetsOriginal | src/application/apply-plan.ts:4274-4302 | failed switch, failed retry in place, cleanup: the original cache binding is gone, while without the retry it is back |
| DatastoreSafety.MarkerRoundTrip | src/application/apply-plan.ts:3284-3374 | retained cleanup of an unresolved switch restores the old binding and empties the slot; it is authorised exactly when the target is bound nowhere and the old binding is complete |
| DatastoreSafety.SuccessfulSwitchKeepsOnlyNew | src/application/apply-plan.ts:3121-3194 | removing the previous resource asks for the old one, never the new one, and leaves the new binding without any previous field |
| DatastoreEffects.CreatesExactly | src/application/apply-plan.ts:3887-3938 | a successful create stores what the provider handed out, complete, with another provider stashed; the index names it; nothing else changes |
| DatastoreEffects.FailsExactly | src/application/apply-plan.ts:196-318 | a failed create is recorded exactly when its answer names something and fits what is bound; merged or stashed, field by field |
| DatastoreEffects.DestroysExactly | src/application/apply-plan.ts:3097-3223 | a destroy asks exactly for the reviewed bound or previous resource; once confirmed the row is gone exactly when no binding lies beneath an incomplete one |
| DatastoreSafety.SwitchIdentityExactly | src/application/apply-plan.ts:3893-3916 | the new row goes by the new identity exactly when an external id was reported, none was there to keep, or they agree |
| DatastoreSafety.StashForgottenExactly | src/application/apply-plan.ts:3195-3221 | destroying the current resource forgets a stashed previous one exactly when the current one is complete |
| DatastoreSafety.RetainedCanBeCleanedUp | src/application/apply-plan.ts:196-318 | an identity kept after a failure can be destroyed by exactly its id and scope; a marker can be cleaned up by exactly its name and scope |
| DatastoreSafety.MarkedIsLeftAlone | src/application/apply-plan.ts:3835-3844 | while a create is unresolved no other is issued and no ordinary destroy of it is authorised |
| DatastoreSafety.NetworkMarkerSurvivesRuns | src/application/apply-plan.ts:3991-4014 | over any run an unresolved cache network stays recorded until a create planned with that very marker is answered, and no create planned otherwise is issued |
| DatastoreSafety.MarkerStepKept | src/application/apply-plan.ts:3284-3374 | no step removes a marker but cleanup of its exact name and scope after absence was seen |
| DatastoreSafety.MarkerSurvivesRuns | src/application/apply-plan.ts:3284-3374 | over any run without such a cleanup the marker stays |
| DatastoreSafety.FailedProvisionKeepsCache | src/application/apply-plan.ts:243-302 | a failed provision of the bound cache leaves provider, id and scope as they are |
| DatastoreSafety.FailuresKeepCache | src/application/apply-plan.ts:3940-4062 | so does any number of them |
| DatastoreSafety.FailedProvisionMovesDatabase | src/application/apply-plan.ts:270-318 | a failed provision that reports another id renames the bound database, while for a cache the same answer is not recorded |
| DatastoreSafety.EveryRunOneFlag | src/application/apply-plan.ts:283-302 | through any run no binding at any depth is both incompletely provisioned and incompletely reconciled |
| DatastoreSafety.CleanupAsksOnlyTheSlot | src/application/apply-plan.ts:3229-3436 | retained cleanup deletes only the slot's exact id and scope, bound by no component anywhere, and clears the slot only after an absence seen after the deletion |
| DatastoreSafety.ImportTakesFreeSlot | src/application/import-provider.ts:153-330 | an import takes only a free slot, for a target bound nowhere that matches any pending marker, and touches nothing else |
| DatastoreEffects.ImportsExactly | src/application/import-provider.ts:153-330 | an import takes the slot exactly when confirmed, free, complete in scope, bound nowhere, and the target of any waiting create |
| DatastoreEffects.CleansUpExactly | src/application/apply-plan.ts:3229-3436 | retained cleanup asks exactly for the planned target in the slot, and what it stores once absence is seen |
| DatastoreSafety.RetainedCleanupWasConfirmed | src/application/apply-plan.ts:3229-3436 | over any run, whatever retained cleanup asks for was confirmed into that slot by an import that found it bound nowhere, and is bound nowhere now |
| DatastoreTopology.FailedAgrees | src/application/apply-plan.ts:283-316 | a failed provision leaves the index naming the database that a cleanup would restore |
| DatastoreEffects.ChangesReplicaExactly | src/application/apply-database-resilience.ts:117-233 | a replica change is carried out exactly for the reviewed database and replica, and writes just that replica and the index |
| DatastoreTopology.ReplicaAgreesExactly | src/application/apply-database-resilience.ts:44-66 | an accepted replica change keeps index and component in agreement exactly when the database is complete, or what its cleanup would restore needs no entry or has that very one |
| DatastoreTopology.ReplicaOfIncompleteDisagrees | src/application/apply-database-resilience.ts:156-204 | create, failed switch, replica added to the incomplete database, cleanup: the first database is back, complete, and the index names the one that is gone |
| DatastoreTopology.MigratedAgrees | src/application/apply-data-migration.ts:442-463 | a completed migration starts the index over and keeps it in agreement |
| DatastoreTopology.EveryRunAgrees | src/application/apply-database-resilience.ts:209-233 | through creates, failed switches and restores, cleanups, migrations, and the replica changes that keep agreement, the index names every complete database with the projection of its replicas |
| DatastoreTopology.KeptExternalIdDisagrees | src/application/apply-plan.ts:3904-3926 | without a reported identity the index and the row disagree after a create |
| DatastoreTopology.RestoredBehindTheIndex | src/application/apply-plan.ts:283-295 | a failed create under the same provider over a stashed one, then cleanup, leaves the index on the wrong database |
| DatastoreHandlers.Handlers.FindActiveBindingConflict | src/application/active-datastore-binding.ts:33-69 | finds nothing exactly when no component of any project binds the provider and id, and says how the scope compares |
| DatastoreHandlers.Handlers.RetainFailedProvisionIdentity | src/application/apply-plan.ts:196-318 | has exactly the effect of its step, and says whether anything was kept |
| DatastoreHandlers.Handlers.CreateDatabase | src/application/apply-plan.ts:3805-3938 | has exactly the effect of its step; success leaves a complete binding |
| DatastoreHandlers.Handlers.CreateCache | src/application/apply-plan.ts:3940-4130 | has exactly the effect of its step; success leaves a complete binding |
| DatastoreHandlers.Handlers.DestroyDatastore | src/application/apply-plan.ts:3097-3223 | has exactly the effect and asks exactly the target of its step |
| DatastoreHandlers.Handlers.RetainCleanup | src/application/import-provider.ts:246-311 | has exactly the effect of its step |
| DatastoreHandlers.Handlers.DestroyRetainedDatastore | src/application/apply-plan.ts:3438-3658 | has exactly the effect and asks exactly the target of its step; success empties the slot |
| DatastoreHandlers.Handlers.ChangeReadReplica | src/application/apply-database-resilience.ts:117-204 | has exactly the effect of its step |
| DatastoreHandlers.Handlers.PersistedReplicas | src/application/apply-database-resilience.ts:216-226 | keeps exactly the replicas that have an id |
| DatastoreHandlers.ResourceSlots.DestroyRetainedResource | src/application/apply-plan.ts:3660-3803 | empties the slot exactly when absence was seen at the first look, or within the allowed attempts after a confirmed deletion with every look before it showing the exact target |
| MaintenanceSafety.SafeStepExactly | src/application/apply-maintenance.ts:126-153 | a step for the host keeps its page up while anything is suspended or fenced, except for a removal of the page while something maintenance touched is no longer desired, and only then is that lost |
| MaintenanceSafety.SnapshotsWrittenOnce | src/application/apply-maintenance.ts:188-239 | every stored snapshot survives every step unchanged until an exit is finished |
| MaintenanceSafety.SuspensionGuarded | src/application/apply-maintenance.ts:178-240 | whatever gets suspended is suspended behind the page, after every cron job if it is a worker, after every cron job and worker if it is a web service, and with a snapshot of every desired workload stored |
| MaintenanceEffects.SuspendsInStages | src/application/apply-maintenance.ts:223-228 | whatever is newly suspended finds every other desired workload of an earlier stage suspended, with the stages spelled out |
| MaintenanceEffects.SuspendsExactly | src/application/apply-maintenance.ts:178-240 | behind the page and with everything visible, a suspension is accepted exactly when the earlier stages are down, and takes down just what its snapshot names |
| MaintenanceEffects.CronIsNeverRefused | src/application/apply-maintenance.ts:223-228 | so a cron job is never refused because of another workload |
| MaintenanceEffects.ResumesExactly | src/application/apply-maintenance.ts:241-262 | behind the page a restore is accepted exactly with the exact snapshot, and brings just that service back |
| MaintenanceEffects.FencesExactly | src/application/apply-maintenance.ts:265-310 | the fence is set or lifted exactly when every desired workload is down |
| MaintenanceEffects.EnablesExactly | src/application/apply-maintenance.ts:96-122 | putting up the page records what the provider returned |
| MaintenanceEffects.DisablesExactly | src/application/apply-maintenance.ts:123-154 | the page comes down exactly when everything is back up |
| MaintenanceEffects.VerifiesExactly | src/application/apply-maintenance.ts:312-345 | entering is verified exactly when page, suspensions and fence are in place, leaving exactly when they are gone |
| MaintenanceEffects.EnteringWorks | src/application/apply-maintenance.ts:66-348 | for every desired state and every order that respects the stages, entering with providers that do as told ends active, behind the page, suspended and fenced |
| MaintenanceEffects.CycleComesBack | src/application/apply-maintenance.ts:66-348 | and leaving again gives back exactly the state before |
| MaintenanceSafety.SuspendsReviewedExactly | src/application/apply-maintenance.ts:216-236 | the reviewed service is the one suspended exactly when no other identity is stored under its name |
| MaintenanceSafety.EveryRunSafe | src/application/apply-maintenance.ts:66-348 | while what was suspended stays desired and bound and the host name stays put, in every reachable state a fenced database or a workload suspended by maintenance means that the host serves the page |
| MaintenanceSafety.RoundTrip | src/application/apply-maintenance.ts:312-345 | a run that ends with a verified exit leaves exactly the originally suspended workloads suspended, nothing fenced, no page on the host, every other host as it was, and no binding |
| MaintenanceSafety.FixedTargetsAreCareful | src/application/apply-maintenance.ts:66-348 | while desired state and bindings stay put every run is safe and every exit a round trip |
| MaintenanceSafety.DroppedWorkloadStaysDown | src/application/apply-maintenance.ts:136-153 | a suspended workload dropped from the desired state stays suspended with its snapshot gone |
| MaintenanceSafety.PageForgottenExactly | src/application/apply-maintenance.ts:96-122 | enabling the page again forgets the recorded page, which stays up, exactly when the host name has changed |
| MaintenanceSafety.HostChangeLeaksPage | src/application/apply-maintenance.ts:96-154 | a host name changed between entering and leaving leaves the first page up after a verified exit |
| MaintenanceSafety.ActiveStepExactly | src/application/apply-maintenance.ts:123-309 | from an active record that can be believed, a step keeps it so exactly when it is no restore, unfence or page removal carried out without being confirmed |
| MaintenanceSafety.ActiveMeansDownExactly | src/application/apply-maintenance.ts:66-348 | over any run with fixed targets an active record means at every point that page, suspension and fence stand, exactly when no call of the run is one of those |
| MaintenanceSafety.ActiveMeansDown | src/application/apply-maintenance.ts:322-335 | so it does with providers whose failed calls change nothing |
| MaintenanceSafety.AmbiguousCallLeavesActive | src/application/apply-maintenance.ts:123-309 | each of those calls leaves the record active over a boundary that no longer stands |
| MaintenanceSafety.RemovalNeedsEveryField | src/application/apply-maintenance.ts:104-125 | a stored edge can be removed exactly when all six identity fields were returned |
| MaintenanceRunner.Runner.WorkloadsRestored | src/domain/services/environment-maintenance.service.ts:32-41 | true exactly when every desired workload is in the state its snapshot asks for |
| MaintenanceRunner.Runner.CollectSnapshots | src/application/apply-maintenance.ts:188-215 | yields the stored snapshots plus a new one for every other desired workload, or nothing when one cannot be proved running |
| MaintenanceRunner.Runner.EarlierStagesSuspended | src/application/apply-maintenance.ts:223-228 | true exactly when every workload of an earlier stage is seen suspended |
| MaintenanceRunner.Runner.SuspendWorkload | src/application/apply-maintenance.ts:229-239 | may be called only with a snapshot of every desired workload in the store |
| MaintenanceRunner.Runner.EnableEdgeAction | src/application/apply-maintenance.ts:96-122 | has exactly the effect of its step |
| MaintenanceRunner.Runner.DisableEdgeAction | src/application/apply-maintenance.ts:123-154 | has exactly the effect of its step; success means the page is down |
| MaintenanceRunner.Runner.SuspendAction | src/application/apply-maintenance.ts:178-240 | has exactly the effect of its step |
| MaintenanceRunner.Runner.ResumeAction | src/application/apply-maintenance.ts:241-262 | has exactly the effect of its step; success leaves a workload that was running running |
| MaintenanceRunner.Runner.FenceAction | src/application/apply-maintenance.ts:265-310 | has exactly the effect of its step; success means the asked-for fence state |
| MaintenanceRunner.Runner.VerifyAction | src/application/apply-maintenance.ts:312-345 | has exactly the effect of its step |
| WireGuardFraming.BigEndianRoundTrip | native/fly-wireguard-proxy/main.go:357-415 | the four length bytes give the length back |
| WireGuardFraming.DatagramGoesOut | native/fly-wireguard-proxy/main.go:392-415 | a datagram of up to 65536 bytes whose writer is let through goes out as its length in network order and its bytes |
| WireGuardFraming.KeepaliveGoesOut | native/fly-wireguard-proxy/main.go:424-448 | an idle tick sends four zero bytes, another tick nothing |
| WireGuardFraming.MutexExcludes | native/fly-wireguard-proxy/main.go:404-408 | while one writer has the mutex the other gets nowhere |
| WireGuardFraming.ReadsExactly | native/fly-wireguard-proxy/main.go:357-390 | a frame of up to 65536 bytes is read, a longer one ends the connection |
| WireGuardFraming.EveryInterleavingKeepsFrames | native/fly-wireguard-proxy/main.go:392-448 | after any interleaving of datagram and keepalive writes the stream is whole frames in lock order plus at most one unfinished frame |
| WireGuardFraming.ChunkingIrrelevant | native/fly-wireguard-proxy/main.go:357-390 | how the stream is cut into chunks makes no difference to the reader |
| WireGuardFraming.RoundTrip | native/fly-wireguard-proxy/main.go:357-448 | the reader gets exactly the non-empty datagrams in lock order, except that one still being written or cut off may be missing |
| WireGuardFraming.AcceptedAreTheDatagrams | native/fly-wireguard-proxy/main.go:392-415 | what is framed is, keepalives aside, the datagrams in the order their writer got the mutex |
| WireGuardFraming.WebsocketToWireGuard | native/fly-wireguard-proxy/main.go:357-390 | the reading loop forwards exactly the decoded payloads read while a peer was known, and stops at the first incomplete or oversized frame |
| WireGuardFraming.DeliveredMeans | native/fly-wireguard-proxy/main.go:373-384 | every payload is forwarded while a peer is known, none while none is |
| ExactValueRedaction.AbsentStaysAbsent | src/utils/redact-exact-values.ts:3-8 | a value in the list, or one the text never held, is absent after all passes, later ones included |
| ExactValueRedaction.CleanTextUnchanged | src/utils/redact-exact-values.ts:3-8 | text without the values is returned unchanged |
| Replacement.ReplacesOnlyOccurrences | src/utils/redact-exact-values.ts:3-8 | a text is its pieces around a value, and the result of a pass is the same pieces around the placeholder |
| ExactValueRedaction.EachPassReplacesOnlyItsValue | src/utils/redact-exact-values.ts:3-8 | the passes run in the order of the list, each replacing just its value |
| ExactValueRedaction.NormalizeMeaning | src/utils/redact-exact-values.ts:16-18 | the list holds exactly the non-empty supplied values other than the placeholder, once each, longest first |
| ExactValueRedaction.ScrubbedExactly | src/utils/redact-exact-values.ts:3-20 | a value is absent from every redacted string, whatever else is redacted, exactly when no alignment of it agrees with the placeholder |
| ExactValueRedaction.NoSharedCharacterIsEnough | src/utils/redact-exact-values.ts:3-20 | sharing no character with the placeholder is enough |
| ExactValueRedaction.PlaceholderPartSurvives | src/utils/redact-exact-values.ts:3-8 | the value red survives its own redaction |
| RedactionWalk.RedactionComplete | src/utils/redact-exact-values.ts:15-45 | such a value is gone from every key and string at any depth, through sharing and cycles |
| RedactionWalk.WalkShows | src/utils/redact-exact-values.ts:15-45 | every text and key is scrubbed and nothing else changes: scalars, instants, lists with length and order, records with their entries |
| RedactionWalk.Redactor.Redact | src/utils/redact-exact-values.ts:22-42 | the recursion with its mutable set computes the walk and leaves the set as it was |
| RedactionWalk.Redactor.RedactItems | src/utils/redact-exact-values.ts:30-34 | the same for the elements of an array |
| RedactionWalk.Redactor.RedactEntries | src/utils/redact-exact-values.ts:36-41 | the same for the entries of a record, scrubbing the keys |
| ResponseRedaction.SpellingIrrelevant | src/application/results.ts:84-106 | case and punctuation make no difference to which keys are sensitive |
| ResponseRedaction.RespondShows | src/application/results.ts:125-157 | every text comes out as the patterns leave it, scalars and instants as they are, lists with length and order, records with their keys; withheld under a sensitive key; the placeholder where an open object comes round again |
| ResponseRedaction.ResponseSafe | src/application/results.ts:125-157 | under a sensitive key a response shows only the placeholder, stars, or a number or flag, at any depth and through sharing and cycles, and every other text went through the patterns |
| ResponseRedaction.SensitiveNames | src/application/results.ts:54-106 | the names that are sensitive |
| ResponseRedaction.SensitiveShapes | src/application/results.ts:84-106 | and the shapes: anything ending in token or secret, and the urls and passwords of a database |
| ResponseRedaction.ShortNamesAreShown | src/application/results.ts:84-106 | keys of fewer than five letters and digits are not sensitive |
| ResponseRedaction.Responder.Redact | src/application/results.ts:125-157 | the recursion with its mutable set computes the walk and leaves the set as it was |
| ResponseRedaction.Responder.RedactEntries | src/application/results.ts:149-156 | the same for the entries of a record |
| RecordComparison.SameSortedExactly | src/application/active-datastore-binding.ts:22-26 | sort-and-compare accepts two records exactly when they are equal as maps and order collation-equal keys alike |
| RecordComparison.AcceptedRecordsAreEqual | src/application/import-provider.ts:552-557 | it never accepts two different records |
| RecordComparison.MapEqualityExactly | src/application/apply-plan.ts:3225-3227 | it is equality of maps exactly when the collation tells keys apart |
| RecordComparison.TiedKeysKeepOrder | src/application/apply-plan.ts:3225-3227 | two keys that collate as equal make it depend on insertion order |
| RecordComparison.ExactStringRecord | src/application/apply-data-migration.ts:51-64 | the loop accepts exactly equal sorted entries whose values are non-empty strings |
| RecordComparison.ExactStringRecordMeaning | src/application/apply-data-migration.ts:51-64 | so it decides equality of records of non-empty strings, under an antisymmetric collation |

## Left out

- HostingHandlers.Handlers.DestroyService: the local service row is not modelled, so its removal with the last binding is not either.
- HostingSafety.NoRunLeavesDangling: deployments, which add service bindings, are not among the steps.
- HostingHandlers.Handlers.EnsureHostingProject: of the bindings schema the hosting fields are modelled; that another field (`domainDns`, `maintenance`, `previousDatabase`, `previousCache`) makes the parser throw is not.
- DatabaseMigrationRuns.EveryRunConserves: stated for removals that are undisturbed and forget no inner target; otherwise something can be lost, as `RemovalCanLoseExactly` and `InnerTargetLost` show.
- StorageMigrationRuns.EveryRunConserves: stated while nobody else writes the environment's storage records, because the migration overwrites what others wrote, as `CanLoseBindingExactly` shows; what holds whatever others write to bindings is `EveryRunTracksFresh`.
- DatabaseMigrator.Migrator.DestroyPreviousDatabaseTarget: the choice of adapter by name and the placement options are a single yes or no.
- DatastoreHandlers.Handlers.RetainCleanup: the provider inventory and its reduction to one candidate by hosting scope (`candidatesInCompatibleHostingScope`) are an input, as are the engine, the provider engine and the resource kind.
- DatastoreSafety.ImportTakesFreeSlot: so is the one candidate that an import sees.
- DatastoreHandlers.Handlers.DestroyRetainedDatastore: the environment's bindings are stored from the copy read at the start; other writers in between are not modelled here.
- DatastoreHandlers.Handlers.DestroyDatastore: clearing the cache-network attachment after a cache is gone is left out; the database and the cache handler share one model, as their branches are the same.
- DatastoreHandlers.Handlers.CreateCache: the runtime-network check after a successful provision, and the comparison of the reviewed placement fields, are left out.
- Datastore bindings are modelled by the fields the handlers read; a field of the wrong type counts as absent, and an absent field of a response does not erase a stored one.
- DatastoreHandlers.ResourceSlots.DestroyRetainedResource: the slots stand alone, without the components beside them: the kinds of resource kept there (backups and artifacts) are none that a component binds, so no search for an active binding is stated.
- MaintenanceRunner.Runner.FenceAction: acquiring and releasing database access is one yes or no.
- WireGuardFraming.WebsocketToWireGuard: the idle clock, cancellation and UDP write errors are not part of the loop's contract.
- ResponseRedaction.ResponseSafe: the token patterns inside strings are a parameter.
- Record keys with special meaning in JavaScript (`__proto__`), and integer-like keys that enumerate first, are not modelled.
- The plan executor, the planners, the registries, provider clients and everything that prints are not part of this model: they add branches, not state.
- Availability, backup-policy, domain, email, messaging, seed and secret steps are left out: they delegate to services that are not part of this model.
