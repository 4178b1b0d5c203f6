# The reconcile and purge engine, modelled and proved in Dafny

An operator built on this library describes the objects it wants, and reconcilers bring a Kubernetes cluster there
round after round. This project models that engine and proves what it keeps over single calls, whole runs and
whole histories.

- **The cluster** (`Cluster.dfy`) is a map from group-kind, namespace and name to contents, with a log of the writes
  asked for. Every call is answered by an environment that may refuse it, lose its answer after carrying it out,
  leave a deleted object terminating, or fill in fields of a created object. All results hold for every environment.
- **One object** (`ResourceMachine.dfy`, `ResourceReconciler.dfy`): created, merged and updated, recreated after a
  rejected immutable-field change, or deleted, under static, dynamic and stacked desired states with their hooks.
- **One run** (`NativeMachine.dfy`, `NativeReconciler.dfy`): annotate, modify and apply every built object, then purge
  the component's objects that were not visited.
- **One round** (`InventoryMachine.dfy`, `Inventory.dfy`, `Scope.dfy`, `InventoryText.dfy`, `HelmReconciler.dfy`):
  read the recorded objects, normalise namespaces, record what is wanted now, stack state overrides, and run with the
  purge types the inventory asks for.
- **Around it**: the dispatcher over many components and its statuses, the install and uninstall orders, the watch
  mapper, deep merging of chart values, and the in-place override of pod templates.

Each imperative part of the program is a class or method that changes state in place, proved equal to a function on
values; the theorems are about those functions. In-memory objects are shared `RuntimeObject`s, so an object that
several builders hand out is one object here too.

## Main results

- `NoLeak.NothingEverLeaks`: over any sequence of well-going rounds with arbitrary wanted sets, no live object of the
  component outlives its being wanted. The induction runs through the stored text of the inventory, the deletable
  set, the purge types and the purge.
- `Coexistence.NothingLeaksAmongOthers`: the same with rounds of other components in between, whose inventories and
  objects are proved apart.
- `RunConvergence.RunConverges` and `Quiescence.SecondRunIsQuiet`: one clean run establishes the desired state, and a
  second one writes nothing and, its calls answered, is clean again (`RunOutcomes.SecondRunIsClean`).
- `Outcomes.SucceedsIff` and `RunOutcomes.RunSucceedsIff`: exactly when a reconciliation, and a whole run, succeeds.
- `RunHistories.NeverAdopted`: an object without the component's annotation never gets it and is never purged.
- `PurgeProperties.PurgeIsExactAndGated`, `RoundSafety.VersionBumpIsHarmless`, `RoundSafety.PurgesNeverCross`.
- `Sort.UninstallReversesInstall`, `Strimap.MergeAssociative`, `Scope.LookupAgrees`, `InventoryText.ParseUndoesPrint`,
  `DispatcherProperties.AggregateMatchesRun`, `Watches.WatchFindsOwner`, `Overrides.OverriddenIsStable`.

## Where the code does not do what one expects

Each is a lemma, with the exact condition where there is one.

- The two kind orders are not mirror images: a Service stands before the workloads in both
  (`Sort.UninstallReversesInstall` says exactly which pairs are reversed).
- Merging is not associative through a scalar between two trees (`Strimap.MergeAssociative`, an equivalence).
- Overriding a readiness probe writes the liveness probe (`Overrides.ProbesAfterOverride`), and merging selector
  expressions into no selector at all is a nil dereference (`Overrides.MergeSelectors`).
- The create-only annotation is ignored for every state that asks for convergence but is neither Present nor a
  dynamic state directly around it: `RunHistories.MarkIsIgnored`, and `RunHistories.MarkedIsUpdatedIff` says exactly when
  a live object is then updated.
- An absence wrapped in a dynamic state is deleted but recorded as present
  (`RoundSafety.WrappedAbsenceIsRecordedPresent`).
- An error while preparing the inventory is dropped. `RoundSafety.SwallowedIff` says exactly when, in terms of what is
  read and of the builders, and when the code panics instead; `Witnesses.SwallowingRoundExists` is a round that reports no
  error and leaves a recorded, unnamed object alive.
- An object that the inventory has forgotten is purged only in the company of a markable reference of its kind
  (`RoundSafety.LeftoverSurvivesIff`); `Witnesses.ForgettingRoundsExist` are two rounds that lose one.
- Identifiers joined with dashes collide (`Identity.ResourceIDsCollide`, `Identity.ComponentIDsCollide`,
  `Coexistence.InventoryKeysCollide`); without dashes in namespaces, kinds and releases they do not. The inventory's name
  leaves out the namespace and kind of the owner.

## Model

| member | source | states |
|---|---|---|
| `ResourceReconciler.GenericResourceReconciler.ReconcileResource` | pkg/reconciler/resource.go:358-529 | the step-by-step reconciliation, changing the desired object in memory and the cluster through the client, ends in exactly the state, result and error of the machine that all results below are about |
| `ResourceReconciler.GenericResourceReconciler.CreateIfNotExist` | pkg/reconciler/resource.go:549-625 | read, hook, veto and create, with every error path, end in the machine's state |
| `ResourceReconciler.GenericResourceReconciler.Delete` | pkg/reconciler/resource.go:627-682 | read, hook, veto and delete, a missing object or type counting as gone |
| `ResourceProperties.OneObjectContract` | pkg/reconciler/resource.go:358-529 | in every environment, one reconciliation changes and writes to at most its own object, and deletes it only when Absent is asked for or its update was answered by a 422 Invalid that matched, with the kind allowed and recreation enabled, the deletion being the very next write |
| `ResourceProperties.CreateOnlyLeavesExisting` | pkg/reconciler/resource.go:365-380 | a state resolving to Created asks for nothing about an object that exists and at most creates a missing one |
| `ResourceProperties.SendUpdateTouches` | pkg/reconciler/resource.go:444-516 | updating, with all its recreate branches, touches one object, and deletes it only right after the rejection of the update that calls for it |
| `Convergence.ConvergeSettles` | pkg/reconciler/resource.go:373-528 | a Present reconciliation that neither fails nor asks to be repeated leaves the object live, not terminating, with the merged desired content, and the same content in memory |
| `Convergence.SuccessSettles` | pkg/reconciler/resource.go:358-529 | the same for every state: present and merged, created or left as it was, or gone up to finalizers |
| `Convergence.LandedIsStable` | pkg/reconciler/resource.go:395-443 | what a success stores is a fixed point: the label and annotation merge, the stripping of the component annotation and the three update hooks, fed with their own output, ask for exactly the stored content |
| `Convergence.InSyncWritesNothing` | pkg/reconciler/resource.go:425-443 | against an object in sync no Create, Update or Delete is asked for, whatever the API server answers |
| `Convergence.LandedCarries` | pkg/reconciler/statemodifiers.go:25-64 | the stored body equals the desired one but for fields only the cluster assigns |
| `Convergence.NoAdoption` | pkg/reconciler/resource.go:395-418 | an object live without the component annotation does not get it from a reconciliation that does not delete it |
| `Outcomes.SucceedsIff` | pkg/reconciler/resource.go:358-529 | with every call answered a reconciliation succeeds iff its object is achievable, said over the served types, the live object and the desired one; it asks for exactly the stated write, and only a terminating object that should converge is to be looked at again, after two seconds |
| `Outcomes.AbsentIsNoError` | pkg/reconciler/resource.go:644-656 | an object to be absent that is not there, or whose type is not served, ends with no error, no result and no write, under any hooks |
| `Outcomes.InSyncSucceeds` | pkg/reconciler/resource.go:431-443 | an object in sync takes one answered read and ends with no error and no result |
| `Outcomes.RefusedReadIsAnError` | pkg/reconciler/resource.go:565-569 | a refused read ends every reconciliation with its error and without a write |
| `Outcomes.DeletionIsVetoed` | pkg/reconciler/resource.go:657-679 | for any hooks: a live object is deleted iff the hook passes and nothing objects; failing hooks are errors, a veto is not |
| `Outcomes.CreationIsVetoed` | pkg/reconciler/resource.go:570-595 | for any hooks: a missing object is created iff the hook passes and nothing objects, and after a veto nothing at all is written |
| `Outcomes.UpdateIsVetoed` | pkg/reconciler/resource.go:390-466 | for any hooks: a terminating object is left for two seconds; otherwise desired metadata is laid over live metadata, the component annotation only where the live object has it, and the update goes out, under the resource version read, unless it is vetoed, a hook fails or nothing differs |
| `Outcomes.SentUpdateMeans` | pkg/reconciler/resource.go:469-520 | an update is the first thing asked for, and an answered one succeeds iff it is not stale |
| `Outcomes.RefusedUpdateMeans` | pkg/reconciler/resource.go:473-518 | exactly what a refused update leads to: the plain error unless it is a 422 Invalid with a matching message, not enabled, not allowed, deleted in the foreground and looked at again after the delay, or recreated at once, which fails iff the deleted object is still around or nameless |
| `Outcomes.DefaultsMean` | pkg/reconciler/resource.go:201-225 | which messages and kinds call for a recreate, and after what delay, when the caller sets none, one or all of the options |
| `Outcomes.LandedMetadata` | pkg/reconciler/resource.go:395-418 | every desired label and annotation is stored, and every live one under another key stays |
| `Outcomes.StandardHooksMean` | pkg/reconciler/statemodifiers.go:25-64 | the three hooks together, over the two contents: metadata merged, the live address for a Service without one, the live token references, nothing else |
| `Outcomes.DefinitionsMustGetReady` | pkg/reconciler/resource.go:596-620 | a created CustomResourceDefinition is an error unless it becomes ready; no other object is waited for |
| `MetaBase.MergeInto` | pkg/types/base_types.go:140-161 | whatever order the map is walked in, base entries win and all other entries stay |
| `DesiredStates.RunStandardHooks` | pkg/reconciler/native.go:84-97 | the three hooks run in place, in order, with the first error ending them, and compute the standard update |
| `DesiredStates.ServiceIPModifier` | pkg/reconciler/statemodifiers.go:25-36 | only a Service without a cluster IP is given the live one, and nothing else changes |
| `DesiredStates.KeepLabelsAndAnnotationsModifier` | pkg/reconciler/statemodifiers.go:38-55 | live labels and annotations stay under every key the desired object does not set |
| `DesiredStates.KeepServiceAccountTokenReferences` | pkg/reconciler/statemodifiers.go:57-64 | a ServiceAccount keeps the live token references |
| `DesiredStates.StandardHooksAreFixedPoints` | pkg/reconciler/statemodifiers.go:25-64 | the hooks applied to their own result change nothing more |
| `DesiredStates.PlainHooks` | pkg/reconciler/state.go:101-227 | a stack of plain states, however deep, runs the standard update once in effect or not at all, and objects to nothing |
| `Stacks.LastDecides` | pkg/reconciler/state.go:101-113 | of a stack the last state alone decides between creating, removing and converging, a dynamic one through the state inside it |
| `Stacks.FirstObjectionDecides` | pkg/reconciler/state.go:181-227 | a stack agrees iff all its members do, and otherwise the first that objects or fails decides |
| `Stacks.HooksRunInOrder` | pkg/reconciler/state.go:115-146 | the hooks of a stack run from its first member to its last, each on what the earlier ones left, and none after a failure |
| `NativeReconciler.ComponentReconciler.GenerateComponentID` | pkg/reconciler/native.go:378-408 | the component ID of an owner, and the refusal when a part of it is missing |
| `NativeReconciler.ComponentReconciler.PrepareObject` | pkg/reconciler/native.go:295-331 | annotations, controller reference and modifiers applied in place, up to the first failure |
| `Ownership.PrepareMeans` | pkg/reconciler/native.go:295-331 | over the built object: refused iff it carries another component's ID, or is to be controlled and has a foreign controller; otherwise modified with the component ID and the owner's name as annotations, and controlled by the owner unless it is a definition, a namespace, or outside a namespaced owner's namespace |
| `Ownership.ModifiersRunInOrder` | pkg/reconciler/native.go:323-331 | modifiers run in their order, each on what the earlier ones left, and none after a failure |
| `Ownership.RunSetsController` | pkg/reconciler/native.go:302-320 | after a clean run every object that converged or was newly created is stored under the owner's controller reference where the owner reaches, and under the one it was built with elsewhere |
| `NativeReconciler.ComponentReconciler.VisitObject` | pkg/reconciler/native.go:294-360 | preparing and applying one object changes the cluster, the object, the visited IDs, the recorded states and the combined result as the run machine says |
| `NativeReconciler.ComponentReconciler.Purge` | pkg/reconciler/native.go:458-514 | all lists are taken first, then exactly the purgeable objects are deleted one after the other in uninstall order |
| `NativeReconciler.ComponentReconciler.Reconcile` | pkg/reconciler/native.go:274-376 | a call is a run: the apply loop over all builders, and a purge only if no error was collected |
| `NativeReconciler.Choose` | pkg/reconciler/native.go:485-498 | of the objects listed, exactly those are chosen that carry the component ID and were not visited |
| `RunFrames.VisitTouches` | pkg/reconciler/native.go:294-360 | one builder touches at most the object it names, in the cluster and in memory, and no in-memory identity changes |
| `RunFrames.ApplyTouches` | pkg/reconciler/native.go:286-361 | objects that no builder names come through the apply loop unchanged and unasked for |
| `PurgeProperties.PurgeIsExactAndGated` | pkg/reconciler/native.go:286-369 | if any builder fails, or its object cannot be annotated, owned, modified, reconciled or named, nothing is purged; otherwise the deletions asked for are exactly the listed objects of existing purge types with this component ID whose resource ID was not visited |
| `PurgeProperties.ApplyErrors` | pkg/reconciler/native.go:286-361 | the apply loop ends with an error iff one of its steps goes wrong in the state the earlier ones left, so no later step makes up for it |
| `PurgeProperties.DeleteAllEffect` | pkg/reconciler/native.go:500-513 | the purge writes the planned deletions in order and nothing else, and without an error leaves no planned object alive |
| `PurgeProperties.VisitedSurvivesPurge` | pkg/reconciler/native.go:485-492 | an object whose resource ID was visited is neither changed nor asked to be deleted, whatever version it is listed under |
| `PurgeProperties.CleanApplyVisitsAll` | pkg/reconciler/native.go:346-352 | after an error-free apply loop the visited IDs are exactly those of the builders' objects |
| `PurgeProperties.ListedAreTypes` | pkg/reconciler/native.go:436-456 | only purge types that exist are ever listed |
| `PurgeProperties.ListedIff` | pkg/reconciler/native.go:436-484 | over the mapper's answers: a purge type is listed iff there is no mapper, it fails, or its mappings hold the type, and the list call, numbered by the admitted types before it, is answered |
| `RunOutcomes.DeletionsSucceedIff` | pkg/reconciler/native.go:506-513 | a planned deletion is an error iff its call is refused or its type is not served, so an object that is already gone is none, and without an error everything planned is reported as purged in order |
| `RunConvergence.RunConverges` | pkg/reconciler/native.go:274-376 | after one clean run over distinct objects every builder's object is settled, everything unnamed and unpurged is as before, and no unvisited object of the component of a listed type is alive |
| `RunConvergence.ApplyDone` | pkg/reconciler/native.go:286-361 | the apply loop part of it, builder by builder: later builders never undo what earlier ones did |
| `RunConvergence.RepeatsAreAnnounced` | pkg/reconciler/resource.go:387-394 | a reconciliation that left something to do says so in its result, so a clean combined result means none did |
| `RunOutcomes.RunSucceedsIff` | pkg/reconciler/native.go:274-376 | when every call is answered, a run over distinct objects ends without an error, and so reaches its purge, iff every builder is fit in the state before the run |
| `RunOutcomes.ApplyReports` | pkg/reconciler/native.go:346-359 | an error-free apply loop reports every object, as it left it and in order, as present, or as absent if its state is the static one |
| `Quiescence.SecondRunIsQuiet` | pkg/reconciler/native.go:274-376 | a second run with the same builders and purge types, on fresh or on reused in-memory objects, leaves the cluster and the write log exactly as they were, in any environment |
| `RunOutcomes.SecondRunIsClean` | pkg/reconciler/native.go:274-376 | if the calls of that second run are answered it ends with no error and no repetition asked for, and purges nothing |
| `Quiescence.MutatedNeedsNothing` | pkg/reconciler/native.go:545-565 | also when the builders hand out the objects that the first run changed in memory |
| `RunHistories.NeverAdopted` | pkg/reconciler/native.go:493-498 | through any sequence of runs of any components an object that starts without the annotation stays without it and out of every purge, up to the first run whose apply loop deletes it, and that takes a builder that wants it absent or an immutable-field recreate |
| `RunHistories.CreateOnlyIsNeverUpdated` | pkg/reconciler/native.go:333-338 | an object whose builders all mark it create-only and want it present is updated by no run in which preparing keeps the mark, and stays exactly as it is unless purged |
| `RunHistories.ModifiersKeepMark` | pkg/reconciler/native.go:323-338 | preparing keeps the mark unless an object modifier touches that annotation |
| `RunHistories.MarkIsIgnored` | pkg/reconciler/native.go:333-338 | exactly when a marked object converges all the same: the state asks for that and is neither Present nor a dynamic state directly around Present |
| `RunHistories.MarkedIsUpdatedIff` | pkg/reconciler/native.go:333-345 | a visit updates a live marked object iff the mark is ignored and the update would change it |
| `Witnesses.MarkedIsUpdatedByRun` | pkg/reconciler/native.go:333-345 | a run that updates a live marked object, because an override is stacked on its Present state |
| `Identity.ResourceIDsSeparate` | pkg/reconciler/native.go:410-434 | resource IDs are equal iff name, namespace and lower-cased kind are, for dash-free namespaces and kinds |
| `Identity.ResourceIDsCollide` | pkg/reconciler/native.go:410-434 | two Secrets with dashes in name and namespace share an ID |
| `Identity.ComponentIDsSeparate` | pkg/reconciler/native.go:378-408 | owners of one kind under one component with dash-free namespaces have different component IDs |
| `Identity.ComponentsSeparate` | pkg/reconciler/native.go:378-408 | one owner's components have different component IDs, dashes or not |
| `Identity.ComponentIDsCollide` | pkg/reconciler/native.go:378-408 | with a dash in the namespace two owners share one |
| `InventoryText.CreateReferences` | pkg/inventory/inventory.go:87-118 | the loop prints the references, five fields each, in order |
| `InventoryText.ReadReferences` | pkg/inventory/inventory.go:120-142 | the loop reads them, skips empty entries, and fails on an entry of fewer than five parts |
| `InventoryText.ParsePanics` | pkg/inventory/inventory.go:121-136 | reading panics exactly on texts with a non-empty entry of fewer than five parts |
| `InventoryText.ShortTextPanics` | pkg/inventory/inventory.go:121-136 | one such text |
| `InventoryText.TextFormat` | pkg/inventory/inventory.go:87-118 | the written text: group, version, kind, namespace and name between slashes, entries between commas |
| `InventoryText.ParseUndoesPrint` | pkg/inventory/inventory.go:87-142 | for references free of separators, of any number, reading gives back what was written, in order |
| `InventoryText.PrintUndoesParse` | pkg/inventory/inventory.go:87-142 | every text of five-part entries is reproduced by reading and writing it |
| `Scope.ScopeCache.IsClusterScoped` | pkg/inventory/inventory.go:313-352 | fixed table, static entry, cached entry, one discovery, in that order, with each error |
| `Scope.ScopeCache.DiscoverApiResources` | pkg/inventory/scope.go:56-80 | the nested loops fill the cache from the lists and keep what was loaded before a malformed group version |
| `Scope.ScopeCache.AddStaticResourceScope` | pkg/inventory/scope.go:30-38 | one static entry is set |
| `Scope.LookupAgrees` | pkg/inventory/inventory.go:313-352 | against a stable discovery a static entry wins, any other answer is discovery's, unknown is said only if discovery was fetched in this very call and lacks the kind, and a call fetches at most once |
| `Scope.CacheAgreesWithDiscovery` | pkg/inventory/scope.go:30-80 | the cache stays empty or equal to discovery's table through any interleaving of static additions and lookups |
| `Scope.TableMeans` | pkg/inventory/scope.go:61-79 | that table holds exactly the listed kinds, each with a scope that some list gives it |
| `Scope.ParseGroupMeans` | pkg/inventory/scope.go:66-71 | the group of a listed group version is what stands before its only slash |
| `Scope.ListedTypeIsFound` | pkg/inventory/inventory.go:313-352 | a type listed under its own API version, by lists that agree on its kind, is found to have the scope listed |
| `Scope.PrintedKindsSeparate` | pkg/inventory/scope.go:76-77 | the printed kinds that key the cache differ for different kinds |
| `Inventory.ObjectInventory.PrepareDesiredObjects` | pkg/inventory/inventory.go:172-225 | reads the stored inventory, collects, normalises in place and records; a failing read or builder is an error, a malformed record or a nil object a panic, each at the state reached |
| `Inventory.ObjectInventory.PrepareDeletableObjects` | pkg/inventory/inventory.go:228-287 | the loop over recorded objects marks the ones no longer wanted, with each skip and failure |
| `Inventory.ObjectInventory.TypesToPurge` | pkg/inventory/inventory.go:145-168 | each type of a marked object once, but no CustomResourceDefinition and no Namespace |
| `Inventory.ObjectInventory.NormalizeDesired` | pkg/inventory/inventory.go:290-374 | both passes, in place, over a list that may hold one object more than once |
| `Inventory.ObjectInventory.Append` | pkg/inventory/inventory.go:376-397 | namespace check, preparation and marking, with the swallowed errors, the returned ones and the panics told apart, and the inventory object added unless something leaves or nothing is wanted |
| `Normalization.NormalizeMeans` | pkg/inventory/inventory.go:290-374 | both passes give every listed object its normal namespace once and change nothing else |
| `Normalization.NormalizedObjects` | pkg/inventory/inventory.go:187-220 | a cluster-scoped object loses its namespace, a namespaced one keeps an explicit one or gets the target's, one of unknown scope is left alone, and normalising again changes nothing |
| `RoundFacts.DeletableIsExact` | pkg/inventory/inventory.go:228-287 | with known scopes exactly those recorded references are marked that have the namespace they need, are no longer wanted, may be purged, and are not seen terminating |
| `RoundFacts.DeletableIsSound` | pkg/inventory/inventory.go:228-287 | only recorded objects that are no longer wanted and neither definitions nor namespaces are marked |
| `RoundFacts.MarkedIff` | pkg/inventory/inventory.go:228-287 | without assuming that scopes are known: exactly the eligible references are marked, and one of unknown scope never is |
| `RoundFacts.MarkingFailsIff` | pkg/inventory/inventory.go:250-255 | marking fails iff the read of a reference of known scope, numbered by the ones before it, is refused; an object or type that is gone is no failure |
| `RoundFacts.FailedDiscoverySpares` | pkg/inventory/inventory.go:240-244 | when discovery fails the reference is spared without a read |
| `RoundFacts.CollectedIff` | pkg/inventory/inventory.go:187-198 | wanted are the objects of all builders but those of the static absence |
| `RoundFacts.StockTaken` | pkg/inventory/inventory.go:376-397 | taking stock writes nothing to the cluster, normalises the wanted objects in memory, and adds the inventory object iff something is wanted |
| `RoundFacts.OnlyAbsentIsGone` | pkg/reconciler/native.go:340-360 | an object that builders only ever want absent is not alive after an error-free apply loop |
| `RoundFacts.ConvergesAtOnce` | pkg/reconciler/resource.go:373-528 | reconciling an object that is not terminating and may not be recreated never asks to be repeated, so an error-free call has stored its goal |
| `HelmReconciler.GetResourceBuildersFromObjects` | pkg/reconciler/native.go:67-104 | the slice is sorted in place, every object modified in that order up to the first refusal, and each given the state wrapped by the three hooks |
| `HelmReconciler.RewritesRunInOrder` | pkg/reconciler/native.go:72-79 | a release's modifiers run in their order, each on what the earlier ones left, and none after a refusal |
| `HelmReconciler.EachIsRewritten` | pkg/reconciler/native.go:72-79 | distinct objects are each modified for themselves, and rendering succeeds iff none is refused |
| `HelmReconciler.ReleaseReconciler.GetResourceBuilders` | pkg/helm/templatereconciler/reconciler.go:229-290 | the managed namespace, create-only, before the chart's objects, which come only if the component is enabled, under the release's modifiers and layers; a layer that cannot be read fails before any object is touched |
| `HelmReconciler.LayersComeLast` | pkg/helm/templatereconciler/reconciler.go:275-283 | the layers follow the release's own modifiers, in order, and one that cannot be read spoils them all |
| `RoundOverrides.BuiltStates` | pkg/helm/templatereconciler/reconciler.go:233-290 | the namespace is built first and only ever created; the chart follows, if enabled, to converge under the three hooks |
| `RoundOverrides.ManagedNamespaceStays` | pkg/helm/templatereconciler/reconciler.go:233-248 | a run over these builders leaves an existing namespace exactly as it is |
| `HelmReconciler.ReleaseReconciler.SetDesiredStateOverrides` | pkg/helm/templatereconciler/reconciler.go:352-401 | entry by entry: an exact override is stacked on the built state, without one the type's is, and without either, or where the one that counts is nil, the state stays |
| `RoundOverrides.OverrideDecides` | pkg/helm/templatereconciler/reconciler.go:367-393 | whatever state an object was built with, after a clean round one overridden to be absent is not alive, one overridden to be created is there and was not changed, and one under any other override is alive |
| `HelmReconciler.ReleaseReconciler.Reconcile` | pkg/helm/templatereconciler/reconciler.go:305-350 | a call is a round over what was rendered: inventory, overrides, one run with the inventory's purge types; nothing is applied if rendering fails or stock cannot be taken |
| `NoLeak.CoveredRunLeavesNoLeak` | pkg/reconciler/native.go:274-376 | a run whose purge types cover what is recorded and no longer wanted leaves alive only wanted objects of the component and the inventory |
| `NoLeak.NewInventoryIsStored` | pkg/inventory/inventory.go:87-118 | after a good round the stored inventory reads back as exactly the objects wanted in it |
| `NoLeak.FinalIsExpected` | pkg/helm/templatereconciler/reconciler.go:305-334 | every object applied in a good round is wanted, the inventory, or to be absent |
| `NoLeak.WantedIsNamed` | pkg/inventory/inventory.go:187-220 | every reference recorded in a good round is applied in it, if no builder hands out a nil state |
| `NoLeak.RecordedKeysAreAppliedKeys` | pkg/inventory/inventory.go:187-220 | so the keys recorded are exactly the keys applied, apart from the inventory itself, when no builder asks for absence |
| `NoLeak.RoundKeepsAccounts` | pkg/inventory/inventory.go:172-287 | the invariant between rounds, the inventory lists every object of the component, is kept by every good round |
| `NoLeak.NothingEverLeaks` | pkg/helm/templatereconciler/reconciler.go:305-334 | from a start at which the stored inventory accounts for every object of the component, after each round of any sequence of good rounds with arbitrary wanted objects, all its live objects are wanted in that round or are the inventory |
| `NoLeak.NothingLeaksFromScratch` | pkg/helm/templatereconciler/reconciler.go:305-334 | a start without objects of the component and without an inventory is such a start |
| `Coexistence.InventoriesSeparate` | pkg/inventory/inventory.go:176 | one owner's releases never share an inventory in a namespace, and neither do differently named owners under one release |
| `Coexistence.InventoryKeysAgreeIff` | pkg/inventory/inventory.go:176 | for releases without a dash inventories coincide iff owner name, namespace and release do; the owner's namespace and kind play no part |
| `Coexistence.InventoryKeysCollide` | pkg/inventory/inventory.go:176 | with a dash in the release two owners share one |
| `Coexistence.AppendOnlyReads` | pkg/inventory/inventory.go:376-397 | however it ends, taking stock writes nothing to the cluster and adds at most the round's own inventory, and that only if neither namespace nor owner is being deleted |
| `Coexistence.LeavingAddsNothing` | pkg/inventory/inventory.go:388-391 | while the target namespace or the owner is being deleted no inventory is added |
| `Coexistence.OtherInventoryStays` | pkg/inventory/inventory.go:376-397 | a round, however it ends, leaves another release's stored inventory and what it records exactly as they were, and asks for no write to it |
| `Coexistence.OtherReleaseStays` | pkg/helm/templatereconciler/reconciler.go:305-350 | in particular that of any other release of the same owner in the same namespace |
| `Coexistence.RunGains` | pkg/reconciler/native.go:545-565 | no run creates, marks or revives an object of another component, whatever its builders name |
| `Coexistence.OtherRoundUndisturbs` | pkg/helm/templatereconciler/reconciler.go:305-350 | so a round of another component, however it ends, is among what may happen between two rounds of this one |
| `Coexistence.NothingLeaksAmongOthers` | pkg/helm/templatereconciler/reconciler.go:305-350 | rounds of several components in turn: from a component's last round on, through any number of rounds of others, its live objects are the ones it wanted then and its inventory |
| `Witnesses.GoodRoundExists` | pkg/inventory/inventory.go:266-282 | a good round that wants an object under another version than the recorded one and purges a left-over object of the recorded version |
| `Witnesses.InterleavingExists` | pkg/helm/templatereconciler/reconciler.go:305-350 | such a history of two components |
| `Witnesses.ForgettingRoundsExist` | pkg/reconciler/native.go:343-364 | two rounds: the first stores the new inventory and then fails to delete an object, the second is good and leaves that object of the component alive and unwanted |
| `Witnesses.SwallowingRoundExists` | pkg/inventory/inventory.go:383-396 | a round that cannot read the inventory, reports no error, and leaves a recorded object alive that nothing names |
| `Witnesses.ExampleFits` | pkg/inventory/inventory.go:228-287 | concrete inputs for these rounds |
| `RoundSafety.DefinitionsAreSpared` | pkg/inventory/inventory.go:145-168 | no round purges a CustomResourceDefinition or a Namespace |
| `RoundSafety.VersionBumpIsHarmless` | pkg/inventory/inventory.go:266-282 | an object recorded under an old API version puts its old type among the purge types and is yet left as it was applied |
| `RoundSafety.PurgesNeverCross` | pkg/reconciler/native.go:493-498 | owners of one kind with dash-free namespaces never purge each other's objects |
| `RoundSafety.PurgedIffTypeIsMarked` | pkg/inventory/inventory.go:145-168 | an unvisited object of the component is purged iff a marked reference has its type |
| `RoundSafety.LeftoverSurvivesIff` | pkg/inventory/inventory.go:228-287 | in terms of the state before a good round: an object of the component that nothing names survives it iff no markable recorded reference has its kind |
| `RoundSafety.SwallowedIff` | pkg/inventory/inventory.go:376-397 | exactly when an error in preparing the inventory is swallowed and exactly when Append panics, in terms of the two reads and the builders; a swallowed error leaves builders, marks and cluster as they were |
| `RoundSafety.WrappedAbsenceIsRecordedPresent` | pkg/reconciler/native.go:354-358 | of the states that delete, the static one alone is recorded as absent, every other as present |
| `Sort.SortInPlace` | pkg/utils/sort.go:33-68 | for any strict weak order on the elements the sort is a sorted permutation |
| `Sort.SortPointers` | pkg/utils/sort.go:33-68 | the pointers are permuted into the order of the objects they point to, which stay as they are |
| `Sort.StrictWeakOrder` | pkg/utils/sort.go:33-68 | the four-key comparator is irreflexive, transitive, and incomparability is transitive |
| `Sort.DefinitionsAndNamespaces` | pkg/utils/sort.go:70-175 | definitions are installed first and namespaces next, and both are removed last, the other way round |
| `Sort.UnlistedKinds` | pkg/utils/sort.go:112-173 | kinds that the table does not list are installed after all listed ones, and removed before all listed ones but the first |
| `Sort.TiesAreBroken` | pkg/utils/sort.go:55-67 | objects of one score come out by group, within a group by kind, within a kind by name; without a score that is all |
| `Sort.BuildOrder` | pkg/utils/sort.go:107-117 | the loop that fills the score map computes the order function of the table |
| `Sort.UninstallReversesInstall` | pkg/utils/sort.go:70-175 | two objects of different listed kinds come out of the two sorts in opposite orders iff they are not a Service and a workload |
| `Results.CombinedResult.Combine` | pkg/reconciler/result.go:28-41 | adds one sub-result in place |
| `Results.CombineAllMeans` | pkg/reconciler/result.go:28-45 | requeue iff some sub-result asks, the least positive delay or 0, an error iff some sub-result has one |
| `Results.OrderAndRepetitionIrrelevant` | pkg/reconciler/result.go:28-45 | neither the order of sub-results nor combining one twice matters |
| `Dispatcher.Get` | pkg/reconciler/component.go:56-66 | the list, or its reverse for uninstalling |
| `Dispatcher.OrderIsChosen` | pkg/reconciler/component.go:116-125 | components come backwards iff that order is forced, or none is and the object is being deleted |
| `Dispatcher.Handler.Handle` | pkg/reconciler/component.go:110-184 | the loop with its early ends leaves the events and returns the result of the run machine over the components, backwards for removal |
| `DispatcherProperties.RunShape` | pkg/reconciler/component.go:125-182 | the turns that come are a prefix ended by the first stop, events follow that order, and a Reconcile starts in exactly the turns whose component is not skipped and whose object's deletion state is that of the start |
| `DispatcherProperties.FlipEndsTheRun` | pkg/reconciler/component.go:140-151 | a change of the deletion state ends the run with an error and a requeue, and nothing starts from there on |
| `DispatcherProperties.ReturnedMeans` | pkg/reconciler/component.go:110-184 | without a metadata error: requeue iff the state flipped or a component asked, the least positive delay asked for, an error iff something went wrong in a turn that came |
| `DispatcherProperties.StatusesAreOutcomes` | pkg/reconciler/component.go:126-172 | each status stored at the end tells the outcome of its component's turn, and turns that did not come leave theirs |
| `DispatcherProperties.AggregateMatchesRun` | pkg/types/base_types.go:82-105 | aggregated: Succeeded iff all were skipped or finished without error and requeue, Failed iff one failed, else Reconciling |
| `Status.AggregatedState` | pkg/types/base_types.go:82-105 | the loop with its map and flag succeeds iff every status is unset or stable and fails iff one failed |
| `Watches.RelatedToReadsBack` | pkg/reconciler/handlers.go:29-43 | the annotation of an owner leads back to exactly that owner iff its namespace has no slash |
| `Watches.RequestsMean` | pkg/reconciler/handlers.go:29-43 | an event leads to the owner named before and after the first slash of the annotation, and to none iff there is no annotation or no slash |
| `Watches.ModifiersKeepRelation` | pkg/reconciler/native.go:301-331 | the annotation is on every prepared object unless an object modifier touches it |
| `Watches.WatchFindsOwner` | pkg/reconciler/native.go:536-543 | after a clean run every converging object is stored with an annotation that enqueues exactly the run's owner, through create, merge and update |
| `Strimap.MergeMaps` | pkg/helm/strimap.go:37-53 | the two filling loops compute the deep merge, in any order of the keys |
| `Strimap.MergeIdentity` | pkg/helm/strimap.go:37-53 | the empty map is an identity on both sides |
| `Strimap.MergeIdempotent` | pkg/helm/strimap.go:37-53 | merging a map with itself gives it back |
| `Strimap.MergeAbsorbed` | pkg/helm/strimap.go:37-53 | merging changes nothing iff everything is already there |
| `Strimap.MergeAssociative` | pkg/helm/strimap.go:37-53 | the two groupings agree iff no scalar in the middle hides a subtree that the last map lacks |
| `Strimap.MergeAssociativeWithoutSandwich` | pkg/helm/strimap.go:37-53 | so they agree when no path has map, scalar, map |
| `Strimap.SandwichBreaksAssociativity` | pkg/helm/strimap.go:37-53 | three maps on which they differ |
| `Strimap.GetinMerge` | pkg/helm/strimap.go:21-35 | where both inputs hold a map at a path, the merge holds there the merge of the two |
| `Strimap.GetinConcat` | pkg/helm/strimap.go:21-35 | a path can be followed in two legs |
| `Strimap.GetinMergeNest` | pkg/helm/strimap.go:21-53 | what is nested under a path and merged over a map that holds no map there is found under that path |
| `Overrides.OverrideContainers` | pkg/types/base_types.go:274-283 | the nested loops leave on the first container of each name the left-to-right composition of its overrides, and every other container untouched |
| `Overrides.Override` | pkg/types/base_types.go:249-299 | containers and init containers are overridden in place, the other fields in the returned copy |
| `Overrides.OverriddenFields` | pkg/types/base_types.go:253-273 | each field is the override's if that gives one and stays otherwise; an empty override changes nothing, a second time nothing more |
| `Overrides.OverridesCompose` | pkg/types/base_types.go:253-273 | two overrides in a row are one |
| `Overrides.ComposedIsPatch` | pkg/types/base_types.go:201-230 | in that composition the last override that sets a field decides it |
| `Overrides.OverriddenIsStable` | pkg/types/base_types.go:274-293 | number, names and order stay, and overriding the result again changes no container |
| `Overrides.OverrideTwice` | pkg/types/base_types.go:295-296 | a second override changes the pod spec iff there are pull secrets, which are appended again |
| `Overrides.ProbesAfterOverride` | pkg/types/base_types.go:223-228 | exactly when the readiness probe asked for is there, and when an unmentioned liveness probe survives |
| `Overrides.ReadinessOverrideErasesLiveness` | pkg/types/base_types.go:226-228 | a container that loses its liveness probe to a readiness override |
| `Overrides.MergeSelectors` | pkg/types/base_types.go:459-480 | labels are merged and expressions appended through the pointer, with a crash iff there is no selector and only expressions are to be added |

## Left out

- The Kubernetes client, discovery client, REST mapper and scheme: the abstract cluster, a list of API resources and a
  mapper function stand for them. Contexts, logging and error wrapping are not part of this model.
- Patch calculation: an empty patch is equality of contents. The last-applied annotation that the patch maker writes is
  not part of this model, nor are the ignoring of status fields and failing calculations.
- Conflicts by stale reads: a conflict is one of the errors the environment may answer with. Between the calls of one
  run nobody else writes; between rounds others may do what `NoLeak.Undisturbed` allows.
- `retry.OnError` around an apply is there with its default, which never retries.
- Waiting for a CustomResourceDefinition to become ready is one more call that succeeds or times out; waits for other
  resources, backoffs and sleeps are left out.
- Hooks, object modifiers and update callbacks rewrite contents (labels, annotations, controller, body), never the name,
  namespace or type of an object.
- Typed and unstructured representations of one object are not told apart, and the options of single create, update and
  delete calls other than the propagation policy of a recreate are left out.
- `DesiredStates.ServiceIPModifier`: a desired object of another type than the live Service is a failing hook here, where
  the source's type assertion panics. Both come from one type in `ReconcileResource`, so neither happens there.
- `DesiredStates.KeepServiceAccountTokenReferences`: likewise for a desired object that is no ServiceAccount.
- `DesiredStates.RunStandardHooks`: likewise, as it runs these two.
- A nil state inside a stack of states has no hooks here, where the source calls a method on nil.
- Objects without a name are never listed by the server, and every object's type is known to the scheme.
- Stacked desired states have at least one member: the empty `MultipleDesiredStates` is left out.
- `HelmReconciler.ReleaseReconciler.Reconcile`: leaves out chart rendering, the deletion of pods left by jobs, and the
  component status updates around a round; the rendered objects are a parameter.
- A panic ends a call in the state reached; what becomes of the process is left out.
- The mutex around the scope cache: calls do not overlap.
- `Dispatcher.Handler.Handle`: what components answer comes from the list of turns; `IsSkipped` answers alike both times
  it is asked within a turn, and the resource getter, filter and completion handler are left out.
- `RunConvergence.RunConverges`: states are static, dynamic with the library's three hooks or none, or stacks of these; so
  are those of `Quiescence.SecondRunIsQuiet`, `RunHistories.NeverAdopted`, `Watches.WatchFindsOwner`,
  `Outcomes.SucceedsIff`, `RunOutcomes.RunSucceedsIff` and `Coexistence.RunGains`. Other hooks can do
  anything to a content, so nothing of the kind holds for them.
- `Quiescence.SecondRunIsQuiet`: a state that converges without the hooks is taken only for contents in which the cluster
  assigns nothing: as patches are equality of contents here, a Service without a cluster IP would look different from
  its stored form. So it is in `Quiescence.MutatedNeedsNothing` and `RunOutcomes.SecondRunIsClean`.
- `NoLeak.NothingEverLeaks`: rounds go well, in the sense spelled out in `NoLeak.GoodRound`: no error, no error swallowed,
  known scopes, lists answered, no colliding resource IDs, and an inventory object that no other builder names and no
  override or modifier rewrites. `Witnesses` exhibits such rounds, and the
  lemmas of `RoundSafety` show what happens to the inventory otherwise.
- `Coexistence.NothingLeaksAmongOthers`: the same of the component's own rounds; rounds of others may end in any way, but
  their modifiers leave the component annotation alone and their builders do not name the inventory.
- `Ownership.RunSetsController`: modifiers leave the controller alone.
- `Overrides.Override`: containers and init containers of one pod spec are different slices.
- `Strimap.MergeMaps`: maps are values here, so that merging leaves its inputs unmodified, and that the result shares
  subtrees with them, is not modelled.
- The retrying reconciler, Helm rendering, YAML parsing and overlays, the merge and CRD packages, the logger and the
  documentation generator: wrappers around libraries, without state of their own.
- The deployment, stateful set and daemon set overrides: each only calls the member overrides modelled here.
