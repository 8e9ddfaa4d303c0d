# Verified model of the api-syncagent

The agent keeps objects that users create in kcp workspaces in step with copies on a service cluster. This
project models the engine that does it, and proves what its comments promise over whole runs: a placed copy
keeps a protected source unless that very source gives its links up, nothing of another owner is pruned,
requeues come to an end, what nobody changed is left alone.

## How it is built

The API servers, the state store and the agent's view of them are values; whatever the agent cannot control
(failing calls, stale caches, users and admins at work between a read and a write) is an explicit input that
the theorems quantify over.

| file | what it holds |
|---|---|
| `MergePatch.dfy` | JSON, the merge patches of section 2 of RFC 7396, three-way merges location by location |
| `Objects.dfy` | Kubernetes objects, stripping, link metadata, the effect of a patch on a copy |
| `ObjectSync.dfy` | one synchronization as a function of servers, reads and failing calls; requeue honesty |
| `Links.dfy` | the way back from a copy to its source, from creation through whole runs |
| `Mirror.dfy` | copy and source hold the same content whenever a synchronization completes, and what a lost state write does to that |
| `Convergence.dfy` | the measure behind requeueing, and the state it ends in |
| `Related.dfy` | related resources: pass, bookkeeping, prune, teardown; provenance labels |
| `Resolve.dfy` | resolution of a rule in a canonical order, numbered annotations |
| `Passes.dfy` | a pass from what a cached and a live reader show; prune safety and set equality in these terms |
| `Lifecycle.dfy` | the machine: many primaries, Process calls whose reads and writes are separate steps |
| `NoOrphans.dfy`, `Teardown.dfy` | the two main theorems over every run of the machine |
| `Discipline.dfy` | what users can do so that their own copies are never orphaned |
| `Isolation.dfy` | a Process call and the labelled copies of other primaries, over runs |
| `MergeRuns.dfy` | every patch sent in a run is the JSON merge patch of last known state and source |
| `Reachable.dfy` | runs from nothing to the two failures: an orphaned copy, related copies left behind |
| `Unstructured.dfy`, `Syncer.dfy`, `RelatedSyncer.dfy`, `Process.dfy` | the same code as programs: classes, loops, updates in place; every method does exactly what its function in the model says |
| `StateStore.dfy` | the last-known-state Secrets as a class that refines a plain map |
| `ClusterManager.dfy` | the dynamic multi-cluster manager: two read-write locks, all interleavings |
| `Projection.dfy`, `ApiExport.dfy`, `Names.dfy`, `Sorting.dfy` | CRD projection, APIExport merging, names printed and parsed |

A run of the machine in `Lifecycle.dfy` interleaves steps of users (`EnvSource`), service admins
(`EnvService`), changes to related objects (`EnvPlace`) and namespaces, and the two halves of Process calls
(`Begin` reads, `Commit` writes) for any number of primaries at once. `Processing.ResourceSyncer.Process`
shows that the program's writing half is exactly a `Commit`.

## What turned out differently from what is promised

- An empty label or annotation map is left out of the encoded object. A source that loses its last syncable
  label therefore produces the patch `{"metadata":{"labels":null}}`, which removes the identity labels of
  the copy. The copy can no longer be found; if the source is deleted before the next reconciliation has
  adopted the copy again, the finalizer is released and the copy stays behind. `CommitKeepsInvIff` proves
  that this is the only way a Process call breaks the invariant, `NoOrphansInRuns` that it concerns only the
  source that does it, and only until its copy is placed again. A three-step continuation leads from such a
  commit to an orphan (`DroppedLinksLeadToOrphan`), and a run from nothing does for every source
  (`OrphanReachable`). A source that never loses its last syncable label is safe
  (`DisciplinedSourceProtected`), and so is one that never had any.
- The state is stored after the copy has been patched. If that write fails and the user takes the change back
  before the next synchronization, last known state and source agree again: the agent reports completion on a
  copy that keeps the change (`LostStateWriteDiverges`). Without lost state writes completion means equal
  content (`DoneMeansSame`).
- Related copies are torn down only while the local primary copy is still found. If it is gone already, the
  source is released and related copies stay (`TeardownSkippedWithoutCopy`); such a state is reached from
  nothing (`LeftBehindReachable`), but never after the agent has deleted the primary's copy itself
  (`LeftBehindOnlyUntorn`).
- A merge patch cannot say "set to null". Patching the last state with the difference gives the new state
  exactly when every null of the new state was there before (`DiffRoundTrip`).
- State entries are keyed by cluster, namespace and name, not by kind; two kinds of related object with
  one name overwrite each other's last known state (`StatesKeptApartIff`).
- A cluster name that is engaged again while its old entry is still there is forwarded to the controllers
  of the moment but never tracked (`EarlyReengagementIsLost`); a controller started later does not learn of
  the live cluster (`LostClusterReachable`).
- With an empty agent name the prune selector also matches copies of agents that have a name
  (`ProvenanceIsolation`).
- Permission claims are sorted by group and resource with an unstable sort. A selective claim beside the
  agent's own full one may change places with it on every reconciliation (`ClaimsStableIff`).
- The default naming scheme drops the cluster when the local API is cluster-scoped; objects of the same
  namespace and name in different workspaces then collide (`DefaultNamesDistinct`).
- An adopted cluster-scoped copy leads back to its source only if it carries no stray namespace annotation
  (`AdoptedCopyLinked`).
- The comment in adoption says that objects in deletion are not adopted; the check is made on the newly
  built object and never applies (internal/sync/object_syncer.go:560-571). The model follows the code.

## Assumptions

- Hashes have no collisions. Where their length matters, this is assumed only for the inputs at hand.
- `ValidSetup`: distinct sources map to distinct copy names; names contain no NUL; mutation rules of related
  resources change content only. Related origin objects do not carry provenance labels of their own.
- API servers keep objects under their own names, and no top-level field of an object's content clashes with
  its `apiVersion`, `kind` and `metadata`.
- In runs, nobody but the agent removes the cleanup finalizer or touches identity and provenance labels, and
  Process finds copies by a current lookup. If a lookup finds more than one copy, Process fails without
  writing.
- `DisciplinedSourceProtected` assumes in addition that no related object of the source has the source's own
  namespace and name (`StateApart`): it would overwrite the source's last known state. A source that is always
  labelled needs no such assumption (`LabelledSourceProtected`).
- `admit` stands for whatever admission and defaulting do to the content of a written copy; `Mirror.dfy`
  assumes that they do nothing. A write based on an outdated read is refused; the resourceVersion is modelled
  by the object as it was read. Semantic deep equality is equality.
- What a cached and a live reader show of the origin side are two unrelated inputs of a pass. Rules do not
  read the workspace path. Label selectors of rules are not templated.

## Model

| member | source | states |
|---|---|---|
| `MergePatches.ThreeWayField` | internal/sync/object_syncer.go:299-319 | a three-way merge towards an object is the three-way merge of each member |
| `MergePatches.DiffEmptyIffEqual` | internal/sync/object_syncer.go:310-311 | the computed patch is empty if and only if last and new state are equal |
| `MergePatches.DiffRoundTrip` | internal/sync/object_syncer.go:662-677 | patching the last state with the difference gives the new state if and only if no null is introduced |
| `MergePatches.ChangesWin` | internal/sync/object_syncer.go:281-319 | every location the source changed takes the source's value on any destination; a null removes it |
| `MergePatches.OthersKept` | internal/sync/object_syncer.go:281-319 | every location that no change reaches keeps the destination's value |
| `MergePatches.NoChangeMeansEqual` | internal/sync/object_syncer.go:662-677 | two documents between which no location changed are equal |
| `Objects.RepairInvisibleToSnapshot` | internal/sync/metadata.go:174-204 | the snapshot of a source whose links were repaired on the way equals that of the unrepaired source |
| `Objects.SelectorUnique` | internal/sync/meta.go:132-145 | labels that match the selectors of two keys of one scope belong to one cluster, namespace and name |
| `Objects.LinkRoundTrip` | internal/sync/metadata.go:143-164 | a linked copy leads back to its key, if and only if a cluster-scoped one has no stray namespace annotation |
| `Objects.PatchObjectIsMergePatch` | internal/sync/object_syncer.go:662-677 | the JSON patch computed from the encoded versions, applied to the encoded copy, has exactly the effect of PatchObject |
| `Objects.PatchEmptyIffUnchanged` | internal/sync/object_syncer.go:310-311 | the encoded patch is empty if and only if labels, annotations and content without subresources agree |
| `MergeRuns.SyncSendsMergePatch` | internal/sync/object_syncer.go:281-319 | whatever the state store holds for a source, the JSON patch of any synchronization is well defined, empty if and only if none is pending, and acts on every copy as PatchObject |
| `MergeRuns.PassSendsMergePatch` | internal/sync/syncer_related.go:132-206 | the same at every object of a related-resource pass |
| `MergeRuns.CommitsSendMergePatches` | internal/sync/object_syncer.go:299-319 | in every run, a Process call with a patch due leaves on the service cluster what the JSON merge patch of last known state and source makes of the copy |
| `Objects.PatchLeavesOthers` | internal/sync/object_syncer.go:653-677 | no subresource of the copy and no location the source did not change is touched by a patch |
| `Objects.RepairedEntries` | internal/sync/metadata.go:174-204 | after a patch all required entries are there, whichever were missing, unless the whole map is dropped |
| `Objects.PatchKeepsLinkEntries` | internal/sync/object_syncer.go:299-319 | a patch keeps required entries if and only if the source does not lose its last entry |
| `Objects.PatchKeepsLinkIff` | internal/sync/object_syncer.go:299-319 | a patch keeps a linked copy linked if and only if the source does not lose its last syncable label or annotation |
| `ObjectSync.RequeueHonesty` | internal/sync/object_syncer.go:119-205 | a synchronization that reports completion issued only status updates and changed only status, on every path |
| `ObjectSync.RequeueReason` | internal/sync/object_syncer.go:119-205 | a requeue means a write other than status, or a copy still being deleted |
| `ObjectSync.ContentsHonest` | internal/sync/object_syncer.go:247-266 | the same for the content part |
| `ObjectSync.RestampCompletes` | internal/sync/object_syncer.go:709-728 | after a restamp all stamps are there and nothing else of the copy, and no other copy, has changed |
| `ObjectSync.StatusForwarded` | internal/sync/object_syncer.go:247-266 | with forward status sync, a pass that does not fail leaves the source's status on the copy, also when it has just written the copy |
| `ObjectSync.NamespaceMade` | internal/sync/object_syncer.go:592-617 | a copy is only created in a namespace that exists, none is removed, and only the copy's own may be added |
| `ObjectSync.DeletionMarks` | internal/sync/object_syncer.go:625-638 | a deletion request removes the copy if and only if nothing holds it back, marks it otherwise, and touches no other copy |
| `ObjectSync.FullUpdateCarries` | internal/sync/object_syncer.go:320-343 | after the fallback update the copy has every syncable entry and relevant field of the source, and all its own others |
| `Links.CreatedCopyLinked` | internal/sync/object_syncer.go:504-540 | a created copy is found by its source's selector and its request names the source |
| `Links.AdoptedCopyLinked` | internal/sync/object_syncer.go:560-590 | an adopted object is linked, and leads back if and only if it has no stray namespace |
| `Links.FullUpdateKeepsLink` | internal/sync/object_syncer.go:320-343 | the fallback update keeps the link |
| `Links.PatchRestoresLink` | internal/sync/object_syncer.go:299-319 | a patch restores any lost link entries, unless it drops a whole map |
| `Links.SyncKeepsLink` | internal/sync/object_syncer.go:119-205 | a copy that led back still does after any synchronization, or is gone |
| `Links.SyncCreatesLink` | internal/sync/object_syncer.go:166-176 | where no copy was, there is none or one that leads back |
| `Links.LinkKeptInRuns` | internal/sync/object_syncer.go:119-205 | through every run of synchronizations that do not drop a whole map and of foreign steps that may change everything but the link entries, the copy leads back to its source |
| `Links.DoneMeansLinked` | internal/sync/metadata.go:174-204 | whatever was done to a live copy, a synchronization that reports completion on it has found all identity labels and annotations in place |
| `Links.RepairedInRuns` | internal/sync/object_syncer.go:281-319 | in every run, a copy on which a Process call reports its primary complete is linked, and leads back if and only if it has no stray namespace |
| `Mirroring.PatchHolds` | internal/sync/object_syncer.go:299-319 | a patch makes a copy that holds the last known content hold the new null-free content, subresources aside |
| `Mirroring.StepKeepsMirror` | internal/sync/object_syncer.go:119-205 | every synchronization whose state write succeeds keeps copy and remembered state equal in content |
| `Mirroring.MirrorInRuns` | internal/sync/object_syncer.go:119-205 | the same through every run from creation on |
| `Mirroring.DoneMeansSame` | internal/sync/object_syncer.go:119-205 | in every such run, completion on a live copy means that it holds exactly the content of the source |
| `Mirroring.LostStateWriteDiverges` | internal/sync/object_syncer.go:310-355 | for a primary as it is configured, after a failed state write and a reverted change, completion is reported on a copy that differs |
| `Convergence.ProcessProgress` | internal/sync/syncer.go:170-279 | in a quiet environment every requeue decreases a measure of at most three, and a call without requeue ends in sync |
| `Convergence.Settle` | internal/sync/syncer.go:170-177 | repeating Process ends after at most three requeues with finalizer, one linked copy, current state, no pending patch and equal status |
| `Convergence.FinalizerStep` | internal/sync/meta.go:62-79 | adding the finalizer decreases the measure and disturbs nothing |
| `Convergence.PlaceStep` | internal/sync/object_syncer.go:504-590 | creating or adopting a copy decreases the measure |
| `Convergence.UpdateStep` | internal/sync/object_syncer.go:320-355 | the fallback update decreases the measure |
| `Convergence.PatchStep` | internal/sync/object_syncer.go:281-355 | a patch decreases the measure, even when it drops links |
| `Convergence.FinalStep` | internal/sync/object_syncer.go:360-384 | with nothing pending the call completes and leaves both sides in sync |
| `Related.OwnerTupleInjective` | internal/sync/meta.go:186-193 | joining NUL-free parts with NUL keeps owners apart |
| `Related.ProvenanceIsolation` | internal/sync/meta.go:163-215 | the labels of a copy match a selector if and only if cluster, published resource, primary, identifier and, for named agents, agent are equal |
| `Related.SelectedByOne` | internal/sync/meta.go:163-215 | labels of whatever object that match two selectors belong to one cluster, published resource, primary and identifier, and agents do not differ in name |
| `Isolation.RuleLeavesOthers` | internal/sync/syncer_related.go:396-448 | a pass leaves every copy labelled for another owner or rule exactly as it is, unless an object is resolved to its very name |
| `Isolation.FinishLeavesOthers` | internal/sync/syncer.go:240-279 | the same for all the passes of a Process call, wherever the copy is |
| `Isolation.OwnersApartInRuns` | internal/sync/syncer.go:178-279 | the same at every Process call of every run |
| `Passes.PruneSafety` | internal/sync/syncer_related.go:253-301 | a pruned copy carries this owner's labels and mid-life is no destination of the cached resolution; if that is empty, a live reader is there, none of its reads failed and its resolution is empty too |
| `Passes.FitsUnique` | internal/sync/syncer_related.go:91-101 | what a pass attempts is determined by what its readers show |
| `Related.PruneDeletes` | internal/sync/syncer_related.go:418-448 | a prune that does not fail leaves every unwanted labelled copy gone or in deletion and changes no other |
| `Related.PolicyForNamed` | internal/sync/syncer_related.go:153-154 | a copy is deleted with the policy of a resolved object that maps to it, in the background if there is none |
| `Passes.MatchOriginSetEquality` | internal/sync/syncer_related.go:132-301 | after a completed MatchOrigin pass the labelled copies are exactly the destinations of the objects the cached reader resolves |
| `Related.CompleteMeansLabelled` | internal/sync/object_syncer.go:182-197 | objects whose synchronization is complete have labelled copies, and only status has changed |
| `Related.TeardownPass` | internal/sync/syncer_related.go:127-251 | a teardown pass adds and relabels no copy, and completes only when no labelled copy is left |
| `Related.ForcedSyncOnlyRemoves` | internal/sync/object_syncer.go:119-123 | forced deletion creates and relabels nothing |
| `Related.ForcedPassRemovesCopies` | internal/sync/syncer_related.go:123-130 | a completed teardown pass has left no copy of its resolved objects, whatever the rule says where the originals are the user's |
| `Resolving.MapSlices` | internal/sync/syncer_related.go:625-639 | exactly the names with two non-empty sides are mapped, later pairs winning |
| `Resolving.ResolveInNamespace` | internal/sync/syncer_related.go:641-695 | exactly the existing objects of the names, with distinct origins; an error if and only if a read fails |
| `Resolving.ResolveInNamespaces` | internal/sync/syncer_related.go:641-695 | the same over all namespaces, in whatever order |
| `Resolving.ResolveInOrder` | internal/sync/syncer_related.go:91-101 | the resolved objects, sorted by origin, none twice; an error if and only if a needed read fails |
| `Resolving.CanonicalOrder` | internal/sync/syncer_related.go:96-101 | two resolutions of one state are the same list, however maps were traversed |
| `Resolving.DigitsInjective` | internal/sync/syncer_related.go:340 | different numbers are printed differently |
| `Resolving.KeyStringInjective` | internal/sync/syncer_related.go:303-306 | the printed key tells copies apart as long as namespaces contain no slash |
| `Resolving.DesiredEntries` | internal/sync/syncer_related.go:326-341 | one entry per resolved object under its number, and nothing else |
| `Resolving.PrefixesApart` | internal/sync/syncer_related.go:326 | entries of different dot-free identifiers share no prefix |
| `Resolving.RememberedFramed` | internal/sync/syncer_related.go:345-388 | under the prefix the annotations become the desired ones, all others stay, repeating changes nothing |
| `Resolving.OtherIdentifiersKept` | internal/sync/syncer_related.go:374-380 | entries of other identifiers are untouched |
| `Resolving.RememberIdempotent` | internal/sync/syncer_related.go:312-388 | a pass that has remembered its objects reports no change the next time, an empty one changes nothing |
| `NoOrphanRuns.NoOrphansInRuns` | internal/sync/syncer.go:178-303 | in every run, every copy the agent placed has a source that exists and carries the finalizer, unless a Process call for that source dropped its links and has not placed it again since |
| `NoOrphanRuns.InvInRuns` | internal/sync/syncer.go:178-303 | in every run the invariant holds once the copies that have lost their links are taken out of the record |
| `NoOrphanRuns.CommitKeepsInvIff` | internal/sync/object_syncer.go:119-205 | the writes of a Process call keep the invariant if and only if they do not drop the links of a placed copy |
| `NoOrphanRuns.StepKeepsInv` | internal/sync/syncer.go:178-279 | every step of the machine keeps the invariant, but for a commit that drops links |
| `LabelDiscipline.DisciplinedSourceProtected` | internal/sync/metadata.go:55-88 | in every run, the copies of a source that never goes from some syncable label to none keep their protected source, whatever other sources do |
| `LabelDiscipline.LabelledSourceProtected` | internal/sync/metadata.go:55-88 | the same for a source that is always labelled, even where a related object shares its state entry |
| `NoOrphanRuns.DroppedLinksLeadToOrphan` | internal/sync/object_syncer.go:619-651 | whenever links are dropped, three further steps -- the user deletes the source, one Process call reads and writes -- leave an orphan |
| `Reachable.OrphanReachable` | internal/sync/object_syncer.go:299-319 | for every valid source there is a run from nothing that ends with its copy placed and the source unprotected |
| `NoOrphanRuns.FinishEffect` | internal/sync/syncer.go:240-279 | how a whole Process call may change its source, its copy and other copies |
| `NoOrphanRuns.CommitOthers` | internal/sync/syncer.go:178-279 | a Process call leaves the copies of other sources alone |
| `NoOrphanRuns.Releases` | internal/sync/object_syncer.go:637-651 | a source in deletion without a found copy is released |
| `TeardownRuns.TeardownOrderInRuns` | internal/sync/syncer.go:242-278 | in every run, links dropped or not, once the agent has deleted a primary's copy no labelled related copy of it exists until the copy is placed again |
| `TeardownRuns.DeletingCall` | internal/sync/syncer.go:242-252 | a call on a deleting source creates no related copy, and deletes the primary's copy only when none is left |
| `TeardownRuns.FinishElsewhere` | internal/sync/syncer_related.go:401-448 | no call for one primary adds a copy that counts for another |
| `TeardownRuns.CommitKeepsTearInv` | internal/sync/syncer.go:242-278 | the writes of a Process call keep torn-down primaries torn down |
| `TeardownRuns.StepKeepsTearInv` | internal/sync/syncer.go:242-278 | every step keeps torn-down primaries torn down |
| `TeardownRuns.TeardownSkippedWithoutCopy` | internal/sync/syncer.go:244-278 | without a local copy the source is released and all related copies stay as they are |
| `TeardownRuns.LeftBehindOnlyUntorn` | internal/sync/syncer.go:242-278 | in every run, a released source has labelled related copies left only if the agent has not deleted its copy |
| `Reachable.LeftBehindReachable` | internal/sync/syncer.go:244-278 | with a first rule of service origin and no status added on admission, a run from nothing ends with the source released and a labelled related copy left |
| `UnstructuredObjects.FilterLabels` | internal/sync/metadata.go:132-141 | exactly the entries that are not forbidden |
| `UnstructuredObjects.FilterUnsyncableLabels` | internal/sync/metadata.go:98-109 | exactly the syncable labels |
| `UnstructuredObjects.FilterUnsyncableAnnotations` | internal/sync/metadata.go:122-130 | exactly the syncable annotations |
| `UnstructuredObjects.SetMissing` | internal/sync/metadata.go:178-187 | adds the desired entries that the destination lacks or has wrong |
| `UnstructuredObjects.Unstructured.StripMetadata` | internal/sync/metadata.go:35-88 | in place, the stripped object |
| `UnstructuredObjects.Unstructured.EnsureLabels` | internal/sync/meta.go:36-47 | in place, the desired labels over the existing ones |
| `UnstructuredObjects.Unstructured.EnsureAnnotations` | internal/sync/meta.go:49-60 | in place, the desired annotations over the existing ones |
| `UnstructuredObjects.Unstructured.ThreeWayDiffMetadata` | internal/sync/metadata.go:174-204 | in place, the repaired source |
| `UnstructuredObjects.Unstructured.RemoveSubresources` | internal/sync/object_syncer.go:653-660 | in place, the object without the given fields |
| `UnstructuredObjects.Unstructured.Overlay` | internal/sync/object_syncer.go:325-330 | in place, all relevant fields of the source over the own ones |
| `Syncer.ObjectSyncer.Sync` | internal/sync/object_syncer.go:119-205 | servers, log and result are those of ObjectSync.Sync; reported completion means that only status has changed |
| `Syncer.ObjectSyncer.SyncExisting` | internal/sync/object_syncer.go:180-204 | a copy in deletion is left alone, one without stamps restamped, any other brought up to date |
| `Syncer.ObjectSyncer.HandleDeletion` | internal/sync/object_syncer.go:619-651 | servers, log and result are those of ObjectSync.HandleDeletion |
| `Syncer.ObjectSyncer.EnsureFinalizer` | internal/sync/meta.go:62-79 | adds the finalizer by a patch, once |
| `Syncer.ObjectSyncer.RemoveFinalizer` | internal/sync/meta.go:81-98 | removes the finalizer by a patch, once |
| `Syncer.ObjectSyncer.EnsureDestinationObject` | internal/sync/object_syncer.go:504-558 | namespace, copy and state in turn, as in ObjectSync.EnsureDestination |
| `Syncer.ObjectSyncer.BuildCopy` | internal/sync/object_syncer.go:504-536 | step by step, the desired copy |
| `Syncer.ObjectSyncer.AdoptExisting` | internal/sync/object_syncer.go:560-590 | the existing object with links and labels set |
| `Syncer.ObjectSyncer.EnsureNamespace` | internal/sync/object_syncer.go:592-617 | creates a missing namespace, none for cluster-scoped objects |
| `Syncer.ObjectSyncer.EnsureDestMetadata` | internal/sync/object_syncer.go:692-700 | stamps labels and annotations, removing none |
| `Syncer.ObjectSyncer.EnsureDestMetadataPersisted` | internal/sync/object_syncer.go:709-728 | patches exactly the missing stamps, and nothing when all are there |
| `Syncer.ObjectSyncer.ComparedVersions` | internal/sync/object_syncer.go:653-668 | the two versions between which the patch is computed, without subresources |
| `Syncer.ObjectSyncer.PatchFrom` | internal/sync/object_syncer.go:281-319 | repairs, compares and patches as in ObjectSync.PatchCopy, and takes over the server's answer |
| `Syncer.ObjectSyncer.UpdateInFull` | internal/sync/object_syncer.go:320-343 | writes all synced fields as in ObjectSync.UpdateCopy; refused if the copy has changed |
| `Syncer.ObjectSyncer.SyncObjectSpec` | internal/sync/object_syncer.go:268-358 | servers, log and result are those of ObjectSync.SyncSpec |
| `Syncer.ObjectSyncer.SyncObjectStatusForward` | internal/sync/object_syncer.go:386-410 | source status onto the copy; a missing status endpoint is no error |
| `Syncer.ObjectSyncer.SyncObjectStatus` | internal/sync/object_syncer.go:360-384 | copy status onto the source |
| `Syncer.ObjectSyncer.SyncObjectContents` | internal/sync/object_syncer.go:247-266 | servers, log and result are those of ObjectSync.SyncContents |
| `Syncer.StampedIffMissing` | internal/sync/object_syncer.go:714-721 | stamping changes nothing if and only if all stamps are there, and adds exactly the missing ones |
| `RelatedSyncing.RelatedSyncer.SyncObject` | internal/sync/syncer_related.go:132-206 | one resolved object, as in Related.SyncOne |
| `RelatedSyncing.RelatedSyncer.SyncObjects` | internal/sync/syncer_related.go:132-217 | all resolved objects as in Related.SyncAll, the set of synced copies and their deletion policies |
| `RelatedSyncing.RelatedSyncer.List` | internal/sync/syncer_related.go:396-416 | exactly the labelled copies, each once |
| `RelatedSyncing.RelatedSyncer.PruneRelatedCopies` | internal/sync/syncer_related.go:396-448 | as in Related.Prune, stopping early if and only if listing or a due deletion fails |
| `RelatedSyncing.RelatedSyncer.ConfirmOriginEmpty` | internal/sync/syncer_related.go:472-496 | no reader, an error, objects found or none: as re-running the resolution against the live reader says |
| `RelatedSyncing.RelatedSyncer.EntriesDiffer` | internal/sync/syncer_related.go:348-369 | true if and only if the entries under the prefix are not the desired ones |
| `RelatedSyncing.RelatedSyncer.ReplaceEntries` | internal/sync/syncer_related.go:373-380 | all entries under the prefix replaced, all others kept |
| `RelatedSyncing.RelatedSyncer.RememberRelatedObjects` | internal/sync/syncer_related.go:312-388 | primary and result are those of Related.Remember |
| `RelatedSyncing.RelatedSyncer.ProcessRelatedResource` | internal/sync/syncer_related.go:69-301 | resolves, synchronizes, remembers and prunes: servers and result are those of Related.ProcessRule in the environment that the cached and live readers lead to |
| `RelatedSyncing.RememberedIffMatch` | internal/sync/syncer_related.go:348-369 | replacing changes nothing if and only if the entries are already right |
| `RelatedSyncing.FailureEndsPass` | internal/sync/syncer_related.go:206-209 | an error on one object ends the pass there |
| `Processing.ResourceSyncer.FindLocalObject` | internal/sync/syncer.go:281-303 | the one labelled copy or none; an error if and only if there are more |
| `Processing.ResourceSyncer.ProcessRelatedResources` | internal/sync/syncer_related.go:47-60 | rules in order up to the first that does not complete, each in the environment its readers lead to |
| `Processing.ResourceSyncer.SyncPrimaryObject` | internal/sync/syncer.go:209-262 | as in Lifecycle.SyncPrimary |
| `Processing.ResourceSyncer.Process` | internal/sync/syncer.go:178-279 | the writing half of Process is exactly a Commit step of the machine, in the environments the readers lead to |
| `StateStores.ObjectStateStore.Get` | internal/sync/state_store.go:60-74 | the entry under primary and source; undecodable data counts as none |
| `StateStores.ObjectStateStore.Put` | internal/sync/state_store.go:76-83 | writes the snapshot into that entry, keeping all other entries and Secrets |
| `StateStores.ObjectStateStore.SnapshotObject` | internal/sync/state_store.go:85-103 | the stripped object without subresources |
| `StateStores.SecretNameInjective` | internal/sync/state_store.go:116-140 | different primaries have different Secrets |
| `StateStores.WrittenReads` | internal/sync/state_store.go:142-183 | a write is read back under its own primary and source and nowhere else |
| `StateStores.StoreRefinesMap` | internal/sync/state_store.go:60-183 | after any writes, every read answers as a plain map would |
| `StateStores.StatesKeptApartIff` | internal/sync/state_store.go:142-183 | a state survives another source's write if and only if cluster, namespace or name differ |
| `StateStores.RepairNotRemembered` | internal/sync/object_syncer.go:345-355 | what is remembered does not depend on link repairs |
| `ClusterManager.EngagementCoverage` | internal/kcp/multicluster.go:124-223 | in every interleaving, with no call in flight every registered controller has been engaged with every tracked cluster |
| `ClusterManager.LiveClustersCovered` | internal/kcp/multicluster.go:182-223 | if names are engaged again only after removal, also with every live cluster |
| `ClusterManager.DeadClustersForgotten` | internal/kcp/multicluster.go:189-198 | in every interleaving, with no call in flight and no removal due, only live clusters are tracked |
| `ClusterManager.NoDeadlock` | internal/kcp/multicluster.go:124-223 | while a call is in flight some thread can go on, even when readers wait for waiting writers |
| `ClusterManager.MoveIsStep` | internal/kcp/multicluster.go:124-223 | such a thread has a step of its own |
| `ClusterManager.StepKeepsInv` | internal/kcp/multicluster.go:124-223 | every step keeps mutual exclusion, stable work lists and coverage |
| `ClusterManager.LocksKept` | internal/kcp/multicluster.go:128-153 | no two threads hold a lock in clashing modes |
| `ClusterManager.CoverageKept` | internal/kcp/multicluster.go:124-223 | every pair of controller and cluster is engaged or some thread is about to do it |
| `ClusterManager.StepKeepsLiveInv` | internal/kcp/multicluster.go:182-199 | every step keeps live clusters tracked, or their Engage call under way |
| `ClusterManager.EarlyReengagementIsLost` | internal/kcp/multicluster.go:182-199 | from every reachable state at rest, a name engaged again before removal ends up live and untracked, whether or not its first engagement was still alive |
| `ClusterManager.LostClusterReachable` | internal/kcp/multicluster.go:182-199 | a run from nothing ends at rest with a registered controller that has not met a live cluster |
| `Projection.ProjectCRD` | internal/projection/projection.go:89-116 | succeeds if and only if the rules allow it, with the projected definition |
| `Projection.ProjectionSound` | internal/projection/projection.go:89-116 | served version, exactly one storage version (the original or the last served), distinct names, sorted when mapped |
| `Projection.PublishedPermutation` | internal/projection/projection.go:214-315 | the published versions are a permutation of the selected ones, changed in name and storage flag only |
| `Projection.SelectedElements` | internal/projection/projection.go:222-233 | exactly the selected versions, names still distinct |
| `Projection.WithStorageChosen` | internal/projection/projection.go:251-272 | exactly one storage version, the chosen one |
| `Projection.Definition.StripUnwantedVersions` | internal/projection/projection.go:214-249 | in place, the selected versions; an error if and only if both selectors are given or nothing is left |
| `Projection.Definition.AdjustStorageVersion` | internal/projection/projection.go:251-272 | in place, a storage version; an error if and only if nothing is served |
| `Projection.Definition.RenameVersions` | internal/projection/projection.go:290-297 | in place, all versions renamed |
| `Projection.Definition.UniqueVersions` | internal/projection/projection.go:299-306 | true if and only if version names are distinct |
| `Projection.Definition.ProjectVersions` | internal/projection/projection.go:274-315 | in place, renamed and sorted; an error if and only if the rules do not fit |
| `Projection.Definition.ProjectNames` | internal/projection/projection.go:317-355 | in place, group, kind, list kind, singular, plural and name |
| `Projection.GetStorageVersion` | internal/projection/projection.go:59-67 | the name of the one storage version |
| `Projection.ProjectedGVK` | internal/projection/projection.go:71-87 | new group and kind with the chosen storage version's new name |
| `ApiExports.MergeResourceSchemas` | internal/controller/apiexport/reconciler.go:141-167 | sorted, all configured schemas and all existing ones of unknown resources |
| `ApiExports.MergeElements` | internal/controller/apiexport/reconciler.go:141-160 | configured schemas replace exactly the existing ones of the same group/resource |
| `ApiExports.MergeNeverShrinks` | internal/controller/apiexport/reconciler.go:141-160 | the listed group/resources are the existing and the configured ones |
| `ApiExports.ListedForever` | internal/controller/apiexport/reconciler.go:63-77 | over any number of reconciliations, what was listed stays listed |
| `ApiExports.MergeDeterminedIff` | internal/controller/apiexport/reconciler.go:146-164 | the result is independent of set order if and only if there is one schema per resource among the configured and the unmanaged existing ones |
| `ApiExports.MergeIdempotent` | internal/controller/apiexport/reconciler.go:141-167 | a second application keeps the schemas, and their order where it is determined |
| `ApiExports.ApiExport.AddClaims` | internal/controller/apiexport/reconciler.go:79-133 | existing claims plus exactly the missing ones, sorted |
| `ApiExports.ApiExport.Reconcile` | internal/controller/apiexport/reconciler.go:63-137 | schemas merged and claims added |
| `ApiExports.ClaimsComplete` | internal/controller/apiexport/reconciler.go:84-118 | existing claims survive, required ones are there, none is added twice |
| `ApiExports.ClaimsStableIff` | internal/controller/apiexport/reconciler.go:123-133 | a second application is sure to give the same list if and only if there is one claim per group and resource |
| `ApiExports.ClaimsDeterminedIff` | internal/controller/apiexport/reconciler.go:84-133 | the list is independent of set order if and only if there is one claim per group and resource |
| `SchemaNames.SchemaNameRoundTrip` | internal/kcp/apiresourceschema.go:69-77 | a printed schema name is parsed back if and only if the plural has no dot |
| `SchemaNames.ResourceGroupInjective` | internal/controller/apiexport/reconciler.go:182-202 | printed group/resources are equal if and only if group and resource are |
| `Naming.DefaultNamesDistinct` | internal/sync/templating/naming.go:51-54 | default names are equal if and only if the objects are, up to the cluster on cluster-scoped APIs |
| `Naming.LegacyNaming` | internal/sync/templating/naming.go:89-107 | for every pattern, replacing in argument order is longest-match replacement |
| `Naming.FirstMatchIsLongestIff` | internal/sync/templating/naming.go:97-104 | the first applicable placeholder is the longest if and only if none hides a longer one |

## Left out

- Server-side apply: field ownership is decided by the API server; only client-side merge is modelled.
- Mutation engines (CEL, regular expressions, templates): arbitrary functions in `ObjectSync`; in `Convergence`, `Links`, `Mirror` and `Lifecycle` the primary has no mutation rules.
- Template, reference and selector engines of related-resource rules: a reader shows the namespaces and names a rule yields, or that it fails to; `Resolving.ResolveInOrder` starts from them.
- Sharing of rendered label selectors between passes (internal/sync/syncer_related.go:913) and the workspace path in live reads (internal/sync/syncer_related.go:484-488).
- Events, logging, metrics, clients, informers, discovery and REST mapping.
- Encoding of objects and of annotation values as text: documents are values, `Related.Describe` stands for the JSON of an annotation.
- Resolution of the deprecated cleanup setting and of deletion propagation annotations on related objects: inputs of a pass.
- Passes.PruneSafety: a non-empty but incomplete cached resolution prunes the copies it does not show, as the source intends; only the empty one is confirmed.
- internal/controller/syncmanager, generated clients and command line options.
- Scope, categories and short names in the projection of a definition: single assignments.
- ClusterManager.EngagementCoverage: engage callbacks succeed; a failing callback ends the forwarding, which is not modelled. The map look-up that internal/kcp/multicluster.go:183 makes without the lock is an atomic read here.
- Projection.ProjectCRD: the Kubernetes order of version names and lower-casing are given as functions.
- NoOrphanRuns.NoOrphansInRuns: copies found by more than one source's selector do not arise under `ValidSetup`; two sources mapped to one copy name are excluded by it.
- Naming.DefaultNamesDistinct: the rendering of the default templates is taken as their meaning.
