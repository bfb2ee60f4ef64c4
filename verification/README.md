# Verification of the Aerospike operator's control logic

The operator keeps clusters of a database in the state that their specification asks for. It creates, upgrades and
removes pods one at a time, keeps their volumes across restarts, backs a cluster up before it upgrades it, and leaves
its progress in annotations and status conditions, so that a reconcile may be cut short and another one takes over. This
project models that logic in Dafny and proves what it guarantees over every run, with reconciles cut short anywhere, and
where its guarantees end: not every cut is made good by the next reconcile.

`dafny verify dfyconfig.toml` verifies everything.

## How the model is built

`World.dfy` holds the shared state of one cluster as a value: the clock, the pods, the volume claims, the cluster object
with its upgrade annotation and status, and the pre-upgrade backups. Each of twenty events changes it, and each has a
guard. Seven events belong to the environment: time passes, a pod fails or is lost, an admitted update changes the spec,
a backup job ends, a backup is dropped, the collector deletes a claim. The other thirteen are the reconciler's.

`Store.dfy` holds the same state in a class whose methods are the calls to the API server. Any call may fail, and a
call that reports failure may still have taken effect. Each call that changes something records its event, and demands
its guard. A call that fails although what it asks for is possible sets a fault, and so do the pod being worked on when
it fails or is lost, and the removal of the configuration from outside. The contracts name every other cause of an
error, so that without a fault and without one of these causes there is none.
`Reconciler.dfy`, `ClusterReconciler.dfy`, `Claims.dfy` and `GarbageCollector.dfy` follow the operator's code
method by method and prove these guards, with the environment interfering between the calls (`Environment.dfy`). So
everything that the code does, whatever happens between two of its calls and wherever it is cut short, is a run of
events, and the theorems are proved about all runs. Where two calls are taken as one step is said below. The guards also
let through runs that the code does not take, which makes the theorems stronger; the concrete runs of `Example.dfy` keep
to the order of the code.

- volumes: `Volumes.dfy` (invariants), `Continuity.dfy`
- versions, backup before upgrade, failed upgrades: `Protocol.dfy`
- announced upgrades that cannot go ahead: `Stalls.dfy`
- the conditions in the status: `ConditionLog.dfy`
- disruption and progress of the rolling loop, truth of the status: `Sweeps.dfy`, `FirstStatus.dfy`, `Scaling.dfy`

`Runs.dfy` puts runs together, and `Example.dfy` gives concrete ones.

The field `past` of a world, the launch record `owed` of a backup object and the ghost fields of the two stores are
bookkeeping that the operator cannot read.

Beside this stand the parts that do not share the store: version texts and their order (`Text.dfy`, `Versioning.dfy`,
`Upgrades.dfy`), the admission webhook (`Admission.dfy`), backup and restore objects with stale caches and
compare-and-swap status writes, on the same pattern of events and a recording store (`BackupObjects.dfy`,
`BackupRestore.dfy`), derived names (`Naming.dfy`), and the peer list passed from the operator to the pods' init
container (`Peers.dfy`).

## Assumptions

Built into the model:

- One reconcile is in flight per cluster, and one worker per backup or restore object.
- Listers of pods and claims show the last write, and so does the lister that the cluster object is read from when a
  reconcile begins. The cluster's reconciler may learn late of a backup, of its verdict, and of its removal. The handler
  of backup and restore objects may read these objects and their jobs in any earlier version.
- Only the operator writes the upgrade annotation and the status, and only its collector deletes claims.
- A deletion of a pod takes effect within the call, or not at all as far as the call is concerned. One that takes effect
  later, after the operator has stopped waiting for it, is a pod that is lost.
- The collector's look at the pod and its deletion of the claim are one step, and so are finding a claim and mounting
  it; patching the annotation and then the status of a cluster object is one step with three outcomes.
- The clock does not run backwards. A claim's name is its rank in the order of creation, which is also its creation
  time, so that creation times are distinct. Unmount times are whole seconds, rounded down.
- The hash of a configuration is a function; it is taken as injective only where a contract says so.

Stated where they are needed:

- `NotDropped`: no reconcile begins between finding the deleted pod's claim again and creating the pod on it.
- `CompletionUncut`: no reconcile begins between the status patch and the removal of the annotation that complete an
  upgrade.
- `SignalsWhole`: a signal's annotation and condition land together or not at all.
- `Truthful`: a server reports the version in its image's tag.

## Where the code falls short of what one may expect

- A completion that is cut leaves the annotation behind, and the next upgrade then skips its backup. When no upgrade is
  due, the annotation tells exactly whether the next one may (`Protocol.AnnotationDecidesBackup`);
  `Example.UpgradeWithoutBackup` is a complete run that does so.
- A reconcile cut short between announcing a backup and creating it leaves the cluster stuck, and so do a change of the
  target meanwhile and a backup that is dropped before it has ended: no later reconcile gets any further
  (`Stalls.AnnouncedWithoutBackup`, `Example.UpgradeGetsStuck`). An announced upgrade can go ahead exactly if its backup
  is under way or has finished; one that has finished and is gone serves as long as the lister still shows it
  (`Stalls.BackupDecidesUpgrade`). Resumability holds for the pods (`Sweeps.UpgradeProgresses`).
- An error of a reconcile has one of nine causes (`ClusterReconciler.AerospikeClusterReconciler.MaybeReconcile`). Three
  of them never occur: versions that do not parse, an upgrade without a strategy, and a claim with unreadable annotations
  (`ClusterReconciler.NeverTheseCauses`).
- The operator crashes when it creates the backup of a cluster whose backup spec is gone (`pkg/reconciler/backups.go:85`),
  and the cluster is stuck from then on (`Stalls.AnnouncedWithoutPlace`, `Example.UpgradeWithoutPlace`). Admission asks
  for a backup spec only while the version changes, and lets it be dropped right after (`Admission.BackupSpecMayGo`);
  there is no other way to that state (`Stalls.MissingPlaceWasDropped`).
- The operator also crashes on a backup or restore object without storage when its parent cluster has no backup spec
  (`pkg/backuprestore/handler.go:98`); `BackupRestore.BackupRestoreHandler.Handle` counts that as an error. Its pass also
  ends in an error when the lister does not show a job that is there.
- A claim is left without a pod for good in exactly three cases: a reconcile ends between obtaining it and creating its
  pod; its pod is lost from outside while the claim is not marked; or its pod is lost after it has been cleared for
  deletion, and the reconcile ends without marking the claim (`Continuity.OrphansExactly`, `Continuity.OrphanForever`,
  `Example.CutsOrphanClaims`, `Example.CrashBringsBackOldClaim`).
- A claim that may be collected can become reusable again in one case: its pod is lost while it is being deleted
  (`Continuity.MarkRevives`, `Example.CollectableClaimRevives`, `Continuity.CollectableForever`).
- `docs/design/upgrade-strategies.adoc:87` promises that an upgrade that recreates claims never starts new pods on old
  ones. It fails in two ways. A pod that is found missing or failed is created without regard to the upgrade
  (`pkg/reconciler/pod.go:111`), and so reuses the claim of its predecessor even then (`Example.RecreationReusesClaim`).
  And after any upgrade, however well it went, a pod goes back to a claim from before its predecessor's if the
  predecessor's was orphaned, as by the loss of a node, and an older one may still be reused
  (`Example.CrashBringsBackOldClaim`). `Continuity.WhichClaim` tells for every pod that is ever created which claim it
  mounts, and `Continuity.OlderClaimReturns` exactly when it goes back behind its predecessor's.
- Scale-down counts pods instead of looking for the highest index, so that a surplus pod may stay for good
  (`Scaling.SurplusMayStay`, `Scaling.FixedPoint`).
- While the status version is empty, a change of version is not treated as an upgrade, and the first status written may
  name a version that older pods do not run (`Example.FirstStatusMisleads`). It is truthful exactly if every wanted pod
  was created for that version (`Sweeps.StatusTruthExactly`), and so whenever the version stands that the first reconcile
  found (`Sweeps.UnchangedSpecIsTruthful`). Before the first status, and when no reconcile is at work on another version,
  a user can tell: it may mislead exactly if a wanted pod is there that is of another version
  (`FirstStatus.FirstStatusDecided`). With such a reconcile under way it may mislead even if there is no pod yet
  (`Example.FirstStatusMisleadsInFlight`).
- When the job of a backup or restore object is deleted, another one may be launched, even if the object already has its
  verdict: exactly if it has no job (`BackupObjects.MayLaunchExactly`, `BackupObjects.LaunchedOverAgain`). The log may
  then have more than one start (`BackupObjects.LogShape`, `BackupObjects.TwoStarts`); the verdict stays
  (`BackupObjects.VerdictNeverFlips`).
- The explicit replication factor is not fixed over chains of updates (`Admission.ReplicationFactorChanges`), unless all
  of them write it out (`Admission.ReplicationFactorStays`).
- `VersionUpgrade.isDowngrade` compares the target's revision with itself; this makes no difference to which transitions
  are accepted (`Upgrades.AcceptsExactly`).
- Retention periods of backups are compared by address, so that an object with one is written on every pass
  (`BackupRestore.BackupRestoreHandler.SyncStatusWithSpec`).

## Model

| member | source | states |
|---|---|---|
| Text.AtoiItoa | pkg/versioning/version.go:35-57 | Reading back the decimal text of any 64-bit integer gives the integer, and the text has no dot |
| Text.SplitJoin | pkg/versioning/version.go:35-57 | Splitting what was joined gives back the parts, if they are free of the separator; used for version texts and peer lists |
| Versioning.NewVersionFromString | pkg/versioning/version.go:35-53 | The loop accepts exactly three or four dot-separated 64-bit integers, and yields them with a missing revision read as zero |
| Versioning.ParsePrint | pkg/versioning/version.go:35-57 | Parsing the printed form of any version returns it |
| Versioning.PrintParseNormalises | pkg/versioning/version.go:35-57 | On every accepted string, printing after parsing keeps the meaning and is idempotent, three-part strings included |
| Versioning.PrintInjective | pkg/versioning/version.go:55-57 | Different versions print differently |
| Versioning.ShortTextMeans | pkg/versioning/version.go:35-53 | A text of three parts means the same as the one with a zero added, and a plus sign is read over |
| Versioning.ContainsIsMembership | pkg/versioning/version.go:61-73 | The recursive search is membership in the list |
| Versioning.SupportedIsRelease | pkg/versioning/versions.go:40-56 | A version is supported only if it is one of the listed releases, number by number |
| Upgrades.AcceptsExactly | pkg/versioning/upgrade.go:30-68 | Over all versions, the accepted transitions are the lexicographic order cut down to equal majors and non-decreasing patches |
| Upgrades.AcceptsIsStrictOrder | pkg/versioning/upgrade.go:30-68 | The accepted transitions are irreflexive, transitive and asymmetric, although line 34 compares the target with itself |
| Upgrades.ValidIsLexicographic | pkg/versioning/upgrade.go:64-68 | On the supported versions the valid transitions are exactly the strict lexicographic order |
| Upgrades.ChainIsValid | pkg/versioning/upgrade.go:64-68 | The direct hop across any chain of valid hops is valid |
| Upgrades.RecreationsMatchDirectHop | pkg/versioning/upgrade.go:70-84 | However an upgrade is cut into hops, exactly one hop recreates the volume claims if the direct hop would, and none otherwise |
| Upgrades.RecreatesExactly | pkg/versioning/upgrade.go:70-84 | Claims are recreated by exactly the valid transitions that start before 4.2.0.0 and do not end before it; the others have the default strategy |
| Admission.ValidateCluster | pkg/admission/cluster.go:89-147 | The webhook admits a cluster object exactly when names, version, namespaces, replication factor and backup secret are as the predicate says |
| Admission.ValidClusterExactly | pkg/admission/cluster.go:89-147 | The conditions one by one: at most 61 characters, addresses that fit 63, a listed version, one namespace of at most 23 characters, a factor of at most the node count or two nodes without one, a usable secret if there is a backup spec |
| Admission.ValidateNamespaceLimits | pkg/admission/cluster.go:107-127 | Accepts exactly the specs in which every name has at most 23 characters and every factor is at most the node count, or unset on at least two nodes |
| Admission.BuildNamespaceMap | pkg/admission/cluster.go:236-242 | The loop builds the map in which the last namespace of a name wins |
| Admission.NamespaceMapLast | pkg/admission/cluster.go:236-242 | Under each name the map has the last namespace of that name in the list |
| Admission.NamespaceMapSize | pkg/admission/cluster.go:207-214 | The map is as large as the list exactly if no name occurs twice |
| Admission.ValidateVersion | pkg/admission/cluster.go:181-201 | Versions may stay or take a valid transition, and nothing else |
| Admission.ValidateNamespaces | pkg/admission/cluster.go:203-234 | Namespaces may change exactly as the predicate says: none removed or duplicated, storage fixed, replication factors equal unless one is unset |
| Admission.CompatibleExactly | pkg/admission/cluster.go:203-234 | On the lists themselves: one may follow the other exactly if no name occurs twice in the new one, no old name is missing, and the last old namespace of each name keeps its storage and, where both write it out, its factor |
| Admission.ValidateUpdate | pkg/admission/cluster.go:149-179 | Between specs of one namespace: the version stays, or changes alone, validly and with a backup spec; the namespace keeps name, storage and, where both write it out, factor |
| Admission.AdmitsKeepsNamespace | pkg/admission/cluster.go:203-234 | Between one-namespace specs the map comparison means exactly: same name, same storage, compatible factors |
| Admission.TransitionsCompose | pkg/admission/cluster.go:181-201 | Same-or-upgraded is transitive and antisymmetric on version texts |
| Admission.AdmittedChainKeeps | pkg/admission/cluster.go:107-127 | Along every chain of admitted specs, between any two of its members: one namespace, same name and storage, a factor of at most the node count or two nodes without one, version the same or validly upgraded |
| Admission.ReplicationFactorChanges | pkg/admission/cluster.go:225-227 | From every valid spec an admitted chain leads to every replication factor, by leaving it out in between, and changes nothing else but the node count where that is below the factor |
| Admission.ReplicationFactorStays | pkg/admission/cluster.go:225-227 | Along every admitted chain whose members all write the factor out, it is the same |
| Admission.BackupSpecMayGo | pkg/admission/cluster.go:149-179 | From every valid spec the update that only drops the backup spec is admitted, even while an upgrade is due |
| GarbageCollector.PVCsHandler.Handle | pkg/garbagecollector/pvcs.go:54-128 | Deletes at most the claim at hand, only if its period is set and over and the pod that it names does not mount it; without an error such a claim is gone; there is an error exactly for an annotation that is needed and cannot be read, an expired claim without a pod, or a call that failed |
| Sorting.SortBy | pkg/reconciler/pvc.go:50-62 | The in-place sort orders by the key and permutes |
| Claims.ReusableClaims | pkg/reconciler/pvc.go:64-105 | Collects exactly the pod's marked claims whose period is zero or not over, and fails exactly when an annotation it must read cannot be parsed |
| Claims.GetPersistentVolumeClaim | pkg/reconciler/pvc.go:64-120 | Returns the most recently created reusable claim, or none if there is none; an error means a call that failed or an annotation of such a claim that cannot be read |
| Volumes.NewerOutlivesOlder | pkg/reconciler/pvc.go:76-105 | Of two marked claims of one pod the newer is reusable whenever the older is |
| Volumes.PickIsNewestMarked | pkg/reconciler/pvc.go:64-120 | The claim found for reuse is the newest of the pod's marked claims, expired ones included |
| Volumes.StepKeepsVolumes | pkg/reconciler/pvc.go:64-210 | Every event keeps the claims' invariant: mounted claims exist and bear their pod's name, the last mounted is the newest marked, unmount times follow creation order, once it is gone all older ones have expired, and a claim in hand belongs to no pod yet |
| Volumes.RunKeepsInv | pkg/reconciler/pvc.go:64-210 | That invariant, and the agreement of stored and snapshot spec with the first admitted namespace, in every world of every run |
| Continuity.CollectorSparesMountedClaims | pkg/garbagecollector/pvcs.go:98-122 | In every run the collector deletes no claim that any pod mounts |
| Continuity.MountedClaimsExist | pkg/reconciler/pod.go:438-460 | In every world each pod's claim exists, bears the pod's name and is mounted by no other pod |
| Continuity.CollectableForever | pkg/garbagecollector/pvcs.go:59-96 | A claim once collectable stays so until it is gone, and is never reusable or mounted again, unless its pod was being deleted at the time |
| Continuity.MarkRevives | pkg/reconciler/pod.go:568-580 | The exception, exactly: marking the claim of a pod that was lost while it was being deleted makes it reusable again, unless its period is shorter than the rounding of the mark |
| Continuity.GoneStaysGone | pkg/reconciler/pvc.go:122-192 | The name of a claim that is gone is not used again |
| Continuity.VolumeContinuity | pkg/reconciler/pod.go:438-460 | Over every run in which no reconcile begins while the claim, found again, waits for its pod: the pod that replaces a deleted one, or one lost after its claim was marked, even in the middle of its deletion, mounts the very same claim if and only if, when the claim was obtained, it had not expired since it was last marked and the reconcile had not found a healthy pod there under a strategy that recreates claims; otherwise it mounts a new one |
| Continuity.WhichClaim | pkg/reconciler/pod.go:438-460 | For every pod that is ever created, which claim it mounts: a new one exactly if the strategy recreates claims and a healthy pod was found, or if none may be reused; otherwise the newest reusable one, which is the one its predecessor mounted if and only if that is marked |
| Continuity.OlderClaimReturns | pkg/reconciler/pvc.go:107-120 | A pod goes back to a claim from before its predecessor's if and only if the predecessor's is an orphan, an older one may still be reused, and the claim is not recreated |
| Continuity.OrphansExactly | pkg/reconciler/pod.go:438-520 | A claim is an orphan in a world of a run if and only if, at an earlier step, the reconcile that held it ended, its pod was lost with the claim unmarked, or the reconcile that had cleared its lost pod ended without marking it |
| Continuity.LostPodLosesItsClaim | pkg/reconciler/pod.go:109-118 | The claim of a pod lost from outside while unmarked is an orphan from then on; the replacement mounts the newest older claim that may be reused, if there is one and claims are not recreated, and otherwise a new one |
| Continuity.OrphanForever | pkg/reconciler/pvc.go:76-105 | An unmarked claim that no pod mounts and no reconcile holds or is about to mark stays so over every run |
| Continuity.VolumesMatchMounts | pkg/reconciler/pod.go:462-487 | In every world all claims bear the namespace first admitted, and every pod's data volume is named like its mount; all claims have the retention period first admitted, zero if there is none |
| PodReconciler.PodHandler.SignalUnmounted | pkg/reconciler/pvc.go:206-212 | On success the claim of the cleared pod is marked with the present time in whole seconds; a mounted claim is always found, so that an error means a fault |
| PodReconciler.PodHandler.DeletePod | pkg/reconciler/pod.go:568-601 | Marks before it deletes; on success the pod is gone, and in any case only this pod is touched |
| PodReconciler.PodHandler.ObtainClaim | pkg/reconciler/pod.go:438-460 | A new claim exactly where the strategy says so or nothing can be reused, else the most recent reusable one, unmarked |
| PodReconciler.PodHandler.ChooseStrategy | pkg/reconciler/pod.go:428-436 | Fails exactly for an invalid upgrade, and otherwise tells whether claims are recreated |
| PodReconciler.PodHandler.CreatePodWithIndex | pkg/reconciler/pod.go:187-566 | On success the pod has the spec's image, the given configuration and, under the recreating strategy, a new claim; only this pod is touched |
| PodReconciler.PodHandler.AwaitPod | pkg/reconciler/pod.go:530-558 | Success means that the new pod has been seen ready, is there and has not failed; one that fails before is deleted, and the call fails; otherwise it fails only with a call |
| PodReconciler.PodHandler.SafeDeletePodWithIndex | pkg/reconciler/pod.go:623-721 | On success the pod is gone; it is cleared only after it reports, at once or after a wait, that it takes no part in migrations |
| PodReconciler.PodHandler.SafeRestartPodWithIndex | pkg/reconciler/pod.go:723-732 | On success the pod is back with the spec's image and the given configuration, on a new claim if a healthy pod was found and the strategy recreates claims |
| PodReconciler.PodHandler.MaybeUpgradePodWithIndex | pkg/reconciler/upgrades.go:36-89 | On success the pod reports the target version unless it has been lost; one that did not before has a new claim where the strategy recreates |
| PodReconciler.PodHandler.EnsureClusterSize | pkg/reconciler/pod.go:748-780 | Succeeds exactly if a server reports at least as many nodes as pods run, all reports before being smaller; otherwise a call has failed, or every report was too small and the pod is deleted if the deletion succeeds |
| PodReconciler.PodHandler.EnsurePod | pkg/reconciler/pod.go:86-146 | Success establishes the index unless its pod is lost: target version during an upgrade, given configuration otherwise; a missing or failed pod is made anew. There is no error without a fault, an unreadable claim, an invalid upgrade, a server off its image's version, or too small a cluster |
| PodReconciler.ReachedElsewhere | pkg/reconciler/pod.go:86-146 | Work on one index does not undo what was established for another, nor does the environment but by losing its pod |
| PodReconciler.PodHandler.ScaleDown | pkg/reconciler/pod.go:77-84 | Deletes exactly the indices from the desired size up to the number of pods, whatever is lost meanwhile |
| PodReconciler.PodHandler.EnsureWanted | pkg/reconciler/pod.go:86-146 | After the loop every wanted index exists and is up to date, but for pods lost meanwhile |
| PodReconciler.PodHandler.EnsurePods | pkg/reconciler/pod.go:60-154 | The exact effect of a successful run on the set of indices, less the pods lost meanwhile, and every other wanted pod on the target version or the given configuration; no error without one of the causes that EnsurePod names |
| Scaling.FromContiguous | pkg/reconciler/pod.go:66-84 | From a gapless set of indices a run reaches the desired one exactly |
| Scaling.FixedPoint | pkg/reconciler/pod.go:66-84 | A run leaves the indices as they are if and only if all wanted ones exist and every surplus one is at least the number of pods |
| Scaling.RunsReachFixedPoint | pkg/reconciler/pod.go:66-84 | From any set, repeated successful runs only lose surplus pods and reach a fixed point after at most one run more than there are surplus pods |
| Scaling.SurplusMayStay | pkg/reconciler/pod.go:66-84 | A surplus pod that scale-down never reaches |
| Sweeps.DisruptionIsBounded | pkg/reconciler/pod.go:86-146 | At every moment of every sweep, failed or not, of the wanted pods that were there at its start at most the one being worked on is missing, but for those lost from outside, late deletions included |
| Sweeps.DeletionWasCleared | pkg/reconciler/pod.go:623-690 | Every deletion follows, in the same reconcile and with the same pod in focus, a finding that calls for it and still holds: failure, surplus, another version than the target, another configuration than the wanted one, or the wanted one in too small a cluster; and unless the pod was found failed, a report that it takes no part in migrations |
| Sweeps.StatusIsTruthful | pkg/reconciler/cluster.go:171-192 | When an upgrade writes the new version into the status, every wanted pod's server runs it, but for pods lost in this reconcile |
| Sweeps.StatusTruthExactly | pkg/reconciler/cluster.go:85-101 | Every status, the first one included, is truthful if and only if every wanted pod that is there was created for the version it names |
| Sweeps.SettledSpecIsTruthful | pkg/reconciler/cluster.go:85-101 | If at some moment no pod below an index is of another version than the spec's and no reconcile works on another one, no status misleads about these pods until the version changes |
| Sweeps.UnchangedSpecIsTruthful | pkg/reconciler/cluster.go:88-88 | Every status is truthful as long as the version stands that the first reconcile found |
| FirstStatus.FirstStatusDecided | pkg/reconciler/cluster.go:88-88 | Before the first status, with no reconcile at work on another version: with the spec as it is, a status may come to name another version than a wanted pod's if and only if a wanted pod of another version is there |
| Sweeps.StepProgresses | pkg/reconciler/upgrades.go:36-89 | One step of an undisturbed upgrade: no index falls behind, only indices behind or surplus lose their pod, and a new pod is on the target |
| Sweeps.UpgradeProgresses | pkg/reconciler/pod.go:107-128 | Over any sequence of interrupted reconciles the set of wanted indices whose pod is absent or off the target only shrinks |
| Sweeps.DeletedOnce | pkg/reconciler/pod.go:107-128 | No index is deleted twice in one undisturbed upgrade |
| ClusterReconciler.AerospikeClusterReconciler.EnsureConfigMap | pkg/reconciler/configmap.go:40-59 | Success returns, and leaves stored, the data built from the spec with the hash of that data, whatever was stored before; an error means a call that failed |
| ClusterReconciler.AerospikeClusterReconciler.UpdateConfigMap | pkg/reconciler/configmap.go:61-93 | Under an injective hash the two comparisons detect every drift of data or annotation |
| ClusterReconciler.AerospikeClusterReconciler.ChangedConfigReachesPods | pkg/reconciler/pod.go:129-137 | After a reconcile that is no upgrade and gets to its end, no wanted pod that is not lost is left on the hash of another configuration |
| ClusterReconciler.AerospikeClusterReconciler.PatchCluster | pkg/reconciler/status.go:47-86 | The three outcomes of patch and status write: none, annotation only, both; nothing is written for equal objects |
| ClusterReconciler.AerospikeClusterReconciler.Signal | pkg/reconciler/upgrades.go:91-256 | Each of the six signals adds its condition and sets its annotation, wholly or only the annotation or not at all |
| ClusterReconciler.AerospikeClusterReconciler.SignalFailure | pkg/reconciler/cluster.go:118-125 | Both failure signals are tried; whatever is lost, the conditions grow by a prefix of the two |
| ClusterReconciler.AerospikeClusterReconciler.NoBackupYet | pkg/reconciler/backups.go:95-98 | A reconcile that has announced the backup of the status version never finds one of its name there, so that creating it is not refused |
| ClusterReconciler.AerospikeClusterReconciler.BackupCluster | pkg/reconciler/backups.go:36-100 | Creates a pending backup named by source and target, and success means that it did, and that the spec has a backup spec; there is an error only if it has none, or a call has failed |
| ClusterReconciler.AerospikeClusterReconciler.IsClusterBackupFinished | pkg/reconciler/backups.go:46-120 | Each answer is given exactly for what the lister shows of the backup from the status version to the spec version, which may be out of date in every way; a finished or failed one did end so |
| ClusterReconciler.AerospikeClusterReconciler.AwaitBackup | pkg/reconciler/cluster.go:113-146 | What the lister shows decides: no backup or a failed one is an error, one without verdict ends the reconcile with nothing written, and after a finished one the pods may go ahead with both conditions added if no call fails |
| ClusterReconciler.AerospikeClusterReconciler.PrepareUpgrade | pkg/reconciler/cluster.go:105-146 | No pod and no status version changes but for pods lost; the pods may go ahead exactly at the annotation that says the upgrade has started, or once both signals of a finished backup have landed; otherwise the backup is announced and created, or awaited, or there is a cause for an error |
| ClusterReconciler.AerospikeClusterReconciler.Validate | pkg/reconciler/validation.go:28-74 | Passes exactly the specs whose explicit replication factors are at most the node count and whose storage classes, where they are named, are found |
| ClusterReconciler.AdmittedFactorsFit | pkg/reconciler/validation.go:38-51 | No admitted spec fails the check of replication factors |
| ClusterReconciler.AerospikeClusterReconciler.UpdateStatus | pkg/reconciler/status.go:37-44 | The version of the spec is written into the status, as one event of the run |
| ClusterReconciler.AerospikeClusterReconciler.Complete | pkg/reconciler/cluster.go:185-199 | Success leaves the new version in the status and, after an upgrade, no annotation |
| ClusterReconciler.AerospikeClusterReconciler.UpgradeOf | pkg/reconciler/cluster.go:85-101 | An upgrade exactly when the status version is set and differs from the spec's; an error exactly when one of them cannot be parsed then |
| ClusterReconciler.AerospikeClusterReconciler.MaybeReconcile | pkg/reconciler/cluster.go:69-202 | A reconcile ends in one of six ways, each tied to the object it found and the state it leaves: on a valid spec, with no upgrade due or one under way, it leaves exactly the specified indices, all on the version or on the configuration built from the spec it started from, but for pods lost meanwhile, and says so in the status, unless there is an error, which has one of nine causes; after a failed upgrade it changes nothing |
| ClusterReconciler.NeverTheseCauses | pkg/reconciler/cluster.go:85-101 | In every world of every run the versions of a due upgrade parse, the upgrade under way has a strategy, and every claim's annotations can be read |
| Protocol.StrategyNeverFails | pkg/reconciler/pod.go:428-436 | For every interleaving of admitted updates with a reconcile on an older snapshot, the status version is empty, the spec's, or a valid upgrade away from it, and the upgrade in flight has a strategy |
| Protocol.StatusClimbs | pkg/reconciler/cluster.go:85-101 | Over every stretch of a run the status version stays or takes valid upgrades |
| Protocol.UpgradesAreBackedUp | pkg/reconciler/cluster.go:105-146 | If completions are not cut: whenever the pods' upgrade begins, and whenever a pod of another version is created, a backup of the status version was created and then finished, with the status at that version all the while |
| Protocol.StaleAnnotationSkipsBackup | pkg/reconciler/cluster.go:190-199 | Where a cut completion has left the annotation behind, the next admitted upgrade reaches the pods with no backup of the status version |
| Protocol.RemovedAnnotationBacksUp | pkg/reconciler/cluster.go:105-146 | Wherever the annotation is not there, the next departure from the status version is backed up, even if completions are cut |
| Protocol.AnnotationDecidesBackup | pkg/reconciler/cluster.go:105-146 | When no upgrade is due, the next one may go without backup if and only if the cluster object still has the annotation |
| Protocol.FailedUpgradeIsFinal | pkg/reconciler/cluster.go:75-83 | After a failed upgrade the operator takes no step any more, and annotation, status version and conditions stay |
| Stalls.AnnouncedWithoutBackup | pkg/reconciler/cluster.go:113-127 | When a reconcile begins with a backup announced, and there is none from the status version to the spec's nor has one ended, then in every run no reconcile takes a step any more |
| Stalls.BackupDecidesUpgrade | pkg/reconciler/backups.go:102-120 | When a reconcile has begun with a backup announced, the upgrade can still go ahead if and only if the backup from the status version to the spec's is under way or has finished, even if it is gone since |
| Stalls.AnnouncedWithoutPlace | pkg/reconciler/backups.go:79-92 | A reconcile that announces a backup although its spec has no backup spec leaves the cluster stuck: no backup is created, and no reconcile takes a step any more |
| Stalls.MissingPlaceWasDropped | pkg/admission/cluster.go:149-179 | An upgrade is due without a backup spec only after an update that dropped it and left the version alone |
| Example.UpgradeWithoutBackup | pkg/reconciler/cluster.go:190-199 | A concrete run, event by event, from the admission of 4.0.0.4 to an upgrade without backup from 4.1.0.1 to 4.2.0.3 |
| Example.UpgradeGetsStuck | pkg/reconciler/cluster.go:109-112 | A concrete run, cut short between announcing the backup and creating it, after which the upgrade cannot go ahead |
| Example.RecreationReusesClaim | pkg/reconciler/pod.go:111-111 | A concrete run from 4.1.0.1 to 4.2.0.3, cut short between deleting a pod and creating its claim, in which the pod starts on its old claim although the strategy recreates claims |
| Example.CrashBringsBackOldClaim | pkg/reconciler/pod.go:109-118 | A concrete run from 4.1.0.1 to 4.2.0.3, never cut short, with the claim recreated and the upgrade completed, after which the pod is lost and its replacement of 4.2.0.3 starts on the claim from before the upgrade |
| Example.CutsOrphanClaims | pkg/reconciler/pod.go:438-520 | Two concrete runs that orphan a claim: cut short after it was created, and cut short after its pod was cleared for deletion and lost |
| Example.UpgradeWithoutPlace | pkg/reconciler/backups.go:79-92 | A concrete run in which the backup spec is dropped once the new version has been admitted, and the reconcile announces a backup that it cannot create |
| Example.CollectableClaimRevives | pkg/reconciler/pod.go:568-580 | A concrete run in which a claim that may be collected is marked again and may be reused |
| Example.FirstStatusMisleads | pkg/reconciler/cluster.go:88-88 | A concrete run in which the first status names 4.1.0.1 while the pod runs 4.0.0.4, because a change of version is no upgrade as long as the status is empty |
| Example.FirstStatusMisleadsInFlight | pkg/reconciler/cluster.go:88-88 | A concrete run in which the first status misleads although no pod was there when the version was changed, because a reconcile on the old one was under way |
| ConditionLog.StageDescribesLog | pkg/reconciler/upgrades.go:91-256 | A log that the automaton accepts is a sequence of complete rounds and the tail that its stage tells |
| ConditionLog.LogIsWellFormed | pkg/reconciler/upgrades.go:91-256 | If signals land wholly or not at all, the conditions of every run are complete upgrades followed by at most one under way or failed, and the annotation tells which; the target may change at any time |
| BackupObjects.JobIdInjective | pkg/backuprestore/job.go:129-131 | Different objects have different jobs, even a backup and a restore of one name |
| BackupObjects.SelectsOwnSecrets | pkg/utils/selectors/label.go:46-52 | A selector matches the labels of its own object's temporary secrets and of no other's |
| BackupObjects.JobVerdictExactly | pkg/backuprestore/handler.go:158-175 | By position: a job has finished exactly if the first of its conditions that decide says that it is complete, has failed exactly if that one says so, and has no verdict exactly if none decides |
| BackupObjects.VerdictIsFirst | pkg/reconciler/backups.go:108-119 | The verdict read off an object is its first terminal condition, by position |
| BackupObjects.VersionsStay | pkg/backuprestore/handler.go:117-124 | The stored condition log is append-only over versions and over runs, with stale reads and compare-and-swap writes |
| BackupObjects.VerdictNeverFlips | pkg/reconciler/backups.go:102-120 | A verdict read off any version of an object at any time is what every later reader reads off any version, except that an older version may have none; even if jobs are deleted or change their minds |
| BackupObjects.VerdictsAreHonest | pkg/backuprestore/handler.go:158-207 | Every terminal condition in a log was the verdict of some version of the object's job |
| BackupObjects.LogShape | pkg/backuprestore/handler.go:65-125 | Every version's log is starts followed by at most one verdict, and has at most one start more than its job has been deleted |
| BackupObjects.MayLaunchExactly | pkg/backuprestore/handler.go:101-121 | In every reachable state a job may be launched for an object if and only if it has none, whatever its conditions say |
| BackupObjects.LaunchedAgain | pkg/backuprestore/handler.go:101-121 | Between two launches for one object its job has been deleted |
| BackupObjects.LateLaunch | pkg/backuprestore/handler.go:101-121 | A launch after a verdict takes both a stale copy and a deleted job |
| BackupObjects.TwoStarts | pkg/backuprestore/handler.go:101-121 | A run in which the job is deleted and the log ends as two starts |
| BackupObjects.LaunchedOverAgain | pkg/backuprestore/handler.go:101-121 | A run in which a job is launched for an object that has finished |
| BackupRestore.BackupRestoreHandler.IsFailedOrFinished | pkg/backuprestore/status.go:40-47 | True exactly for a log with a terminal condition |
| BackupRestore.BackupRestoreHandler.SyncStatusWithSpec | pkg/apis/aerospike/v1alpha2/backup.go:176-191 | The status ends up with the spec's settings; an update is demanded exactly if storage or target differ or a retention period is set |
| BackupRestore.BackupRestoreHandler.GetSecret | pkg/backuprestore/secret.go:32-79 | The secret returned has the data of the one that the storage names, in the storage's namespace or the object's own, or in default if that is empty; one from another namespace is copied under the object's labels, and nothing else changes; an error means that it is missing or a call has failed |
| BackupRestore.BackupRestoreHandler.ClearSecrets | pkg/backuprestore/secret.go:44-55 | Success leaves no secret that the object's selector finds; every other secret stays as it was, even on failure |
| BackupRestore.BackupRestoreHandler.LaunchJob | pkg/backuprestore/handler.go:129-154 | Success means that the secret has the storage's key, key.json by default, that no such job existed, that it was launched on the version read, and that the start is noted; an error means no such key, a job that is there already, or a call that failed |
| BackupRestore.BackupRestoreHandler.MaybeSetConditions | pkg/backuprestore/handler.go:158-207 | Adds that the job has finished exactly if its first deciding condition says that it is complete, that it has failed exactly if that one says so, and nothing exactly if none decides |
| BackupRestore.BackupRestoreHandler.Handle | pkg/backuprestore/handler.go:65-125 | On a finished object it launches nothing and, on success, brings the status up to date and leaves no temporary secret; on any other it succeeds only against the newest version, and adds exactly the launch it made or the verdict it saw, with the spec's settings in the status; it fails only if a call fails, there is no storage or its secret cannot be used, the job that the lister does not show is there, or there is a newer version |
| Naming.BackupNameDecides | pkg/reconciler/backups.go:123-128 | Backup names are equal exactly when the namespaces and the stripped versions are, for any namespace text |
| Naming.BackupNameInjective | pkg/reconciler/backups.go:123-128 | Over the supported versions a backup name tells namespace, source and target |
| Naming.BackupNamesCollide | pkg/reconciler/backups.go:123-128 | Two versions beyond the list whose backups would share a name |
| Naming.SampleBackupName | pkg/reconciler/backups.go:123-128 | The format of the name on an example |
| Naming.JobNameFits | pkg/backuprestore/job.go:129-131 | Job names of pre-upgrade backups and restores stay within 63 characters for admitted namespaces and two-digit components |
| Naming.MeshSeedAddressFits | pkg/admission/cluster.go:95-98 | The admitted name lengths are exactly those for which the addresses of one-digit pods fit |
| Naming.SeedAddressTells | pkg/reconciler/pod.go:208-219 | The address is the names of pod, cluster and Kubernetes namespace in this order, separated by dots |
| Naming.PodIndexOfName | pkg/reconciler/podutils.go:55-61 | The index is read back from every pod name, whatever the cluster is called |
| Peers.BuildPeerList | pkg/reconciler/pod.go:208-219 | The argument is the join of as many empty strings as there are pods and the other pods' addresses in order |
| Peers.PeersRoundTrip | cmd/asinit/main.go:58-69 | Splitting recovers exactly the addresses of the other pods, in order, if and only if no address has a comma |
| Peers.AddressesAreOthers | pkg/reconciler/pod.go:208-219 | The addresses are those of all pods with another name, and none is empty |
| Peers.BuildSeeds | cmd/asinit/main.go:64-69 | One line of configuration for each field of the argument |
| Peers.SeedLineTells | cmd/asinit/main.go:64-69 | A line says what it is, the address and port 3002, in three words, and ends with a newline |
| Peers.SeedLinesTell | cmd/asinit/main.go:64-69 | The text has the line of every field, at its place |
| Peers.SeedsOfPod | cmd/asinit/main.go:58-69 | From operator to configuration: the new pod's seed lines are the other pods |

## Left out

- The Kubernetes client, informers, work queues, leader election, events and logging: library code without effect on the state.
- Calls to the Aerospike servers (versions, migrations, cluster size, tip-clear, alumni reset): each is an arbitrary answer of the environment.
- Clusters with several namespaces in the store: admission keeps exactly one namespace per cluster (`Admission.AdmittedChainKeeps`), so the loops over namespaces run once.
- Pods of other clusters, and pod names in the store: a pod is known by its index there; `Naming.PodIndexOfName` connects index and name.
- The bounds that the resource definition sets on node counts, on top of what admission demands.
- The node id, the peers, resources, probes and volumes other than the data volume in a pod; the copies of the spec in the status other than the version.
- Service, network policy, and the contents of the configuration: created or not, and built from the spec by an arbitrary function.
- Interference inside the patch of a cluster object, and between finding a claim and mounting it.
- The signal after a failed pod upgrade (`pkg/reconciler/cluster.go:174-180`): no function returns the error that leads to it.
- Spellings of a supported version other than its printed form, such as leading zeros, in the names of backups.
- The error for an unknown type of storage: the type of the field has only the two known ones.
- Quantities in text form, such as a claim's size: a parse that fails is a call that fails.
- Durations in text form, and floating point in their conversion: retention periods are natural numbers, where zero means forever.
- Deletion and re-creation of cluster, backup and restore objects under one name.
- Replacing the placeholders of the configuration file in the init container.
- The collector of expired namespace backups, the storage of backups, resource computation, conversion between API versions, and the webhook's transport: shallow branching or plumbing.
- PodReconciler.PodHandler.AwaitPod: a call that fails may leave the failed pod behind, since its deletion may fail too.
- BackupRestore.BackupRestoreHandler.Handle: what other objects' workers do to their own secrets in the meantime is left open.
