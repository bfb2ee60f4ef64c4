// The reconciler's handling of a whole cluster: the upgrade and backup state machine, the configuration, and the
// status (pkg/reconciler/cluster.go, backups.go, configmap.go, status.go, upgrades.go, validation.go).
module ClusterReconciler {
  import opened Wrappers
  import opened Versioning
  import opened Upgrades
  import opened Admission
  import opened World
  import opened Store
  import opened Environment
  import opened Scaling
  import opened PodReconciler
  import Protocol
  import Volumes
  import ConditionLog

  ghost predicate Injective(f: string -> string) {
    forall a, b | f(a) == f(b) :: a == b
  }

  // Every wanted pod is on the target version, if this is an upgrade, and else on the given configuration, but for pods
  // lost in this reconcile.
  ghost predicate PodsMatch(w: World, spec: Spec, hash: string) {
    forall j: nat | j < spec.nodeCount :: StillReached(w, j, hash)
  }

  lemma PodsStillMatch(w: World, w': World, spec: Spec, hash: string)
    requires PodsMatch(w, spec, hash) && PodsSpared(w, w') && w'.past.job == w.past.job
    ensures PodsMatch(w', spec, hash)
  {
    hide StillReached;
    forall j: nat | j < spec.nodeCount
      ensures StillReached(w', j, hash)
    {
      StillReachedLater(w, w', j, hash);
    }
  }

  lemma SparedComposes(w: World, w': World, w'': World)
    requires PodsSpared(w, w') && PodsSpared(w', w'')
    ensures PodsSpared(w, w'')
  {
  }

  lemma MatchingPodsAllowStatus(w: World, spec: Spec, hash: string)
    requires PodsMatch(w, spec, hash) && w.past.job.Working? && spec == w.past.job.snapshot.spec
    requires !w.past.completing && w.past.held == Nothing && (Upgrading(w) ==> w.obj.annotation == UpgradeRunning)
    ensures MaySetStatus(w)
  {
    forall j | 0 <= j < spec.nodeCount
      ensures j in w.past.lost || (j in w.pods && (Upgrading(w) ==> OnTarget(w, j)))
    {
      assert StillReached(w, j, hash);
    }
  }

  lemma SparedKeys(w: World, w': World, keys: set<nat>)
    requires PodsSpared(w, w') && w.pods.Keys == keys - w.past.lost
    requires forall i | i in w'.past.lost :: i !in w'.pods
    ensures w'.pods.Keys == keys - w'.past.lost
  {
  }

  // The answer to whether the cluster's backups have finished.
  datatype BackupAnswer = Completed | NotYet | BackupFailed | Unknown

  // What was behind an error: a fault, as when a call fails or the pod in focus is lost; a version that does not parse;
  // no backup spec to create the backup from; a backup that the lister does not know, or shows as failed; a claim whose
  // annotations cannot be read; an upgrade that is not a valid one; a server that does not report the version of its
  // image; or too small a cluster.
  datatype Cause =
    | CallFailed | VersionUnparsable | BackupSpecMissing | BackupUnknown | BackupLost
    | ClaimUnreadable | InvalidStrategy | ServerOffVersion | ClusterTooSmall

  // How a reconcile has ended: at once, because an upgrade has failed before; by announcing the backup; waiting for it;
  // by finding the spec invalid; by getting to its end; or by an error.
  datatype Outcome =
    | UpgradeHasFailed | BackupAnnounced | BackupAwaited | SpecInvalid | Reconciled | CutShort(cause: Cause)

  // What cannot be checked on admission: explicit replication factors fit the node count, and the storage classes are
  // among those given.
  predicate PassesValidation(spec: Spec, classes: set<string>) {
    && (forall k | 0 <= k < |spec.namespaces| :: FactorFits(spec, spec.namespaces[k]))
    && (forall k | 0 <= k < |spec.namespaces| :: ClassFound(spec.namespaces[k], classes))
  }

  predicate FactorFits(spec: Spec, ns: NamespaceSpec) {
    ns.replicationFactor.Some? ==> ns.replicationFactor.value <= spec.nodeCount
  }

  predicate ClassFound(ns: NamespaceSpec, classes: set<string>) {
    ns.storage.storageClass.Some? && ns.storage.storageClass.value != "" ==> ns.storage.storageClass.value in classes
  }

  // No spec that admission lets through fails the check of replication factors: one that is not written out is not
  // looked at again, and the others have passed the same check.
  lemma AdmittedFactorsFit(spec: Spec)
    requires ValidSpec(spec)
    ensures forall k | 0 <= k < |spec.namespaces| && spec.namespaces[k].replicationFactor.Some? ::
              spec.namespaces[k].replicationFactor.value <= spec.nodeCount
    ensures PassesValidation(spec, {}) <==> ClassFound(spec.namespaces[0], {})
  {
    hide SupportedText, ClassFound;
  }

  // Three causes of an error never occur, whatever is admitted and whatever fails: whenever an upgrade is due, both its
  // versions parse; the upgrade under way has a strategy; and every annotation of a claim can be read.
  lemma NeverTheseCauses(worlds: seq<World>, events: seq<Event>, k: nat)
    requires IsRun(worlds, events) && k < |worlds|
    ensures worlds[k].obj.NeedsUpgrade() ==>
              Parse(worlds[k].obj.version).Ok? && Parse(worlds[k].obj.spec.version).Ok?
    ensures Upgrading(worlds[k]) ==> worlds[k].past.job.upgrade.value.IsValid()
    ensures !UnreadableClaims(worlds[k].claims)
  {
    hide Parse, VersionUpgrade.IsValid, Enabled, Apply;
    Protocol.RunKeepsVersions(worlds, events, k);
    if Upgrading(worlds[k]) {
      Protocol.ClimbingUpgradeIsValid(worlds[k]);
    }
    Volumes.RunKeepsInv(worlds, events, k);
    forall c | c in worlds[k].claims
      ensures !worlds[k].claims[c].unmounted.Malformed? && !worlds[k].claims[c].ttl.Malformed?
    {
      assert Volumes.Shaped(worlds[k], worlds[0].obj.spec, c);
    }
  }

  class AerospikeClusterReconciler {
    const api: Api
    const pods: PodHandler
    const buildConfig: Spec -> string
    const hashOf: string -> string

    constructor (api: Api, buildConfig: Spec -> string, hashOf: string -> string)
      ensures this.api == api && pods.api == api && this.buildConfig == buildConfig && this.hashOf == hashOf
    {
      this.api := api;
      this.pods := new PodHandler(api);
      this.buildConfig := buildConfig;
      this.hashOf := hashOf;
    }

    // ---------------------------------------------------------------- configuration

    function BuildConfigMap(spec: Spec): ConfigMap {
      ConfigMap(buildConfig(spec), hashOf(buildConfig(spec)))
    }

    // An error means a fault, and faults stay. Nothing has been reported or shown meanwhile.
    ghost predicate Errors(before: bool, failed: bool, sizes: seq<SizeReport>, shown: Option<Option<Verdict>>)
      reads api
    {
      (before || failed ==> api.fault) && api.sizes == sizes && api.shown == shown
    }

    // Success returns the configuration built from the spec, whatever data and annotation were stored before.
    method EnsureConfigMap(spec: Spec) returns (r: Result<ConfigMap>)
      requires api.Valid()
      modifies api
      ensures api.Valid() && Quiet(old(api.State()), api.State())
      ensures r.Ok? ==> api.configMap == Some(r.value)
      ensures r.Ok? && Injective(hashOf) ==> r.value.data == buildConfig(spec) && r.value.hash == hashOf(r.value.data)
      ensures Errors(old(api.fault), r.Err?, old(api.sizes), old(api.shown))
    {
      var desired := BuildConfigMap(spec);
      var created, taken := api.CreateConfigMap(desired);
      if created {
        return Ok(desired);
      }
      if !taken {
        return Err;
      }
      Interfere(api);
      r := UpdateConfigMap(desired);
    }

    // Replaces the configuration found, unless it is up to date.
    method UpdateConfigMap(desired: ConfigMap) returns (r: Result<ConfigMap>)
      requires api.configMap.Some? || api.fault
      modifies api`configMap, api`fault
      ensures old(api.fault) || r.Err? ==> api.fault
      ensures r.Ok? ==> api.configMap == Some(r.value)
      ensures r.Ok? && Injective(hashOf) && desired.hash == hashOf(desired.data) ==> r.value == desired
    {
      var found := api.GetConfigMap();
      if found.None? {
        return Err;
      }
      var current := found.value;
      var outdated := hashOf(current.data) != current.hash || desired.hash != current.hash;
      if !outdated {
        return Ok(current);
      }
      var updated := api.UpdateConfigMap(desired);
      return if updated then Ok(desired) else Err;
    }

    // ---------------------------------------------------------------- patches and signals

    // Patches the cluster object, then its status: the first half may land without the second.
    method PatchCluster(o: Object, n: Object) returns (ok: bool)
      requires o.annotation == api.obj.annotation
      modifies api`obj, api`fault
      ensures old(api.fault) || !ok ==> api.fault
      ensures
        || api.obj == old(api.obj)
        || api.obj == old(api.obj).(annotation := n.annotation)
        || api.obj == n.(spec := old(api.obj.spec))
      ensures ok && o != n ==> api.obj == n.(spec := old(api.obj.spec))
      ensures o == n ==> api.obj == old(api.obj)
    {
      if o == n {
        return true;
      }
      ok := api.PatchAnnotation(n.annotation);
      if !ok {
        return;
      }
      if api.obj.version != n.version || api.obj.conditions != n.conditions {
        ok := api.UpdateStatus(n.version, n.conditions);
      }
    }

    // The reconciler's copy of the cluster object agrees with the stored one but for the spec, and for conditions that
    // it has added and failed to store.
    ghost predicate Mirrors(cluster: Object, owed: seq<Condition>)
      reads api
    {
      cluster == api.obj.(spec := cluster.spec, conditions := api.obj.conditions + owed)
    }

    // Appends a condition and sets the annotation. The six signal functions are instances of this method.
    method Signal(cluster: Object, annotation: Annotation, c: Condition, ghost owed: seq<Condition>)
      returns (ok: bool, patched: Object)
      requires api.Valid() && Mirrors(cluster, owed) && SignalEnabled(api.State(), annotation, owed + [c])
      modifies api`obj, api`past, api`fault, api`worlds, api`events
      ensures old(api.fault) || !ok ==> api.fault
      ensures api.Valid() && api.past == old(api.past).(completing := api.past.completing)
      ensures patched == cluster.(annotation := annotation, conditions := cluster.conditions + [c])
      ensures ok ==> Mirrors(patched, []) && EndsWith(api.obj.conditions, c) && !api.past.completing
      ensures
        || api.obj == old(api.obj)
        || api.obj == old(api.obj).(annotation := annotation)
        || (api.obj == patched.(spec := old(api.obj.spec)) && EndsWith(api.obj.conditions, c))
    {
      hide IsRun, Admits, IsUpgradeOf, IsPick, Api.Agrees, SignalEnabled;
      ghost var before := api.State();
      patched := cluster.(annotation := annotation, conditions := cluster.conditions + [c]);
      ok := PatchCluster(cluster, patched);
      if api.obj != before.obj {
        assert patched.conditions == before.obj.conditions + (owed + [c]);
        api.Land(Signalled(annotation, owed + [c], api.obj.conditions != before.obj.conditions));
      }
    }

    // ---------------------------------------------------------------- pre-upgrade backups

    // The backup to be created is not there yet: there is none of the status version before one is announced, and
    // then only the one that the announcing reconcile creates.
    lemma NoBackupYet()
      requires api.Valid() && api.past.job.Working? && api.past.job.snapshot.annotation == Unannotated
      requires api.obj.annotation == BackupRunning && !api.past.requested
      requires api.obj.version == api.past.job.snapshot.version
      ensures (api.past.job.snapshot.version, api.past.job.snapshot.spec.version) !in api.backups
    {
      hide Enabled, Apply;
      ConditionLog.RunKeepsOneBackup(api.worlds, api.events, |api.events|);
      assert BackupKey(api.State()) in api.backups ==> ConditionLog.FromStatus(api.State(), BackupKey(api.State()));
    }

    // Creates the backup. A spec that has lost its backup spec makes the operator crash here.
    method BackupCluster(cluster: Object) returns (ok: bool)
      requires api.Valid() && Upgrading(api.State()) && cluster.spec == api.past.job.snapshot.spec
      requires cluster.version == api.past.job.snapshot.version && !api.past.requested
      requires api.past.job.snapshot.annotation == Unannotated && api.obj.annotation == BackupRunning
      requires api.obj.version == cluster.version
      modifies api`backups, api`archive, api`past, api`fault, api`worlds, api`events
      ensures api.Valid() && api.past == old(api.past).(requested := api.past.requested)
      ensures ok ==> cluster.spec.backupSpec.Some?
      ensures !ok ==> api.fault || cluster.spec.backupSpec == None
      ensures var key := (cluster.version, cluster.spec.version);
              || (key !in old(api.backups) && api.backups == old(api.backups)[key := Pending])
              || (!ok && api.backups == old(api.backups))
    {
      hide IsRun, Admits, IsUpgradeOf, Api.Agrees;
      NoBackupYet();
      if cluster.spec.backupSpec.None? {
        return false;
      }
      ok := api.CreateBackup((cluster.version, cluster.spec.version));
    }

    // Looks up the verdict. shown is what the lister shows of the backup, which may be out of date.
    method IsClusterBackupFinished(cluster: Object) returns (r: BackupAnswer, ghost shown: Option<Verdict>)
      requires api.Valid()
      modifies api`shown
      ensures api.Valid() && api.shown == Some(shown)
      ensures r == match shown
                   case None => Unknown
                   case Some(Pending) => NotYet
                   case Some(Finished) => Completed
                   case Some(Failed) => BackupFailed
      ensures r == Completed ==> (cluster.version, cluster.spec.version) in api.past.done
      ensures r == BackupFailed ==> (cluster.version, cluster.spec.version) in api.past.spoilt
    {
      var verdict := api.GetBackup((cluster.version, cluster.spec.version));
      shown := verdict;
      if verdict.None? {
        return Unknown, shown;
      }
      match verdict.value
      case Finished => return Completed, shown;
      case Failed => return BackupFailed, shown;
      case Pending => return NotYet, shown;
    }

    // ---------------------------------------------------------------- before the pods

    // A reconcile has begun on the given copy of the cluster object and has touched no pod.
    ghost predicate Begun(cluster: Object)
      reads api
    {
      && Mirrors(cluster, [])
      && api.past.job.Working? && api.past.job.snapshot.spec == cluster.spec
      && api.past.job.snapshot.version == cluster.version
      && (api.past.job.upgrade.Some? <==> cluster.NeedsUpgrade())
      && api.past.start.None? && AtRest(api.State()) && !api.past.completing
    }

    // Both signals of a failed backup; neither stops the other.
    method SignalFailure(cluster: Object)
      requires api.Valid() && Begun(cluster) && BackupIs(api.State(), Failed) && api.obj.annotation == BackupRunning
      modifies api
      ensures api.Valid() && PodsSpared(old(api.State()), api.State()) && api.obj.version == old(api.obj.version)
      ensures api.obj.annotation == BackupRunning || api.obj.annotation == UpgradeBroken
      ensures
        || api.obj.conditions == old(api.obj.conditions)
        || api.obj.conditions == old(api.obj.conditions) + [AutoBackupFailed]
        || api.obj.conditions == old(api.obj.conditions) + [AutoBackupFailed] + [UpgradeFailed]
      ensures Errors(old(api.fault), false, old(api.sizes), old(api.shown)) && old(api.past.spoilt) <= api.past.spoilt
    {
      hide IsRun, Admits, SignalEnabled, IsUpgradeOf, Api.Agrees;
      var patched;
      ghost var owed;
      patched, owed := SignalBackupFailed(cluster);
      Interfere(api);
      SignalUpgradeFailed(patched, owed);
    }

    // The first signal of a failed backup: what it has failed to store is owed.
    method SignalBackupFailed(cluster: Object) returns (patched: Object, ghost owed: seq<Condition>)
      requires api.Valid() && Begun(cluster) && BackupIs(api.State(), Failed) && api.obj.annotation == BackupRunning
      modifies api`obj, api`past, api`fault, api`worlds, api`events
      ensures api.Valid() && Mirrors(patched, owed) && (old(api.fault) ==> api.fault)
      ensures api.past == old(api.past).(completing := api.past.completing)
      ensures api.obj == old(api.obj).(conditions := api.obj.conditions)
      ensures
        || (owed == [AutoBackupFailed] && api.obj.conditions == old(api.obj.conditions))
        || (&& owed == [] && api.obj.conditions == old(api.obj.conditions) + [AutoBackupFailed]
            && EndsWith(api.obj.conditions, AutoBackupFailed))
    {
      hide IsRun, Admits, IsUpgradeOf, Api.Agrees;
      var ok;
      ok, patched := Signal(cluster, BackupRunning, AutoBackupFailed, []);
      owed := if api.obj == old(api.obj) then [AutoBackupFailed] else [];
    }

    // The second signal of a failed backup, after the first one has been stored or is owed.
    method SignalUpgradeFailed(cluster: Object, ghost owed: seq<Condition>)
      requires api.Valid() && Mirrors(cluster, owed) && BackupIs(api.State(), Failed)
      requires api.obj.annotation == BackupRunning
      requires owed == [AutoBackupFailed] || (owed == [] && EndsWith(api.obj.conditions, AutoBackupFailed))
      modifies api`obj, api`past, api`fault, api`worlds, api`events
      ensures (old(api.fault) ==> api.fault) && api.past.spoilt == old(api.past.spoilt)
      ensures api.Valid() && api.obj.version == old(api.obj.version) && api.past.lost == old(api.past.lost)
      ensures api.obj.annotation == BackupRunning || api.obj.annotation == UpgradeBroken
      ensures api.obj.conditions == old(api.obj.conditions)
              || api.obj.conditions == old(api.obj.conditions) + owed + [UpgradeFailed]
    {
      assert owed + [UpgradeFailed] == if owed == [] then [UpgradeFailed] else [AutoBackupFailed, UpgradeFailed];
      var ok, patched := Signal(cluster, UpgradeBroken, UpgradeFailed, owed);
    }

    // Both signals of a finished backup, in order.
    method SignalStart(cluster: Object) returns (ok: bool, patched: Object)
      requires api.Valid() && Begun(cluster) && BackupIs(api.State(), Finished) && api.obj.annotation == BackupRunning
      modifies api
      ensures api.Valid() && PodsSpared(old(api.State()), api.State()) && api.obj.version == old(api.obj.version)
      ensures ok ==> Begun(patched)
      ensures ok ==> patched == cluster.(annotation := UpgradeRunning,
                                         conditions := cluster.conditions + [AutoBackupFinished] + [UpgradeStarted])
      ensures ok ==> api.past.job == old(api.past.job)
      ensures Errors(old(api.fault), !ok, old(api.sizes), old(api.shown))
    {
      ok, patched := Signal(cluster, BackupRunning, AutoBackupFinished, []);
      if ok {
        Interfere(api);
        assert [] + [UpgradeStarted] == [UpgradeStarted];
        ok, patched := Signal(patched, UpgradeRunning, UpgradeStarted, []);
      }
    }

    // Announces the pre-upgrade backup, then creates it.
    method AnnounceBackup(cluster: Object) returns (ok: bool)
      requires api.Valid() && Begun(cluster) && Upgrading(api.State()) && !api.past.requested
      requires cluster.annotation == Unannotated && api.past.job.snapshot.annotation == Unannotated
      modifies api
      ensures api.Valid() && PodsSpared(old(api.State()), api.State()) && api.obj.version == old(api.obj.version)
      ensures ok ==> api.obj.annotation == BackupRunning && EndsWith(api.obj.conditions, AutoBackupStarted)
      ensures ok ==> api.obj.conditions == old(api.obj.conditions) + [AutoBackupStarted]
      ensures ok ==> (cluster.version, cluster.spec.version) in api.backups && cluster.spec.backupSpec.Some?
      ensures !ok ==> api.fault || cluster.spec.backupSpec == None
    {
      hide IsRun, Admits, IsPick, IsUpgradeOf;
      var patched;
      ok, patched := Signal(cluster, BackupRunning, AutoBackupStarted, []);
      if ok {
        Interfere(api);
        ok := BackupCluster(patched);
      }
    }

    // Looks for the verdict on the pre-upgrade backup, and sends the signals that follow from it. Without a verdict,
    // nothing is sent. shown is what the lister shows of the backup.
    method AwaitBackup(cluster: Object)
      returns (ok: bool, go: bool, patched: Object, ghost shown: Option<Verdict>)
      requires api.Valid() && Begun(cluster) && Upgrading(api.State())
      requires cluster.annotation == BackupRunning && api.past.job.snapshot.annotation == BackupRunning
      modifies api
      ensures api.Valid() && PodsSpared(old(api.State()), api.State()) && api.obj.version == old(api.obj.version)
      ensures shown == None || shown == Some(Failed) ==> !ok
      ensures shown == Some(Pending) ==> ok && !go
      ensures shown == Some(Finished) ==> go == ok
      ensures api.shown == Some(shown) && api.sizes == old(api.sizes) && (old(api.fault) ==> api.fault)
      ensures shown == Some(Failed) ==> (cluster.version, cluster.spec.version) in api.past.spoilt
      ensures !ok ==> api.fault || shown == None || shown == Some(Failed)
      ensures ok && !go ==> api.obj.(spec := old(api.obj.spec)) == old(api.obj)
      ensures go ==> ok && Begun(patched) && patched.annotation == UpgradeRunning
      ensures go ==> patched == cluster.(annotation := UpgradeRunning,
                                         conditions := cluster.conditions + [AutoBackupFinished] + [UpgradeStarted])
      ensures go ==> api.past.job == old(api.past.job)
    {
      hide IsRun, Admits, IsPick, IsUpgradeOf;
      go, patched := false, cluster;
      var answer: BackupAnswer;
      answer, shown := IsClusterBackupFinished(cluster);
      Interfere(api);
      ghost var looked := api.State();
      if answer == BackupFailed {
        SignalFailure(cluster);
        SparedComposes(old(api.State()), looked, api.State());
        return false, false, cluster, shown;
      } else if answer == Unknown {
        return false, false, cluster, shown;
      } else if answer == NotYet {
        return true, false, cluster, shown;
      }
      ok, patched := SignalStart(cluster);
      go := ok;
      SparedComposes(old(api.State()), looked, api.State());
    }

    // What may be behind an error before the pods.
    ghost predicate PrepareFailed(cluster: Object)
      reads api
    {
      || api.fault
      || (cluster.annotation == Unannotated && cluster.spec.backupSpec == None)
      || (cluster.annotation == BackupRunning && api.shown == Some(None))
      || (cluster.annotation == BackupRunning && api.shown == Some(Some(Failed))
          && (cluster.version, cluster.spec.version) in api.past.spoilt)
    }

    // Drives the annotation until the pods may be upgraded. go tells whether they may be: at once if the annotation
    // says so, otherwise once the backup has finished. If they may not, and there is no error, the backup has been
    // announced and created, or is awaited still.
    method PrepareUpgrade(cluster: Object) returns (ok: bool, go: bool, patched: Object)
      requires api.Valid() && Begun(cluster) && Upgrading(api.State()) && cluster == api.past.job.snapshot
      requires cluster.annotation != UpgradeBroken && !api.past.requested
      modifies api
      ensures api.Valid() && PodsSpared(old(api.State()), api.State()) && api.obj.version == old(api.obj.version)
      ensures ok && !go ==> cluster.annotation == Unannotated || cluster.annotation == BackupRunning
      ensures ok && !go && cluster.annotation == Unannotated ==>
                && api.obj.annotation == BackupRunning && EndsWith(api.obj.conditions, AutoBackupStarted)
                && (cluster.version, cluster.spec.version) in api.backups && cluster.spec.backupSpec.Some?
      ensures ok && !go && cluster.annotation == BackupRunning ==> api.obj.(spec := old(api.obj.spec)) == old(api.obj)
      ensures go ==> ok && cluster.annotation != Unannotated && Begun(patched) && patched.annotation == UpgradeRunning
      ensures go ==> patched == cluster.(annotation := UpgradeRunning, conditions := patched.conditions)
      ensures go ==> api.past.job == old(api.past.job)
      ensures !ok ==> !go && PrepareFailed(cluster)
    {
      hide IsRun, Admits, IsPick, IsUpgradeOf;
      Interfere(api);
      ghost var begun := api.State();
      go, patched := false, cluster;
      if cluster.annotation == Unannotated {
        ok := AnnounceBackup(cluster);
      } else if cluster.annotation == BackupRunning {
        ghost var shown;
        ok, go, patched, shown := AwaitBackup(cluster);
      } else {
        return true, true, cluster;
      }
      SparedComposes(old(api.State()), begun, api.State());
    }

    // ---------------------------------------------------------------- the pods and the status

    // The checks that cannot be made on admission; classes are the storage classes that the lister finds.
    method Validate(spec: Spec, classes: set<string>) returns (valid: bool)
      ensures valid <==> PassesValidation(spec, classes)
      ensures valid <==> forall k | 0 <= k < |spec.namespaces| ::
                var (factor, found) := (spec.namespaces[k].replicationFactor, spec.namespaces[k].storage.storageClass);
                && (factor == None || factor.value <= spec.nodeCount)
                && (found == None || found == Some("") || found.value in classes)
    {
      for k := 0 to |spec.namespaces|
        invariant forall j | 0 <= j < k :: FactorFits(spec, spec.namespaces[j])
      {
        var factor := spec.namespaces[k].replicationFactor;
        if factor.Some? && factor.value > spec.nodeCount {
          assert !FactorFits(spec, spec.namespaces[k]);
          return false;
        }
      }
      for k := 0 to |spec.namespaces|
        invariant forall j | 0 <= j < k :: ClassFound(spec.namespaces[j], classes)
      {
        var storageClass := spec.namespaces[k].storage.storageClass;
        if storageClass.Some? && storageClass.value != "" && storageClass.value !in classes {
          assert !ClassFound(spec.namespaces[k], classes);
          return false;
        }
      }
      return true;
    }

    // Copies the version of the spec into the status.
    method UpdateStatus(cluster: Object) returns (ok: bool, patched: Object)
      requires api.Valid() && Mirrors(cluster, []) && MaySetStatus(api.State())
      requires cluster.spec == api.past.job.snapshot.spec
      modifies api`obj, api`past, api`fault, api`worlds, api`events
      ensures old(api.fault) || !ok ==> api.fault
      ensures api.Valid() && api.past == old(api.past).(completing := api.past.completing)
      ensures patched == cluster.(version := cluster.spec.version)
      ensures ok ==> Mirrors(patched, [])
      ensures ok && patched != cluster ==> api.past.completing == Upgrading(old(api.State()))
      ensures patched == cluster ==> api.State() == old(api.State())
    {
      ghost var before := api.State();
      patched := cluster.(version := cluster.spec.version);
      ok := PatchCluster(cluster, patched);
      if api.obj != before.obj {
        api.Land(StatusSet);
      }
    }

    // The completion of a reconcile: the new version in the status, then the end of the upgrade.
    method Complete(cluster: Object) returns (ok: bool)
      requires api.Valid() && Mirrors(cluster, []) && MaySetStatus(api.State())
      requires cluster.spec == api.past.job.snapshot.spec
      requires api.past.job.upgrade.Some? <==> cluster.NeedsUpgrade()
      modifies api
      ensures api.Valid() && PodsSpared(old(api.State()), api.State()) && api.past.job == old(api.past.job)
      ensures ok ==> api.obj.version == cluster.spec.version
      ensures ok ==> api.obj.annotation == if cluster.NeedsUpgrade() then Unannotated else cluster.annotation
      ensures ok ==> api.obj.conditions == cluster.conditions + if cluster.NeedsUpgrade() then [UpgradeFinished] else []
      ensures !ok ==> api.fault
    {
      var patched;
      ok, patched := UpdateStatus(cluster);
      if ok && cluster.NeedsUpgrade() {
        Interfere(api);
        assert [] + [UpgradeFinished] == [UpgradeFinished];
        ok, patched := Signal(patched, Unannotated, UpgradeFinished, []);
      }
    }

    method EnsureResources(cluster: Object) returns (r: Result<ConfigMap>)
      requires api.Valid() && Begun(cluster)
      modifies api
      ensures api.Valid() && Quiet(old(api.State()), api.State())
      ensures r.Ok? ==> api.configMap == Some(r.value)
      ensures r.Ok? && Injective(hashOf) ==>
                r.value.data == buildConfig(cluster.spec) && r.value.hash == hashOf(r.value.data)
      ensures Errors(old(api.fault), r.Err?, old(api.sizes), old(api.shown))
    {
      Interfere(api);
      ghost var before := api.State();
      var service := api.Answers();
      if !service {
        return Err;
      }
      r := EnsureConfigMap(cluster.spec);
      QuietComposes(old(api.State()), before, api.State());
      if r.Err? {
        return;
      }
      var policy := api.Answers();
      if !policy {
        return Err;
      }
    }

    // Brings the pods up to date and completes the reconcile.
    method FinishPods(cluster: Object, hash: string, upgrade: Option<VersionUpgrade>) returns (ok: bool)
      requires api.Valid() && Begun(cluster) && upgrade == api.past.job.upgrade && pods.api == api
      requires |cluster.spec.namespaces| == 1
      requires Upgrading(api.State()) ==> api.obj.annotation == UpgradeRunning
      modifies api
      ensures api.Valid() && api.past.job == old(api.past.job)
      ensures !ok ==> pods.Explained(cluster.spec, upgrade, old(api.sizes))
      ensures ok ==> api.pods.Keys == After(old(api.pods.Keys), cluster.spec.nodeCount) - api.past.lost
      ensures ok ==> PodsMatch(api.State(), cluster.spec, hash)
      ensures ok ==> api.obj.version == cluster.spec.version
      ensures ok ==> api.obj.annotation == if cluster.NeedsUpgrade() then Unannotated else cluster.annotation
    {
      hide IsRun, Admits, StillReached, SignalEnabled;
      ok := pods.EnsurePods(cluster.spec, hash, upgrade);
      if !ok {
        return;
      }
      ghost var done := api.State();
      Interfere(api);
      ghost var before := api.State();
      PodsStillMatch(done, before, cluster.spec, hash);
      MatchingPodsAllowStatus(before, cluster.spec, hash);
      ok := Complete(cluster);
      PodsStillMatch(before, api.State(), cluster.spec, hash);
      SparedComposes(done, before, api.State());
      SparedKeys(done, api.State(), After(old(api.pods.Keys), cluster.spec.nodeCount));
    }

    // The named cause of an error that EnsurePods or the completion has returned.
    ghost function CauseOf(upgrade: Option<VersionUpgrade>): (cause: Cause)
      reads api
    {
      if api.fault then CallFailed
      else if UnreadableClaims(api.claims) then ClaimUnreadable
      else if upgrade.Some? && !upgrade.value.IsValid() then InvalidStrategy
      else if upgrade.Some? then ServerOffVersion
      else ClusterTooSmall
    }

    // What holds when work on the pods has ended with the given cause.
    ghost predicate PodsFailed(cause: Cause, spec: Spec, upgrade: Option<VersionUpgrade>)
      reads api
    {
      match cause
      case CallFailed => api.fault
      case ClaimUnreadable => UnreadableClaims(api.claims)
      case InvalidStrategy => upgrade.Some? && !upgrade.value.IsValid()
      case ServerOffVersion => upgrade.Some? && api.buildOf(spec.version) != spec.version
      case ClusterTooSmall =>
        upgrade.None? && |api.sizes| > 0 && var last := api.sizes[|api.sizes| - 1]; last.size < last.running
      case _ => false
    }

    lemma ExplainedHasCause(spec: Spec, upgrade: Option<VersionUpgrade>, sizes: seq<SizeReport>)
      requires pods.api == api && pods.Explained(spec, upgrade, sizes)
      ensures PodsFailed(CauseOf(upgrade), spec, upgrade)
    {
      hide UnreadableClaims, VersionUpgrade.IsValid;
    }

    // The wanted pods, but for those lost meanwhile, are on the new version if this is an upgrade, and otherwise on the
    // configuration built from the spec.
    ghost predicate PodsFollow(spec: Spec, upgrades: bool)
      reads api
    {
      forall j: nat | j < spec.nodeCount && j !in api.past.lost ::
        && j in api.pods
        && if upgrades then api.pods[j].image == spec.version || api.pods[j].build == spec.version
           else Injective(hashOf) ==> api.pods[j].hash == hashOf(buildConfig(spec))
    }

    lemma MatchingPodsFollow(spec: Spec, hash: string)
      requires PodsMatch(api.State(), spec, hash) && api.past.job.Working? && spec == api.past.job.snapshot.spec
      requires Injective(hashOf) ==> hash == hashOf(buildConfig(spec))
      ensures PodsFollow(spec, api.past.job.upgrade.Some?)
    {
      hide Injective;
      forall j: nat | j < spec.nodeCount && j !in api.past.lost
        ensures Reached(api.State(), j, hash)
      {
        assert StillReached(api.State(), j, hash);
      }
    }

    // A change of the spec that changes the configuration reaches every pod: after a reconcile on the new spec that is
    // no upgrade and gets to its end, no wanted pod is left on the configuration of the old one.
    lemma ChangedConfigReachesPods(spec: Spec, before: Spec, j: nat)
      requires PodsFollow(spec, false) && Injective(hashOf) && buildConfig(before) != buildConfig(spec)
      requires j < spec.nodeCount && j !in api.past.lost
      ensures j in api.pods && api.pods[j].hash != hashOf(buildConfig(before))
    {
    }

    // listed are the pods that there were when ensurePods listed them.
    method ReconcilePods(cluster: Object, upgrade: Option<VersionUpgrade>, classes: set<string>)
      returns (ok: bool, ghost outcome: Outcome, ghost listed: set<nat>)
      requires api.Valid() && Begun(cluster) && upgrade == api.past.job.upgrade && pods.api == api
      requires |cluster.spec.namespaces| == 1
      requires Upgrading(api.State()) ==> api.obj.annotation == UpgradeRunning
      modifies api
      ensures api.Valid() && listed <= old(api.pods.Keys) && (ok <==> !outcome.CutShort?)
      ensures outcome == SpecInvalid || outcome == Reconciled || outcome.CutShort?
      ensures outcome == SpecInvalid <==> !PassesValidation(cluster.spec, classes)
      ensures outcome == SpecInvalid ==> api.State() == old(api.State())
      ensures outcome.CutShort? ==> PodsFailed(outcome.cause, cluster.spec, upgrade)
      ensures outcome == Reconciled ==>
                && api.pods.Keys == After(listed, cluster.spec.nodeCount) - api.past.lost
                && PodsFollow(cluster.spec, cluster.NeedsUpgrade()) && api.obj.version == cluster.spec.version
                && api.obj.annotation == if cluster.NeedsUpgrade() then Unannotated else cluster.annotation
    {
      hide IsRun, Admits, StillReached, SignalEnabled, Api.Agrees, PodsMatch, After, Injective;
      listed := {};
      var valid := Validate(cluster.spec, classes);
      if !valid {
        return true, SpecInvalid, listed;
      }
      var configMap := EnsureResources(cluster);
      if configMap.Err? {
        return false, CutShort(CallFailed), listed;
      }
      Interfere(api);
      listed := api.pods.Keys;
      ghost var sizes := api.sizes;
      ok := FinishPods(cluster, configMap.value.hash, upgrade);
      if ok {
        MatchingPodsFollow(cluster.spec, configMap.value.hash);
        outcome := Reconciled;
      } else {
        ExplainedHasCause(cluster.spec, upgrade, sizes);
        outcome := CutShort(CauseOf(upgrade));
      }
    }

    // ---------------------------------------------------------------- the whole reconcile

    method UpgradeOf(cluster: Object) returns (r: Result<Option<VersionUpgrade>>)
      ensures r.Err? <==>
                && cluster.version != "" && cluster.spec.version != cluster.version
                && (Parse(cluster.version).Err? || Parse(cluster.spec.version).Err?)
      ensures r.Ok? ==> (r.value.Some? <==> cluster.version != "" && cluster.spec.version != cluster.version)
      ensures r.Ok? ==> IsUpgradeOf(cluster, r.value)
    {
      if !cluster.NeedsUpgrade() {
        return Ok(None);
      }
      var source := NewVersionFromString(cluster.version);
      if source.Err? {
        return Err;
      }
      var target := NewVersionFromString(cluster.spec.version);
      if target.Err? {
        return Err;
      }
      return Ok(Some(VersionUpgrade(source.value, target.value)));
    }

    // The six ways in which a reconcile ends. Each is tied to the object found at the beginning, o, to the storage
    // classes, and to the state at the end; so a reconcile without error on a valid spec, with no upgrade due or one
    // under way, gets to its end, and leaves the pods following the spec it started from, but for pods lost meanwhile,
    // and the status saying so. An error has one of nine causes. listed are the pods that there were when ensurePods
    // listed them.
    ghost predicate Ends(outcome: Outcome, o: Object, classes: set<string>, listed: set<nat>)
      reads api
    {
      match outcome
      case UpgradeHasFailed => o.annotation == UpgradeBroken
      case BackupAnnounced =>
        && o.NeedsUpgrade() && o.annotation == Unannotated && o.spec.backupSpec.Some?
        && api.obj.annotation == BackupRunning && EndsWith(api.obj.conditions, AutoBackupStarted)
        && api.obj.version == o.version && (o.version, o.spec.version) in api.backups
      case BackupAwaited =>
        o.NeedsUpgrade() && o.annotation == BackupRunning && api.obj.(spec := o.spec) == o
      case SpecInvalid =>
        && !PassesValidation(o.spec, classes) && api.obj.version == o.version
        && (if o.NeedsUpgrade() then
              o.annotation != Unannotated && o.annotation != UpgradeBroken && api.obj.annotation == UpgradeRunning
            else o.annotation != UpgradeBroken)
      case Reconciled =>
        && PassesValidation(o.spec, classes) && o.annotation != UpgradeBroken
        && (o.NeedsUpgrade() ==> o.annotation != Unannotated)
        && api.pods.Keys == After(listed, o.spec.nodeCount) - api.past.lost
        && PodsFollow(o.spec, o.NeedsUpgrade())
        && api.obj.version == o.spec.version
        && api.obj.annotation == if o.NeedsUpgrade() then Unannotated else o.annotation
      case CutShort(cause) => o.annotation != UpgradeBroken && Causes(cause, o)
    }

    // The cause is there.
    ghost predicate Causes(cause: Cause, o: Object)
      reads api
    {
      match cause
      case CallFailed => api.fault
      case VersionUnparsable => o.NeedsUpgrade() && (Parse(o.version).Err? || Parse(o.spec.version).Err?)
      case BackupSpecMissing => o.NeedsUpgrade() && o.annotation == Unannotated && o.spec.backupSpec == None
      case BackupUnknown => o.NeedsUpgrade() && o.annotation == BackupRunning && api.shown == Some(None)
      case BackupLost =>
        && o.NeedsUpgrade() && o.annotation == BackupRunning && api.shown == Some(Some(Failed))
        && (o.version, o.spec.version) in api.past.spoilt
      case ClaimUnreadable => UnreadableClaims(api.claims)
      case InvalidStrategy =>
        && o.NeedsUpgrade() && Parse(o.version).Ok? && Parse(o.spec.version).Ok?
        && !VersionUpgrade(Parse(o.version).value, Parse(o.spec.version).value).IsValid()
      case ServerOffVersion => o.NeedsUpgrade() && api.buildOf(o.spec.version) != o.spec.version
      case ClusterTooSmall =>
        !o.NeedsUpgrade() && |api.sizes| > 0 && var last := api.sizes[|api.sizes| - 1]; last.size < last.running
    }

    method MaybeReconcile(classes: set<string>) returns (ok: bool, ghost outcome: Outcome, ghost listed: set<nat>)
      requires api.Valid() && pods.api == api
      modifies api
      ensures api.Valid() && listed <= old(api.pods.Keys)
      ensures ok <==> !outcome.CutShort?
      ensures Ends(outcome, old(api.obj), classes, listed)
      ensures outcome == UpgradeHasFailed ==> api.State() == old(api.State())
      ensures outcome != Reconciled && !outcome.CutShort? ==>
                && old(api.pods.Keys) - api.pods.Keys <= api.past.lost
                && forall i | i in api.pods :: i in old(api.pods) && Alike(old(api.pods)[i], api.pods[i])
    {
      hide Parse, VersionUpgrade.IsValid, IsRun, Admits;
      listed := {};
      var cluster := api.obj;
      if cluster.annotation == UpgradeBroken {
        return true, UpgradeHasFailed, listed;
      }
      var upgrade := UpgradeOf(cluster);
      if upgrade.Err? {
        return false, CutShort(VersionUnparsable), listed;
      }
      OneNamespace();
      api.Begin(upgrade.value);
      ok, outcome, listed := CarryOut(cluster, upgrade.value, classes);
    }

    // The part of a reconcile that follows the look at the versions.
    method CarryOut(cluster: Object, upgrade: Option<VersionUpgrade>, classes: set<string>)
      returns (ok: bool, ghost outcome: Outcome, ghost listed: set<nat>)
      requires api.Valid() && Begun(cluster) && cluster == api.obj == api.past.job.snapshot && pods.api == api
      requires upgrade == api.past.job.upgrade && |cluster.spec.namespaces| == 1 && IsUpgradeOf(cluster, upgrade)
      requires cluster.annotation != UpgradeBroken && !api.past.requested
      modifies api
      ensures api.Valid() && listed <= old(api.pods.Keys)
      ensures (ok <==> !outcome.CutShort?) && outcome != UpgradeHasFailed
      ensures Ends(outcome, cluster, classes, listed)
      ensures outcome != Reconciled && !outcome.CutShort? ==> PodsSpared(old(api.State()), api.State())
    {
      hide IsRun, Admits, PodsFollow, SignalEnabled, Api.Agrees, EndsWith, Parse, VersionUpgrade.IsValid;
      hide UnreadableClaims, After, PassesValidation;
      listed := {};
      var patched := cluster;
      if upgrade.Some? {
        var go: bool;
        ok, go, patched := PrepareUpgrade(cluster);
        if !go {
          outcome := if !ok then CutShort(CauseBefore(cluster))
                     else if cluster.annotation == Unannotated then BackupAnnounced else BackupAwaited;
          return;
        }
      }
      ok, outcome, listed := ReconcilePods(patched, upgrade, classes);
    }

    // The named cause of an error before the pods.
    ghost function CauseBefore(cluster: Object): (cause: Cause)
      reads api
    {
      if api.fault then CallFailed
      else if cluster.annotation == Unannotated then BackupSpecMissing
      else if api.shown == Some(None) then BackupUnknown
      else BackupLost
    }

    lemma OneNamespace()
      requires api.Valid()
      ensures |api.obj.spec.namespaces| == 1
    {
      Volumes.RunKeepsInv(api.worlds, api.events, |api.events|);
    }
  }
}
