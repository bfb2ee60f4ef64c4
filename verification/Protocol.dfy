// The upgrade protocol over all runs: versions only climb along valid upgrades, and no pod is upgraded before the
// version it leaves has been backed up (pkg/reconciler/cluster.go, pkg/reconciler/upgrades.go).
module Protocol {
  import opened Wrappers
  import opened Text
  import opened Upgrades
  import opened Versioning
  import opened Admission
  import opened World
  import opened Runs

  // ---------------------------------------------------------------- versions

  // The status is empty or at a version from which the spec's can be reached, and so it is in the snapshot that the
  // reconcile works on, however the stored spec has moved on since.
  ghost predicate VersionsClimb(w: World) {
    && (w.obj.version == "" || SameOrUpgraded(w.obj.version, w.obj.spec.version))
    && (w.past.job.Working? ==>
          var snapshot := w.past.job.snapshot;
          && (snapshot.version == "" || SameOrUpgraded(snapshot.version, snapshot.spec.version))
          && SameOrUpgraded(snapshot.spec.version, w.obj.spec.version)
          && IsUpgradeOf(snapshot, w.past.job.upgrade)
          && (w.obj.version == snapshot.version || w.obj.version == snapshot.spec.version))
  }

  lemma AdmitsUpgrades(o: Spec, n: Spec)
    requires Admits(o, n)
    ensures SameOrUpgraded(o.version, n.version)
  {
  }

  lemma StepKeepsVersions(w: World, e: Event)
    requires VersionsClimb(w) && Enabled(w, e)
    ensures VersionsClimb(Apply(w, e))
  {
    hide Admits, ValidTransition;
    if e.SpecUpdated? {
      AdmitsUpgrades(w.obj.spec, e.spec);
      if w.obj.version != "" {
        TransitionsCompose(w.obj.version, w.obj.spec.version, e.spec.version);
      }
      if w.past.job.Working? {
        TransitionsCompose(w.past.job.snapshot.spec.version, w.obj.spec.version, e.spec.version);
      }
    }
  }

  lemma {:induction false} RunKeepsVersions(worlds: seq<World>, events: seq<Event>, k: nat)
    requires IsRun(worlds, events) && k < |worlds|
    ensures VersionsClimb(worlds[k])
  {
    hide Enabled, Apply, SameOrUpgraded;
    if k > 0 {
      RunKeepsVersions(worlds, events, k - 1);
      assert events[k - 1] == events[k - 1];
      StepKeepsVersions(worlds[k - 1], events[k - 1]);
    }
  }

  lemma ClimbingUpgradeIsValid(w: World)
    requires VersionsClimb(w) && Upgrading(w)
    ensures w.past.job.upgrade.value.IsValid()
  {
  }

  // Whatever specs are admitted while a reconcile works on an older one, the status version is empty, is the spec's,
  // or forms a valid upgrade with it; so the strategy of the upgrade under way never fails.
  lemma StrategyNeverFails(worlds: seq<World>, events: seq<Event>, k: nat)
    requires IsRun(worlds, events) && k < |worlds|
    ensures worlds[k].obj.version == "" || SameOrUpgraded(worlds[k].obj.version, worlds[k].obj.spec.version)
    ensures Upgrading(worlds[k]) ==> worlds[k].past.job.upgrade.value.GetStrategy().Ok?
  {
    hide ValidTransition;
    RunKeepsVersions(worlds, events, k);
    if Upgrading(worlds[k]) {
      ClimbingUpgradeIsValid(worlds[k]);
    }
  }

  lemma UpgradesToSomething(source: string, target: string)
    requires SameOrUpgraded(source, target) && source != ""
    ensures target != ""
  {
    assert Split("", '.') == [""];
  }

  lemma StatusStepsUp(w: World, e: Event)
    requires VersionsClimb(w) && Enabled(w, e) && w.obj.version != ""
    ensures SameOrUpgraded(w.obj.version, Apply(w, e).obj.version)
  {
    hide Admits, ValidTransition, IsUpgradeOf;
  }

  // The version in the status never goes back: over any stretch of a run it stays or takes valid upgrades.
  lemma {:induction false} StatusClimbs(worlds: seq<World>, events: seq<Event>, j: nat, k: nat)
    requires IsRun(worlds, events) && j <= k < |worlds| && worlds[j].obj.version != ""
    ensures SameOrUpgraded(worlds[j].obj.version, worlds[k].obj.version)
    ensures worlds[k].obj.version != ""
    decreases k
  {
    hide Enabled, Apply, ValidTransition, VersionsClimb;
    if j < k {
      StatusClimbs(worlds, events, j, k - 1);
      RunKeepsVersions(worlds, events, k - 1);
      assert events[k - 1] == events[k - 1];
      StatusStepsUp(worlds[k - 1], events[k - 1]);
      TransitionsCompose(worlds[j].obj.version, worlds[k - 1].obj.version, worlds[k].obj.version);
      UpgradesToSomething(worlds[j].obj.version, worlds[k].obj.version);
    }
  }

  // ---------------------------------------------------------------- the annotation

  // The pods are listed before one of them is worked on.
  predicate InOrder(w: World) {
    && (w.past.job.Idle? ==> w.past.start.None? && !w.past.completing)
    && (w.past.start.None? ==> w.past.focus.None?)
    && (w.past.focus.None? ==> w.past.cleared.None? && w.past.held == Nothing)
  }

  // What the annotation says about the job in flight, whatever fails and whatever is cut short.
  predicate AnnotationFits(w: World) {
    && InOrder(w)
    && if w.past.job.Idle? then w.obj.annotation == Unannotated else
      var snapshot := w.past.job.snapshot;
      && (w.past.completing ==> Upgrading(w) && w.obj.annotation == UpgradeRunning)
      && (Upgrading(w) <==> snapshot.NeedsUpgrade())
      && (!Upgrading(w) ==> w.obj.annotation == snapshot.annotation && snapshot.annotation != BackupRunning)
      && match snapshot.annotation
         case Unannotated =>
           w.obj.annotation == Unannotated || w.obj.annotation == BackupRunning
         case BackupRunning =>
           true
         case UpgradeRunning =>
           w.obj.annotation == UpgradeRunning || w.obj.annotation == Unannotated
         case UpgradeBroken =>
           false
  }

  // Until the upgrade may start, the job has touched neither pods nor status.
  predicate BeforeUpgrade(w: World) {
    && (w.past.job.Working? && Upgrading(w)
        && (w.past.job.snapshot.annotation == Unannotated || w.obj.annotation == BackupRunning
            || w.obj.annotation == UpgradeBroken) ==>
          w.obj.version == w.past.job.snapshot.version && w.past.start.None?)
    && (w.obj.annotation == BackupRunning || w.obj.annotation == UpgradeBroken ==> w.past.job.Working? && Upgrading(w))
    && (w.obj.annotation == BackupRunning ==> w.obj.NeedsUpgrade())
  }

  lemma StaysBehind(v: string, o: Spec, n: Spec)
    requires SameOrUpgraded(v, o.version) && v != o.version && Admits(o, n)
    ensures v != n.version
  {
    hide ValidTransition, Admits;
    AdmitsUpgrades(o, n);
    TransitionsCompose(v, o.version, n.version);
  }

  lemma SnapshotStaysBehind(w: World)
    requires VersionsClimb(w) && Upgrading(w)
    ensures w.past.job.snapshot.version != w.obj.spec.version
  {
    hide ValidTransition;
    TransitionsCompose(w.past.job.snapshot.version, w.past.job.snapshot.spec.version, w.obj.spec.version);
  }

  lemma StepKeepsInOrder(w: World, e: Event)
    requires InOrder(w) && Enabled(w, e)
    ensures InOrder(Apply(w, e))
  {
    hide Admits, IsUpgradeOf, IsPick;
  }

  lemma StepKeepsAnnotation(w: World, e: Event)
    requires AnnotationFits(w) && BeforeUpgrade(w) && Enabled(w, e)
    ensures AnnotationFits(Apply(w, e))
  {
    hide Admits, Parse, IsPick, InOrder;
    StepKeepsInOrder(w, e);
  }

  lemma StepKeepsBefore(w: World, e: Event)
    requires AnnotationFits(w) && BeforeUpgrade(w) && VersionsClimb(w) && Enabled(w, e)
    ensures BeforeUpgrade(Apply(w, e))
  {
    hide Admits, SameOrUpgraded, Parse;
    if e.SpecUpdated? {
      if w.obj.annotation == BackupRunning {
        StaysBehind(w.obj.version, w.obj.spec, e.spec);
      }
    } else if e.Signalled? {
      if Upgrading(w) {
        SnapshotStaysBehind(w);
      }
    }
  }

  // ---------------------------------------------------------------- backup before upgrade

  // No reconcile begins between the patch of the status and the removal of the annotation that completes an upgrade.
  ghost predicate CompletionUncut(worlds: seq<World>, events: seq<Event>)
    requires Steps(worlds, events)
  {
    forall k {:trigger events[k]} | 0 <= k < |events| && events[k].Begin? :: !worlds[k].past.completing
  }

  predicate BackedUp(w: World, source: string) {
    exists key | key in w.past.done :: key.0 == source
  }

  lemma StaysBackedUpOnce(w: World, e: Event, source: string)
    requires BackedUp(w, source) && Enabled(w, e)
    ensures BackedUp(Apply(w, e), source)
  {
    hide Admits, IsUpgradeOf;
    var key :| key in w.past.done && key.0 == source;
    assert key in Apply(w, e).past.done;
  }

  // While the annotation says that the upgrade runs, the job in flight leaves the status version, which is backed up.
  predicate UpgradeIsBacked(w: World) {
    w.obj.annotation == UpgradeRunning && !w.past.completing ==>
      && w.past.job.Working? && Upgrading(w) && w.obj.version == w.past.job.snapshot.version
      && w.obj.NeedsUpgrade() && BackedUp(w, w.obj.version)
  }

  lemma SignalStaysBacked(w: World, e: Event)
    requires AnnotationFits(w) && BeforeUpgrade(w) && UpgradeIsBacked(w) && Enabled(w, e) && e.Signalled?
    ensures UpgradeIsBacked(Apply(w, e))
  {
    if BackedUp(w, w.obj.version) {
      StaysBackedUpOnce(w, e, w.obj.version);
    }
    if BackupIs(w, Finished) {
      assert BackupKey(w) in Apply(w, e).past.done;
    }
  }

  // This is where the completion must be uncut.
  lemma StepKeepsBacked(w: World, e: Event)
    requires VersionsClimb(w) && AnnotationFits(w) && BeforeUpgrade(w) && UpgradeIsBacked(w) && Enabled(w, e)
    requires e.Begin? ==> !w.past.completing
    ensures UpgradeIsBacked(Apply(w, e))
  {
    hide Admits, ValidTransition;
    if e.Signalled? {
      SignalStaysBacked(w, e);
    } else {
      if e.SpecUpdated? && w.obj.NeedsUpgrade() {
        StaysBehind(w.obj.version, w.obj.spec, e.spec);
      }
      if BackedUp(w, w.obj.version) {
        StaysBackedUpOnce(w, e, w.obj.version);
      }
    }
  }

  lemma {:induction false} RunKeepsAnnotation(worlds: seq<World>, events: seq<Event>, k: nat)
    requires IsRun(worlds, events) && k < |worlds|
    ensures VersionsClimb(worlds[k]) && AnnotationFits(worlds[k]) && BeforeUpgrade(worlds[k])
  {
    hide Enabled, Apply, VersionsClimb;
    RunKeepsVersions(worlds, events, k);
    if k > 0 {
      RunKeepsAnnotation(worlds, events, k - 1);
      assert events[k - 1] == events[k - 1];
      StepKeepsAnnotation(worlds[k - 1], events[k - 1]);
      StepKeepsBefore(worlds[k - 1], events[k - 1]);
    }
  }

  lemma {:induction false} RunKeepsBacked(worlds: seq<World>, events: seq<Event>, k: nat)
    requires IsRun(worlds, events) && CompletionUncut(worlds, events) && k < |worlds|
    ensures UpgradeIsBacked(worlds[k])
  {
    hide Enabled, Apply, VersionsClimb, AnnotationFits, BeforeUpgrade;
    if k > 0 {
      RunKeepsBacked(worlds, events, k - 1);
      RunKeepsAnnotation(worlds, events, k - 1);
      assert events[k - 1] == events[k - 1];
      StepKeepsBacked(worlds[k - 1], events[k - 1]);
    }
  }

  lemma NewBackupIsCreated(w: World, e: Event, key: (string, string))
    requires Enabled(w, e) && key in Apply(w, e).backups && key !in w.backups
    ensures e == BackupCreated && MayCreateBackup(w) && BackupKey(w) == key
  {
    hide Admits, IsUpgradeOf, IsPick;
  }

  lemma NewlyDoneHasEnded(w: World, e: Event, key: (string, string))
    requires Enabled(w, e) && key in Apply(w, e).past.done && key !in w.past.done
    ensures e == BackupEnds(key, true) && key in w.backups
  {
    hide Admits, IsUpgradeOf, IsPick;
  }

  // A backup on record was once created, by a reconcile that found the status at the backup's source version.
  lemma {:induction false} BackupWasCreated(worlds: seq<World>, events: seq<Event>, k: nat, key: (string, string))
    returns (b: nat)
    requires IsRun(worlds, events) && k < |worlds| && key in worlds[k].backups
    ensures b < k && events[b] == BackupCreated && worlds[b].past.job.Working? && BackupKey(worlds[b]) == key
    ensures worlds[b].obj.version == key.0
  {
    hide Enabled, Apply, VersionsClimb, AnnotationFits;
    if k > 0 {
      b := k - 1;
      assert events[b] == events[b];
      if key in worlds[b].backups {
        b := BackupWasCreated(worlds, events, b, key);
      } else {
        NewBackupIsCreated(worlds[b], events[b], key);
        RunKeepsAnnotation(worlds, events, b);
      }
    }
  }

  lemma {:induction false} BackupDidEnd(worlds: seq<World>, events: seq<Event>, k: nat, key: (string, string))
    returns (e: nat)
    requires IsRun(worlds, events) && k < |worlds| && key in worlds[k].past.done
    ensures e < k && events[e] == BackupEnds(key, true) && key in worlds[e].backups
  {
    hide Enabled, Apply;
    if k > 0 {
      e := k - 1;
      assert events[e] == events[e];
      if key in worlds[e].past.done {
        e := BackupDidEnd(worlds, events, e, key);
      } else {
        NewlyDoneHasEnded(worlds[e], events[e], key);
      }
    }
  }

  // The pods' upgrade begins, or a pod is created whose image is not that of the version in the status.
  predicate LeavesVersion(w: World, e: Event) {
    && w.past.job.Working?
    && (|| (e.Sweep? && Upgrading(w))
        || (e.PodCreated? && w.obj.version != "" && w.past.job.snapshot.spec.version != w.obj.version))
  }

  lemma LeavingIsBacked(w: World, e: Event)
    requires VersionsClimb(w) && UpgradeIsBacked(w) && Enabled(w, e) && LeavesVersion(w, e)
    ensures BackedUp(w, w.obj.version) && w.obj.version != ""
  {
    hide ValidTransition;
  }

  lemma StatusStood(worlds: seq<World>, events: seq<Event>, b: nat, j: nat, k: nat)
    requires IsRun(worlds, events) && b <= j <= k < |worlds|
    requires worlds[b].obj.version == worlds[k].obj.version != ""
    ensures worlds[j].obj.version == worlds[b].obj.version
  {
    hide ValidTransition, Enabled, Apply;
    StatusClimbs(worlds, events, b, j);
    StatusClimbs(worlds, events, j, k);
    TransitionsCompose(worlds[b].obj.version, worlds[j].obj.version, worlds[k].obj.version);
  }

  // Backup before upgrade: whenever the pods' upgrade begins, and whenever a pod of another version is created, a
  // backup of the status version was created and then finished, with the status at that version all along. The target
  // may have changed since, and any call may have failed.
  lemma UpgradesAreBackedUp(worlds: seq<World>, events: seq<Event>, k: nat) returns (target: string, b: nat, e: nat)
    requires IsRun(worlds, events) && CompletionUncut(worlds, events)
    requires k < |events| && LeavesVersion(worlds[k], events[k])
    ensures b < e < k
    ensures var key := (worlds[k].obj.version, target);
            && events[b] == BackupCreated && worlds[b].past.job.Working? && BackupKey(worlds[b]) == key
            && events[e] == BackupEnds(key, true)
    ensures forall j | b <= j <= k :: worlds[j].obj.version == worlds[k].obj.version
  {
    hide Apply, AnnotationFits, BeforeUpgrade;
    RunKeepsAnnotation(worlds, events, k);
    RunKeepsBacked(worlds, events, k);
    assert Enabled(worlds[k], events[k]) by {
      assert events[k] == events[k];
    }
    LeavingIsBacked(worlds[k], events[k]);
    hide Enabled, UpgradeIsBacked, VersionsClimb;
    var key :| key in worlds[k].past.done && key.0 == worlds[k].obj.version;
    target := key.1;
    e := BackupDidEnd(worlds, events, k, key);
    b := BackupWasCreated(worlds, events, e, key);
    forall j | b <= j <= k
      ensures worlds[j].obj.version == worlds[k].obj.version
    {
      StatusStood(worlds, events, b, j, k);
    }
  }

  // ---------------------------------------------------------------- a stale annotation

  // The annotation says that an upgrade runs although none is due: the last one was cut short before its removal.
  predicate Stale(w: World) {
    w.obj.annotation == UpgradeRunning && !w.obj.NeedsUpgrade()
  }

  // The backups that there are, and those that have ended, whether they are gone or not.
  function Known(w: World): set<(string, string)> {
    w.backups.Keys + w.past.done + w.past.spoilt
  }

  // The sources of all backups lie at or below the status version, and below it once an upgrade completes, for as long
  // as its annotation stays.
  ghost predicate SourcesBehind(w: World) {
    forall key | key in Known(w) ::
      SameOrUpgraded(key.0, w.obj.version) && (w.past.completing || Stale(w) ==> key.0 != w.obj.version)
  }

  predicate UpgradeFromStatus(w: World) {
    && (w.past.job.Working? && Upgrading(w) && w.obj.annotation == UpgradeRunning && !w.past.completing ==>
          w.obj.version == w.past.job.snapshot.version)
    && (w.obj.version == "" ==> Known(w) == {})
  }

  lemma StepKeepsFromStatus(w: World, e: Event)
    requires VersionsClimb(w) && AnnotationFits(w) && BeforeUpgrade(w) && UpgradeFromStatus(w) && Enabled(w, e)
    ensures UpgradeFromStatus(Apply(w, e))
  {
    hide Admits, ValidTransition;
    if e.StatusSet? && w.obj.version != "" {
      UpgradesToSomething(w.obj.version, w.past.job.snapshot.spec.version);
    }
  }

  lemma StatusKeepsSources(w: World)
    requires VersionsClimb(w) && AnnotationFits(w) && UpgradeFromStatus(w)
    requires SourcesBehind(w) && Enabled(w, StatusSet)
    ensures SourcesBehind(Apply(w, StatusSet))
  {
    hide ValidTransition;
    if w.obj.version != "" {
      var target := w.past.job.snapshot.spec.version;
      forall key | key in Known(w)
        ensures SameOrUpgraded(key.0, target) && (Upgrading(w) ==> key.0 != target)
      {
        TransitionsCompose(key.0, w.obj.version, target);
      }
    }
  }

  lemma StepKeepsSources(w: World, e: Event)
    requires VersionsClimb(w) && AnnotationFits(w) && BeforeUpgrade(w) && SourcesBehind(w)
    requires Enabled(w, e) && !e.StatusSet?
    ensures SourcesBehind(Apply(w, e))
  {
    hide Admits, ValidTransition, IsUpgradeOf;
    if e.SpecUpdated? && w.obj.NeedsUpgrade() {
      StaysBehind(w.obj.version, w.obj.spec, e.spec);
    }
  }

  lemma {:induction false} RunKeepsSources(worlds: seq<World>, events: seq<Event>, k: nat)
    requires IsRun(worlds, events) && k < |worlds|
    ensures SourcesBehind(worlds[k]) && UpgradeFromStatus(worlds[k])
  {
    hide Enabled, Apply, VersionsClimb, AnnotationFits, BeforeUpgrade, SameOrUpgraded;
    if k > 0 {
      RunKeepsSources(worlds, events, k - 1);
      RunKeepsAnnotation(worlds, events, k - 1);
      assert events[k - 1] == events[k - 1];
      StepKeepsFromStatus(worlds[k - 1], events[k - 1]);
      if events[k - 1].StatusSet? {
        StatusKeepsSources(worlds[k - 1]);
      } else {
        StepKeepsSources(worlds[k - 1], events[k - 1]);
      }
    }
  }

  // No upgrade is due, and the given spec would be admitted next and call for the given upgrade.
  ghost predicate NextUpgrade(w: World, spec: Spec, upgrade: VersionUpgrade) {
    && !w.obj.NeedsUpgrade() && Admits(w.obj.spec, spec) && w.obj.(spec := spec).NeedsUpgrade()
    && IsUpgradeOf(w.obj.(spec := spec), Some(upgrade))
  }

  // The next version is admitted, a reconcile begins, and it goes for the pods.
  lemma StaleUpgradeSweeps(w: World, spec: Spec, upgrade: VersionUpgrade) returns (w': World)
    requires SourcesBehind(w) && Stale(w) && NextUpgrade(w, spec, upgrade)
    ensures Follows(w, [SpecUpdated(spec), Begin(Some(upgrade))], w')
    ensures w'.pods == w.pods && w'.obj == w.obj.(spec := spec)
    ensures Enabled(w', Sweep("")) && LeavesVersion(w', Sweep("")) && !BackedUp(w', w'.obj.version)
  {
    hide Admits, SameOrUpgraded, IsUpgradeOf;
    var w1 := Apply(w, SpecUpdated(spec));
    w' := Apply(w1, Begin(Some(upgrade)));
    FollowsNext(w1, Begin(Some(upgrade)), [], w');
    FollowsNext(w, SpecUpdated(spec), [Begin(Some(upgrade))], w');
  }

  // The run goes on to step k, where it leaves the version that is now in the status without a backup.
  ghost predicate GoesUnbacked(worlds: seq<World>, events: seq<Event>,
                               worlds': seq<World>, events': seq<Event>, k: nat)
    requires |worlds| == |events| + 1
  {
    && IsRun(worlds', events') && worlds <= worlds' && |events| <= k < |events'|
    && worlds'[k].obj.version == worlds[|events|].obj.version
    && LeavesVersion(worlds'[k], events'[k]) && !BackedUp(worlds'[k], worlds'[k].obj.version)
  }

  // With a stale annotation the next upgrade of the pods begins although no backup of the status version was ever
  // made. k is when.
  lemma StaleAnnotationSkipsBackup(worlds: seq<World>, events: seq<Event>, spec: Spec, upgrade: VersionUpgrade)
    returns (worlds': seq<World>, events': seq<Event>, k: nat)
    requires IsRun(worlds, events)
    requires Stale(worlds[|events|]) && NextUpgrade(worlds[|events|], spec, upgrade)
    ensures GoesUnbacked(worlds, events, worlds', events', k) && k == |events| + 2 && events'[k].Sweep?
    ensures worlds'[k].pods == worlds[|events|].pods && worlds'[k].obj == worlds[|events|].obj.(spec := spec)
  {
    hide Genesis, NextUpgrade, Enabled, Apply, LeavesVersion, BackedUp, Stale, SourcesBehind, Follows;
    RunKeepsSources(worlds, events, |events|);
    var w := StaleUpgradeSweeps(worlds[|events|], spec, upgrade);
    k := |events| + 2;
    var more := [SpecUpdated(spec), Begin(Some(upgrade))];
    var before := ExtendRun(worlds, events, more, w);
    FollowsOnce(w, Sweep(""));
    worlds' := ExtendRun(before, events + more, [Sweep("")], Apply(w, Sweep("")));
    events' := events + more + [Sweep("")];
  }

  // While the status version stays, the annotation comes to say that the upgrade runs only once there is a backup.
  lemma StepBacksUp(w: World, e: Event)
    requires VersionsClimb(w) && AnnotationFits(w) && BeforeUpgrade(w) && Enabled(w, e)
    requires Apply(w, e).obj.version == w.obj.version
    requires w.obj.annotation == UpgradeRunning ==> BackedUp(w, w.obj.version)
    ensures Apply(w, e).obj.annotation == UpgradeRunning ==> BackedUp(Apply(w, e), w.obj.version)
  {
    hide Admits, ValidTransition, IsUpgradeOf;
    if w.obj.annotation == UpgradeRunning {
      StaysBackedUpOnce(w, e, w.obj.version);
    } else if e.Signalled? && BackupIs(w, Finished) {
      assert BackupKey(w) in Apply(w, e).past.done;
    }
  }

  lemma {:induction false} StaysBackedUp(worlds: seq<World>, events: seq<Event>, a: nat, k: nat)
    requires IsRun(worlds, events) && a <= k < |worlds| && worlds[a].obj.annotation != UpgradeRunning
    requires worlds[k].obj.version == worlds[a].obj.version != ""
    ensures worlds[k].obj.annotation == UpgradeRunning ==> BackedUp(worlds[k], worlds[k].obj.version)
    decreases k
  {
    hide Enabled, Apply, VersionsClimb, AnnotationFits, BeforeUpgrade, BackedUp;
    if a < k {
      StatusStood(worlds, events, a, k - 1, k);
      StaysBackedUp(worlds, events, a, k - 1);
      RunKeepsAnnotation(worlds, events, k - 1);
      assert events[k - 1] == events[k - 1];
      StepBacksUp(worlds[k - 1], events[k - 1]);
    }
  }

  lemma LeavingTakesAnnotation(w: World, e: Event)
    requires VersionsClimb(w) && Enabled(w, e) && LeavesVersion(w, e)
    ensures w.obj.annotation == UpgradeRunning
  {
    hide SameOrUpgraded, Parse, Apply;
  }

  // Without the annotation, the next upgrade away from the status version is backed up, even if completions are cut.
  lemma RemovedAnnotationBacksUp(worlds: seq<World>, events: seq<Event>, a: nat, k: nat)
    requires IsRun(worlds, events) && a <= k < |events| && worlds[a].obj.annotation != UpgradeRunning
    requires worlds[k].obj.version == worlds[a].obj.version != "" && LeavesVersion(worlds[k], events[k])
    ensures BackedUp(worlds[k], worlds[k].obj.version)
  {
    hide Enabled, Apply, VersionsClimb, AnnotationFits, BeforeUpgrade, LeavesVersion, BackedUp;
    assert events[k] == events[k];
    RunKeepsVersions(worlds, events, k);
    LeavingTakesAnnotation(worlds[k], events[k]);
    StaysBackedUp(worlds, events, a, k);
  }

  // When no upgrade is due, a user can tell from the cluster object whether the next one may go without backup: exactly
  // if the annotation is still there.
  lemma AnnotationDecidesBackup(worlds: seq<World>, events: seq<Event>, spec: Spec, upgrade: VersionUpgrade)
    requires IsRun(worlds, events) && NextUpgrade(worlds[|events|], spec, upgrade)
    ensures (exists worlds', events', k :: GoesUnbacked(worlds, events, worlds', events', k))
            <==> worlds[|events|].obj.annotation == UpgradeRunning
  {
    hide Genesis, Enabled, Apply, Admits, IsUpgradeOf, LeavesVersion, BackedUp;
    if worlds[|events|].obj.annotation == UpgradeRunning {
      var worlds', events', k := StaleAnnotationSkipsBackup(worlds, events, spec, upgrade);
    } else if worlds', events', k :| GoesUnbacked(worlds, events, worlds', events', k) {
      RemovedAnnotationBacksUp(worlds', events', |events|, k);
    }
  }

  // ---------------------------------------------------------------- a failed upgrade

  lemma BrokenStepIsForeign(w: World, e: Event)
    requires AnnotationFits(w) && BeforeUpgrade(w) && w.obj.annotation == UpgradeBroken && Enabled(w, e)
    ensures EnvironmentEvent(e)
    ensures Apply(w, e).obj == w.obj.(spec := Apply(w, e).obj.spec)
  {
    hide Admits;
  }

  // An upgrade whose backup has failed is final: from then on the operator takes no step at all, and the annotation,
  // the status version and the conditions stay as they are, whatever is admitted later.
  lemma {:induction false} FailedUpgradeIsFinal(worlds: seq<World>, events: seq<Event>, k: nat, l: nat)
    requires IsRun(worlds, events) && k <= l < |worlds| && worlds[k].obj.annotation == UpgradeBroken
    ensures worlds[l].obj == worlds[k].obj.(spec := worlds[l].obj.spec)
    ensures l < |events| ==> EnvironmentEvent(events[l])
    decreases l
  {
    hide Enabled, Apply, AnnotationFits, BeforeUpgrade, VersionsClimb;
    if k < l {
      FailedUpgradeIsFinal(worlds, events, k, l - 1);
      RunKeepsAnnotation(worlds, events, l - 1);
      assert events[l - 1] == events[l - 1];
      BrokenStepIsForeign(worlds[l - 1], events[l - 1]);
    }
    if l < |events| {
      RunKeepsAnnotation(worlds, events, l);
      assert events[l] == events[l];
      BrokenStepIsForeign(worlds[l], events[l]);
    }
  }
}
