// How an upgrade that has been announced may come to nothing: once a reconcile finds the annotation that a backup is
// under way but no such backup, no later reconcile takes a step (pkg/reconciler/cluster.go, pkg/reconciler/backups.go).
module Stalls {
  import opened Versioning
  import opened Admission
  import opened World
  import opened Runs
  import opened Protocol
  import opened ConditionLog

  // ---------------------------------------------------------------- targets of backups

  // The stored spec can be reached from the target of every backup.
  ghost predicate TargetsBelow(w: World) {
    forall key | key in Known(w) :: SameOrUpgraded(key.1, w.obj.spec.version)
  }

  lemma StepKeepsTargets(w: World, e: Event)
    requires TargetsBelow(w) && VersionsClimb(w) && Enabled(w, e)
    ensures TargetsBelow(Apply(w, e))
  {
    hide Admits, ValidTransition, IsUpgradeOf;
    if e.SpecUpdated? {
      AdmitsUpgrades(w.obj.spec, e.spec);
      forall key | key in Known(w)
        ensures SameOrUpgraded(key.1, e.spec.version)
      {
        TransitionsCompose(key.1, w.obj.spec.version, e.spec.version);
      }
    }
  }

  lemma {:induction false} RunKeepsTargets(worlds: seq<World>, events: seq<Event>, k: nat)
    requires IsRun(worlds, events) && k < |worlds|
    ensures TargetsBelow(worlds[k])
  {
    hide Enabled, Apply, VersionsClimb, SameOrUpgraded;
    if k > 0 {
      RunKeepsTargets(worlds, events, k - 1);
      RunKeepsVersions(worlds, events, k - 1);
      assert events[k - 1] == events[k - 1];
      StepKeepsTargets(worlds[k - 1], events[k - 1]);
    }
  }

  // ---------------------------------------------------------------- upgrades that cannot go ahead

  ghost predicate StrictlyBelow(v: string, w: string) {
    v != w && SameOrUpgraded(v, w)
  }

  lemma StaysStrictlyBelow(u: string, v: string, w: string)
    requires StrictlyBelow(u, v) && SameOrUpgraded(v, w)
    ensures StrictlyBelow(u, w)
  {
    hide ValidTransition;
    TransitionsCompose(u, v, w);
  }

  // The reconcile in flight began while a backup was announced.
  predicate FoundAnnounced(w: World) {
    && w.obj.annotation == BackupRunning
    && w.past.job.Working? && w.past.job.snapshot.annotation == BackupRunning
  }

  // Every backup of the status version has an older target than the one that the reconcile in flight looks for.
  ghost predicate Stuck(w: World) {
    && FoundAnnounced(w)
    && (forall key | FromStatus(w, key) :: StrictlyBelow(key.1, w.past.job.snapshot.spec.version))
  }

  // The backup has finished, even if it is gone since, or is under way.
  predicate MayFinish(w: World, key: (string, string)) {
    key in w.past.done || (key in w.backups && w.backups[key] == Pending)
  }

  // The upgrade has failed, or every backup of the status version that may finish has such a target.
  ghost predicate Doomed(w: World) {
    || w.obj.annotation == UpgradeBroken
    || (&& FoundAnnounced(w)
        && (forall key | FromStatus(w, key) && MayFinish(w, key) ::
              StrictlyBelow(key.1, w.past.job.snapshot.spec.version)))
  }

  lemma NothingSought(w: World)
    requires AnnotationFits(w) && BeforeUpgrade(w) && Stuck(w)
    ensures BackupKey(w) !in Known(w)
  {
    forall key | key in Known(w)
      ensures key != BackupKey(w)
    {
      if key.0 == w.obj.version {
        assert FromStatus(w, key);
      }
    }
  }

  lemma StuckStays(w: World, e: Event)
    requires AnnotationFits(w) && BeforeUpgrade(w) && VersionsClimb(w) && Stuck(w) && Enabled(w, e)
    ensures Stuck(Apply(w, e)) && (EnvironmentEvent(e) || e.Begin?)
    ensures Apply(w, e).obj == w.obj.(spec := Apply(w, e).obj.spec) && Apply(w, e).pods.Keys <= w.pods.Keys
  {
    hide Admits, SameOrUpgraded, IsUpgradeOf;
    var w' := Apply(w, e);
    NothingSought(w);
    forall key | FromStatus(w', key)
      ensures StrictlyBelow(key.1, w'.past.job.snapshot.spec.version)
    {
      assert FromStatus(w, key);
      if e.Begin? {
        StaysStrictlyBelow(key.1, w.past.job.snapshot.spec.version, w.obj.spec.version);
      }
    }
  }

  lemma BrokenStaysDoomed(w: World, e: Event)
    requires AnnotationFits(w) && BeforeUpgrade(w) && w.obj.annotation == UpgradeBroken && Enabled(w, e)
    ensures Doomed(Apply(w, e)) && !LeavesVersion(w, e)
  {
    hide Enabled, Apply, AnnotationFits, BeforeUpgrade;
    BrokenStepIsForeign(w, e);
  }

  // The reconcile cannot find its backup finished, and so takes no step but to record a failure.
  lemma DoomedSignals(w: World, e: Event)
    requires AnnotationFits(w) && BeforeUpgrade(w) && Doomed(w) && FoundAnnounced(w) && Enabled(w, e)
    ensures EnvironmentEvent(e) || e.Begin? || e.Signalled?
    ensures var w' := Apply(w, e);
            && w'.obj.version == w.obj.version && (w'.obj.annotation == UpgradeBroken || FoundAnnounced(w'))
            && (forall key | FromStatus(w', key) && MayFinish(w', key) :: FromStatus(w, key) && MayFinish(w, key))
            && (!e.Begin? ==> w'.past.job == w.past.job)
  {
    hide Admits, SameOrUpgraded, IsUpgradeOf;
    assert BackupKey(w) in w.past.done ==> FromStatus(w, BackupKey(w)) && MayFinish(w, BackupKey(w));
  }

  lemma BeginTakesStored(w: World, e: Event)
    requires Enabled(w, e) && e.Begin?
    ensures Apply(w, e).past.job.snapshot == w.obj
  {
    hide IsUpgradeOf;
  }

  lemma DoomedStays(w: World, e: Event)
    requires AnnotationFits(w) && BeforeUpgrade(w) && VersionsClimb(w) && Doomed(w) && Enabled(w, e)
    ensures Doomed(Apply(w, e)) && !LeavesVersion(w, e)
  {
    hide Enabled, Apply, SameOrUpgraded, IsUpgradeOf, AnnotationFits, BeforeUpgrade, FromStatus, MayFinish;
    var w' := Apply(w, e);
    if w.obj.annotation == UpgradeBroken {
      BrokenStaysDoomed(w, e);
    } else {
      DoomedSignals(w, e);
      if FoundAnnounced(w') {
        forall key | FromStatus(w', key) && MayFinish(w', key)
          ensures StrictlyBelow(key.1, w'.past.job.snapshot.spec.version)
        {
          if e.Begin? {
            BeginTakesStored(w, e);
            StaysStrictlyBelow(key.1, w.past.job.snapshot.spec.version, w.obj.spec.version);
          }
        }
      }
    }
  }

  // The backup that a reconcile on the stored object looks for.
  function SoughtBackup(w: World): (string, string) {
    (w.obj.version, w.obj.spec.version)
  }

  lemma BeginsStuckOrDoomed(w: World, e: Event)
    requires TargetsBelow(w) && w.obj.annotation == BackupRunning && Enabled(w, e) && e.Begin?
    ensures SoughtBackup(w) !in Known(w) ==> Stuck(Apply(w, e))
    ensures !MayFinish(w, SoughtBackup(w)) ==> Doomed(Apply(w, e))
  {
    hide SameOrUpgraded, IsUpgradeOf;
  }

  lemma {:induction false} StuckForever(worlds: seq<World>, events: seq<Event>, k: nat, l: nat)
    requires IsRun(worlds, events) && k <= l < |worlds| && Stuck(worlds[k])
    ensures Stuck(worlds[l]) && worlds[l].obj == worlds[k].obj.(spec := worlds[l].obj.spec)
    ensures worlds[l].pods.Keys <= worlds[k].pods.Keys
    ensures l < |events| ==> EnvironmentEvent(events[l]) || events[l].Begin?
    decreases l
  {
    hide Enabled, Apply, AnnotationFits, BeforeUpgrade, VersionsClimb, Stuck;
    if k < l {
      StuckForever(worlds, events, k, l - 1);
      RunKeepsAnnotation(worlds, events, l - 1);
      assert events[l - 1] == events[l - 1];
      StuckStays(worlds[l - 1], events[l - 1]);
    }
    if l < |events| {
      RunKeepsAnnotation(worlds, events, l);
      assert events[l] == events[l];
      StuckStays(worlds[l], events[l]);
    }
  }

  // When a reconcile begins with a backup announced, and there is no backup from the status version to the spec's nor
  // has one ended, the cluster is stuck: in every run from there on, reconciles begin and do nothing else. The object
  // changes but for its spec no more, and no pod is created or deleted.
  lemma AnnouncedWithoutBackup(worlds: seq<World>, events: seq<Event>, k: nat, l: nat)
    requires IsRun(worlds, events) && k < l < |worlds| && events[k].Begin?
    requires worlds[k].obj.annotation == BackupRunning && SoughtBackup(worlds[k]) !in Known(worlds[k])
    ensures worlds[l].obj == worlds[k].obj.(spec := worlds[l].obj.spec)
    ensures worlds[l].pods.Keys <= worlds[k].pods.Keys
    ensures l < |events| ==> EnvironmentEvent(events[l]) || events[l].Begin?
  {
    hide Stuck, TargetsBelow;
    RunKeepsTargets(worlds, events, k);
    assert events[k].Begin?;
    BeginsStuckOrDoomed(worlds[k], events[k]);
    StuckForever(worlds, events, k + 1, l);
  }

  // ---------------------------------------------------------------- without a backup spec

  // A backup has been announced by a reconcile whose spec does not say where to put it.
  ghost predicate Barren(w: World) {
    && w.obj.annotation == BackupRunning && Upgrading(w) && w.past.job.snapshot.annotation == Unannotated
    && w.past.job.snapshot.spec.backupSpec.None? && (forall key :: !FromStatus(w, key))
  }

  lemma AnnouncingIsBarren(w: World, e: Event)
    requires AnnotationFits(w) && BeforeUpgrade(w) && OneBackup(w) && Enabled(w, e) && e.Signalled?
    requires w.obj.annotation == Unannotated && w.past.job.Working? && w.past.job.snapshot.spec.backupSpec.None?
    ensures Barren(Apply(w, e))
  {
    assert forall key | FromStatus(Apply(w, e), key) :: FromStatus(w, key);
  }

  lemma BarrenStays(w: World, e: Event)
    requires AnnotationFits(w) && BeforeUpgrade(w) && Barren(w) && Enabled(w, e)
    ensures if e.Begin? then Stuck(Apply(w, e)) else Barren(Apply(w, e)) && EnvironmentEvent(e)
    ensures Apply(w, e).obj == w.obj.(spec := Apply(w, e).obj.spec) && Apply(w, e).pods.Keys <= w.pods.Keys
  {
    hide Admits, SameOrUpgraded, IsUpgradeOf;
    assert forall key | FromStatus(Apply(w, e), key) :: FromStatus(w, key);
  }

  lemma {:induction false} BarrenForever(worlds: seq<World>, events: seq<Event>, k: nat, l: nat)
    requires IsRun(worlds, events) && k <= l < |worlds| && Barren(worlds[k])
    ensures Barren(worlds[l]) || Stuck(worlds[l])
    ensures worlds[l].obj == worlds[k].obj.(spec := worlds[l].obj.spec)
    ensures worlds[l].pods.Keys <= worlds[k].pods.Keys
    ensures l < |events| ==> EnvironmentEvent(events[l]) || events[l].Begin?
    decreases l
  {
    hide Enabled, Apply, AnnotationFits, BeforeUpgrade, VersionsClimb, Stuck, Barren;
    if k < l {
      BarrenForever(worlds, events, k, l - 1);
      RunKeepsAnnotation(worlds, events, l - 1);
      assert events[l - 1] == events[l - 1];
      if Barren(worlds[l - 1]) {
        BarrenStays(worlds[l - 1], events[l - 1]);
      } else {
        StuckStays(worlds[l - 1], events[l - 1]);
      }
    }
    if l < |events| {
      RunKeepsAnnotation(worlds, events, l);
      assert events[l] == events[l];
      if Barren(worlds[l]) {
        BarrenStays(worlds[l], events[l]);
      } else {
        StuckStays(worlds[l], events[l]);
      }
    }
  }

  // A reconcile that announces a backup although its spec has no place for one leaves the cluster stuck: no backup is
  // created, and no reconcile takes a step any more.
  lemma AnnouncedWithoutPlace(worlds: seq<World>, events: seq<Event>, k: nat, l: nat)
    requires IsRun(worlds, events) && k < l < |worlds| && events[k].Signalled?
    requires worlds[k].obj.annotation == Unannotated
    requires worlds[k].past.job.Working? && worlds[k].past.job.snapshot.spec.backupSpec.None?
    ensures worlds[l].obj == worlds[k + 1].obj.(spec := worlds[l].obj.spec)
    ensures worlds[l].pods.Keys <= worlds[k].pods.Keys
    ensures l < |events| ==> EnvironmentEvent(events[l]) || events[l].Begin?
  {
    hide Enabled, AnnotationFits, BeforeUpgrade, VersionsClimb, OneBackup, Barren, Genesis;
    RunKeepsAnnotation(worlds, events, k);
    RunKeepsOneBackup(worlds, events, k);
    assert events[k].Signalled?;
    AnnouncingIsBarren(worlds[k], events[k]);
    BarrenForever(worlds, events, k + 1, l);
  }

  // An update drops the backup spec, and leaves the version alone.
  predicate DropsBackupSpec(w: World, e: Event) {
    && e.SpecUpdated? && e.spec.version == w.obj.spec.version
    && w.obj.spec.backupSpec.Some? && e.spec.backupSpec.None?
  }

  // The version is still the one first admitted, wherever it is written.
  predicate VersionIs(w: World, first: string) {
    && w.obj.spec.version == first && (w.obj.version == "" || w.obj.version == first)
    && (w.past.job.Working? ==> w.past.job.snapshot.spec.version == first)
  }

  lemma StepKeepsPlace(w: World, e: Event, first: string)
    requires Enabled(w, e) && Apply(w, e).obj.spec.backupSpec.None? && !DropsBackupSpec(w, e)
    ensures w.obj.spec.backupSpec.None? && w.obj.spec.version == Apply(w, e).obj.spec.version
    ensures VersionIs(w, first) ==> VersionIs(Apply(w, e), first)
  {
    hide IsUpgradeOf, IsPick, ValidSpec, ValidTransition;
  }

  // Where the backup spec was dropped, if it is missing though the version has changed since the cluster was admitted.
  lemma {:induction false} WhereDropped(worlds: seq<World>, events: seq<Event>, k: nat) returns (j: nat)
    requires IsRun(worlds, events) && k < |worlds| && worlds[k].obj.spec.backupSpec.None?
    ensures VersionIs(worlds[k], worlds[0].obj.spec.version) || (j < k && DropsBackupSpec(worlds[j], events[j]))
    ensures j < k ==> worlds[j].obj.spec.version == worlds[k].obj.spec.version
  {
    hide Enabled, Apply, DropsBackupSpec;
    j := k;
    if k > 0 {
      assert events[k - 1] == events[k - 1];
      if DropsBackupSpec(worlds[k - 1], events[k - 1]) {
        j := k - 1;
        DroppingKeepsVersion(worlds[j], events[j]);
      } else {
        StepKeepsPlace(worlds[k - 1], events[k - 1], worlds[0].obj.spec.version);
        j := WhereDropped(worlds, events, k - 1);
        if j >= k - 1 {
          j := k;
        }
      }
    }
  }

  lemma DroppingKeepsVersion(w: World, e: Event)
    requires Enabled(w, e) && DropsBackupSpec(w, e)
    ensures Apply(w, e).obj.spec.version == w.obj.spec.version
  {
  }

  // Admission asks for a backup spec only while the version changes: an upgrade is due without one exactly where a
  // later update, of which admission demands no such thing, has dropped it.
  lemma MissingPlaceWasDropped(worlds: seq<World>, events: seq<Event>, k: nat) returns (j: nat)
    requires IsRun(worlds, events) && k < |worlds|
    requires worlds[k].obj.NeedsUpgrade() && worlds[k].obj.spec.backupSpec.None?
    ensures j < k && DropsBackupSpec(worlds[j], events[j])
    ensures worlds[j].obj.spec.version == worlds[k].obj.spec.version
  {
    j := WhereDropped(worlds, events, k);
  }

  // ---------------------------------------------------------------- doomed upgrades

  lemma {:induction false} DoomedForever(worlds: seq<World>, events: seq<Event>, k: nat, l: nat)
    requires IsRun(worlds, events) && k <= l < |worlds| && Doomed(worlds[k])
    ensures Doomed(worlds[l]) && (l < |events| ==> !LeavesVersion(worlds[l], events[l]))
    decreases l
  {
    hide Enabled, Apply, AnnotationFits, BeforeUpgrade, VersionsClimb, Doomed, LeavesVersion;
    if k < l {
      DoomedForever(worlds, events, k, l - 1);
      RunKeepsAnnotation(worlds, events, l - 1);
      assert events[l - 1] == events[l - 1];
      DoomedStays(worlds[l - 1], events[l - 1]);
    }
    if l < |events| {
      RunKeepsAnnotation(worlds, events, l);
      assert events[l] == events[l];
      DoomedStays(worlds[l], events[l]);
    }
  }

  // ---------------------------------------------------------------- upgrades that can

  // The reconcile has not got to the pods yet.
  predicate HasTouchedNothing(w: World) {
    w.past.start.None? && w.past.cleared.None? && !w.past.completing
  }

  lemma FinishedGoesAhead(w: World) returns (w': World)
    requires BackupIs(w, Finished) && w.obj.annotation == BackupRunning && HasTouchedNothing(w)
    ensures Follows(w, [Signalled(BackupRunning, [AutoBackupFinished], true),
                        Signalled(UpgradeRunning, [UpgradeStarted], true)], w')
    ensures Enabled(w', Sweep("")) && LeavesVersion(w', Sweep(""))
  {
    var finished := Signalled(BackupRunning, [AutoBackupFinished], true);
    var started := Signalled(UpgradeRunning, [UpgradeStarted], true);
    var w1 := Apply(w, finished);
    w' := Apply(w1, started);
    FollowsNext(w1, started, [], w');
    FollowsNext(w, finished, [started], w');
  }

  lemma PendingFinishes(w: World) returns (end: Event, w': World)
    requires BackupIs(w, Pending)
    ensures Follows(w, [end], w') && BackupIs(w', Finished) && w'.obj == w.obj
    ensures HasTouchedNothing(w) ==> HasTouchedNothing(w')
  {
    end := BackupEnds(BackupKey(w), true);
    w' := Apply(w, end);
    FollowsOnce(w, end);
  }

  // The run goes on to step k, where the upgrade of the pods begins.
  ghost predicate GoesAhead(worlds: seq<World>, events: seq<Event>, worlds': seq<World>, events': seq<Event>, k: nat) {
    && IsRun(worlds', events') && worlds <= worlds' && events <= events'
    && |events| <= k < |events'| && LeavesVersion(worlds'[k], events'[k])
  }

  lemma GoesAheadFrom(worlds: seq<World>, events: seq<Event>)
    returns (worlds': seq<World>, events': seq<Event>, k: nat)
    requires IsRun(worlds, events)
    requires var w := worlds[|events|];
             && w.obj.annotation == BackupRunning && HasTouchedNothing(w)
             && (BackupIs(w, Finished) || BackupIs(w, Pending))
    ensures GoesAhead(worlds, events, worlds', events', k)
  {
    hide Genesis, Enabled, Apply, Follows, LeavesVersion, BackupIs;
    worlds', events' := worlds, events;
    var w := worlds[|events|];
    if !BackupIs(w, Finished) {
      var end;
      end, w := PendingFinishes(w);
      worlds' := ExtendRun(worlds, events, [end], w);
      events' := events + [end];
    }
    var more := [Signalled(BackupRunning, [AutoBackupFinished], true),
                 Signalled(UpgradeRunning, [UpgradeStarted], true)];
    var w' := FinishedGoesAhead(w);
    worlds' := ExtendRun(worlds', events', more, w');
    events' := events' + more;
    FollowsOnce(w', Sweep(""));
    k := |events'|;
    worlds' := ExtendRun(worlds', events', [Sweep("")], Apply(w', Sweep("")));
    events' := events' + [Sweep("")];
  }

  // When a reconcile has just begun with a backup announced, the upgrade can still go ahead if and only if the backup
  // from the status version to the spec's is under way or has finished, even if it is gone since.
  lemma BackupDecidesUpgrade(worlds: seq<World>, events: seq<Event>)
    requires IsRun(worlds, events) && |events| > 0 && events[|events| - 1].Begin?
    requires worlds[|events|].obj.annotation == BackupRunning
    ensures (exists worlds', events', k :: GoesAhead(worlds, events, worlds', events', k)) <==>
            MayFinish(worlds[|events|], SoughtBackup(worlds[|events|]))
  {
    hide Genesis, Enabled, Apply, LeavesVersion, Doomed, Stuck, TargetsBelow, AnnotationFits, BeforeUpgrade;
    hide VersionsClimb;
    var w, e := worlds[|events| - 1], events[|events| - 1];
    assert e.Begin? && Enabled(w, e) && worlds[|events|] == Apply(w, e);
    RunKeepsTargets(worlds, events, |events| - 1);
    RunKeepsAnnotation(worlds, events, |events| - 1);
    BeginsOnStored(w, e);
    BeginsStuckOrDoomed(w, e);
    if MayFinish(w, SoughtBackup(w)) {
      BeginsOnBackup(w, e);
      var worlds', events', k := GoesAheadFrom(worlds, events);
    } else if worlds', events', k :| GoesAhead(worlds, events, worlds', events', k) {
      DoomedForever(worlds', events', |events|, k);
    }
  }

  lemma BeginsOnStored(w: World, e: Event)
    requires Enabled(w, e) && e.Begin?
    ensures Apply(w, e).obj == w.obj && MayFinish(Apply(w, e), SoughtBackup(w)) == MayFinish(w, SoughtBackup(w))
    ensures HasTouchedNothing(Apply(w, e))
  {
  }

  lemma BeginsOnBackup(w: World, e: Event)
    requires BeforeUpgrade(w) && w.obj.annotation == BackupRunning && Enabled(w, e) && e.Begin?
    requires MayFinish(w, SoughtBackup(w))
    ensures BackupIs(Apply(w, e), Finished) || BackupIs(Apply(w, e), Pending)
  {
    hide Parse;
  }
}
