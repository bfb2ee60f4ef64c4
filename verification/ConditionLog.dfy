// The conditions in a cluster's status over all runs (pkg/reconciler/upgrades.go, pkg/reconciler/cluster.go).
module ConditionLog {
  import opened Admission
  import opened World
  import opened Protocol

  // ---------------------------------------------------------------- the language of logs

  // Where a log has got to: between upgrades, in a backup that has no verdict yet, that has finished, or that has
  // failed, in an upgrade of the pods, or at its end. Astray is every log that the operator must not write.
  datatype Stage = Between | BackingUp | BackedUpOnce | UpgradingPods | BackupLost | Over | Astray

  function Next(stage: Stage, c: Condition): Stage {
    match (stage, c)
    case (Between, AutoBackupStarted) => BackingUp
    case (BackingUp, AutoBackupFinished) => BackedUpOnce
    case (BackedUpOnce, AutoBackupFinished) => BackedUpOnce
    case (BackedUpOnce, UpgradeStarted) => UpgradingPods
    case (UpgradingPods, UpgradeFinished) => Between
    case (BackingUp, AutoBackupFailed) => BackupLost
    case (BackupLost, AutoBackupFailed) => BackupLost
    case (BackupLost, UpgradeFailed) => Over
    case _ => Astray
  }

  function StageOf(log: seq<Condition>): Stage {
    if log == [] then Between else Next(StageOf(log[..|log| - 1]), log[|log| - 1])
  }

  // One upgrade that ran to its end; the verdict on its backup was recorded n + 1 times.
  function Round(n: nat): seq<Condition> {
    [AutoBackupStarted] + seq(n + 1, _ => AutoBackupFinished) + [UpgradeStarted, UpgradeFinished]
  }

  function Rounds(ns: seq<nat>): seq<Condition> {
    if ns == [] then [] else Rounds(ns[..|ns| - 1]) + Round(ns[|ns| - 1])
  }

  // What follows the last round: an upgrade under way, or one that has failed.
  predicate IsTail(tail: seq<Condition>, stage: Stage) {
    match stage
    case Between => tail == []
    case BackingUp => tail == [AutoBackupStarted]
    case BackedUpOnce =>
      |tail| >= 2 && tail == [AutoBackupStarted] + seq(|tail| - 1, _ => AutoBackupFinished)
    case UpgradingPods =>
      |tail| >= 3 && tail == [AutoBackupStarted] + seq(|tail| - 2, _ => AutoBackupFinished) + [UpgradeStarted]
    case BackupLost =>
      |tail| >= 2 && tail == [AutoBackupStarted] + seq(|tail| - 1, _ => AutoBackupFailed)
    case Over =>
      |tail| >= 3 && tail == [AutoBackupStarted] + seq(|tail| - 2, _ => AutoBackupFailed) + [UpgradeFailed]
    case Astray => false
  }

  lemma StageOfAppend(log: seq<Condition>, c: Condition)
    ensures StageOf(log + [c]) == Next(StageOf(log), c)
  {
    assert (log + [c])[..|log|] == log;
  }

  // The tail of a log that goes on by one condition without closing a round.
  lemma TailGrows(tail: seq<Condition>, stage: Stage, c: Condition)
    requires IsTail(tail, stage) && Next(stage, c) != Astray && c != UpgradeFinished
    ensures IsTail(tail + [c], Next(stage, c))
  {
  }

  lemma TailCloses(tail: seq<Condition>)
    requires IsTail(tail, UpgradingPods)
    ensures |tail| >= 3 && tail + [UpgradeFinished] == Round(|tail| - 3)
  {
  }

  lemma NoTailAtFirst()
    ensures IsTail([], Between)
    ensures forall stage, c :: Next(stage, c) != Astray ==> stage != Astray
    ensures forall stage :: Next(stage, UpgradeFinished) != Astray ==>
              stage == UpgradingPods && Next(stage, UpgradeFinished) == Between
  {
  }

  // A log that is not astray is a sequence of complete rounds followed by the tail that its stage tells.
  lemma {:induction false} StageDescribesLog(log: seq<Condition>) returns (ns: seq<nat>, tail: seq<Condition>)
    requires StageOf(log) != Astray
    ensures log == Rounds(ns) + tail && IsTail(tail, StageOf(log))
  {
    hide Round, Next, IsTail;
    if log == [] {
      ns, tail := [], [];
      NoTailAtFirst();
    } else {
      var front, c := log[..|log| - 1], log[|log| - 1];
      NoTailAtFirst();
      ns, tail := StageDescribesLog(front);
      assert log == Rounds(ns) + (tail + [c]);
      if c == UpgradeFinished {
        TailCloses(tail);
        assert (ns + [|tail| - 3])[..|ns|] == ns;
        ns, tail := ns + [|tail| - 3], [];
        assert log == Rounds(ns);
      } else {
        TailGrows(tail, StageOf(front), c);
        tail := tail + [c];
      }
    }
  }

  // ---------------------------------------------------------------- the logs of runs

  // Every signal lands wholly or not at all.
  ghost predicate SignalsWhole(events: seq<Event>) {
    forall k {:trigger events[k]} | 0 <= k < |events| && events[k].Signalled? :: events[k].whole
  }

  predicate StageFits(stage: Stage, annotation: Annotation) {
    match annotation
    case Unannotated => stage == Between
    case BackupRunning => stage == BackingUp || stage == BackedUpOnce || stage == BackupLost
    case UpgradeRunning => stage == UpgradingPods
    case UpgradeBroken => stage == Over
  }

  // The backups of the status version.
  predicate FromStatus(w: World, key: (string, string)) {
    key in Known(w) && key.0 == w.obj.version
  }

  // No backup of the status version exists or has ended before one is announced, and then only the one that the
  // announcing reconcile creates, even if the target has changed since.
  ghost predicate OneBackup(w: World) {
    && (w.obj.annotation == Unannotated ==> forall key :: !FromStatus(w, key))
    && (w.obj.annotation == BackupRunning ==>
          && (forall j, k | FromStatus(w, j) && FromStatus(w, k) :: j == k)
          && w.past.job.Working?
          && (w.past.job.snapshot.annotation == Unannotated ==>
                forall k | FromStatus(w, k) :: k == BackupKey(w) && w.past.requested))
  }

  // A backup ends once.
  ghost predicate EndsOnce(w: World) {
    && (forall key | key in w.past.done :: key !in w.past.spoilt)
    && (forall key | key in w.backups && w.backups[key] == Pending :: key !in w.past.done && key !in w.past.spoilt)
  }

  lemma StepKeepsEnds(w: World, e: Event)
    requires BeforeUpgrade(w) && OneBackup(w) && EndsOnce(w) && Enabled(w, e)
    ensures EndsOnce(Apply(w, e))
  {
    hide Admits, IsUpgradeOf, IsPick;
    if e.BackupCreated? {
      assert BackupKey(w) in Known(w) ==> FromStatus(w, BackupKey(w));
    }
  }

  lemma StatusKeepsOneBackup(w: World)
    requires VersionsClimb(w) && AnnotationFits(w) && UpgradeFromStatus(w) && OneBackup(w) && Enabled(w, StatusSet)
    ensures OneBackup(Apply(w, StatusSet))
  {
    hide SameOrUpgraded;
    var w' := Apply(w, StatusSet);
    assert Known(w') == Known(w);
    if w'.obj.version == w.obj.version {
      assert forall key | FromStatus(w', key) :: FromStatus(w, key);
    }
  }

  lemma CreationKeepsOneBackup(w: World)
    requires BeforeUpgrade(w) && OneBackup(w) && Enabled(w, BackupCreated)
    ensures OneBackup(Apply(w, BackupCreated))
  {
    var w' := Apply(w, BackupCreated);
    assert forall key | FromStatus(w', key) :: key == BackupKey(w) || FromStatus(w, key);
  }

  // The events that neither name a backup nor change the annotation or the job.
  lemma OtherEventsAddNoBackup(w: World, e: Event)
    requires Enabled(w, e) && !e.StatusSet? && !e.BackupCreated? && !e.Signalled? && !e.Begin?
    ensures var w' := Apply(w, e);
            && w'.obj.version == w.obj.version && w'.obj.annotation == w.obj.annotation && Known(w') <= Known(w)
            && w'.past.job == w.past.job && w'.past.requested == w.past.requested
  {
    hide Admits, IsUpgradeOf, IsPick;
  }

  lemma SignalKeepsOneBackup(w: World, e: Event)
    requires AnnotationFits(w) && BeforeUpgrade(w) && SourcesBehind(w) && OneBackup(w)
    requires Enabled(w, e) && (e.Signalled? || e.Begin?)
    ensures OneBackup(Apply(w, e))
  {
    hide SameOrUpgraded, IsUpgradeOf;
    var w' := Apply(w, e);
    assert forall key | FromStatus(w', key) :: FromStatus(w, key);
  }

  lemma StepKeepsOneBackup(w: World, e: Event)
    requires AnnotationFits(w) && BeforeUpgrade(w) && SourcesBehind(w)
    requires OneBackup(w) && Enabled(w, e) && !e.StatusSet? && !e.BackupCreated?
    ensures OneBackup(Apply(w, e))
  {
    hide Enabled, Apply, AnnotationFits, BeforeUpgrade, SourcesBehind;
    if e.Signalled? || e.Begin? {
      SignalKeepsOneBackup(w, e);
    } else {
      OtherEventsAddNoBackup(w, e);
      assert forall key | FromStatus(Apply(w, e), key) :: FromStatus(w, key);
    }
  }

  lemma StageAfterSignal(log: seq<Condition>, added: seq<Condition>)
    requires 1 <= |added| <= 2
    ensures StageOf(log + added) ==
            if |added| == 1 then Next(StageOf(log), added[0]) else Next(Next(StageOf(log), added[0]), added[1])
  {
    StageOfAppend(log, added[0]);
    if |added| == 1 {
      assert log + added == log + [added[0]];
    } else {
      StageOfAppend(log + [added[0]], added[1]);
      assert log + added == log + [added[0]] + [added[1]];
    }
  }

  lemma LastTellsStage(log: seq<Condition>)
    requires StageOf(log) != Astray
    ensures EndsWith(log, AutoBackupFinished) ==> StageOf(log) == BackedUpOnce
    ensures EndsWith(log, AutoBackupFailed) ==> StageOf(log) == BackupLost
  {
  }

  // A signal about a backup is about the one backup of the status version, which has ended in that way only.
  lemma SignalFollowsVerdict(w: World, e: Event)
    requires BeforeUpgrade(w) && OneBackup(w) && EndsOnce(w)
    requires e.Signalled? && Enabled(w, e) && w.obj.annotation == BackupRunning
    ensures w.past.job.Working? && w.past.job.snapshot.annotation == BackupRunning
    ensures forall key | FromStatus(w, key) :: key == BackupKey(w)
    ensures FromStatus(w, BackupKey(w)) && !(BackupKey(w) in w.past.done && BackupKey(w) in w.past.spoilt)
  {
    hide EndsWith;
    assert BackupKey(w) in Known(w) && FromStatus(w, BackupKey(w));
  }

  lemma SignalFitsStage(w: World, e: Event)
    requires BeforeUpgrade(w) && OneBackup(w) && EndsOnce(w) && LogFits(w)
    requires e.Signalled? && e.whole && Enabled(w, e)
    ensures var w' := Apply(w, e); StageFits(StageOf(w'.obj.conditions), w'.obj.annotation)
    ensures StageOf(w.obj.conditions) != Astray
  {
    hide StageOf, EndsWith, OneBackup, EndsOnce, BeforeUpgrade, Apply;
    StageAfterSignal(w.obj.conditions, e.added);
    LastTellsStage(w.obj.conditions);
    if w.obj.annotation == BackupRunning {
      SignalFollowsVerdict(w, e);
    }
    SignalChangesLog(w, e);
  }

  lemma SignalChangesLog(w: World, e: Event)
    requires e.Signalled? && e.whole && Enabled(w, e)
    ensures var w' := Apply(w, e);
            && w'.obj == w.obj.(annotation := e.annotation, conditions := w.obj.conditions + e.added)
            && Known(w') == Known(w) && w'.past == w.past.(completing := false)
  {
  }

  lemma SignalKeepsLog(w: World, e: Event)
    requires BeforeUpgrade(w) && OneBackup(w) && EndsOnce(w) && LogFits(w)
    requires e.Signalled? && e.whole && Enabled(w, e)
    ensures LogFits(Apply(w, e))
  {
    hide StageOf, EndsWith, OneBackup, EndsOnce, BeforeUpgrade, Apply;
    SignalFitsStage(w, e);
    StageAfterSignal(w.obj.conditions, e.added);
    LastTellsStage(w.obj.conditions);
    SignalChangesLog(w, e);
    if w.obj.annotation == BackupRunning {
      SignalFollowsVerdict(w, e);
    }
    assert forall key | FromStatus(Apply(w, e), key) :: FromStatus(w, key);
  }

  // What the other steps do to the annotation, the log and the backups of the status version.
  lemma OtherStepsKeepVerdict(w: World, e: Event)
    requires AnnotationFits(w) && BeforeUpgrade(w) && Enabled(w, e) && !e.Signalled?
    ensures var w' := Apply(w, e);
            && w'.obj.annotation == w.obj.annotation && w'.obj.conditions == w.obj.conditions
            && w.past.done <= w'.past.done && w.past.spoilt <= w'.past.spoilt
            && (w.obj.annotation == BackupRunning ==> w'.obj.version == w.obj.version)
            && (w.obj.annotation == BackupRunning && e.Begin? ==>
                  w'.past.job.Working? && w'.past.job.snapshot.annotation == BackupRunning)
            && (!e.Begin? ==> w'.past.job == w.past.job)
            && (!e.BackupCreated? ==> Known(w') <= Known(w))
            && (e.BackupCreated? ==> w.past.job.Working? && w.past.job.snapshot.annotation == Unannotated)
  {
    hide Admits, IsUpgradeOf, IsPick;
  }

  lemma OtherStepsKeepLog(w: World, e: Event)
    requires AnnotationFits(w) && BeforeUpgrade(w) && LogFits(w) && Enabled(w, e) && !e.Signalled?
    ensures LogFits(Apply(w, e))
  {
    hide Enabled, Apply, AnnotationFits, BeforeUpgrade, StageOf, StageFits;
    OtherStepsKeepVerdict(w, e);
    assert forall key | FromStatus(Apply(w, e), key) && w.obj.annotation == BackupRunning && !e.BackupCreated? ::
        FromStatus(w, key);
  }

  lemma {:induction false} RunKeepsOneBackup(worlds: seq<World>, events: seq<Event>, k: nat)
    requires IsRun(worlds, events) && k < |worlds|
    ensures OneBackup(worlds[k])
  {
    hide Enabled, Apply, VersionsClimb, AnnotationFits, BeforeUpgrade, SourcesBehind, UpgradeFromStatus;
    if k > 0 {
      RunKeepsOneBackup(worlds, events, k - 1);
      RunKeepsAnnotation(worlds, events, k - 1);
      RunKeepsSources(worlds, events, k - 1);
      assert events[k - 1] == events[k - 1];
      if events[k - 1].StatusSet? {
        StatusKeepsOneBackup(worlds[k - 1]);
      } else if events[k - 1].BackupCreated? {
        CreationKeepsOneBackup(worlds[k - 1]);
      } else {
        StepKeepsOneBackup(worlds[k - 1], events[k - 1]);
      }
    }
  }

  lemma {:induction false} RunKeepsEnds(worlds: seq<World>, events: seq<Event>, k: nat)
    requires IsRun(worlds, events) && k < |worlds|
    ensures EndsOnce(worlds[k])
  {
    hide Enabled, Apply, VersionsClimb, AnnotationFits, BeforeUpgrade, OneBackup;
    if k > 0 {
      RunKeepsEnds(worlds, events, k - 1);
      RunKeepsAnnotation(worlds, events, k - 1);
      RunKeepsOneBackup(worlds, events, k - 1);
      assert events[k - 1] == events[k - 1];
      StepKeepsEnds(worlds[k - 1], events[k - 1]);
    }
  }

  // While the backup is under way, the log tells its verdict.
  ghost predicate LogTellsVerdict(w: World) {
    w.obj.annotation == BackupRunning ==>
      var stage := StageOf(w.obj.conditions);
      && (stage == BackedUpOnce ==> forall key | FromStatus(w, key) :: key in w.past.done)
      && (stage == BackupLost ==> forall key | FromStatus(w, key) :: key in w.past.spoilt)
      && w.past.job.Working?
      && (w.past.job.snapshot.annotation == Unannotated ==> stage == BackingUp)
  }

  ghost predicate LogFits(w: World) {
    StageFits(StageOf(w.obj.conditions), w.obj.annotation) && LogTellsVerdict(w)
  }

  lemma {:induction false} RunKeepsLog(worlds: seq<World>, events: seq<Event>, k: nat)
    requires IsRun(worlds, events) && SignalsWhole(events) && k < |worlds|
    ensures LogFits(worlds[k])
  {
    hide Enabled, Apply, VersionsClimb, AnnotationFits, BeforeUpgrade, OneBackup, EndsOnce;
    if k > 0 {
      RunKeepsLog(worlds, events, k - 1);
      RunKeepsAnnotation(worlds, events, k - 1);
      RunKeepsOneBackup(worlds, events, k - 1);
      RunKeepsEnds(worlds, events, k - 1);
      assert events[k - 1] == events[k - 1];
      if events[k - 1].Signalled? {
        SignalKeepsLog(worlds[k - 1], events[k - 1]);
      } else {
        OtherStepsKeepLog(worlds[k - 1], events[k - 1]);
      }
    }
  }

  // Over every such run the conditions are complete rounds followed by at most one upgrade under way or failed, and
  // the annotation tells which. The target may change at any time, and a cut completion does no harm here.
  lemma LogIsWellFormed(worlds: seq<World>, events: seq<Event>, k: nat) returns (ns: seq<nat>, tail: seq<Condition>)
    requires IsRun(worlds, events) && SignalsWhole(events) && k < |worlds|
    ensures worlds[k].obj.conditions == Rounds(ns) + tail
    ensures IsTail(tail, StageOf(worlds[k].obj.conditions))
    ensures StageFits(StageOf(worlds[k].obj.conditions), worlds[k].obj.annotation)
  {
    hide LogTellsVerdict;
    RunKeepsLog(worlds, events, k);
    ns, tail := StageDescribesLog(worlds[k].obj.conditions);
  }
}
