// The state shared by the reconciler and the collector, as values: one cluster object with its pods, volume claims
// and pre-upgrade backups, and every event that can change them.
//
// A run is a sequence of worlds joined by events. An event's guard says when the operator's code, or its environment,
// can make that event happen; the reconciler's methods (Reconciler.dfy) prove each guard where they act. A prefix of
// a run is a run, so a property of all runs holds wherever the operator is cut short.
module World {
  import opened Wrappers
  import opened Versioning
  import opened Upgrades
  import opened Admission

  // ---------------------------------------------------------------- objects

  // Nanoseconds in a second. The clock counts nanoseconds; RFC 3339 stamps keep whole seconds only.
  const SECOND: nat := 1_000_000_000

  function Rfc3339(t: nat): (s: nat)
    ensures s <= t < s + 1_000_000_000 && s % 1_000_000_000 == 0
  {
    t - t % SECOND
  }

  // An annotation that carries a time or a duration.
  datatype Stamp = Absent | Malformed | At(t: nat)

  // A claim records the pod it belongs to, its namespace label, its retention period, and when it was last unmounted.
  datatype Claim = Claim(pod: Option<nat>, ns: string, ttl: Stamp, unmounted: Stamp, created: nat)

  // Pods are named by their index. mountNs and volumeNs are the namespaces in the names of the data mount and of the
  // data volume; image is the version tag, build the version the server reports.
  datatype Pod = Pod(claim: nat, mountNs: string, volumeNs: string,
                     image: string, build: string, hash: string, failed: bool)

  datatype Annotation = Unannotated | BackupRunning | UpgradeRunning | UpgradeBroken

  datatype Condition =
    | AutoBackupStarted | AutoBackupFinished | AutoBackupFailed
    | UpgradeStarted | UpgradeFinished | UpgradeFailed

  // The cluster object: its spec, its upgrade annotation, and the version and conditions of its status.
  // The version is empty until the first successful reconcile.
  datatype Object = Object(spec: Spec, annotation: Annotation, version: string, conditions: seq<Condition>) {
    predicate NeedsUpgrade() {
      version != "" && spec.version != version
    }
  }

  datatype Verdict = Pending | Finished | Failed

  // ---------------------------------------------------------------- bookkeeping

  // The reconcile in flight works on a snapshot of the cluster object, and on the upgrade it calls for, if any.
  datatype Job = Idle | Working(snapshot: Object, upgrade: Option<VersionUpgrade>)

  // The claim that the pod being created has obtained, and how.
  datatype Held = Nothing | Fresh(claim: nat) | Reused(claim: nat)

  // Why the pod being deleted may be deleted.
  datatype Reason = InFailure | Surplus | OffVersion | OffConfig | OffSize

  // The pod that may be deleted, why, and the claim that it mounts.
  datatype Clearance = Clearance(index: nat, reason: Reason, claim: nat)

  // What has happened so far, none of which the operator can read.
  datatype Past = Past(
    job: Job,
    start: Option<set<nat>>,        // the pods that ensurePods found, once it runs
    hash: string,                   // of the configuration that ensurePods brings the pods to
    focus: Option<nat>,             // the index that ensurePods is working on
    healthy: bool,                  // whether ensurePods found a pod there that had not failed
    settled: Option<nat>,           // the pod in focus has reported that it takes no part in migrations
    cleared: Option<Clearance>,
    held: Held,
    completing: bool,               // the new version is in the status, the annotation not yet removed
    last: map<nat, nat>,            // the claim that each index mounted last
    requested: bool,                // whether this reconcile has created its backup
    done: set<(string, string)>,    // the backups that ever finished
    spoilt: set<(string, string)>,  // the backups that ever failed
    lost: set<nat>                  // the pods lost from outside in this reconcile, and not yet replaced
  )

  function NewJob(job: Job, last: map<nat, nat>, done: set<(string, string)>, spoilt: set<(string, string)>): Past {
    Past(job, None, "", None, false, None, None, Nothing, false, last, false, done, spoilt, {})
  }

  datatype World = World(
    now: nat,
    pods: map<nat, Pod>,
    claims: map<nat, Claim>,
    next: nat,                                // the name and creation time of the next claim
    obj: Object,
    backups: map<(string, string), Verdict>,  // by source and target version
    past: Past
  )

  datatype Event =
    // the environment: the clock, the nodes, the user, the backup jobs, and the collectors
    | Tick(t: nat)
    | PodFails(i: nat)
    | PodLost(i: nat)
    | SpecUpdated(spec: Spec)
    | BackupEnds(key: (string, string), ok: bool)
    | BackupDropped(key: (string, string))
    | ClaimCollected(c: nat)
    // the reconciler
    | Begin(upgrade: Option<VersionUpgrade>)
    | Signalled(annotation: Annotation, added: seq<Condition>, whole: bool)
    | BackupCreated
    | Sweep(hash: string)
    | Focus(i: nat)
    | Settled(i: nat)
    | Cleared(i: nat, reason: Reason)
    | ClaimMarked(i: nat)
    | PodDeleted(i: nat)
    | ClaimCreated
    | ClaimMounted(c: nat)
    | PodCreated(build: string)
    | StatusSet

  predicate EnvironmentEvent(e: Event) {
    || e.Tick? || e.PodFails? || e.PodLost? || e.SpecUpdated?
    || e.BackupEnds? || e.BackupDropped? || e.ClaimCollected?
  }

  // ---------------------------------------------------------------- claims

  predicate Expired(c: Claim, now: nat) {
    c.ttl.At? && c.unmounted.At? && c.ttl.t != 0 && !(now < c.unmounted.t + c.ttl.t)
  }

  // The claims that a new pod with index i may reuse.
  predicate Reusable(c: Claim, i: nat, now: nat) {
    && c.pod == Some(i) && c.unmounted.At? && c.ttl.At?
    && (c.ttl.t == 0 || now < c.unmounted.t + c.ttl.t)
  }

  predicate Mounts(w: World, i: nat, c: nat) {
    i in w.pods && w.pods[i].claim == c
  }

  // The claims that the collector may delete.
  predicate Collectable(w: World, c: nat) {
    && c in w.claims && Expired(w.claims[c], w.now)
    && w.claims[c].pod.Some? && !Mounts(w, w.claims[c].pod.value, c)
  }

  // r is what getPersistentVolumeClaim finds for index i: the most recently created reusable claim, if any.
  ghost predicate IsPick(claims: map<nat, Claim>, now: nat, i: nat, r: Option<nat>) {
    match r
    case None => forall c | c in claims :: !Reusable(claims[c], i, now)
    case Some(c) =>
      && c in claims && Reusable(claims[c], i, now)
      && forall d | d in claims && Reusable(claims[d], i, now) :: claims[d].created <= claims[c].created
  }

  // ---------------------------------------------------------------- guards

  // The upgrade that a cluster object calls for; its versions must parse.
  ghost predicate IsUpgradeOf(o: Object, upgrade: Option<VersionUpgrade>) {
    && (upgrade.Some? <==> o.NeedsUpgrade())
    && (upgrade.Some? ==> Parse(o.version) == Ok(upgrade.value.source)
                          && Parse(o.spec.version) == Ok(upgrade.value.target))
  }

  predicate Upgrading(w: World) {
    w.past.job.Working? && w.past.job.upgrade.Some?
  }

  // The source and the target of the upgrade that the snapshot asks for, which name its backup.
  function BackupKey(w: World): (string, string)
    requires w.past.job.Working?
  {
    (w.past.job.snapshot.version, w.past.job.snapshot.spec.version)
  }

  // The strategy for the upgrade is to recreate the volume claims.
  predicate NeedsFreshClaim(upgrade: Option<VersionUpgrade>) {
    upgrade.Some? && upgrade.value.GetStrategy() == Ok(To42XYStrategy)
  }

  // A reconcile that has begun with a backup announced may see that backup with the given verdict: the lister may still
  // show one that has ended and is gone.
  predicate BackupIs(w: World, v: Verdict) {
    && Upgrading(w) && w.past.job.snapshot.annotation == BackupRunning
    && match v
       case Finished => BackupKey(w) in w.past.done
       case Failed => BackupKey(w) in w.past.spoilt
       case Pending => BackupKey(w) in w.backups && w.backups[BackupKey(w)] == Pending
  }

  predicate EndsWith(log: seq<Condition>, c: Condition) {
    |log| > 0 && log[|log| - 1] == c
  }

  // The signals the code can send: the annotation each leaves and the conditions it adds.
  predicate SignalEnabled(w: World, annotation: Annotation, added: seq<Condition>) {
    match (w.obj.annotation, annotation)
    case (Unannotated, BackupRunning) =>
      added == [AutoBackupStarted] && Upgrading(w) && w.past.job.snapshot.annotation == Unannotated
    case (BackupRunning, BackupRunning) =>
      || (added == [AutoBackupFinished] && BackupIs(w, Finished))
      || (added == [AutoBackupFailed] && BackupIs(w, Failed))
    case (BackupRunning, UpgradeRunning) =>
      added == [UpgradeStarted] && BackupIs(w, Finished) && EndsWith(w.obj.conditions, AutoBackupFinished)
    case (BackupRunning, UpgradeBroken) =>
      && BackupIs(w, Failed)
      && (added == [AutoBackupFailed, UpgradeFailed]
          || (added == [UpgradeFailed] && EndsWith(w.obj.conditions, AutoBackupFailed)))
    case (UpgradeRunning, Unannotated) =>
      added == [UpgradeFinished] && w.past.completing
    case _ => false
  }

  predicate ReasonHolds(w: World, i: nat, reason: Reason) {
    && w.past.job.Working? && i in w.pods
    && match reason
       case InFailure => w.pods[i].failed
       case Surplus => w.past.job.snapshot.spec.nodeCount <= i
       case OffVersion => Upgrading(w) && w.pods[i].build != w.past.job.snapshot.spec.version
       case OffConfig => !Upgrading(w) && w.pods[i].hash != w.past.hash
       case OffSize => !Upgrading(w) && w.pods[i].hash == w.past.hash
  }

  // The pod's image tag or its server names the version under reconciliation.
  predicate OnTarget(w: World, i: nat)
    requires w.past.job.Working? && i in w.pods
  {
    w.pods[i].image == w.past.job.snapshot.spec.version || w.pods[i].build == w.past.job.snapshot.spec.version
  }

  // A pod may be created for the index in focus, and only with the annotation that an upgrade needs.
  predicate MayCreate(w: World) {
    && w.past.job.Working? && |w.past.job.snapshot.spec.namespaces| == 1
    && w.past.focus.Some? && w.past.focus.value < w.past.job.snapshot.spec.nodeCount && w.past.focus.value !in w.pods
    && !w.past.completing && w.past.cleared == None
    && (Upgrading(w) ==> w.obj.annotation == UpgradeRunning)
  }

  // Backups are created right after the annotation has been set, and once.
  predicate MayCreateBackup(w: World) {
    && Upgrading(w) && w.past.job.snapshot.annotation == Unannotated && w.obj.annotation == BackupRunning
    && BackupKey(w) !in w.backups && !w.past.requested && w.past.job.snapshot.spec.backupSpec.Some?
  }

  predicate MaySweep(w: World) {
    && w.past.job.Working? && w.past.start.None? && w.past.cleared == None && !w.past.completing
    && (Upgrading(w) ==> w.obj.annotation == UpgradeRunning)
  }

  // The pods that were there when the sweep began, and that are wanted, must all be back before it moves on, but for
  // those that were lost meanwhile.
  predicate MayFocus(w: World) {
    && w.past.job.Working? && w.past.start.Some? && w.past.held == Nothing && w.past.cleared == None
    && (forall j | j in w.past.start.value && j < w.past.job.snapshot.spec.nodeCount :: j in w.pods || j in w.past.lost)
  }

  // A pod that has not failed is deleted only once it takes no part in migrations.
  predicate MayClear(w: World, i: nat, reason: Reason) {
    && w.past.focus == Some(i) && w.past.held == Nothing && !w.past.completing && w.past.cleared == None
    && ReasonHolds(w, i, reason)
    && (reason == InFailure || w.past.settled == Some(i))
  }

  predicate IsCleared(w: World, i: nat) {
    && w.past.cleared.Some? && w.past.cleared.value.index == i && w.past.held == Nothing
    && (i in w.pods ==> w.pods[i].claim == w.past.cleared.value.claim)
  }

  // The claim is marked even if the pod has been lost since it was cleared.
  predicate MayMark(w: World, i: nat) {
    IsCleared(w, i) && w.past.cleared.value.claim in w.claims
  }

  predicate MayDelete(w: World, i: nat) {
    && IsCleared(w, i)
    && (w.past.cleared.value.claim in w.claims ==> w.claims[w.past.cleared.value.claim].unmounted.At?)
  }

  // The strategy is asked for only where a healthy pod has been found and replaced.
  predicate WantsFreshClaim(w: World) {
    w.past.job.Working? && NeedsFreshClaim(w.past.job.upgrade) && w.past.healthy
  }

  ghost predicate MayCreateClaim(w: World) {
    && MayCreate(w) && w.past.held == Nothing
    && (WantsFreshClaim(w) || IsPick(w.claims, w.now, w.past.focus.value, None))
  }

  ghost predicate MayMount(w: World, c: nat) {
    && MayCreate(w) && w.past.held == Nothing
    && !WantsFreshClaim(w) && IsPick(w.claims, w.now, w.past.focus.value, Some(c))
  }

  predicate MayCreatePod(w: World) {
    MayCreate(w) && w.past.held != Nothing && w.past.held.claim in w.claims
  }

  predicate MaySetStatus(w: World) {
    && w.past.job.Working? && !w.past.completing && w.past.held == Nothing
    && (Upgrading(w) ==> w.obj.annotation == UpgradeRunning)
    && (forall i | 0 <= i < w.past.job.snapshot.spec.nodeCount ::
          i in w.past.lost || (i in w.pods && (Upgrading(w) ==> OnTarget(w, i))))
  }

  ghost predicate Enabled(w: World, e: Event) {
    match e
    case Tick(t) => w.now <= t
    case PodFails(i) => i in w.pods
    case PodLost(i) => i in w.pods
    case SpecUpdated(spec) => Admits(w.obj.spec, spec)
    case BackupEnds(key, ok) => key in w.backups && w.backups[key] == Pending
    case BackupDropped(key) => key in w.backups
    case ClaimCollected(c) => Collectable(w, c)
    case Begin(upgrade) => w.obj.annotation != UpgradeBroken && IsUpgradeOf(w.obj, upgrade)
    case Signalled(annotation, added, whole) => SignalEnabled(w, annotation, added)
    case BackupCreated => MayCreateBackup(w)
    case Sweep(hash) => MaySweep(w)
    case Focus(i) => MayFocus(w)
    case Settled(i) => w.past.focus == Some(i) && i in w.pods
    case Cleared(i, reason) => MayClear(w, i, reason)
    case ClaimMarked(i) => MayMark(w, i)
    case PodDeleted(i) => MayDelete(w, i) && i in w.pods
    case ClaimCreated => MayCreateClaim(w)
    case ClaimMounted(c) => MayMount(w, c)
    case PodCreated(build) => MayCreatePod(w)
    case StatusSet => MaySetStatus(w)
  }

  // ---------------------------------------------------------------- effects

  function Mark(claims: map<nat, Claim>, c: nat, now: nat): map<nat, Claim>
    requires c in claims
  {
    claims[c := claims[c].(unmounted := At(Rfc3339(now)))]
  }

  function Unmark(claims: map<nat, Claim>, c: nat): map<nat, Claim>
    requires c in claims
  {
    claims[c := claims[c].(unmounted := Absent)]
  }

  function NewClaim(pod: Option<nat>, namespace: NamespaceSpec, created: nat): Claim {
    Claim(pod, namespace.name, At(namespace.storage.Ttl()), Absent, created)
  }

  function NewPod(spec: Spec, claim: nat, claimLabel: string, build: string, hash: string): Pod
    requires |spec.namespaces| == 1
  {
    Pod(claim, spec.namespaces[0].name, claimLabel, spec.version, build, hash, false)
  }

  ghost function Apply(w: World, e: Event): World
    requires Enabled(w, e)
  {
    match e
    case Tick(t) => w.(now := t)
    case PodFails(i) => w.(pods := w.pods[i := w.pods[i].(failed := true)])
    case PodLost(i) => w.(pods := w.pods - {i}, past := w.past.(lost := w.past.lost + {i}))
    case SpecUpdated(spec) => w.(obj := w.obj.(spec := spec))
    case BackupEnds(key, ok) =>
      w.(backups := w.backups[key := if ok then Finished else Failed],
         past := if ok then w.past.(done := w.past.done + {key}) else w.past.(spoilt := w.past.spoilt + {key}))
    case BackupDropped(key) => w.(backups := w.backups - {key})
    case ClaimCollected(c) => w.(claims := w.claims - {c})
    case Begin(upgrade) =>
      w.(past := NewJob(Working(w.obj, upgrade), w.past.last, w.past.done, w.past.spoilt))
    case Signalled(annotation, added, whole) =>
      w.(obj := w.obj.(annotation := annotation,
                       conditions := if whole then w.obj.conditions + added else w.obj.conditions),
         past := w.past.(completing := false))
    case BackupCreated =>
      w.(backups := w.backups[BackupKey(w) := Pending], past := w.past.(requested := true))
    case Sweep(hash) => w.(past := w.past.(start := Some(w.pods.Keys), hash := hash))
    case Focus(i) =>
      var healthy := i in w.pods && !w.pods[i].failed;
      w.(past := w.past.(focus := Some(i), healthy := healthy, settled := None))
    case Settled(i) => w.(past := w.past.(settled := Some(i)))
    case Cleared(i, reason) => w.(past := w.past.(cleared := Some(Clearance(i, reason, w.pods[i].claim))))
    case ClaimMarked(i) => w.(claims := Mark(w.claims, w.past.cleared.value.claim, w.now))
    case PodDeleted(i) => w.(pods := w.pods - {i}, past := w.past.(settled := None, cleared := None))
    case ClaimCreated =>
      var namespace := w.past.job.snapshot.spec.namespaces[0];
      w.(claims := w.claims[w.next := NewClaim(w.past.focus, namespace, w.next)],
         next := w.next + 1,
         past := w.past.(held := Fresh(w.next)))
    case ClaimMounted(c) =>
      w.(claims := Unmark(w.claims, c), past := w.past.(held := Reused(c)))
    case PodCreated(build) =>
      var i, c := w.past.focus.value, w.past.held.claim;
      w.(pods := w.pods[i := NewPod(w.past.job.snapshot.spec, c, w.claims[c].ns, build, w.past.hash)],
         past := w.past.(settled := None, held := Nothing,
                         last := w.past.last[i := c], lost := w.past.lost - {i}))
    case StatusSet =>
      w.(obj := w.obj.(version := w.past.job.snapshot.spec.version),
         past := w.past.(completing := Upgrading(w)))
  }

  // ---------------------------------------------------------------- runs

  // A new cluster object, before the operator has seen it. Of what admission guarantees, only the single namespace
  // is needed.
  ghost predicate Genesis(w: World) {
    && |w.obj.spec.namespaces| == 1
    && w.obj == Object(w.obj.spec, Unannotated, "", [])
    && w == World(w.now, map[], map[], 0, w.obj, map[], NewJob(Idle, map[], {}, {}))
  }

  ghost predicate Steps(worlds: seq<World>, events: seq<Event>) {
    && |worlds| == |events| + 1
    && (forall k {:trigger events[k]} | 0 <= k < |events| ::
          Enabled(worlds[k], events[k]) && worlds[k + 1] == Apply(worlds[k], events[k]))
  }

  ghost predicate IsRun(worlds: seq<World>, events: seq<Event>) {
    Steps(worlds, events) && Genesis(worlds[0])
  }
}
