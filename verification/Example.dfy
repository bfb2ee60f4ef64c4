// Complete runs of a cluster of one node, in the order of the code, that show where guarantees end.
module Example {
  import opened Wrappers
  import opened Text
  import opened Versioning
  import opened Upgrades
  import opened Admission
  import opened World
  import opened Runs
  import opened Protocol
  import opened Stalls
  import opened Continuity

  // ---------------------------------------------------------------- specs

  const NAMESPACE: NamespaceSpec := NamespaceSpec("data", Some(1), None, None, Storage(File, "1G", None, None, None))

  // The spec with the version that stands k-th in the list of supported versions.
  function Sample(k: nat): Spec
    requires k < |RELEASES|
  {
    Spec(1, Release(k).Print(), [NAMESPACE], Some(BackupSpec(None, "bucket", "secret")), "")
  }

  lemma SampleParses(k: nat)
    requires k < |RELEASES|
    ensures Parse(Sample(k).version) == Ok(Release(k)) && Release(k).IsSupported() && Sample(k).version != ""
  {
    hide Parse;
    ReleasesMatchTexts();
    SmallVersionPrints(RELEASES[k].0, RELEASES[k].1);
    ParsePrint(Release(k));
    ContainsIsMembership(SUPPORTED_VERSIONS, Release(k).Print());
  }

  lemma SampleIsValid(k: nat)
    requires k < |RELEASES|
    ensures ValidSpec(Sample(k))
  {
    hide Parse;
    SampleParses(k);
  }

  lemma SampleUpgrades(j: nat, k: nat)
    requires j < k < |RELEASES| && RELEASES[j].0 < RELEASES[k].0
    ensures Admits(Sample(j), Sample(k)) && Sample(j).version != Sample(k).version
    ensures forall o: Object | o.version == Sample(j).version && o.spec == Sample(k) ::
              IsUpgradeOf(o, Some(VersionUpgrade(Release(j), Release(k))))
  {
    hide Parse;
    SampleParses(j);
    SampleParses(k);
    SampleIsValid(k);
    NamespaceMapOfOne([NAMESPACE]);
  }

  // ---------------------------------------------------------------- deployment

  function Start(s: Spec): World {
    World(0, map[], map[], 0, Object(s, Unannotated, "", []), map[], NewJob(Idle, map[], {}, {}))
  }

  predicate OneNode(s: Spec) {
    s.nodeCount == 1 && |s.namespaces| == 1
  }

  // The reconcile has begun to work on the one pod.
  function Deploying(s: Spec): World {
    Start(s).(past := Start(s).past.(job := Working(Start(s).obj, None), start := Some({}), focus := Some(0)))
  }

  lemma ReachesDeploying(s: Spec)
    requires OneNode(s)
    ensures Reaches(Start(s), Deploying(s))
  {
    hide Reaches;
    var w1 := Apply(Start(s), Begin(None));
    var w2 := Apply(w1, Sweep(""));
    ReachesSelf(Start(s));
    ReachesNext(Start(s), Start(s), Begin(None));
    ReachesNext(Start(s), w1, Sweep(""));
    ReachesNext(Start(s), w2, Focus(0));
    assert w2.pods.Keys == {};
    assert Apply(w2, Focus(0)) == Deploying(s);
  }

  function FirstClaim(s: Spec): Claim
    requires |s.namespaces| == 1
  {
    NewClaim(Some(0), s.namespaces[0], 0)
  }

  function PodOf(s: Spec): Pod
    requires |s.namespaces| == 1
  {
    NewPod(s, 0, s.namespaces[0].name, s.version, "")
  }

  // The pod is there.
  function PodThere(s: Spec): World
    requires |s.namespaces| == 1
  {
    Deploying(s).(pods := map[0 := PodOf(s)], claims := map[0 := FirstClaim(s)], next := 1,
                  past := Deploying(s).past.(last := map[0 := 0]))
  }

  lemma ReachesPodThere(s: Spec)
    requires OneNode(s)
    ensures Reaches(Start(s), PodThere(s))
  {
    hide Reaches;
    var w := Apply(Deploying(s), ClaimCreated);
    ReachesDeploying(s);
    ReachesNext(Start(s), Deploying(s), ClaimCreated);
    ReachesNext(Start(s), w, PodCreated(s.version));
    assert Apply(w, PodCreated(s.version)) == PodThere(s);
  }

  // The cluster is deployed and its status says so.
  function Deployed(s: Spec): World
    requires |s.namespaces| == 1
  {
    PodThere(s).(obj := Object(s, Unannotated, s.version, []))
  }

  lemma ReachesDeployed(s: Spec)
    requires OneNode(s)
    ensures Reaches(Start(s), Deployed(s))
  {
    hide Reaches;
    ReachesPodThere(s);
    ReachesNext(Start(s), PodThere(s), StatusSet);
    assert Apply(PodThere(s), StatusSet) == Deployed(s);
  }

  // ---------------------------------------------------------------- an upgrade

  // The spec t follows s, with another version, and calls for the upgrade u.
  ghost predicate Hop(s: Spec, t: Spec, u: VersionUpgrade) {
    && OneNode(s) && t.nodeCount == 1 && t.namespaces == s.namespaces && s.version != t.version
    && s.namespaces[0].storage.claimTtl == None && t.backupSpec.Some?
    && Admits(s, t) && IsUpgradeOf(Object(t, Unannotated, s.version, []), Some(u))
  }

  // The spec t has been admitted, and the reconcile on it has announced the backup.
  function Announced(s: Spec, t: Spec, u: VersionUpgrade): World
    requires |s.namespaces| == 1
  {
    Deployed(s).(obj := Object(t, BackupRunning, s.version, [AutoBackupStarted]),
                 past := NewJob(Working(Object(t, Unannotated, s.version, []), Some(u)), map[0 := 0], {}, {}))
  }

  lemma ReachesAnnounced(s: Spec, t: Spec, u: VersionUpgrade)
    requires Hop(s, t, u)
    ensures Reaches(Start(s), Announced(s, t, u))
  {
    hide Reaches, Admits, Parse;
    var w1 := Apply(Deployed(s), SpecUpdated(t));
    var w2 := Apply(w1, Begin(Some(u)));
    var announcement := Signalled(BackupRunning, [AutoBackupStarted], true);
    ReachesDeployed(s);
    ReachesNext(Start(s), Deployed(s), SpecUpdated(t));
    ReachesNext(Start(s), w1, Begin(Some(u)));
    ReachesNext(Start(s), w2, announcement);
    assert [] + [AutoBackupStarted] == [AutoBackupStarted];
    assert Apply(w2, announcement) == Announced(s, t, u);
  }

  // The backup has finished, and the next reconcile has begun.
  function BackedUpOnce(s: Spec, t: Spec, u: VersionUpgrade): World
    requires |s.namespaces| == 1
  {
    var w := Announced(s, t, u);
    w.(backups := map[(s.version, t.version) := Finished],
       past := w.past.(job := Working(w.obj, Some(u)), done := {(s.version, t.version)}))
  }

  lemma ReachesBackedUp(s: Spec, t: Spec, u: VersionUpgrade)
    requires Hop(s, t, u)
    ensures Reaches(Start(s), BackedUpOnce(s, t, u))
  {
    hide Reaches, Admits, Parse;
    var end := BackupEnds((s.version, t.version), true);
    var w1 := Apply(Announced(s, t, u), BackupCreated);
    var w2 := Apply(w1, end);
    ReachesAnnounced(s, t, u);
    ReachesNext(Start(s), Announced(s, t, u), BackupCreated);
    ReachesNext(Start(s), w1, end);
    ReachesNext(Start(s), w2, Begin(Some(u)));
    assert Apply(w2, Begin(Some(u))) == BackedUpOnce(s, t, u);
  }

  const UPGRADE_LOG := [AutoBackupStarted, AutoBackupFinished, UpgradeStarted]

  // The upgrade of the pods has begun.
  function UpgradeBegun(s: Spec, t: Spec, u: VersionUpgrade): World
    requires |s.namespaces| == 1
  {
    var w := BackedUpOnce(s, t, u);
    w.(obj := Object(t, UpgradeRunning, s.version, UPGRADE_LOG), past := w.past.(start := Some({0})))
  }

  lemma ReachesUpgrade(s: Spec, t: Spec, u: VersionUpgrade)
    requires Hop(s, t, u)
    ensures Reaches(Start(s), UpgradeBegun(s, t, u))
  {
    hide Reaches, Admits, IsUpgradeOf;
    var first := Signalled(BackupRunning, [AutoBackupFinished], true);
    var second := Signalled(UpgradeRunning, [UpgradeStarted], true);
    var w1 := Apply(BackedUpOnce(s, t, u), first);
    assert w1.obj.conditions == [AutoBackupStarted, AutoBackupFinished];
    var w2 := Apply(w1, second);
    assert w2.obj.conditions == UPGRADE_LOG && w2.pods.Keys == {0};
    ReachesBackedUp(s, t, u);
    ReachesNext(Start(s), BackedUpOnce(s, t, u), first);
    ReachesNext(Start(s), w1, second);
    ReachesNext(Start(s), w2, Sweep(""));
    assert Apply(w2, Sweep("")) == UpgradeBegun(s, t, u);
  }

  // The pod takes no part in migrations and has been cleared for deletion.
  function PodCleared(s: Spec, t: Spec, u: VersionUpgrade): World
    requires |s.namespaces| == 1
  {
    var w := UpgradeBegun(s, t, u);
    w.(past := w.past.(focus := Some(0), healthy := true, settled := Some(0),
                       cleared := Some(Clearance(0, OffVersion, 0))))
  }

  lemma ReachesPodCleared(s: Spec, t: Spec, u: VersionUpgrade)
    requires Hop(s, t, u)
    ensures Reaches(Start(s), PodCleared(s, t, u))
  {
    hide Reaches, Admits, IsUpgradeOf;
    var w1 := Apply(UpgradeBegun(s, t, u), Focus(0));
    var w2 := Apply(w1, Settled(0));
    ReachesUpgrade(s, t, u);
    ReachesNext(Start(s), UpgradeBegun(s, t, u), Focus(0));
    ReachesNext(Start(s), w1, Settled(0));
    ReachesNext(Start(s), w2, Cleared(0, OffVersion));
    assert Apply(w2, Cleared(0, OffVersion)) == PodCleared(s, t, u);
  }

  // Its claim is marked and the pod is gone.
  function PodGone(s: Spec, t: Spec, u: VersionUpgrade): World
    requires |s.namespaces| == 1
  {
    var w := PodCleared(s, t, u);
    w.(pods := map[], claims := map[0 := FirstClaim(s).(unmounted := At(0))],
       past := w.past.(settled := None, cleared := None))
  }

  lemma ReachesPodGone(s: Spec, t: Spec, u: VersionUpgrade)
    requires Hop(s, t, u)
    ensures Reaches(Start(s), PodGone(s, t, u))
  {
    hide Reaches, Admits, IsUpgradeOf;
    var w := Apply(PodCleared(s, t, u), ClaimMarked(0));
    ReachesPodCleared(s, t, u);
    ReachesNext(Start(s), PodCleared(s, t, u), ClaimMarked(0));
    ReachesNext(Start(s), w, PodDeleted(0));
    assert Apply(w, PodDeleted(0)) == PodGone(s, t, u);
  }

  // From a world where the pod is gone, its claim is found again and the pod created on it.
  function Replaced(w: World, s: Spec, t: Spec): World
    requires |s.namespaces| == 1 && |t.namespaces| == 1
  {
    w.(pods := map[0 := PodOf(t)], claims := map[0 := FirstClaim(s)])
  }

  lemma ReachesReplaced(v: World, w: World, s: Spec, t: Spec)
    requires OneNode(t) && t.namespaces == s.namespaces && s.namespaces[0].storage.claimTtl == None
    requires w.claims == map[0 := FirstClaim(s).(unmounted := At(0))] && w.pods == map[] && w.now == 0
    requires MayCreate(w) && w.past.focus == Some(0) && w.past.job.snapshot.spec == t && !WantsFreshClaim(w)
    requires w.past.held == Nothing && w.past.last == map[0 := 0] && w.past.lost == {}
    requires w.past.cleared == None && w.past.settled == None && w.past.hash == ""
    requires Reaches(v, w)
    ensures Reaches(v, Replaced(w, s, t))
  {
    hide Reaches, WantsFreshClaim;
    var w1 := Apply(w, ClaimMounted(0));
    ReachesNext(v, w, ClaimMounted(0));
    ReachesNext(v, w1, PodCreated(t.version));
    assert Apply(w1, PodCreated(t.version)) == Replaced(w, s, t);
  }

  // ---------------------------------------------------------------- an upgrade without backup

  // The status has the new version; the annotation still says that the upgrade runs.
  function CutShort(s: Spec, t: Spec, u: VersionUpgrade): World
    requires |s.namespaces| == 1 && |t.namespaces| == 1
  {
    var w := Replaced(PodGone(s, t, u), s, t);
    w.(obj := w.obj.(version := t.version), past := w.past.(completing := true))
  }

  lemma ReachesCut(s: Spec, t: Spec, u: VersionUpgrade)
    requires Hop(s, t, u) && !NeedsFreshClaim(Some(u))
    ensures Reaches(Start(s), CutShort(s, t, u))
  {
    hide Reaches, Admits, IsUpgradeOf, NeedsFreshClaim;
    ReachesPodGone(s, t, u);
    ReachesReplaced(Start(s), PodGone(s, t, u), s, t);
    var w := Replaced(PodGone(s, t, u), s, t);
    ReachesNext(Start(s), w, StatusSet);
    assert Apply(w, StatusSet) == CutShort(s, t, u);
  }

  lemma SampleText(k: nat)
    requires k < |RELEASES|
    ensures Sample(k) == Spec(1, SUPPORTED_VERSIONS[k], [NAMESPACE], Sample(k).backupSpec, Sample(k).scheduling)
  {
    hide Small, Itoa;
    ReleasesMatchTexts();
    SmallVersionPrints(RELEASES[k].0, RELEASES[k].1);
  }

  lemma SampleNames()
    ensures Sample(0).version == "4.0.0.4" && Sample(3).version == "4.1.0.1" && Sample(5).version == "4.2.0.3"
  {
    hide Sample;
    SampleText(0);
    SampleText(3);
    SampleText(5);
  }

  // The sample specs fit the runs above.
  lemma SamplesUpgrade(j: nat, k: nat) returns (u: VersionUpgrade)
    requires j < k < |RELEASES| && RELEASES[j].0 < RELEASES[k].0
    ensures u == VersionUpgrade(Release(j), Release(k)) && u.IsValid() && Hop(Sample(j), Sample(k), u)
    ensures forall o: Object | o.version == Sample(j).version && o.spec == Sample(k) :: IsUpgradeOf(o, Some(u))
  {
    hide Parse, Contains;
    u := VersionUpgrade(Release(j), Release(k));
    SampleParses(j);
    SampleParses(k);
    SampleUpgrades(j, k);
  }

  lemma GoesOnUnbacked(s: Spec, t: Spec, u: VersionUpgrade, next: Spec, v: VersionUpgrade)
    returns (worlds: seq<World>, events: seq<Event>, k: nat)
    requires Hop(s, t, u) && !NeedsFreshClaim(Some(u))
    requires NextUpgrade(CutShort(s, t, u), next, v)
    ensures IsRun(worlds, events) && worlds[0] == Start(s)
    ensures k < |events| && events[k].Sweep? && LeavesVersion(worlds[k], events[k])
    ensures !BackedUp(worlds[k], worlds[k].obj.version)
    ensures worlds[k].pods == CutShort(s, t, u).pods && worlds[k].obj == CutShort(s, t, u).obj.(spec := next)
  {
    hide Enabled, Apply, Hop, NextUpgrade, LeavesVersion, BackedUp, NeedsFreshClaim;
    OneNamespace(s, t, u);
    ReachesCut(s, t, u);
    var before, history := RunTo(s, CutShort(s, t, u));
    worlds, events, k := StaleAnnotationSkipsBackup(before, history, next, v);
    assert worlds[0] == before[0];
  }

  lemma OneNamespace(s: Spec, t: Spec, u: VersionUpgrade)
    requires Hop(s, t, u)
    ensures |s.namespaces| == 1 && |t.namespaces| == 1
    ensures CutShort(s, t, u).obj == Object(t, UpgradeRunning, t.version, UPGRADE_LOG)
    ensures CutShort(s, t, u).pods == map[0 := PodOf(t)]
  {
    hide Admits, IsUpgradeOf;
  }

  lemma SampleKeepsClaims()
    ensures !NeedsFreshClaim(Some(VersionUpgrade(Release(0), Release(3))))
  {
    hide Contains;
  }

  lemma ComesAfter(s: Spec, t: Spec, u: VersionUpgrade, next: Spec, v: VersionUpgrade)
    requires Hop(s, t, u) && Hop(t, next, v) && t.version != ""
    requires forall o: Object | o.version == t.version && o.spec == next :: IsUpgradeOf(o, Some(v))
    ensures |s.namespaces| == 1 && |t.namespaces| == 1 && NextUpgrade(CutShort(s, t, u), next, v)
  {
    hide Admits, IsUpgradeOf;
    OneNamespace(s, t, u);
  }

  // From the admission of 4.0.0.4 to a world in which the upgrade of the pods to 4.2.0.3 begins although 4.1.0.1,
  // which they run and the status names, has never been backed up: the upgrade before was cut short between the patch
  // of the status and the removal of the annotation.
  lemma UpgradeWithoutBackup() returns (worlds: seq<World>, events: seq<Event>, k: nat)
    ensures IsRun(worlds, events) && worlds[0].obj.spec.version == "4.0.0.4"
    ensures k < |events| && events[k].Sweep? && LeavesVersion(worlds[k], events[k])
    ensures var w := worlds[k];
            && w.obj.version == "4.1.0.1" && w.obj.spec.version == "4.2.0.3"
            && 0 in w.pods && w.pods[0].build == "4.1.0.1" && !BackedUp(w, w.obj.version)
  {
    SampleNames();
    var u := SamplesUpgrade(0, 3);
    var v := SamplesUpgrade(3, 5);
    SampleKeepsClaims();
    SampleParses(3);
    ComesAfter(Sample(0), Sample(3), u, Sample(5), v);
    OneNamespace(Sample(0), Sample(3), u);
    hide Enabled, Apply, Admits, IsUpgradeOf, Sample, LeavesVersion, BackedUp, Hop, IsRun, NextUpgrade, CutShort;
    worlds, events, k := GoesOnUnbacked(Sample(0), Sample(3), u, Sample(5), v);
  }

  // ---------------------------------------------------------------- an upgrade that is stuck

  lemma AnnouncedAlone(s: Spec, t: Spec, u: VersionUpgrade) returns (w': World)
    requires Hop(s, t, u)
    ensures Follows(Announced(s, t, u), [Begin(Some(u))], w')
    ensures w'.obj == Object(t, BackupRunning, s.version, [AutoBackupStarted]) && Known(w') == {}
  {
    hide Admits, Parse;
    w' := Apply(Announced(s, t, u), Begin(Some(u)));
    FollowsOnce(Announced(s, t, u), Begin(Some(u)));
  }

  lemma GetsStuck(s: Spec, t: Spec, u: VersionUpgrade) returns (worlds: seq<World>, events: seq<Event>)
    requires Hop(s, t, u)
    ensures IsRun(worlds, events) && worlds[0] == Start(s) && |events| > 0 && events[|events| - 1].Begin?
    ensures worlds[|events|].obj == Object(t, BackupRunning, s.version, [AutoBackupStarted])
    ensures Known(worlds[|events|]) == {}
    ensures !exists worlds', events', k :: GoesAhead(worlds, events, worlds', events', k)
  {
    OneNamespace(s, t, u);
    hide Enabled, Apply, Hop, GoesAhead, Announced, Follows;
    ReachesAnnounced(s, t, u);
    var before, history := RunTo(s, Announced(s, t, u));
    var w := AnnouncedAlone(s, t, u);
    worlds := ExtendRun(before, history, [Begin(Some(u))], w);
    events := history + [Begin(Some(u))];
    assert worlds[0] == before[0];
    BackupDecidesUpgrade(worlds, events);
  }

  // From the admission of 4.0.0.4 to a reconcile that has just begun and can do nothing, nor can any later one: the
  // one before was cut short between announcing the backup and creating it.
  lemma UpgradeGetsStuck() returns (worlds: seq<World>, events: seq<Event>)
    ensures IsRun(worlds, events) && |events| > 0 && events[|events| - 1].Begin?
    ensures worlds[|events|].obj == Object(Sample(3), BackupRunning, "4.0.0.4", [AutoBackupStarted])
    ensures Known(worlds[|events|]) == {} && Sample(3).version == "4.1.0.1"
    ensures !exists worlds', events', k :: GoesAhead(worlds, events, worlds', events', k)
  {
    SampleNames();
    var u := SamplesUpgrade(0, 3);
    hide Enabled, Apply, Hop, GoesAhead, IsRun, Sample, IsUpgradeOf;
    worlds, events := GetsStuck(Sample(0), Sample(3), u);
  }

  // ---------------------------------------------------------------- an old claim under the recreating strategy

  // The reconcile was cut short after deleting the pod; the next one has found it missing.
  function FoundMissing(s: Spec, t: Spec, u: VersionUpgrade): World
    requires |s.namespaces| == 1
  {
    var w := PodGone(s, t, u);
    w.(past := NewJob(Working(w.obj, Some(u)), w.past.last, w.past.done, w.past.spoilt).(
                 start := Some({}), focus := Some(0)))
  }

  lemma ReachesFoundMissing(s: Spec, t: Spec, u: VersionUpgrade)
    requires Hop(s, t, u)
    ensures Reaches(Start(s), FoundMissing(s, t, u))
  {
    hide Reaches, Admits, Parse;
    var w := PodGone(s, t, u);
    var w1 := Apply(w, Begin(Some(u)));
    var w2 := Apply(w1, Sweep(""));
    ReachesPodGone(s, t, u);
    ReachesNext(Start(s), w, Begin(Some(u)));
    ReachesNext(Start(s), w1, Sweep(""));
    ReachesNext(Start(s), w2, Focus(0));
    assert w1.pods.Keys == {};
    assert Apply(w2, Focus(0)) == FoundMissing(s, t, u);
  }

  lemma ReusesClaim(s: Spec, t: Spec, u: VersionUpgrade) returns (worlds: seq<World>, events: seq<Event>)
    requires Hop(s, t, u)
    ensures IsRun(worlds, events) && worlds[0] == Start(s)
    ensures worlds[|events|] == Replaced(FoundMissing(s, t, u), s, t)
  {
    hide Enabled, Apply, Admits, IsUpgradeOf, Reaches, NeedsFreshClaim;
    ReachesFoundMissing(s, t, u);
    ReachesReplaced(Start(s), FoundMissing(s, t, u), s, t);
    worlds, events := RunTo(s, Replaced(FoundMissing(s, t, u), s, t));
  }

  lemma SampleRecreates(u: VersionUpgrade)
    requires u == VersionUpgrade(Release(3), Release(5)) && u.IsValid()
    ensures NeedsFreshClaim(Some(u))
  {
    hide Contains, Parse, Itoa, Atoi, Split, Join;
  }

  // From the admission of 4.1.0.1 to a pod of 4.2.0.3 on the claim of its predecessor, although the strategy of the
  // upgrade is to recreate claims: the reconcile was cut short between deleting the pod and creating its claim.
  lemma RecreationReusesClaim() returns (worlds: seq<World>, events: seq<Event>)
    ensures IsRun(worlds, events) && worlds[0].obj.spec.version == "4.1.0.1"
    ensures var w := worlds[|events|];
            && w.past.job.Working? && NeedsFreshClaim(w.past.job.upgrade)
            && 0 in w.pods && w.pods[0].image == "4.2.0.3" && w.pods[0].claim == 0 && w.next == 1
            && w.obj.version == "4.1.0.1"
  {
    SampleNames();
    var u := SamplesUpgrade(3, 5);
    SampleRecreates(u);
    hide Enabled, Apply, Sample, Hop, NeedsFreshClaim, IsRun, IsUpgradeOf;
    worlds, events := ReusesClaim(Sample(3), Sample(5), u);
  }

  // ---------------------------------------------------------------- an old claim after a perfect upgrade

  // The pod has been replaced on a fresh claim, and the upgrade has been completed.
  function Upgraded(s: Spec, t: Spec, u: VersionUpgrade): World
    requires |s.namespaces| == 1 && |t.namespaces| == 1
  {
    var w := PodGone(s, t, u);
    w.(pods := map[0 := PodOf(t).(claim := 1)],
       claims := w.claims[1 := NewClaim(Some(0), t.namespaces[0], 1)], next := 2,
       obj := Object(t, Unannotated, t.version, UPGRADE_LOG + [UpgradeFinished]),
       past := w.past.(last := map[0 := 1]))
  }

  lemma ReachesFreshPod(s: Spec, t: Spec, u: VersionUpgrade) returns (w: World)
    requires Hop(s, t, u) && NeedsFreshClaim(Some(u))
    ensures |t.namespaces| == 1
    ensures w == Upgraded(s, t, u).(obj := PodGone(s, t, u).obj)
    ensures Reaches(Start(s), w)
  {
    hide Reaches, Admits, IsUpgradeOf, NeedsFreshClaim;
    var w0 := PodGone(s, t, u);
    var w1 := Apply(w0, ClaimCreated);
    ReachesPodGone(s, t, u);
    ReachesNext(Start(s), w0, ClaimCreated);
    ReachesNext(Start(s), w1, PodCreated(t.version));
    w := Apply(w1, PodCreated(t.version));
  }

  lemma ReachesUpgraded(s: Spec, t: Spec, u: VersionUpgrade)
    requires Hop(s, t, u) && NeedsFreshClaim(Some(u))
    ensures |t.namespaces| == 1 && Reaches(Start(s), Upgraded(s, t, u))
  {
    hide Reaches, Admits, IsUpgradeOf, NeedsFreshClaim;
    var finished := Signalled(Unannotated, [UpgradeFinished], true);
    var w := ReachesFreshPod(s, t, u);
    var w1 := Apply(w, StatusSet);
    ReachesNext(Start(s), w, StatusSet);
    ReachesNext(Start(s), w1, finished);
    assert Apply(w1, finished) == Upgraded(s, t, u);
  }

  // A node is lost with the pod, and the next reconcile finds the index empty.
  function AfterCrash(s: Spec, t: Spec, u: VersionUpgrade): World
    requires |s.namespaces| == 1 && |t.namespaces| == 1
  {
    var w := Upgraded(s, t, u);
    w.(pods := map[], past := NewJob(Working(w.obj, None), w.past.last, w.past.done, w.past.spoilt).(
                                start := Some({}), focus := Some(0)))
  }

  lemma ReachesAfterCrash(s: Spec, t: Spec, u: VersionUpgrade)
    requires Hop(s, t, u) && NeedsFreshClaim(Some(u))
    ensures |t.namespaces| == 1 && Reaches(Start(s), AfterCrash(s, t, u))
  {
    hide Reaches, Admits, NeedsFreshClaim, Parse;
    ReachesUpgraded(s, t, u);
    var w := Upgraded(s, t, u);
    var w1 := Apply(w, PodLost(0));
    var w2 := Apply(w1, Begin(None));
    var w3 := Apply(w2, Sweep(""));
    assert w2.pods.Keys == {};
    ReachesNext(Start(s), w, PodLost(0));
    ReachesNext(Start(s), w1, Begin(None));
    ReachesNext(Start(s), w2, Sweep(""));
    ReachesNext(Start(s), w3, Focus(0));
    assert Apply(w3, Focus(0)) == AfterCrash(s, t, u);
  }

  // Its claim was never marked, so that the claim from before the upgrade is found.
  function BackOnOldClaim(s: Spec, t: Spec, u: VersionUpgrade): World
    requires |s.namespaces| == 1 && |t.namespaces| == 1
  {
    var w := AfterCrash(s, t, u);
    w.(pods := map[0 := PodOf(t)], claims := w.claims[0 := FirstClaim(s)], past := w.past.(last := map[0 := 0]))
  }

  lemma ReachesBackOnOldClaim(s: Spec, t: Spec, u: VersionUpgrade)
    requires Hop(s, t, u) && NeedsFreshClaim(Some(u))
    ensures |t.namespaces| == 1 && Reaches(Start(s), BackOnOldClaim(s, t, u))
  {
    hide Reaches, Admits, IsUpgradeOf, NeedsFreshClaim;
    ReachesAfterCrash(s, t, u);
    var w := AfterCrash(s, t, u);
    assert IsPick(w.claims, w.now, 0, Some(0));
    var w1 := Apply(w, ClaimMounted(0));
    ReachesNext(Start(s), w, ClaimMounted(0));
    ReachesNext(Start(s), w1, PodCreated(t.version));
    assert Apply(w1, PodCreated(t.version)) == BackOnOldClaim(s, t, u);
  }

  lemma CrashBringsBack(s: Spec, t: Spec, u: VersionUpgrade) returns (worlds: seq<World>, events: seq<Event>)
    requires Hop(s, t, u) && NeedsFreshClaim(Some(u))
    ensures IsRun(worlds, events) && worlds[0] == Start(s)
    ensures EndsOnOldClaim(worlds[|events|], t)
  {
    hide Enabled, Apply, Admits, IsUpgradeOf, Reaches, NeedsFreshClaim, EndsOnOldClaim;
    ReachesBackOnOldClaim(s, t, u);
    EndsThere(s, t, u);
    worlds, events := RunTo(s, BackOnOldClaim(s, t, u));
  }

  // An upgrade to t has been completed, and the pod is on claim 0, although claim 1 was made for it.
  ghost predicate EndsOnOldClaim(w: World, t: Spec) {
    && w.obj == Object(t, Unannotated, t.version, UPGRADE_LOG + [UpgradeFinished])
    && w.past.job == Working(w.obj, None)
    && 0 in w.pods && w.pods[0].image == t.version && w.pods[0].claim == 0 && Orphan(w, 1)
  }

  lemma EndsThere(s: Spec, t: Spec, u: VersionUpgrade)
    requires OneNode(s) && OneNode(t)
    ensures EndsOnOldClaim(BackOnOldClaim(s, t, u), t)
  {
  }

  // From the admission of 4.1.0.1 to a pod of 4.2.0.3 on the claim that its predecessor had under 4.1.0.1. Nothing was
  // cut short: the upgrade recreated the claim and was completed; then the pod was lost, and the next reconcile, which
  // is no upgrade, replaced it. Its proper claim, 1, is left an orphan.
  lemma CrashBringsBackOldClaim() returns (worlds: seq<World>, events: seq<Event>)
    ensures IsRun(worlds, events) && worlds[0].obj.spec.version == "4.1.0.1"
    ensures EndsOnOldClaim(worlds[|events|], Sample(5)) && Sample(5).version == "4.2.0.3"
  {
    SampleNames();
    var u := SamplesUpgrade(3, 5);
    SampleRecreates(u);
    hide Enabled, Apply, Sample, Hop, NeedsFreshClaim, IsRun, IsUpgradeOf, EndsOnOldClaim;
    worlds, events := CrashBringsBack(Sample(3), Sample(5), u);
  }

  // ---------------------------------------------------------------- orphans

  lemma LeavesClaim(s: Spec) returns (w: World)
    requires OneNode(s)
    ensures Reaches(Start(s), w) && Orphan(w, 0) && w.pods == map[]
  {
    hide Reaches;
    ReachesDeploying(s);
    var w1 := Apply(Deploying(s), ClaimCreated);
    w := Apply(w1, Begin(None));
    ReachesNext(Start(s), Deploying(s), ClaimCreated);
    ReachesNext(Start(s), w1, Begin(None));
  }

  lemma LeavesUnmarked(s: Spec, t: Spec, u: VersionUpgrade) returns (w: World)
    requires Hop(s, t, u)
    ensures Reaches(Start(s), w) && Orphan(w, 0) && w.obj.annotation == UpgradeRunning
  {
    hide Reaches, Admits, Parse;
    ReachesPodCleared(s, t, u);
    var w1 := Apply(PodCleared(s, t, u), PodLost(0));
    w := Apply(w1, Begin(Some(u)));
    ReachesNext(Start(s), PodCleared(s, t, u), PodLost(0));
    ReachesNext(Start(s), w1, Begin(Some(u)));
    assert w.claims == map[0 := FirstClaim(s)];
  }

  lemma SampleIsOne(k: nat)
    requires k < |RELEASES|
    ensures OneNode(Sample(k)) && |Sample(k).namespaces| == 1
  {
  }

  // Two ways to an orphan besides losing a pod (CrashBringsBackOldClaim): the first reconcile is cut short between
  // creating the claim and creating the pod; and the pod is lost between being cleared for deletion and the marking of
  // its claim, and the reconcile is cut short.
  lemma CutsOrphanClaims() returns (a: seq<World>, aEvents: seq<Event>, b: seq<World>, bEvents: seq<Event>)
    ensures IsRun(a, aEvents) && Orphan(a[|aEvents|], 0) && a[|aEvents|].pods == map[]
    ensures IsRun(b, bEvents) && Orphan(b[|bEvents|], 0) && b[|bEvents|].obj.annotation == UpgradeRunning
  {
    var u := SamplesUpgrade(0, 3);
    SampleIsOne(0);
    hide Enabled, Apply, Sample, IsUpgradeOf, Reaches, Orphan, IsRun, Hop, OneNode;
    var v := LeavesClaim(Sample(0));
    a, aEvents := RunTo(Sample(0), v);
    var w := LeavesUnmarked(Sample(0), Sample(3), u);
    b, bEvents := RunTo(Sample(0), w);
  }

  lemma RunTo(s: Spec, w: World) returns (worlds: seq<World>, events: seq<Event>)
    requires |s.namespaces| == 1 && Reaches(Start(s), w)
    ensures IsRun(worlds, events) && worlds[0] == Start(s) && worlds[|events|] == w
  {
    hide Enabled, Apply;
    worlds, events :| Steps(worlds, events) && worlds[0] == Start(s) && worlds[|events|] == w;
  }

  // ---------------------------------------------------------------- the first status

  // The spec t has been admitted before the first reconcile got to its end; the next one finds the pod with the right
  // configuration, and sets the status.
  function Misled(s: Spec, t: Spec): World
    requires |s.namespaces| == 1
  {
    var w := PodThere(s);
    w.(obj := Object(t, Unannotated, t.version, []),
       past := w.past.(job := Working(Object(t, Unannotated, "", []), None),
                       start := Some({0}), focus := Some(0), healthy := true))
  }

  lemma MisledFromThere(v: World, s: Spec, t: Spec)
    requires OneNode(s) && t.nodeCount == 1
    requires Reaches(v, PodThere(s).(obj := Object(t, Unannotated, "", [])))
    ensures Reaches(v, Misled(s, t))
  {
    hide Reaches, Parse;
    var w := PodThere(s).(obj := Object(t, Unannotated, "", []));
    var w1 := Apply(w, Begin(None));
    var w2 := Apply(w1, Sweep(""));
    var w3 := Apply(w2, Focus(0));
    assert w1.pods.Keys == {0};
    ReachesNext(v, w, Begin(None));
    ReachesNext(v, w1, Sweep(""));
    ReachesNext(v, w2, Focus(0));
    ReachesNext(v, w3, StatusSet);
    assert Apply(w3, StatusSet) == Misled(s, t);
  }

  lemma ReachesMisled(s: Spec, t: Spec)
    requires OneNode(s) && t.nodeCount == 1 && Admits(s, t)
    ensures Reaches(Start(s), Misled(s, t))
  {
    hide Reaches, Admits;
    ReachesPodThere(s);
    ReachesNext(Start(s), PodThere(s), SpecUpdated(t));
    MisledFromThere(Start(s), s, t);
  }

  lemma RunsToMisled(s: Spec, t: Spec) returns (worlds: seq<World>, events: seq<Event>)
    requires OneNode(s) && t.nodeCount == 1 && Admits(s, t)
    ensures IsRun(worlds, events) && worlds[|events|] == Misled(s, t)
  {
    hide Enabled, Apply, Admits, Reaches;
    ReachesMisled(s, t);
    worlds, events := RunTo(s, Misled(s, t));
  }

  // The first status need not be truthful: it names the version of the spec, which was not an upgrade, whatever the
  // pod runs. (The configuration does not depend on the version, so that the pod has the right one.)
  lemma FirstStatusMisleads() returns (worlds: seq<World>, events: seq<Event>)
    ensures IsRun(worlds, events)
    ensures var w := worlds[|events|];
            && w.obj.version == w.obj.spec.version == "4.1.0.1" && w.obj.annotation == Unannotated
            && 0 in w.pods && w.pods[0].image == w.pods[0].build == "4.0.0.4"
  {
    SampleNames();
    SampleUpgrades(0, 3);
    hide Admits, Sample, IsRun, IsUpgradeOf;
    worlds, events := RunsToMisled(Sample(0), Sample(3));
  }

  // The version has been changed while there was no pod, but a reconcile on the old version was under way.
  function Halfway(s: Spec, t: Spec): World {
    Deploying(s).(obj := Object(t, Unannotated, "", []))
  }

  lemma MisledFromHalfway(s: Spec, t: Spec)
    requires OneNode(s) && t.nodeCount == 1
    ensures Reaches(Halfway(s, t), Misled(s, t))
  {
    hide Reaches, Parse;
    var w := Halfway(s, t);
    var w1 := Apply(w, ClaimCreated);
    var w2 := Apply(w1, PodCreated(s.version));
    ReachesSelf(w);
    ReachesNext(w, w, ClaimCreated);
    ReachesNext(w, w1, PodCreated(s.version));
    assert w2 == PodThere(s).(obj := w.obj);
    MisledFromThere(w, s, t);
  }

  lemma RunsThroughHalfway(s: Spec, t: Spec) returns (worlds: seq<World>, events: seq<Event>, j: nat)
    requires OneNode(s) && t.nodeCount == 1 && Admits(s, t)
    ensures IsRun(worlds, events) && j < |worlds|
    ensures worlds[j] == Halfway(s, t) && worlds[|events|] == Misled(s, t)
  {
    hide Enabled, Reaches, Admits;
    ReachesDeploying(s);
    SpecMayChange(s, t);
    ReachesNext(Start(s), Deploying(s), SpecUpdated(t));
    var before, history := RunTo(s, Halfway(s, t));
    MisledFromHalfway(s, t);
    worlds, events := GoesOn(before, history, Misled(s, t));
    j := |history|;
  }

  lemma SpecMayChange(s: Spec, t: Spec)
    requires Admits(s, t)
    ensures Enabled(Deploying(s), SpecUpdated(t)) && Apply(Deploying(s), SpecUpdated(t)) == Halfway(s, t)
  {
    hide Admits;
  }

  // Nor is it enough that there is no pod when the version is changed: a reconcile that is under way at that time still
  // creates one of the old version.
  lemma FirstStatusMisleadsInFlight() returns (worlds: seq<World>, events: seq<Event>, j: nat)
    ensures IsRun(worlds, events) && j < |worlds|
    ensures worlds[j].pods == map[] && worlds[j].obj.spec.version == "4.1.0.1" && worlds[j].past.job.Working?
    ensures var w := worlds[|events|];
            && w.obj.version == w.obj.spec.version == "4.1.0.1" && w.obj.annotation == Unannotated
            && 0 in w.pods && w.pods[0].image == w.pods[0].build == "4.0.0.4"
  {
    SampleNames();
    SampleUpgrades(0, 3);
    hide Admits, Sample, IsRun, IsUpgradeOf;
    worlds, events, j := RunsThroughHalfway(Sample(0), Sample(3));
  }

  // ---------------------------------------------------------------- an upgrade without a backup spec

  lemma AnnouncesWithoutPlace(s: Spec, t: Spec, u: VersionUpgrade) returns (w: World)
    requires Hop(s, t, u) && ValidSpec(t)
    ensures Reaches(Start(s), w) && w.past.job == Working(w.obj, Some(u)) && w.obj.spec == t.(backupSpec := None)
    ensures w.obj.annotation == Unannotated && Enabled(w, Signalled(BackupRunning, [AutoBackupStarted], true))
    ensures w.obj.NeedsUpgrade() && |s.namespaces| == 1
  {
    hide Reaches, Admits, Parse, ValidSpec;
    BackupSpecMayGo(t);
    var w1 := Apply(Deployed(s), SpecUpdated(t));
    var w2 := Apply(w1, SpecUpdated(t.(backupSpec := None)));
    w := Apply(w2, Begin(Some(u)));
    ReachesDeployed(s);
    ReachesNext(Start(s), Deployed(s), SpecUpdated(t));
    ReachesNext(Start(s), w1, SpecUpdated(t.(backupSpec := None)));
    ReachesNext(Start(s), w2, Begin(Some(u)));
  }

  // From the admission of 4.0.0.4 to a reconcile that announces a backup for which the spec has no place: the backup
  // spec was dropped once the new version had been admitted.
  lemma UpgradeWithoutPlace() returns (worlds: seq<World>, events: seq<Event>)
    ensures IsRun(worlds, events) && |events| > 0 && events[|events| - 1].Signalled?
    ensures var w := worlds[|events| - 1];
            && w.obj.annotation == Unannotated && w.obj.NeedsUpgrade()
            && w.past.job.Working? && w.past.job.snapshot.spec.backupSpec.None?
    ensures worlds[|events|].obj.annotation == BackupRunning
  {
    var u := SamplesUpgrade(0, 3);
    SampleIsValid(3);
    hide Sample, Reaches, Hop, IsUpgradeOf, ValidSpec, Admits, Enabled, Apply, IsRun;
    var w := AnnouncesWithoutPlace(Sample(0), Sample(3), u);
    worlds, events := AnnouncesAtLast(Sample(0), w);
  }

  lemma AnnouncesAtLast(s: Spec, w: World) returns (worlds: seq<World>, events: seq<Event>)
    requires |s.namespaces| == 1 && Reaches(Start(s), w)
    requires w.obj.annotation == Unannotated && Enabled(w, Signalled(BackupRunning, [AutoBackupStarted], true))
    requires w.past.job.Working? && w.past.job.snapshot == w.obj && w.past.job.upgrade.Some?
    ensures IsRun(worlds, events) && |events| > 0 && events[|events| - 1].Signalled?
    ensures worlds[|events| - 1] == w && worlds[|events|].obj.annotation == BackupRunning
  {
    hide Reaches;
    var e := Signalled(BackupRunning, [AutoBackupStarted], true);
    worlds, events := RunTo(s, w);
    FollowsOnce(w, e);
    worlds := ExtendRun(worlds, events, [e], Apply(w, e));
    events := events + [e];
  }

  // ---------------------------------------------------------------- a collectable claim that revives

  const MINUTE: nat := 60 * SECOND

  // The pod has failed, its claim has been marked, the reconcile was cut short, and a minute has passed since.
  function Lingering(s: Spec): World
    requires |s.namespaces| == 1
  {
    var w := Deployed(s);
    w.(now := MINUTE, pods := map[0 := PodOf(s).(failed := true)],
       claims := map[0 := FirstClaim(s).(unmounted := At(0))],
       past := NewJob(Working(w.obj, None), map[0 := 0], {}, {}).(start := Some({0}), focus := Some(0),
                                                              cleared := Some(Clearance(0, InFailure, 0))))
  }

  // A reconcile on the failed pod, up to its being cleared for deletion.
  lemma ReachesCleared(v: World, w: World, s: Spec) returns (w': World)
    requires Reaches(v, w) && |s.namespaces| == 1 && w.pods == map[0 := PodOf(s).(failed := true)]
    requires w.obj.annotation == Unannotated && w.obj.version == w.obj.spec.version
    requires w.past.last == map[0 := 0] && w.past.done == {} && w.past.spoilt == {}
    ensures w' == w.(past := NewJob(Working(w.obj, None), map[0 := 0], {}, {}).(
                               start := Some({0}), focus := Some(0), cleared := Some(Clearance(0, InFailure, 0))))
    ensures Reaches(v, w')
  {
    hide Reaches;
    var w1 := Apply(w, Begin(None));
    var w2 := Apply(w1, Sweep(""));
    assert w1.pods.Keys == {0};
    ReachesNext(v, w, Begin(None));
    ReachesNext(v, w1, Sweep(""));
    w' := ClearsFailed(v, w2, s);
  }

  lemma ClearsFailed(v: World, w: World, s: Spec) returns (w': World)
    requires Reaches(v, w) && |s.namespaces| == 1 && w.pods == map[0 := PodOf(s).(failed := true)]
    requires MayFocus(w) && !w.past.completing && !w.past.healthy && w.past.settled == None
    ensures w' == w.(past := w.past.(focus := Some(0), cleared := Some(Clearance(0, InFailure, 0)))) && Reaches(v, w')
  {
    hide Reaches;
    var w1 := Apply(w, Focus(0));
    ReachesNext(v, w, Focus(0));
    ReachesNext(v, w1, Cleared(0, InFailure));
    w' := Apply(w1, Cleared(0, InFailure));
  }

  lemma ReachesLingering(s: Spec)
    requires OneNode(s)
    ensures Reaches(Start(s), Lingering(s))
  {
    hide Reaches;
    ReachesDeployed(s);
    ReachesNext(Start(s), Deployed(s), PodFails(0));
    var w := ReachesCleared(Start(s), Apply(Deployed(s), PodFails(0)), s);
    var w1 := Apply(w, ClaimMarked(0));
    ReachesNext(Start(s), w, ClaimMarked(0));
    ReachesNext(Start(s), w1, Tick(MINUTE));
    assert Apply(w1, Tick(MINUTE)) == Lingering(s);
  }

  // From a deployed cluster to a claim that the collector may delete, and that may be reused after the next step: the
  // pod is lost while a second reconcile deletes it, and its claim is marked once more.
  lemma CollectableClaimRevives() returns (worlds: seq<World>, events: seq<Event>)
    ensures IsRun(worlds, events) && |events| > 0
    ensures Collectable(worlds[|events| - 1], 0)
    ensures 0 in worlds[|events|].claims && Reusable(worlds[|events|].claims[0], 0, worlds[|events|].now)
  {
    hide Reaches;
    var ns := NAMESPACE.(storage := NAMESPACE.storage.(claimTtl := Some(SECOND)));
    var s := Spec(1, "4.0.0.4", [ns], None, "");
    ReachesLingering(s);
    var w := ReachesCleared(Start(s), Lingering(s), s);
    ReachesNext(Start(s), w, PodLost(0));
    var w1 := Apply(w, PodLost(0));
    worlds, events := RunTo(s, w1);
    FollowsOnce(w1, ClaimMarked(0));
    worlds := ExtendRun(worlds, events, [ClaimMarked(0)], Apply(w1, ClaimMarked(0)));
    events := events + [ClaimMarked(0)];
  }
}
