// The reconciler's handling of single pods (pkg/reconciler/pod.go, pkg/reconciler/upgrades.go).
//
// Each method is cut short by every failing call. Interfere marks the points where the environment acts; there is
// none between looking a claim up and mounting it, nor within the patch of a cluster object.
module PodReconciler {
  import opened Wrappers
  import opened Upgrades
  import opened Admission
  import opened World
  import opened Store
  import opened Claims
  import opened Environment
  import opened Scaling
  import Volumes

  // No claim is in hand, and no pod is cleared for deletion.
  predicate AtRest(w: World) {
    w.past.held == Nothing && w.past.cleared == None
  }

  // The index in focus may be worked on.
  ghost predicate Focused(w: World, i: nat) {
    && w.past.job.Working? && |w.past.job.snapshot.spec.namespaces| == 1
    && w.past.focus == Some(i) && AtRest(w) && !w.past.completing
    && (Upgrading(w) ==> w.obj.annotation == UpgradeRunning)
  }

  // What ensurePods establishes for one index: during an upgrade, the target version; otherwise the configuration.
  ghost predicate Reached(w: World, i: nat, hash: string) {
    && w.past.job.Working? && i in w.pods
    && if Upgrading(w) then OnTarget(w, i) else w.pods[i].hash == hash
  }

  // What has been established for an index holds, unless its pod has been lost meanwhile.
  ghost predicate StillReached(w: World, i: nat, hash: string) {
    i in w.past.lost || Reached(w, i, hash)
  }

  // Work on one index does not undo what has been established for another.
  lemma ReachedElsewhere(w: World, w': World, i: nat, j: nat, hash: string)
    requires Elsewhere(w, w', i) && j != i && StillReached(w, j, hash)
    ensures StillReached(w', j, hash)
  {
    if j in w'.pods {
      assert j in w.pods && Alike(w.pods[j], w'.pods[j]);
    }
  }

  // Nor does the environment, but by losing the pod.
  lemma StillReachedLater(w: World, w': World, j: nat, hash: string)
    requires PodsSpared(w, w') && w'.past.job == w.past.job && StillReached(w, j, hash)
    ensures StillReached(w', j, hash)
  {
    if j in w'.pods {
      assert j in w.pods && Alike(w.pods[j], w'.pods[j]);
    }
  }

  // Over one step of the loop, what has been established for smaller indices stays so.
  lemma ReachedBefore(w: World, w': World, w'': World, i: nat, hash: string)
    requires PodsSpared(w, w') && w'.past.job == w.past.job && Elsewhere(w', w'', i)
    requires forall j: nat | j < i :: StillReached(w, j, hash)
    ensures forall j: nat | j < i :: StillReached(w'', j, hash)
  {
    hide StillReached, Elsewhere;
    forall j: nat | j < i
      ensures StillReached(w'', j, hash)
    {
      StillReachedLater(w, w', j, hash);
      ReachedElsewhere(w', w'', i, j, hash);
    }
  }

  lemma ReachedAreThere(w: World, n: nat, hash: string)
    requires forall j: nat | j < n :: StillReached(w, j, hash)
    ensures forall j: nat | j < n :: j in w.pods || j in w.past.lost
  {
    forall j: nat | j < n
      ensures j in w.pods || j in w.past.lost
    {
      assert StillReached(w, j, hash);
    }
  }

  // The two loops of ensurePods together, on sets of indices.
  lemma LoopsTogether(s: set<nat>, t: set<nat>, u: set<nat>, n: nat, lost: set<nat>, lost': set<nat>)
    requires forall j: nat :: j in t <==> j in s && (j < n || |s| <= j) && j !in lost
    requires forall j: nat :: j in u <==> (j < n || j in t) && j !in lost'
    requires forall j | j in lost && n <= j :: j in lost'
    ensures u == After(s, n) - lost'
  {
  }

  // Between two states of one sweep: the same cluster object but for its spec, the same job and the same start.
  ghost predicate Progress(w: World, w': World) {
    && w'.obj.(spec := w.obj.spec) == w.obj
    && w'.past.job == w.past.job && w'.past.start == w.past.start && w'.past.hash == w.past.hash
    && w'.past.completing == w.past.completing
  }

  // Since then servers have reported sizes, and the last one was too small.
  predicate SizeTooSmall(sizes: seq<SizeReport>, sizes': seq<SizeReport>) {
    sizes < sizes' && !sizes'[|sizes'| - 1].LargeEnough()
  }

  ghost predicate UnreadableClaims(claims: map<nat, Claim>) {
    exists c, i | c in claims :: Unreadable(claims[c], i)
  }

  // How the wait for the right cluster size has ended.
  datatype SizeOutcome = LargeEnough | Unreachable | TooSmall | TooSmallAndDeleted

  class PodHandler {
    const api: Api

    constructor (api: Api)
      ensures this.api == api
    {
      this.api := api;
    }

    // What may be behind an error: a fault; a claim's annotation that cannot be read; an upgrade that is not a valid
    // one; a new server that does not report the version of its image; or, outside upgrades, too small a size as the
    // last one reported since then.
    ghost predicate Explained(spec: Spec, upgrade: Option<VersionUpgrade>, sizes: seq<SizeReport>)
      reads api
    {
      || api.fault
      || UnreadableClaims(api.claims)
      || (upgrade.Some? && (!upgrade.value.IsValid() || api.buildOf(spec.version) != spec.version))
      || (upgrade.None? && SizeTooSmall(sizes, api.sizes))
    }

    lemma FaultExplains(spec: Spec, upgrade: Option<VersionUpgrade>, sizes: seq<SizeReport>)
      requires api.fault
      ensures Explained(spec, upgrade, sizes)
    {
    }

    lemma MountedClaimExists(i: nat)
      requires api.Valid() && i in api.pods
      ensures api.pods[i].claim in api.claims
    {
      hide Enabled, Apply;
      Volumes.RunKeepsInv(api.worlds, api.events, |api.events|);
    }

    // Marks the pod's claim as unmounted. A claim that is mounted is there.
    method SignalUnmounted(i: nat, c: nat) returns (ok: bool)
      requires api.Valid() && IsCleared(api.State(), i) && api.past.cleared.value.claim == c
      requires api.past.focus == Some(i) && i in api.pods
      modifies api
      ensures api.Valid() && Undisturbed(old(api.State()), api.State())
      ensures api.next == old(api.next)
      ensures ok ==> MayDelete(api.State(), i)
      ensures ok ==> c in api.claims && api.claims[c].unmounted == At(Rfc3339(api.now))
      ensures api.sizes == old(api.sizes) && (old(api.fault) || !ok ==> api.fault)
      ensures !api.fault ==> i in api.pods
    {
      hide IsRun, Admits, IsPick, Api.Agrees;
      Interfere(api);
      if i in api.pods {
        MountedClaimExists(i);
      }
      var found := api.FindClaim(c);
      if !found {
        return false;
      }
      ok := api.MarkClaim(i, c);
    }

    // Deletes the pod and waits for it to be gone.
    method RemovePod(i: nat) returns (ok: bool)
      requires api.Valid() && MayDelete(api.State(), i) && api.past.focus == Some(i) && (i in api.pods || api.fault)
      modifies api
      ensures api.Valid() && Elsewhere(old(api.State()), api.State(), i) && api.past.held == Nothing
      ensures api.next == old(api.next) && old(api.past.lost) <= api.past.lost
      ensures ok ==> i !in api.pods && api.past.cleared == None
      ensures api.sizes == old(api.sizes) && (old(api.fault) || !ok ==> api.fault)
    {
      hide IsRun, Admits, IsPick;
      ok := api.DeletePod(i);
      if !ok {
        return;
      }
      Interfere(api);
      ok := api.Answers();
    }

    // Marks the pod's claim, then deletes the pod.
    method DeletePod(i: nat, pod: Pod) returns (ok: bool)
      requires api.Valid() && IsCleared(api.State(), i) && api.past.cleared.value.claim == pod.claim
      requires api.past.focus == Some(i) && i in api.pods
      modifies api
      ensures api.Valid() && Elsewhere(old(api.State()), api.State(), i) && api.past.held == Nothing
      ensures api.next == old(api.next) && old(api.past.lost) <= api.past.lost
      ensures ok ==> i !in api.pods && api.past.cleared == None
      ensures api.sizes == old(api.sizes) && (old(api.fault) || !ok ==> api.fault)
    {
      hide IsRun, Admits, IsPick;
      ok := SignalUnmounted(i, pod.claim);
      if !ok {
        return;
      }
      Interfere(api);
      ok := RemovePod(i);
    }

    // ---------------------------------------------------------------- creating a pod

    // Obtains the claim of the pod to be created: a new one if the strategy says so, else the one to be reused, else
    // a new one. Nothing happens between finding a claim and mounting it.
    method ObtainClaim(i: nat, namespace: NamespaceSpec, recreate: bool) returns (r: Result<nat>)
      requires api.Valid() && MayCreate(api.State()) && api.past.held == Nothing && api.past.focus == Some(i)
      requires api.past.job.snapshot.spec.namespaces[0] == namespace
      requires recreate <==> WantsFreshClaim(api.State())
      modifies api`claims, api`next, api`past, api`fault, api`worlds, api`events
      ensures api.Valid() && api.past.(held := Nothing) == old(api.past)
      ensures r.Err? ==> api.fault || UnreadableClaims(api.claims)
      ensures r.Ok? ==> api.past.held != Nothing && api.past.held.claim == r.value
      ensures r.Ok? ==> r.value in api.claims && api.claims[r.value].unmounted == Absent
      ensures r.Ok? && recreate ==> r.value == old(api.next)
      ensures r.Ok? && !recreate ==>
                IsPick(old(api.claims), api.now, i, if api.past.held.Reused? then Some(r.value) else None)
    {
      hide IsRun, Admits, Api.Agrees;
      if recreate {
        r := api.CreateClaim(i, namespace);
        return;
      }
      var pvc := GetPersistentVolumeClaim(api, i);
      if pvc.Err? {
        return Err;
      }
      match pvc.value
      case Some(c) =>
        var mounted := api.MountClaim(c);
        r := if mounted then Ok(c) else Err;
      case None =>
        r := api.CreateClaim(i, namespace);
    }

    // Waits for a new pod to become ready; one that fails instead is deleted.
    method AwaitPod(i: nat) returns (ok: bool)
      requires api.Valid() && Focused(api.State(), i) && i in api.pods && !api.pods[i].failed
      modifies api
      ensures api.Valid() && Elsewhere(old(api.State()), api.State(), i) && api.past.held == Nothing
      ensures ok ==> i in api.pods && Alike(old(api.pods)[i], api.pods[i]) && !api.pods[i].failed
      ensures ok ==> api.past.cleared == None && i in api.ready
      ensures api.sizes == old(api.sizes) && (!ok ==> api.fault)
    {
      hide IsRun, Admits, IsPick;
      Interfere(api);
      if i !in api.pods {
        return false;
      }
      if api.pods[i].failed {
        api.Clear(i, InFailure);
        var deleted := DeletePod(i, api.pods[i]);
        return false;
      }
      ok := api.AwaitReady(i);
    }

    // Whether the pod's claim must be a new one.
    method ChooseStrategy(upgrade: Option<VersionUpgrade>) returns (recreate: Result<bool>)
      ensures recreate.Err? <==> upgrade.Some? && !upgrade.value.IsValid()
      ensures recreate.Ok? ==> (recreate.value <==> NeedsFreshClaim(upgrade))
    {
      if upgrade.None? {
        return Ok(false);
      }
      var strategy := upgrade.value.GetStrategy();
      if strategy.Err? {
        return Err;
      }
      return Ok(strategy.value.RecreatesClaims());
    }

    method CreatePodWithIndex(i: nat, spec: Spec, hash: string, upgrade: Option<VersionUpgrade>) returns (ok: bool)
      requires api.Valid() && Focused(api.State(), i)
      requires upgrade == if api.past.healthy then api.past.job.upgrade else None
      requires spec == api.past.job.snapshot.spec && hash == api.past.hash && i < spec.nodeCount && i !in api.pods
      modifies api
      ensures api.Valid() && Elsewhere(old(api.State()), api.State(), i)
      ensures ok ==> AtRest(api.State()) && i in api.pods
      ensures ok ==> api.pods[i].image == spec.version && api.pods[i].build == api.buildOf(spec.version)
      ensures ok ==> api.pods[i].hash == hash && i in api.ready
      ensures ok && NeedsFreshClaim(upgrade) ==> api.pods[i].claim == old(api.next)
      ensures api.sizes == old(api.sizes) && (!ok ==> Explained(spec, upgrade, api.sizes))
    {
      hide IsRun, Admits, UnreadableClaims, VersionUpgrade.IsValid, VersionUpgrade.GetStrategy, Api.Agrees;
      var listed := api.Answers();
      if !listed {
        return false;
      }
      var recreate := ChooseStrategy(upgrade);
      if recreate.Err? {
        return false;
      }
      Interfere(api);
      ok := BuildPod(i, spec, hash, recreate.value);
      if !ok {
        return;
      }
      ok := AwaitPod(i);
    }

    // Obtains the pod's claim and creates the pod on it.
    method BuildPod(i: nat, spec: Spec, hash: string, recreate: bool) returns (ok: bool)
      requires api.Valid() && MayCreate(api.State()) && api.past.held == Nothing && api.past.focus == Some(i)
      requires spec == api.past.job.snapshot.spec && hash == api.past.hash
      requires recreate <==> WantsFreshClaim(api.State())
      modifies api
      ensures api.Valid() && Elsewhere(old(api.State()), api.State(), i)
      ensures ok ==> AtRest(api.State()) && i in api.pods
      ensures ok ==> api.pods[i].image == spec.version && api.pods[i].build == api.buildOf(spec.version)
      ensures ok ==> api.pods[i].hash == hash
      ensures ok && recreate ==> api.pods[i].claim == old(api.next)
      ensures ok ==> !api.pods[i].failed
      ensures api.sizes == old(api.sizes) && (!ok ==> api.fault || UnreadableClaims(api.claims))
    {
      hide IsRun, Admits, UnreadableClaims, WantsFreshClaim, Api.Agrees;
      var claim := ObtainClaim(i, spec.namespaces[0], recreate);
      if claim.Err? {
        return false;
      }
      Interfere(api);
      ok := api.CreatePod(i, claim.value, spec, hash);
    }

    // ---------------------------------------------------------------- deleting and restarting a pod

    // Deletes the pod with the given index, if there is one, once it takes no part in migrations.
    method SafeDeletePodWithIndex(i: nat, ghost reason: Reason) returns (ok: bool)
      requires api.Valid() && Focused(api.State(), i)
      requires reason != InFailure && (i in api.pods ==> ReasonHolds(api.State(), i, reason))
      modifies api
      ensures api.Valid() && Elsewhere(old(api.State()), api.State(), i) && api.past.held == Nothing
      ensures api.next == old(api.next) && old(api.past.lost) <= api.past.lost
      ensures ok ==> i !in api.pods && api.past.cleared == None
      ensures api.sizes == old(api.sizes) && (!ok ==> api.fault)
    {
      hide IsRun, Admits, Api.Agrees;
      Interfere(api);
      var listed := api.Answers();
      if !listed {
        return false;
      }
      if i !in api.pods {
        return true;
      }
      var pod := api.pods[i];
      ok := EnsureNoMigrations(i);
      if !ok {
        return;
      }
      api.Clear(i, reason);
      ok := DeletePod(i, pod);
      if ok {
        ok := api.Answers();
      }
    }

    // Asks the pod's server whether it takes part in migrations, and waits for them to end.
    method EnsureNoMigrations(i: nat) returns (ok: bool)
      requires api.Valid() && Focused(api.State(), i) && i in api.pods
      modifies api
      ensures api.Valid() && api.next == old(api.next)
      ensures Undisturbed(old(api.State()), api.State().(past := api.past.(settled := old(api.past.settled))))
      ensures ok ==> i in api.pods && api.past.settled == Some(i)
      ensures api.sizes == old(api.sizes) && (!ok ==> api.fault)
    {
      hide IsRun, Admits, IsPick;
      var migrations := api.HasMigrations(i);
      if migrations.Err? {
        return false;
      }
      if !migrations.value {
        return true;
      }
      Interfere(api);
      ok := api.WaitForMigrations(i);
    }

    method SafeRestartPodWithIndex(i: nat, spec: Spec, hash: string, upgrade: Option<VersionUpgrade>,
                                   ghost reason: Reason)
      returns (ok: bool)
      requires api.Valid() && Focused(api.State(), i)
      requires upgrade == if api.past.healthy then api.past.job.upgrade else None
      requires spec == api.past.job.snapshot.spec && hash == api.past.hash && i < spec.nodeCount
      requires reason != InFailure && (i in api.pods ==> ReasonHolds(api.State(), i, reason))
      modifies api
      ensures api.Valid() && Elsewhere(old(api.State()), api.State(), i)
      ensures ok ==> AtRest(api.State()) && i in api.pods
      ensures ok ==> api.pods[i].image == spec.version && api.pods[i].build == api.buildOf(spec.version)
      ensures ok ==> api.pods[i].hash == hash && i in api.ready
      ensures ok && NeedsFreshClaim(upgrade) ==> api.pods[i].claim == old(api.next)
      ensures api.sizes == old(api.sizes) && (!ok ==> Explained(spec, upgrade, api.sizes))
    {
      ok := SafeDeletePodWithIndex(i, reason);
      if !ok {
        return;
      }
      ok := CreatePodWithIndex(i, spec, hash, upgrade);
    }

    // ---------------------------------------------------------------- one step of ensurePods

    // Looks the pod up and asks its server for its version: whether it must be upgraded.
    method IsOutdated(i: nat, version: string) returns (r: Result<bool>)
      requires api.Valid() && api.past.focus == Some(i) && i in api.pods
      modifies api
      ensures api.Valid() && Undisturbed(old(api.State()), api.State()) && api.next == old(api.next)
      ensures r == Ok(true) ==> i in api.pods && api.pods[i].build != version
      ensures r == Ok(false) ==> i in api.past.lost || (i in api.pods && api.pods[i].build == version)
      ensures api.sizes == old(api.sizes) && (r.Err? ==> api.fault)
    {
      hide IsRun, Admits;
      Interfere(api);
      var listed := api.Answers();
      if !listed {
        return Err;
      }
      if i !in api.pods {
        return Ok(false);
      }
      var reported := api.Answers();
      if !reported {
        return Err;
      }
      return Ok(api.pods[i].build != version);
    }

    // Restarts the pod unless its server reports the target version, and checks that the new server does.
    method MaybeUpgradePodWithIndex(i: nat, spec: Spec, hash: string, upgrade: VersionUpgrade) returns (ok: bool)
      requires api.Valid() && Focused(api.State(), i) && api.past.job.upgrade == Some(upgrade) && api.past.healthy
      requires spec == api.past.job.snapshot.spec && hash == api.past.hash && i < spec.nodeCount && i in api.pods
      modifies api
      ensures api.Valid() && Elsewhere(old(api.State()), api.State(), i)
      ensures ok ==> AtRest(api.State())
      ensures ok ==> i in api.past.lost || (i in api.pods && api.pods[i].build == spec.version)
      ensures ok && i in api.pods && old(api.pods[i].build) != spec.version && NeedsFreshClaim(Some(upgrade)) ==>
                api.pods[i].claim == old(api.next)
      ensures api.sizes == old(api.sizes) && (!ok ==> Explained(spec, Some(upgrade), api.sizes))
    {
      hide IsRun, Admits, VersionUpgrade.IsValid, UnreadableClaims;
      var outdated := IsOutdated(i, spec.version);
      if outdated.Err? {
        return false;
      }
      if !outdated.value {
        return true;
      }
      ok := SafeRestartPodWithIndex(i, spec, hash, Some(upgrade), OffVersion);
      if !ok {
        return;
      }
      var reported := api.Answers();
      return reported && api.pods[i].build == spec.version;
    }

    // Asks once for the size of the cluster: whether it is large enough, if the answer is known.
    method PollClusterSize() returns (enough: Option<bool>)
      requires api.Valid()
      modifies api
      ensures api.Valid() && Undisturbed(old(api.State()), api.State()) && (old(api.fault) ==> api.fault)
      ensures enough == None ==> api.fault && api.sizes == old(api.sizes)
      ensures enough.Some? ==>
                && |api.sizes| == |old(api.sizes)| + 1 && old(api.sizes) <= api.sizes
                && var last := api.sizes[|old(api.sizes)|]; (enough.value <==> last.size >= last.running)
    {
      hide IsRun, Admits;
      Interfere(api);
      var listed := api.Answers();
      if !listed {
        return None;
      }
      var expected := |api.Running()|;
      var clusterSize := api.AskClusterSize();
      if clusterSize.None? {
        return None;
      }
      return Some(clusterSize.value >= expected);
    }

    // Succeeds when the pod reports a large enough cluster in time; deletes it and fails when it does not. The outcome
    // tells which, and whether the deletion has succeeded. All reports but the last were too small, and so was the last
    // unless the wait has succeeded; it lasts long enough for one.
    method EnsureClusterSize(i: nat) returns (ok: bool, ghost outcome: SizeOutcome)
      requires api.Valid() && Focused(api.State(), i) && !Upgrading(api.State())
      requires i in api.pods ==> api.pods[i].hash == api.past.hash
      modifies api
      ensures api.Valid() && Elsewhere(old(api.State()), api.State(), i) && api.past.held == Nothing
      ensures ok <==> outcome == LargeEnough
      ensures outcome == LargeEnough || outcome == Unreachable ==> Undisturbed(old(api.State()), api.State())
      ensures outcome == TooSmallAndDeleted ==> i !in api.pods
      ensures old(api.sizes) <= api.sizes
      ensures forall k | |old(api.sizes)| <= k < |api.sizes| - 1 :: api.sizes[k].size < api.sizes[k].running
      ensures outcome != Unreachable ==>
                && |old(api.sizes)| < |api.sizes|
                && var last := api.sizes[|api.sizes| - 1];
                   (outcome == LargeEnough <==> last.size >= last.running)
      ensures outcome == Unreachable ==> api.fault
    {
      hide IsRun, Admits;
      var timeout := false;
      var ticks: int := *;
      while !timeout
        invariant api.Valid() && Undisturbed(old(api.State()), api.State())
        invariant old(api.sizes) <= api.sizes && (timeout ==> old(api.sizes) < api.sizes)
        invariant forall k | |old(api.sizes)| <= k < |api.sizes| :: api.sizes[k].size < api.sizes[k].running
        decreases if timeout then 0 else 1, ticks
      {
        timeout, ticks := ticks <= 0, ticks - 1;
        var enough := PollClusterSize();
        if enough == None {
          return false, Unreachable;
        }
        if enough.value {
          return true, LargeEnough;
        }
      }
      ok := SafeDeletePodWithIndex(i, OffSize);
      outcome := if ok then TooSmallAndDeleted else TooSmall;
      ok := false;
    }

    // Looks the pod up, and deletes it if it is in a failure state.
    method GetPodUnlessFailed(i: nat) returns (ok: bool, found: Option<Pod>)
      requires api.Valid() && Focused(api.State(), i)
      requires api.past.healthy <==> i in api.pods && !api.pods[i].failed
      modifies api
      ensures api.Valid() && Elsewhere(old(api.State()), api.State(), i) && api.past.held == Nothing
      ensures found.Some? ==> ok && api.State() == old(api.State()) && i in api.pods && found.value == api.pods[i]
      ensures found.Some? ==> !found.value.failed
      ensures ok ==> api.past.cleared == None
      ensures ok && found.None? ==> i !in api.pods && (i !in old(api.pods) || old(api.pods[i].failed))
      ensures api.sizes == old(api.sizes) && (!ok ==> api.fault)
    {
      var listed := api.Answers();
      if !listed {
        return false, None;
      }
      if i !in api.pods {
        return true, None;
      }
      if !api.pods[i].failed {
        return true, Some(api.pods[i]);
      }
      api.Clear(i, InFailure);
      ok := DeletePod(i, api.pods[i]);
      found := None;
    }

    // Creates, upgrades or restarts the pod with the given index as required.
    method EnsurePod(i: nat, spec: Spec, hash: string, upgrade: Option<VersionUpgrade>) returns (ok: bool)
      requires api.Valid() && Focused(api.State(), i)
      requires api.past.healthy <==> i in api.pods && !api.pods[i].failed
      requires spec == api.past.job.snapshot.spec && hash == api.past.hash && i < spec.nodeCount
      requires upgrade == api.past.job.upgrade
      modifies api
      ensures api.Valid() && Elsewhere(old(api.State()), api.State(), i)
      ensures ok ==> AtRest(api.State()) && StillReached(api.State(), i, hash)
      ensures ok && (i !in old(api.pods) || old(api.pods[i].failed)) ==>
                i in api.pods && api.pods[i].image == spec.version && api.pods[i].hash == hash
      ensures old(api.sizes) <= api.sizes && (!ok ==> Explained(spec, upgrade, old(api.sizes)))
    {
      var pod: Option<Pod>;
      ok, pod := GetPodUnlessFailed(i);
      if !ok {
        return;
      }
      if pod.None? {
        ok := CreatePodWithIndex(i, spec, hash, None);
      } else if upgrade.Some? {
        ok := MaybeUpgradePodWithIndex(i, spec, hash, upgrade.value);
      } else if pod.value.hash != hash {
        ok := SafeRestartPodWithIndex(i, spec, hash, None, OffConfig);
      } else {
        ghost var outcome;
        ok, outcome := EnsureClusterSize(i);
      }
    }

    // ---------------------------------------------------------------- ensurePods

    // A sweep over the pods is under way, with the spec of the snapshot.
    ghost predicate Sweeping(spec: Spec)
      reads api
    {
      && api.past.job.Working? && spec == api.past.job.snapshot.spec && |spec.namespaces| == 1
      && api.past.start.Some? && AtRest(api.State()) && !api.past.completing
      && (Upgrading(api.State()) ==> api.obj.annotation == UpgradeRunning)
    }

    // The wanted pods that there were when the sweep began are there, but for those lost since.
    ghost predicate StartedWith(spec: Spec)
      reads api
    {
      && api.past.start.Some?
      && (forall j | j in api.past.start.value && j < spec.nodeCount :: j in api.pods || j in api.past.lost)
    }

    // Deletes the pods with indices from the desired size up to the current size.
    method ScaleDown(spec: Spec, currentSize: nat) returns (ok: bool)
      requires api.Valid() && Sweeping(spec) && StartedWith(spec)
      modifies api
      ensures api.Valid() && Progress(old(api.State()), api.State()) && old(api.past.lost) <= api.past.lost
      ensures ok ==> Sweeping(spec) && StartedWith(spec)
      ensures ok ==> forall j: nat :: j in api.pods <==>
                j in old(api.pods) && (j < spec.nodeCount || currentSize <= j) && j !in api.past.lost
      ensures api.sizes == old(api.sizes) && (!ok ==> api.fault)
    {
      var i: int := currentSize - 1;
      while i >= spec.nodeCount
        invariant api.Valid() && Sweeping(spec) && StartedWith(spec)
        invariant Progress(old(api.State()), api.State()) && old(api.past.lost) <= api.past.lost
        invariant i < currentSize && api.sizes == old(api.sizes)
        invariant forall j: nat :: j in api.pods <==>
                    j in old(api.pods) && (j < spec.nodeCount || j <= i || currentSize <= j) && j !in api.past.lost
      {
        api.Focus(i);
        ok := SafeDeletePodWithIndex(i, Surplus);
        if !ok {
          return;
        }
        i := i - 1;
      }
      return true;
    }

    // Brings one index up to date; what has been established for the smaller ones stays so.
    method EnsureNext(i: nat, spec: Spec, hash: string, upgrade: Option<VersionUpgrade>) returns (ok: bool)
      requires api.Valid() && Sweeping(spec) && StartedWith(spec) && upgrade == api.past.job.upgrade
      requires hash == api.past.hash
      requires i < spec.nodeCount && forall j: nat | j < i :: StillReached(api.State(), j, hash)
      modifies api
      ensures api.Valid() && Progress(old(api.State()), api.State())
      ensures old(api.past.lost) - {i} <= api.past.lost
      ensures forall j: nat | j != i && j in api.pods :: j in old(api.pods)
      ensures forall j: nat | j != i && j in old(api.pods) && j !in api.pods :: j in api.past.lost
      ensures ok ==> Sweeping(spec) && StartedWith(spec)
      ensures ok ==> forall j: nat | j <= i :: StillReached(api.State(), j, hash)
      ensures old(api.sizes) <= api.sizes && (!ok ==> Explained(spec, upgrade, old(api.sizes)))
    {
      hide IsRun, Admits, IsPick;
      ghost var before := api.State();
      Interfere(api);
      api.Focus(i);
      ghost var focused := api.State();
      ok := EnsurePod(i, spec, hash, upgrade);
      if ok {
        ReachedBefore(before, focused, api.State(), i, hash);
        ReachedAreThere(api.State(), i + 1, hash);
      }
    }

    // Brings every index below the desired size up to date, one at a time and in order.
    method EnsureWanted(spec: Spec, hash: string, upgrade: Option<VersionUpgrade>) returns (ok: bool)
      requires api.Valid() && Sweeping(spec) && StartedWith(spec) && upgrade == api.past.job.upgrade
      requires hash == api.past.hash
      modifies api
      ensures api.Valid() && Progress(old(api.State()), api.State())
      ensures forall j | j in old(api.past.lost) && spec.nodeCount <= j :: j in api.past.lost
      ensures ok ==> Sweeping(spec)
      ensures ok ==> forall j: nat :: j in api.pods <==>
                (j < spec.nodeCount || j in old(api.pods)) && j !in api.past.lost
      ensures ok ==> forall j: nat | j < spec.nodeCount :: StillReached(api.State(), j, hash)
      ensures old(api.sizes) <= api.sizes && (!ok ==> Explained(spec, upgrade, old(api.sizes)))
    {
      hide StillReached;
      for i := 0 to spec.nodeCount
        invariant api.Valid() && Sweeping(spec) && StartedWith(spec) && Progress(old(api.State()), api.State())
        invariant forall j | j in old(api.past.lost) && i <= j :: j in api.past.lost
        invariant forall j | j in old(api.past.lost) && spec.nodeCount <= j :: j in api.past.lost
        invariant forall j: nat | i <= j :: j in api.pods <==> j in old(api.pods) && j !in api.past.lost
        invariant forall j: nat | j < i :: StillReached(api.State(), j, hash)
        invariant old(api.sizes) <= api.sizes
      {
        ok := EnsureNext(i, spec, hash, upgrade);
        if !ok {
          return;
        }
      }
      ReachedAreThere(api.State(), spec.nodeCount, hash);
      return true;
    }

    // Makes the pods match the spec. Success leaves exactly the indices of After but for pods lost meanwhile; all the
    // wanted ones are on the target version during an upgrade, and on the given configuration otherwise.
    method EnsurePods(spec: Spec, hash: string, upgrade: Option<VersionUpgrade>) returns (ok: bool)
      requires api.Valid() && MaySweep(api.State()) && AtRest(api.State())
      requires spec == api.past.job.snapshot.spec && |spec.namespaces| == 1 && upgrade == api.past.job.upgrade
      modifies api
      ensures api.Valid()
      ensures api.past.job == old(api.past.job) && api.past.completing == old(api.past.completing)
      ensures api.obj.(spec := old(api.obj.spec)) == old(api.obj)
      ensures ok ==> Sweeping(spec) && api.pods.Keys == After(old(api.pods.Keys), spec.nodeCount) - api.past.lost
      ensures ok ==> forall j: nat | j < spec.nodeCount :: StillReached(api.State(), j, hash)
      ensures !ok ==> Explained(spec, upgrade, old(api.sizes))
    {
      hide StillReached, Admits, IsRun, Explained, After, Api.Agrees;
      var listed := api.Answers();
      if !listed {
        FaultExplains(spec, upgrade, old(api.sizes));
        return false;
      }
      var currentSize := |api.pods.Keys|;
      api.Sweep(hash);
      ok := ScaleDown(spec, currentSize);
      if !ok {
        FaultExplains(spec, upgrade, old(api.sizes));
        return;
      }
      ghost var scaled := api.State();
      ok := EnsureWanted(spec, hash, upgrade);
      if ok {
        LoopsTogether(old(api.pods.Keys), scaled.pods.Keys, api.pods.Keys, spec.nodeCount,
                      scaled.past.lost, api.past.lost);
      }
    }
  }
}
