// The cluster's API server as the operator sees it: the stored objects, and calls that may fail.
//
// A call that reports success has taken effect; a call that reports failure may or may not have. Every call that
// changes the store is recorded as an event, and needs the event's guard: what the callers prove is that their code
// acts only when the guard holds. A call that fails although what it asks for is possible also sets a fault; one that
// asks for what is not there, or creates what is there already, fails without one. What the callers prove besides is
// that they return an error only after a fault, or for a reason that their contracts name.
module Store {
  import opened Wrappers
  import opened Upgrades
  import opened Admission
  import opened World

  // A pod may fail, and stays failed.
  predicate Alike(p: Pod, q: Pod) {
    q.(failed := p.failed) == p && (p.failed ==> q.failed)
  }

  // The pods are the same but for their failing or being lost.
  ghost predicate PodsSpared(w: World, w': World) {
    && w.past.lost <= w'.past.lost
    && (forall i | i in w'.pods :: i in w.pods && Alike(w.pods[i], w'.pods[i]))
    && (forall i | i in w.pods && i !in w'.pods :: i in w'.past.lost)
  }

  // The pods are spared, the cluster object is the same but for its spec, and so is the reconciler's progress.
  ghost predicate Undisturbed(w: World, w': World) {
    && PodsSpared(w, w')
    && w'.obj.(spec := w.obj.spec) == w.obj
    && w'.past.(done := w.past.done, spoilt := w.past.spoilt, lost := w.past.lost) == w.past
    && w.past.done <= w'.past.done && w.past.spoilt <= w'.past.spoilt
  }

  // What the environment leaves alone, however long it runs. It also spares unmarked claims.
  ghost predicate Quiet(w: World, w': World) {
    && Undisturbed(w, w')
    && w'.next == w.next
    && (forall c | c in w'.claims :: c in w.claims && w'.claims[c] == w.claims[c])
    && (forall c | c in w.claims && c !in w'.claims :: w.claims[c].unmounted.At?)
    && w'.backups.Keys <= w.backups.Keys
  }

  // Nothing has changed but the pod with index i, and what the environment may change.
  ghost predicate Elsewhere(w: World, w': World, i: nat) {
    && w'.obj.(spec := w.obj.spec) == w.obj
    && w'.past.job == w.past.job && w'.past.start == w.past.start && w'.past.hash == w.past.hash
    && w'.past.focus == w.past.focus && w'.past.healthy == w.past.healthy && w'.past.completing == w.past.completing
    && w.past.lost - {i} <= w'.past.lost
    && (forall j | j != i && j in w'.pods :: j in w.pods && Alike(w.pods[j], w'.pods[j]))
    && (forall j | j != i && j in w.pods && j !in w'.pods :: j in w'.past.lost)
  }

  // The pod being worked on, if it is there, has neither failed nor been lost.
  ghost predicate FocusSpared(w: World, w': World) {
    forall i | w.past.focus == Some(i) && i in w.pods :: i in w'.pods && w'.pods[i] == w.pods[i]
  }

  // What a server has reported as the size of the cluster, and how many pods were running then.
  datatype SizeReport = SizeReport(size: nat, running: nat) {
    predicate LargeEnough() {
      size >= running
    }
  }

  // The configuration mounted by the pods, with its annotated hash.
  datatype ConfigMap = ConfigMap(data: string, hash: string)

  class Api {
    var now: nat
    var pods: map<nat, Pod>
    var claims: map<nat, Claim>
    var next: nat
    var obj: Object
    var backups: map<(string, string), Verdict>
    var archive: map<(string, string), Verdict>  // every backup that there ever was, as it was last
    var configMap: Option<ConfigMap>
    const buildOf: string -> string  // the version that the server of an image tag reports

    // In this reconcile a possible call has failed, the pod in focus has failed or been lost, or someone has removed
    // the configuration.
    ghost var fault: bool
    ghost var sizes: seq<SizeReport> // what servers have reported in this reconcile
    ghost var shown: Option<Option<Verdict>>  // what the lister has shown of a backup, once asked in this reconcile
    ghost var ready: set<nat>        // the pods that have been seen ready since they were created
    ghost var collectorFault: bool   // whether a call of the collector has failed
    ghost var past: Past
    ghost var worlds: seq<World>
    ghost var events: seq<Event>

    constructor (spec: Spec, now: nat, buildOf: string -> string)
      requires ValidSpec(spec)
      ensures Valid()
    {
      this.now, pods, claims, next := now, map[], map[], 0;
      obj, backups, archive := Object(spec, Unannotated, "", []), map[], map[];
      configMap, this.buildOf := None, buildOf;
      fault, sizes, shown, ready, collectorFault := false, [], None, {}, false;
      past := NewJob(Idle, map[], {}, {});
      worlds, events :=
        [World(now, map[], map[], 0, Object(spec, Unannotated, "", []), map[], NewJob(Idle, map[], {}, {}))], [];
    }

    ghost function State(): World
      reads this
    {
      World(now, pods, claims, next, obj, backups, past)
    }

    // The bookkeeping agrees with the stored objects: the lost pods are not there, and archived verdicts were given.
    ghost predicate Agrees()
      reads `pods, `archive, `past
    {
      && (forall i | i in past.lost :: i !in pods)
      && (forall key | key in archive && archive[key] == Finished :: key in past.done)
      && (forall key | key in archive && archive[key] == Failed :: key in past.spoilt)
    }

    // The store's history is a run that ends in its present state.
    ghost predicate Valid()
      reads this
    {
      IsRun(worlds, events) && worlds[|events|] == State() && Agrees()
    }

    // Extends the run by an event that has just taken effect.
    ghost method Record(e: Event)
      requires IsRun(worlds, events) && Enabled(worlds[|events|], e)
      requires State() == Apply(worlds[|events|], e) && Agrees()
      modifies `worlds, `events
      ensures Valid()
    {
      worlds := worlds + [State()];
      events := events + [e];
    }

    // Records an event whose effect on the stored objects has just been made, and makes its effect on the past.
    ghost method Land(e: Event)
      requires IsRun(worlds, events) && Enabled(worlds[|events|], e)
      requires State().(past := Apply(worlds[|events|], e).past) == Apply(worlds[|events|], e)
      requires Apply(worlds[|events|], e).past.(completing := past.completing) == past && Agrees()
      modifies `past, `worlds, `events
      ensures Valid() && State() == Apply(old(worlds[|events|]), e)
    {
      past := Apply(worlds[|events|], e).past;
      Record(e);
    }

    // ---------------------------------------------------------------- what the environment does

    // Someone else writes or removes the configuration. Removing it counts as a fault.
    method TamperWithConfigMap(cm: Option<ConfigMap>)
      modifies `configMap, `fault
      ensures configMap == cm && fault == (old(fault) || (old(configMap).Some? && cm.None?))
    {
      fault := fault || (configMap.Some? && cm.None?);
      configMap := cm;
    }

    method Advance(t: nat)
      requires Valid()
      modifies `now, `worlds, `events
      ensures Valid() && Quiet(old(State()), State())
    {
      if now <= t {
        now := t;
        Record(Tick(t));
      }
    }

    method FailPod(i: nat)
      requires Valid()
      modifies `pods, `fault, `worlds, `events
      ensures Valid() && Quiet(old(State()), State())
      ensures (old(fault) ==> fault) && (!fault ==> FocusSpared(old(State()), State()))
    {
      if i in pods {
        pods := pods[i := pods[i].(failed := true)];
        fault := fault || past.focus == Some(i);
        Record(PodFails(i));
      }
    }

    method LosePod(i: nat)
      requires Valid()
      modifies `pods, `past, `fault, `worlds, `events
      ensures Valid() && Quiet(old(State()), State())
      ensures (old(fault) ==> fault) && (!fault ==> FocusSpared(old(State()), State()))
    {
      if i in pods {
        pods := pods - {i};
        past := past.(lost := past.lost + {i});
        fault := fault || past.focus == Some(i);
        Record(PodLost(i));
      }
    }

    // The webhook lets a user's change of the spec through.
    method UpdateSpec(name: string, kubeNamespace: string, spec: Spec, secret: SecretLookup)
      requires Valid()
      modifies `obj, `worlds, `events
      ensures Valid() && Quiet(old(State()), State())
    {
      var ok := ValidateCluster(Cluster(name, kubeNamespace, spec), secret);
      if ok {
        ok := ValidateUpdate(obj.spec, spec);
      }
      if ok {
        obj := obj.(spec := spec);
        Record(SpecUpdated(spec));
      }
    }

    method EndBackup(key: (string, string), ok: bool)
      requires Valid()
      modifies `backups, `archive, `past, `worlds, `events
      ensures Valid() && Quiet(old(State()), State())
    {
      if key in backups && backups[key] == Pending {
        backups := backups[key := if ok then Finished else Failed];
        archive := archive[key := if ok then Finished else Failed];
        past := if ok then past.(done := past.done + {key}) else past.(spoilt := past.spoilt + {key});
        Record(BackupEnds(key, ok));
      }
    }

    method DropBackup(key: (string, string))
      requires Valid()
      modifies `backups, `worlds, `events
      ensures Valid() && Quiet(old(State()), State())
    {
      if key in backups {
        backups := backups - {key};
        Record(BackupDropped(key));
      }
    }

    method DeleteClaim(c: nat) returns (ok: bool)
      requires Valid() && Collectable(State(), c)
      modifies `claims, `collectorFault, `worlds, `events
      ensures Valid()
      ensures claims == old(claims) - {c} || (!ok && claims == old(claims))
      ensures collectorFault == (old(collectorFault) || !ok)
    {
      var landed: bool := *;
      ok := *;
      if landed {
        claims := claims - {c};
        Record(ClaimCollected(c));
      } else {
        ok := false;
      }
      collectorFault := collectorFault || !ok;
    }

    // The collector begins to handle a claim.
    ghost method StartCollecting()
      modifies `collectorFault
      ensures !collectorFault
    {
      collectorFault := false;
    }

    // A call of the collector that only reads.
    method AnswersCollector() returns (ok: bool)
      modifies `collectorFault
      ensures collectorFault == (old(collectorFault) || !ok)
    {
      ok := *;
      collectorFault := collectorFault || !ok;
    }

    // ---------------------------------------------------------------- what the reconciler does

    ghost method Begin(upgrade: Option<VersionUpgrade>)
      requires Valid() && obj.annotation != UpgradeBroken && IsUpgradeOf(obj, upgrade)
      modifies `past, `fault, `sizes, `shown, `worlds, `events
      ensures Valid() && !fault && sizes == [] && shown == None
      ensures past == NewJob(Working(obj, upgrade), old(past).last, old(past).done, old(past).spoilt)
    {
      hide IsUpgradeOf, Admits;
      past := NewJob(Working(obj, upgrade), past.last, past.done, past.spoilt);
      fault, sizes, shown := false, [], None;
      Record(Event.Begin(upgrade));
    }

    // A call that only reads.
    method Answers() returns (ok: bool)
      modifies `fault
      ensures fault == (old(fault) || !ok)
    {
      ok := *;
      fault := fault || !ok;
    }

    // Looks a claim up.
    method FindClaim(c: nat) returns (found: bool)
      modifies `fault
      ensures (old(fault) ==> fault) && (!found ==> fault || c !in claims)
      ensures found ==> c in claims && fault == old(fault)
    {
      found := Answers();
      found := found && c in claims;
    }

    // Waits for a pod to become ready.
    method AwaitReady(i: nat) returns (ok: bool)
      modifies `fault, `ready
      ensures fault == (old(fault) || !ok)
      ensures ready == if ok then old(ready) + {i} else old(ready)
    {
      ok := *;
      fault := fault || !ok;
      ready := if ok then ready + {i} else ready;
    }

    // The size of the cluster that a server reports.
    method AskClusterSize() returns (size: Option<nat>)
      modifies `fault, `sizes
      ensures fault == (old(fault) || size == None)
      ensures sizes == old(sizes) + if size.Some? then [SizeReport(size.value, |Running()|)] else []
    {
      var reported: bool, n: nat := *, *;
      size := if reported then Some(n) else None;
      if reported {
        sizes := sizes + [SizeReport(n, |Running()|)];
      } else {
        fault := true;
      }
    }

    // The pods that have not failed.
    function Running(): set<nat>
      reads `pods
    {
      set j | j in pods && !pods[j].failed
    }

    ghost method Sweep(hash: string)
      requires Valid() && MaySweep(State())
      modifies `past, `worlds, `events
      ensures Valid() && past == old(past).(start := Some(pods.Keys), hash := hash)
    {
      past := past.(start := Some(pods.Keys), hash := hash);
      Record(Event.Sweep(hash));
    }

    ghost method Focus(i: nat)
      requires Valid() && MayFocus(State())
      modifies `past, `worlds, `events
      ensures Valid()
      ensures past == old(past).(focus := Some(i), healthy := i in pods && !pods[i].failed, settled := None)
    {
      past := past.(focus := Some(i), healthy := i in pods && !pods[i].failed, settled := None);
      Record(Event.Focus(i));
    }

    ghost method Clear(i: nat, reason: Reason)
      requires Valid() && MayClear(State(), i, reason)
      modifies `past, `worlds, `events
      ensures Valid() && past == old(past).(cleared := Some(Clearance(i, reason, pods[i].claim)))
    {
      past := past.(cleared := Some(Clearance(i, reason, pods[i].claim)));
      Record(Cleared(i, reason));
    }

    // Asks the server of the pod in focus whether it takes part in migrations.
    method HasMigrations(i: nat) returns (r: Result<bool>)
      requires Valid() && past.focus == Some(i)
      modifies `past, `fault, `worlds, `events
      ensures r.Ok? ==> i in pods
      ensures (old(fault) ==> fault) && (r.Err? ==> fault || i !in pods)
      ensures Valid() && past == old(past).(settled := if r == Ok(false) then Some(i) else old(past).settled)
    {
      r := *;
      fault := fault || r.Err?;
      if i !in pods {
        r := Err;
      }
      if r == Ok(false) {
        past := past.(settled := Some(i));
        Record(Settled(i));
      }
    }

    // Waits until the server of the pod in focus takes no part in migrations.
    method WaitForMigrations(i: nat) returns (ok: bool)
      requires Valid() && past.focus == Some(i)
      modifies `past, `fault, `worlds, `events
      ensures ok ==> i in pods
      ensures (old(fault) ==> fault) && (!ok ==> fault || i !in pods)
      ensures Valid() && past == old(past).(settled := if ok then Some(i) else old(past).settled)
    {
      ok := Answers();
      ok := ok && i in pods;
      if ok {
        past := past.(settled := Some(i));
        Record(Settled(i));
      }
    }

    // Marks the claim of the pod cleared for deletion.
    method MarkClaim(i: nat, c: nat) returns (ok: bool)
      requires Valid() && MayMark(State(), i) && past.cleared.value.claim == c
      modifies `claims, `worlds, `events, `fault
      ensures Valid()
      ensures claims == Mark(old(claims), past.cleared.value.claim, now) || (!ok && claims == old(claims))
      ensures fault == (old(fault) || !ok)
    {
      var landed: bool := *;
      ok := *;
      if landed {
        claims := Mark(claims, c, now);
        Record(ClaimMarked(i));
      } else {
        ok := false;
      }
      fault := fault || !ok;
    }

    method DeletePod(i: nat) returns (ok: bool)
      requires Valid() && MayDelete(State(), i)
      modifies `pods, `past, `worlds, `events, `fault
      ensures Valid()
      ensures
        || (i in old(pods) && pods == old(pods) - {i} && past == old(past).(settled := None, cleared := None))
        || (!ok && pods == old(pods) && past == old(past))
      ensures (old(fault) ==> fault) && (!ok ==> fault || i !in old(pods))
    {
      if i !in pods {
        return false;
      }
      var landed: bool := *;
      ok := *;
      if landed {
        pods := pods - {i};
        past := past.(settled := None, cleared := None);
        Record(PodDeleted(i));
      } else {
        ok := false;
      }
      fault := fault || !ok;
    }

    method CreateClaim(i: nat, namespace: NamespaceSpec) returns (r: Result<nat>)
      requires Valid() && MayCreateClaim(State())
      requires past.focus == Some(i) && past.job.snapshot.spec.namespaces[0] == namespace
      modifies `claims, `next, `past, `worlds, `events, `fault
      ensures Valid()
      ensures r.Ok? ==> r.value == old(next) && claims == old(claims)[r.value := NewClaim(Some(i), namespace, r.value)]
      ensures past == old(past).(held := Fresh(old(next))) || (r.Err? && past == old(past))
      ensures fault == (old(fault) || r.Err?)
    {
      var landed: bool := *;
      var ok: bool := *;
      if !landed {
        fault := true;
        return Err;
      }
      r := if ok then Ok(next) else Err;
      fault := fault || !ok;
      claims := claims[next := NewClaim(Some(i), namespace, next)];
      past := past.(held := Fresh(next));
      next := next + 1;
      Record(ClaimCreated);
    }

    method MountClaim(c: nat) returns (ok: bool)
      requires Valid() && MayMount(State(), c)
      modifies `claims, `past, `worlds, `events, `fault
      ensures Valid()
      ensures ok ==> claims == Unmark(old(claims), c)
      ensures past == old(past).(held := Reused(c)) || (!ok && past == old(past))
      ensures fault == (old(fault) || !ok)
    {
      var landed: bool := *;
      ok := *;
      if landed {
        claims := Unmark(claims, c);
        past := past.(held := Reused(c));
        Record(ClaimMounted(c));
      } else {
        ok := false;
      }
      fault := fault || !ok;
    }

    method CreatePod(i: nat, c: nat, spec: Spec, hash: string) returns (ok: bool)
      requires Valid() && MayCreatePod(State())
      requires past.focus == Some(i) && past.held.claim == c && past.job.snapshot.spec == spec && past.hash == hash
      modifies `pods, `past, `worlds, `events, `fault, `ready
      ensures Valid() && ready == old(ready) - {i}
      ensures
        || past == old(past).(settled := None, held := Nothing, last := old(past).last[i := c],
                              lost := old(past).lost - {i})
        || (!ok && past == old(past))
      ensures
        || pods == old(pods)[i := NewPod(spec, c, claims[c].ns, buildOf(spec.version), hash)]
        || (!ok && pods == old(pods))
      ensures fault == (old(fault) || !ok)
    {
      hide WantsFreshClaim, Admits, IsUpgradeOf, IsPick, NewPod, Genesis;
      ready := ready - {i};
      var landed: bool := *;
      ok := *;
      if landed {
        pods := pods[i := NewPod(spec, c, claims[c].ns, buildOf(spec.version), hash)];
        past := past.(settled := None, held := Nothing, last := past.last[i := c], lost := past.lost - {i});
        Record(PodCreated(buildOf(spec.version)));
      } else {
        ok := false;
      }
      fault := fault || !ok;
    }

    method CreateBackup(key: (string, string)) returns (ok: bool)
      requires Valid() && past.job.Working? && key == BackupKey(State())
      requires key !in backups ==> MayCreateBackup(State())
      modifies `backups, `archive, `past, `worlds, `events, `fault
      ensures Valid() && past == old(past).(requested := past.requested)
      ensures
        || (key !in old(backups) && backups == old(backups)[key := Pending])
        || (!ok && backups == old(backups))
      ensures (old(fault) ==> fault) && (!ok ==> fault || key in old(backups))
    {
      if key in backups {
        return false;
      }
      var landed: bool := *;
      ok := *;
      if landed {
        backups, archive := backups[key := Pending], archive[key := Pending];
        past := past.(requested := true);
        Record(BackupCreated);
      } else {
        ok := false;
      }
      fault := fault || !ok;
    }

    // What the lister shows of a backup: it may not know of it yet, it may not have seen its verdict yet, and it may
    // still show one that is gone.
    method GetBackup(key: (string, string)) returns (verdict: Option<Verdict>)
      requires Valid()
      modifies `shown
      ensures Valid() && shown == Some(verdict)
      ensures verdict == Some(Finished) ==> key in past.done
      ensures verdict == Some(Failed) ==> key in past.spoilt
      ensures verdict.Some? ==> key in archive
    {
      var known: bool, seen: bool := *, *;
      verdict := None;
      if key in archive && known {
        verdict := Some(if seen then archive[key] else Pending);
      }
      shown := Some(verdict);
    }

    // ---------------------------------------------------------------- unrecorded calls

    // The two halves of a patch of the cluster object; the caller records them as one event.
    method PatchAnnotation(annotation: Annotation) returns (ok: bool)
      modifies `obj, `fault
      ensures obj == old(obj).(annotation := annotation) || (!ok && obj == old(obj))
      ensures fault == (old(fault) || !ok)
    {
      var landed: bool := *;
      ok := *;
      if landed {
        obj := obj.(annotation := annotation);
      } else {
        ok := false;
      }
      fault := fault || !ok;
    }

    method UpdateStatus(version: string, conditions: seq<Condition>) returns (ok: bool)
      modifies `obj, `fault
      ensures obj == old(obj).(version := version, conditions := conditions) || (!ok && obj == old(obj))
      ensures fault == (old(fault) || !ok)
    {
      var landed: bool := *;
      ok := *;
      if landed {
        obj := obj.(version := version, conditions := conditions);
      } else {
        ok := false;
      }
      fault := fault || !ok;
    }

    // Creates the configuration, unless there is one already.
    method CreateConfigMap(cm: ConfigMap) returns (ok: bool, taken: bool)
      modifies `configMap, `fault
      ensures fault == (old(fault) || (!ok && !taken)) && (taken ==> !ok && old(configMap).Some?)
      ensures (old(configMap).None? && configMap == Some(cm)) || (!ok && configMap == old(configMap))
    {
      ok := Answers();
      if !ok {
        var landed: bool := *;
        configMap := if landed && configMap.None? then Some(cm) else configMap;
        return false, false;
      }
      taken := configMap.Some?;
      ok := !taken;
      configMap := if taken then configMap else Some(cm);
    }

    method GetConfigMap() returns (found: Option<ConfigMap>)
      modifies `fault
      ensures (old(fault) ==> fault) && (found.None? ==> fault || configMap.None?)
      ensures found.Some? ==> found == configMap
    {
      var reached := Answers();
      found := if reached then configMap else None;
    }

    // Replaces the configuration that there is.
    method UpdateConfigMap(cm: ConfigMap) returns (ok: bool)
      modifies `configMap, `fault
      ensures (old(fault) ==> fault) && (!ok ==> fault || old(configMap).None?)
      ensures (old(configMap).Some? && configMap == Some(cm)) || (!ok && configMap == old(configMap))
    {
      if configMap.None? {
        return false;
      }
      var landed: bool := *;
      ok := Answers();
      ok := ok && landed;
      fault := fault || !landed;
      configMap := if landed then Some(cm) else configMap;
    }
  }
}
