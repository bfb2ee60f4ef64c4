// Whether the first status of a cluster may come to name a version that its pods do not run: a user can tell before the
// first status is there (pkg/reconciler/cluster.go, pkg/reconciler/pod.go).
module FirstStatus {
  import opened Wrappers
  import opened Admission
  import opened World
  import opened Runs
  import opened Protocol
  import opened Sweeps
  import Volumes

  // ---------------------------------------------------------------- a reconcile can always fill the wanted indices

  lemma {:induction false} PickExists(claims: map<nat, Claim>, now: nat, i: nat) returns (r: Option<nat>)
    ensures IsPick(claims, now, i, r)
    decreases |claims|
  {
    r := None;
    if c :| c in claims && Reusable(claims[c], i, now) {
      var rest := claims - {c};
      assert rest.Keys < claims.Keys;
      assert |rest.Keys| < |claims.Keys|;
      r := PickExists(rest, now, i);
      assert forall d | d in claims :: d == c || d in rest;
      if r.None? || claims[r.value].created <= claims[c].created {
        r := Some(c);
      }
    }
  }

  // A sweep is under way that is no upgrade.
  predicate Filling(w: World) {
    && w.past.job.Working? && w.past.job.upgrade.None? && |w.past.job.snapshot.spec.namespaces| == 1
    && w.past.start.Some? && w.past.held == Nothing && w.past.cleared == None && !w.past.completing
    && (forall j | j in w.past.start.value :: j in w.pods)
  }

  // The same sweep, with more pods.
  predicate FillsTo(w: World, w': World) {
    && Filling(w') && w'.obj == w.obj && w'.past.job == w.past.job
    && (forall i | i in w.pods :: i in w'.pods && w'.pods[i] == w.pods[i])
  }

  lemma ObtainsSome(v: World, w: World, i: nat) returns (w': World)
    requires Reaches(v, w) && Filling(w) && w.past.focus == Some(i)
    requires i < w.past.job.snapshot.spec.nodeCount && i !in w.pods
    ensures Reaches(v, w') && w'.past.held != Nothing && w'.past.held.claim in w'.claims
    ensures w' == w.(claims := w'.claims, next := w'.next, past := w.past.(held := w'.past.held))
  {
    hide Reaches, IsPick;
    var pick := PickExists(w.claims, w.now, i);
    var e := if pick.Some? then ClaimMounted(pick.value) else ClaimCreated;
    PickIsThere(w, i, pick);
    ReachesNext(v, w, e);
    w' := Apply(w, e);
  }

  lemma PickIsThere(w: World, i: nat, pick: Option<nat>)
    requires IsPick(w.claims, w.now, i, pick)
    ensures pick.Some? ==> pick.value in w.claims
  {
  }

  lemma FillsOne(v: World, w: World, i: nat) returns (w': World)
    requires Reaches(v, w) && Filling(w) && i < w.past.job.snapshot.spec.nodeCount && i !in w.pods
    ensures Reaches(v, w') && FillsTo(w, w') && i in w'.pods
  {
    hide Reaches;
    ReachesNext(v, w, Focus(i));
    var w1 := ObtainsSome(v, Apply(w, Focus(i)), i);
    ReachesNext(v, w1, PodCreated(""));
    w' := Apply(w1, PodCreated(""));
  }

  lemma {:induction false} FillsUp(v: World, w: World, n: nat) returns (w': World)
    requires Reaches(v, w) && Filling(w) && n <= w.past.job.snapshot.spec.nodeCount
    ensures Reaches(v, w') && FillsTo(w, w') && forall i: nat | i < n :: i in w'.pods
  {
    hide Reaches, Filling;
    w' := w;
    if n > 0 {
      w' := FillsUp(v, w, n - 1);
      if n - 1 !in w'.pods {
        w' := FillsOne(v, w', n - 1);
      }
    }
  }

  // ---------------------------------------------------------------- misleading

  // A pod that the stored spec asks for is of another version than the stored spec's.
  predicate OffVersionPod(w: World, i: nat) {
    i < w.obj.spec.nodeCount && i in w.pods && w.pods[i].image != w.obj.spec.version
  }

  // The run goes on to step k, with the same spec, where a status is written that names another version than some
  // wanted pod's.
  ghost predicate Misleads(worlds: seq<World>, events: seq<Event>, worlds': seq<World>, events': seq<Event>, k: nat)
    requires |worlds| == |events| + 1
  {
    && IsRun(worlds', events') && worlds <= worlds' && |events| <= k < |events'| && events'[k].StatusSet?
    && worlds'[k].obj.spec == worlds[|events|].obj.spec
    && exists i: nat | i < worlds'[k].obj.spec.nodeCount && i in worlds'[k].pods ::
         worlds'[k].pods[i].image != worlds'[k + 1].obj.version
  }

  lemma BeginsToFill(w: World) returns (w': World)
    requires AnnotationFits(w) && BeforeUpgrade(w) && w.obj.version == "" && |w.obj.spec.namespaces| == 1
    ensures Reaches(w, w') && Filling(w') && w'.obj == w.obj && w'.pods == w.pods
    ensures w'.past.job == Working(w.obj, None)
  {
    hide Reaches;
    var w1 := Apply(w, Begin(None));
    ReachesSelf(w);
    ReachesNext(w, w, Begin(None));
    ReachesNext(w, w1, Sweep(""));
    w' := Apply(w1, Sweep(""));
  }

  lemma SetsMisleading(worlds: seq<World>, events: seq<Event>, w: World, i: nat)
    returns (worlds': seq<World>, events': seq<Event>, k: nat)
    requires IsRun(worlds, events) && Reaches(worlds[|events|], w)
    requires w.obj == worlds[|events|].obj && Filling(w) && w.past.job == Working(w.obj, None) && OffVersionPod(w, i)
    requires forall j: nat | j < w.obj.spec.nodeCount :: j in w.pods
    ensures Misleads(worlds, events, worlds', events', k)
  {
    hide Reaches, Genesis;
    var before, history := GoesOn(worlds, events, w);
    FollowsOnce(w, StatusSet);
    k := |history|;
    worlds' := ExtendRun(before, history, [StatusSet], Apply(w, StatusSet));
    events' := history + [StatusSet];
    assert events'[k].StatusSet? && i in worlds'[k].pods;
  }

  lemma OffVersionPodMisleads(worlds: seq<World>, events: seq<Event>, i: nat)
    returns (worlds': seq<World>, events': seq<Event>, k: nat)
    requires IsRun(worlds, events) && worlds[|events|].obj.version == "" && OffVersionPod(worlds[|events|], i)
    ensures Misleads(worlds, events, worlds', events', k)
  {
    hide Enabled, Apply, Reaches, AnnotationFits, BeforeUpgrade, VersionsClimb, Misleads;
    var w := worlds[|events|];
    RunKeepsAnnotation(worlds, events, |events|);
    Volumes.RunKeepsInv(worlds, events, |events|);
    var w1 := BeginsToFill(w);
    var w2 := FillsUp(w, w1, w.obj.spec.nodeCount);
    worlds', events', k := SetsMisleading(worlds, events, w2, i);
  }

  lemma StatusNamesSnapshot(w: World)
    requires Enabled(w, StatusSet)
    ensures w.past.job.Working? && Apply(w, StatusSet).obj.version == w.past.job.snapshot.spec.version
  {
  }

  // Before the first status, when no reconcile is at work on another version than the spec's, a user can tell whether a
  // status may come to mislead although the spec stays as it is: exactly if a pod is there that the spec asks for, and
  // that is of another version.
  lemma FirstStatusDecided(worlds: seq<World>, events: seq<Event>)
    requires IsRun(worlds, events) && worlds[|events|].obj.version == ""
    requires var w := worlds[|events|];
             w.past.job.Working? ==> w.past.job.snapshot.spec.version == w.obj.spec.version
    ensures (exists worlds', events', k :: Misleads(worlds, events, worlds', events', k)) <==>
            (exists i: nat :: OffVersionPod(worlds[|events|], i))
  {
    hide Genesis, Enabled, Apply;
    var w := worlds[|events|];
    if i: nat :| OffVersionPod(w, i) {
      var worlds', events', k := OffVersionPodMisleads(worlds, events, i);
    } else if worlds': seq<World>, events': seq<Event>, k: nat :| Misleads(worlds, events, worlds', events', k) {
      forall i: nat | i in w.pods && i < w.obj.spec.nodeCount
        ensures w.pods[i].image == w.obj.spec.version
      {
        assert !OffVersionPod(w, i);
      }
      StaysSettled(worlds', events', |events|, k, w.obj.spec.nodeCount);
      assert events'[k].StatusSet?;
      StatusNamesSnapshot(worlds'[k]);
    }
  }
}
