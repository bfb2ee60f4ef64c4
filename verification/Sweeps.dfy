// What one sweep over the pods may disturb, and how far interrupted sweeps get (pkg/reconciler/pod.go, ensurePods).
module Sweeps {
  import opened Wrappers
  import opened Protocol
  import opened Admission
  import opened World

  // ---------------------------------------------------------------- disruption

  // Of the wanted pods that were there when the sweep began, at most the one being worked on is missing, but for those
  // lost from outside.
  predicate OneMissing(w: World) {
    w.past.job.Working? && w.past.start.Some? ==>
      forall j | j in w.past.start.value && j < w.past.job.snapshot.spec.nodeCount ::
        j in w.pods || w.past.focus == Some(j) || j in w.past.lost
  }

  // A pod that has been cleared for deletion is the one being worked on, and the reason for its deletion still holds
  // unless it is lost.
  predicate ClearanceHolds(w: World) {
    w.past.cleared.Some? ==>
      var i, reason := w.past.cleared.value.index, w.past.cleared.value.reason;
      && w.past.focus == Some(i) && (i in w.pods ==> ReasonHolds(w, i, reason))
      && (reason == InFailure || w.past.settled == Some(i))
  }

  predicate Bounded(w: World) {
    && OneMissing(w) && ClearanceHolds(w)
    && (w.past.held != Nothing ==> w.past.focus.Some? && w.past.focus.value !in w.pods)
    && (forall i | i in w.past.lost :: i !in w.pods)
  }

  lemma StepKeepsOneMissing(w: World, e: Event)
    requires OneMissing(w) && ClearanceHolds(w) && Enabled(w, e)
    ensures OneMissing(Apply(w, e))
  {
    hide Admits, IsUpgradeOf, IsPick, ReasonHolds;
  }

  lemma StepKeepsClearance(w: World, e: Event)
    requires ClearanceHolds(w) && Enabled(w, e)
    ensures ClearanceHolds(Apply(w, e))
  {
    hide Admits, IsUpgradeOf, IsPick;
  }

  lemma StepKeepsBounded(w: World, e: Event)
    requires Bounded(w) && Enabled(w, e)
    ensures Bounded(Apply(w, e))
  {
    hide Admits, IsUpgradeOf, IsPick, OneMissing, ClearanceHolds;
    StepKeepsOneMissing(w, e);
    StepKeepsClearance(w, e);
  }

  // At every moment of a sweep, whether it fails or not, the wanted pods that existed at its start are all present,
  // except at most the one being worked on and those lost from outside.
  lemma {:induction false} DisruptionIsBounded(worlds: seq<World>, events: seq<Event>, k: nat)
    requires IsRun(worlds, events) && k < |worlds|
    ensures Bounded(worlds[k])
  {
    hide Enabled, Apply;
    if k > 0 {
      DisruptionIsBounded(worlds, events, k - 1);
      assert events[k - 1] == events[k - 1];
      StepKeepsBounded(worlds[k - 1], events[k - 1]);
    }
  }

  predicate SameFocus(e: Event) {
    !e.Begin? && !e.Focus? && !e.PodDeleted? && !e.PodCreated?
  }

  // The same reconcile has worked on the same pod since step j.
  ghost predicate SameWork(events: seq<Event>, j: nat, k: nat)
    requires k <= |events|
  {
    forall l {:trigger events[l]} | j < l < k :: SameFocus(events[l])
  }

  lemma ClearedSince(w: World, e: Event)
    requires Enabled(w, e) && Apply(w, e).past.cleared.Some?
    ensures var c := Apply(w, e).past.cleared.value;
            if e.Cleared? then e == Cleared(c.index, c.reason) && MayClear(w, c.index, c.reason)
            else w.past.cleared == Some(c) && SameFocus(e)
  {
    hide Admits, IsUpgradeOf;
  }

  lemma SettledSince(w: World, e: Event)
    requires Enabled(w, e) && Apply(w, e).past.settled.Some?
    ensures if e.Settled? then e == Settled(Apply(w, e).past.settled.value)
            else w.past.settled == Apply(w, e).past.settled && SameFocus(e)
  {
    hide Admits, IsUpgradeOf;
  }

  // When the pod now cleared was cleared, and that the same reconcile has worked on it ever since.
  lemma {:induction false} ClearedAt(worlds: seq<World>, events: seq<Event>, k: nat) returns (j: nat)
    requires IsRun(worlds, events) && k < |worlds| && worlds[k].past.cleared.Some?
    ensures j < k && SameWork(events, j, k)
    ensures var i, reason := worlds[k].past.cleared.value.index, worlds[k].past.cleared.value.reason;
            events[j] == Cleared(i, reason) && MayClear(worlds[j], i, reason)
  {
    hide Enabled, Apply, MayClear;
    if k > 0 {
      j := k - 1;
      assert events[j] == events[j];
      ClearedSince(worlds[j], events[j]);
      if !events[j].Cleared? {
        j := ClearedAt(worlds, events, k - 1);
      }
    }
  }

  lemma {:induction false} SettledAt(worlds: seq<World>, events: seq<Event>, k: nat) returns (s: nat)
    requires IsRun(worlds, events) && k < |worlds| && worlds[k].past.settled.Some?
    ensures s < k && SameWork(events, s, k) && events[s] == Settled(worlds[k].past.settled.value)
  {
    hide Enabled, Apply;
    if k > 0 {
      s := k - 1;
      assert events[s] == events[s];
      SettledSince(worlds[s], events[s]);
      if !events[s].Settled? {
        s := SettledAt(worlds, events, k - 1);
      }
    }
  }

  // A pod is deleted only by the reconcile that has it in focus, for a reason that it has found since and that still
  // holds; and one that was not found in a failure state only after it has reported, since then too, that it takes no
  // part in migrations.
  lemma DeletionWasCleared(worlds: seq<World>, events: seq<Event>, k: nat, i: nat)
    returns (s: nat, j: nat, reason: Reason)
    requires IsRun(worlds, events) && k < |events| && events[k] == PodDeleted(i)
    ensures j < k && events[j] == Cleared(i, reason) && SameWork(events, j, k)
    ensures ReasonHolds(worlds[j], i, reason) && ReasonHolds(worlds[k], i, reason)
    ensures reason != InFailure ==> s < j && events[s] == Settled(i) && SameWork(events, s, j)
  {
    hide Admits, IsUpgradeOf, ReasonHolds;
    assert events[k] == PodDeleted(i) && Enabled(worlds[k], events[k]);
    DisruptionIsBounded(worlds, events, k);
    reason := worlds[k].past.cleared.value.reason;
    j := ClearedAt(worlds, events, k);
    s := 0;
    if reason != InFailure {
      s := SettledAt(worlds, events, j);
    }
  }

  // ---------------------------------------------------------------- servers

  // Every server reports the version in its image's tag.
  ghost predicate Truthful(worlds: seq<World>, events: seq<Event>)
    requires Steps(worlds, events)
  {
    forall k {:trigger events[k]} | 0 <= k < |events| && events[k].PodCreated? && worlds[k].past.job.Working? ::
      events[k].build == worlds[k].past.job.snapshot.spec.version
  }

  predicate BuildsMatchImages(w: World) {
    forall i | i in w.pods :: w.pods[i].build == w.pods[i].image
  }

  lemma {:induction false} RunKeepsBuilds(worlds: seq<World>, events: seq<Event>, k: nat)
    requires IsRun(worlds, events) && Truthful(worlds, events) && k < |worlds|
    ensures BuildsMatchImages(worlds[k])
  {
    hide Admits, IsUpgradeOf;
    if k > 0 {
      RunKeepsBuilds(worlds, events, k - 1);
      assert events[k - 1] == events[k - 1];
    }
  }

  // When an upgrade writes the new version into the status, every wanted pod's server is of that version, but for pods
  // lost since the reconcile began.
  lemma StatusIsTruthful(worlds: seq<World>, events: seq<Event>, k: nat)
    requires IsRun(worlds, events) && Truthful(worlds, events)
    requires k < |events| && events[k].StatusSet? && Upgrading(worlds[k])
    ensures var snapshot := worlds[k].past.job.snapshot;
            && worlds[k + 1].obj.version == snapshot.spec.version
            && forall i | 0 <= i < snapshot.spec.nodeCount ::
                 i in worlds[k].past.lost || (i in worlds[k].pods && worlds[k].pods[i].build == snapshot.spec.version)
  {
    hide Admits, IsUpgradeOf;
    assert events[k].StatusSet? && Enabled(worlds[k], events[k]);
    RunKeepsBuilds(worlds, events, k);
  }

  // ---------------------------------------------------------------- truth of the status

  // The pod with index i at step k was created at step c.
  ghost predicate Creates(worlds: seq<World>, events: seq<Event>, c: nat, k: nat, i: nat)
    requires Steps(worlds, events) && k <= |events|
  {
    && c < k && events[c].PodCreated? && worlds[c].past.focus == Some(i) && worlds[c].past.job.Working?
    && (forall l {:trigger events[l]} | c < l < k && events[l].PodCreated? :: worlds[l].past.focus != Some(i))
  }

  // The pod with index i at step k was created by a reconcile on a spec of the given version.
  ghost predicate CreatedFor(worlds: seq<World>, events: seq<Event>, k: nat, i: nat, version: string)
    requires Steps(worlds, events) && k <= |events|
  {
    exists c: nat | Creates(worlds, events, c, k, i) :: worlds[c].past.job.snapshot.spec.version == version
  }

  lemma PodKeepsImage(w: World, e: Event, i: nat)
    requires Enabled(w, e) && i in Apply(w, e).pods
    ensures if e.PodCreated? && w.past.focus == Some(i)
            then w.past.job.Working? && Apply(w, e).pods[i].image == w.past.job.snapshot.spec.version
            else i in w.pods && Apply(w, e).pods[i].image == w.pods[i].image
  {
    hide Admits, IsUpgradeOf;
  }

  lemma {:induction false} PodWasCreated(worlds: seq<World>, events: seq<Event>, k: nat, i: nat) returns (c: nat)
    requires IsRun(worlds, events) && k < |worlds| && i in worlds[k].pods
    ensures Creates(worlds, events, c, k, i)
    ensures worlds[k].pods[i].image == worlds[c].past.job.snapshot.spec.version
  {
    hide Enabled, Apply;
    if k > 0 {
      c := k - 1;
      assert events[c] == events[c];
      PodKeepsImage(worlds[c], events[c], i);
      if !(events[c].PodCreated? && worlds[c].past.focus == Some(i)) {
        c := PodWasCreated(worlds, events, k - 1, i);
      }
    }
  }

  lemma ImageTellsCreation(worlds: seq<World>, events: seq<Event>, k: nat, i: nat, version: string)
    requires IsRun(worlds, events) && k < |worlds| && i in worlds[k].pods
    ensures worlds[k].pods[i].image == version <==> CreatedFor(worlds, events, k, i, version)
  {
    hide Genesis, Enabled, Apply;
    var c := PodWasCreated(worlds, events, k, i);
    forall d: nat | Creates(worlds, events, d, k, i)
      ensures d == c
    {
      assert events[c].PodCreated? && events[d].PodCreated?;
    }
  }

  // Every status, the first one included, is truthful if and only if every wanted pod that is there was created for
  // the version it names.
  lemma StatusTruthExactly(worlds: seq<World>, events: seq<Event>, k: nat)
    requires IsRun(worlds, events) && Truthful(worlds, events) && k < |events| && events[k].StatusSet?
    ensures worlds[k].past.job.Working? && worlds[k + 1].obj.version == worlds[k].past.job.snapshot.spec.version
    ensures var spec := worlds[k].past.job.snapshot.spec;
            (forall i | 0 <= i < spec.nodeCount && i in worlds[k].pods :: worlds[k].pods[i].build == spec.version) <==>
            (forall i | 0 <= i < spec.nodeCount && i in worlds[k].pods ::
               CreatedFor(worlds, events, k, i, spec.version))
  {
    hide CreatedFor;
    assert events[k].StatusSet?;
    RunKeepsBuilds(worlds, events, k);
    var spec := worlds[k].past.job.snapshot.spec;
    forall i: nat | i in worlds[k].pods
      ensures worlds[k].pods[i].build == spec.version <==> CreatedFor(worlds, events, k, i, spec.version)
    {
      ImageTellsCreation(worlds, events, k, i, spec.version);
    }
  }

  lemma SpecStepsUp(w: World, e: Event)
    requires Enabled(w, e) && w.obj.spec.version != Apply(w, e).obj.spec.version
    ensures SameOrUpgraded(w.obj.spec.version, Apply(w, e).obj.spec.version)
  {
    hide ValidTransition, IsUpgradeOf, IsPick, SameOrUpgraded;
    AdmitsUpgrades(w.obj.spec, e.spec);
  }

  // The version in the spec, too, only stays or takes valid upgrades.
  lemma {:induction false} SpecClimbs(worlds: seq<World>, events: seq<Event>, j: nat, k: nat)
    requires IsRun(worlds, events) && j <= k < |worlds|
    ensures worlds[j].obj.spec.version == worlds[k].obj.spec.version
            || SameOrUpgraded(worlds[j].obj.spec.version, worlds[k].obj.spec.version)
    decreases k
  {
    hide Enabled, Apply, SameOrUpgraded, ValidTransition;
    if j < k {
      SpecClimbs(worlds, events, j, k - 1);
      assert events[k - 1] == events[k - 1];
      if worlds[k - 1].obj.spec.version != worlds[k].obj.spec.version {
        SpecStepsUp(worlds[k - 1], events[k - 1]);
        if worlds[j].obj.spec.version != worlds[k - 1].obj.spec.version {
          TransitionsCompose(worlds[j].obj.spec.version, worlds[k - 1].obj.spec.version, worlds[k].obj.spec.version);
        }
      }
    }
  }

  // The spec names the given version, no pod with an index below n is of another one, and no reconcile works on another
  // one.
  predicate SettledOn(w: World, version: string, n: nat) {
    && w.obj.spec.version == version
    && (w.past.job.Working? ==> w.past.job.snapshot.spec.version == version)
    && (forall i | i in w.pods && i < n :: w.pods[i].image == version)
  }

  lemma StepKeepsSettled(w: World, e: Event, version: string, n: nat)
    requires SettledOn(w, version, n) && Enabled(w, e) && Apply(w, e).obj.spec.version == version
    ensures SettledOn(Apply(w, e), version, n)
  {
    hide Admits, IsUpgradeOf, IsPick;
  }

  lemma {:induction false} StaysSettled(worlds: seq<World>, events: seq<Event>, j: nat, k: nat, n: nat)
    requires IsRun(worlds, events) && j <= k < |worlds|
    requires SettledOn(worlds[j], worlds[j].obj.spec.version, n)
    requires worlds[k].obj.spec.version == worlds[j].obj.spec.version
    ensures SettledOn(worlds[k], worlds[j].obj.spec.version, n)
    decreases k
  {
    hide Enabled, Apply, SameOrUpgraded, SettledOn;
    if j < k {
      SpecClimbs(worlds, events, j, k - 1);
      SpecClimbs(worlds, events, k - 1, k);
      var version, between := worlds[j].obj.spec.version, worlds[k - 1].obj.spec.version;
      if between != version {
        TransitionsCompose(version, between, version);
      }
      StaysSettled(worlds, events, j, k - 1, n);
      assert events[k - 1] == events[k - 1];
      StepKeepsSettled(worlds[k - 1], events[k - 1], version, n);
    }
  }

  // When no pod below an index is of another version than the spec's, and no reconcile is at work on another one, no
  // status will mislead about these pods until the next change of version.
  lemma SettledSpecIsTruthful(worlds: seq<World>, events: seq<Event>, j: nat, k: nat, n: nat)
    requires IsRun(worlds, events) && Truthful(worlds, events) && j <= k < |events| && events[k].StatusSet?
    requires SettledOn(worlds[j], worlds[j].obj.spec.version, n)
    requires worlds[k].obj.spec.version == worlds[j].obj.spec.version
    ensures worlds[k + 1].obj.version == worlds[j].obj.spec.version
    ensures forall i | i in worlds[k].pods && i < n :: worlds[k].pods[i].build == worlds[k + 1].obj.version
  {
    hide Enabled, Apply;
    StatusTruthExactly(worlds, events, k);
    StaysSettled(worlds, events, j, k, n);
    RunKeepsBuilds(worlds, events, k);
  }

  // As long as the version stands that the first reconcile found, no status misleads.
  lemma UnchangedSpecIsTruthful(worlds: seq<World>, events: seq<Event>, j: nat, k: nat)
    requires IsRun(worlds, events) && Truthful(worlds, events) && j <= k < |events| && events[k].StatusSet?
    requires worlds[j].past.job.Idle? && worlds[k].obj.spec.version == worlds[j].obj.spec.version
    ensures worlds[k + 1].obj.version == worlds[j].obj.spec.version
    ensures forall i | i in worlds[k].pods :: worlds[k].pods[i].build == worlds[k + 1].obj.version
  {
    hide Enabled, Apply, Truthful, Genesis;
    IdleMeansNoPods(worlds, events, j);
    SettledSpecIsTruthful(worlds, events, j, k, 0);
    forall i: nat | i in worlds[k].pods
      ensures worlds[k].pods[i].build == worlds[k + 1].obj.version
    {
      SettledSpecIsTruthful(worlds, events, j, k, i + 1);
    }
  }

  lemma IdleStaysEmpty(w: World, e: Event)
    requires Enabled(w, e) && Apply(w, e).past.job.Idle?
    ensures w.past.job.Idle? && (w.pods == map[] ==> Apply(w, e).pods == map[])
  {
    hide Admits, IsUpgradeOf, IsPick;
  }

  lemma {:induction false} IdleMeansNoPods(worlds: seq<World>, events: seq<Event>, j: nat)
    requires IsRun(worlds, events) && j < |worlds| && worlds[j].past.job.Idle?
    ensures worlds[j].pods == map[]
  {
    hide Enabled, Apply;
    if j > 0 {
      assert events[j - 1] == events[j - 1];
      IdleStaysEmpty(worlds[j - 1], events[j - 1]);
      IdleMeansNoPods(worlds, events, j - 1);
    }
  }

  // ---------------------------------------------------------------- progress

  // The wanted indices whose pod is absent or of another version than the spec's.
  function Behind(w: World): set<nat> {
    set i | 0 <= i < w.obj.spec.nodeCount && (i !in w.pods || w.pods[i].build != w.obj.spec.version)
  }

  // An upgrade is due or under way, its reconcile works on the present spec, and no pod has failed.
  predicate Steady(w: World) {
    && w.obj.NeedsUpgrade()
    && w.past.job.Working? && Upgrading(w) && w.past.job.snapshot.spec == w.obj.spec
    && (forall i | i in w.pods :: !w.pods[i].failed)
  }

  // The step does not change the spec, fail or lose a pod, or complete the upgrade, and a new pod's server is truthful.
  predicate Calm(w: World, e: Event) {
    && !e.SpecUpdated? && !e.PodFails? && !e.PodLost? && !e.StatusSet?
    && (e.PodCreated? && w.past.job.Working? ==> e.build == w.past.job.snapshot.spec.version)
  }

  ghost predicate CalmStretch(worlds: seq<World>, events: seq<Event>, a: nat, b: nat)
    requires Steps(worlds, events) && a <= b < |worlds|
  {
    Steady(worlds[a]) && (forall k {:trigger events[k]} | a <= k < b :: Calm(worlds[k], events[k]))
  }

  // One step: no index falls behind, only indices that are behind or surplus lose their pod, and an index that has
  // a pod again is on the new version.
  lemma StepProgresses(w: World, e: Event)
    requires Bounded(w) && Steady(w) && Enabled(w, e) && Calm(w, e)
    ensures Steady(Apply(w, e)) && Apply(w, e).obj.spec == w.obj.spec
    ensures Behind(Apply(w, e)) <= Behind(w)
    ensures e.PodDeleted? ==> e.i in w.pods && (e.i < w.obj.spec.nodeCount ==> w.pods[e.i].build != w.obj.spec.version)
    ensures forall i | i in Apply(w, e).pods ::
              if i in w.pods then Apply(w, e).pods[i].build == w.pods[i].build
              else i < w.obj.spec.nodeCount && Apply(w, e).pods[i].build == w.obj.spec.version
  {
    hide Admits;
  }

  lemma {:induction false} StaysSteady(worlds: seq<World>, events: seq<Event>, a: nat, b: nat)
    requires IsRun(worlds, events) && a <= b < |worlds| && CalmStretch(worlds, events, a, b)
    ensures Steady(worlds[b]) && worlds[b].obj.spec == worlds[a].obj.spec
    ensures Behind(worlds[b]) <= Behind(worlds[a])
    decreases b
  {
    hide Enabled, Apply, Bounded, Behind, Steady;
    if a < b {
      StaysSteady(worlds, events, a, b - 1);
      DisruptionIsBounded(worlds, events, b - 1);
      assert events[b - 1] == events[b - 1];
      StepProgresses(worlds[b - 1], events[b - 1]);
    }
  }

  // The pod with index i is gone for good, or back on the new version.
  predicate GoneOrNew(w: World, i: nat) {
    i in w.pods ==> i < w.obj.spec.nodeCount && w.pods[i].build == w.obj.spec.version
  }

  lemma {:induction false} StaysGoneOrNew(worlds: seq<World>, events: seq<Event>, a: nat, j: nat, k: nat, i: nat)
    requires IsRun(worlds, events) && a <= j < k < |worlds| && CalmStretch(worlds, events, a, k)
    requires events[j] == PodDeleted(i)
    ensures GoneOrNew(worlds[k], i)
    decreases k
  {
    hide Bounded, Behind, Admits, IsUpgradeOf;
    assert events[j] == PodDeleted(i);
    if j + 1 < k {
      StaysGoneOrNew(worlds, events, a, j, k - 1, i);
      StaysSteady(worlds, events, a, k - 1);
      DisruptionIsBounded(worlds, events, k - 1);
      assert events[k - 1] == events[k - 1];
      StepProgresses(worlds[k - 1], events[k - 1]);
    }
  }

  lemma CalmPart(worlds: seq<World>, events: seq<Event>, a: nat, j: nat, k: nat)
    requires IsRun(worlds, events) && a <= j <= k < |worlds| && CalmStretch(worlds, events, a, k)
    ensures CalmStretch(worlds, events, a, j) && CalmStretch(worlds, events, j, k)
  {
    hide Genesis, Enabled, Apply, Steady;
    StaysSteady(worlds, events, a, j);
  }

  // Resumable progress: however often reconciles are cut short and begun again, the set of wanted indices whose pod
  // is absent or off the new version only shrinks.
  lemma UpgradeProgresses(worlds: seq<World>, events: seq<Event>, a: nat, j: nat, k: nat)
    requires IsRun(worlds, events) && a <= j <= k < |worlds| && CalmStretch(worlds, events, a, k)
    ensures Behind(worlds[k]) <= Behind(worlds[j])
  {
    hide Genesis, Enabled, Apply, Steady, Behind;
    CalmPart(worlds, events, a, j, k);
    StaysSteady(worlds, events, j, k);
  }

  // No pod is deleted twice in one upgrade.
  lemma DeletedOnce(worlds: seq<World>, events: seq<Event>, a: nat, j: nat, k: nat, i: nat)
    requires IsRun(worlds, events) && a <= j < k < |events| && CalmStretch(worlds, events, a, k + 1)
    requires events[j] == PodDeleted(i)
    ensures events[k] != PodDeleted(i)
  {
    hide Genesis, Bounded, Behind, Admits, IsUpgradeOf;
    CalmPart(worlds, events, a, k, k + 1);
    StaysGoneOrNew(worlds, events, a, j, k, i);
    StaysSteady(worlds, events, a, k);
    DisruptionIsBounded(worlds, events, k);
    assert events[k] == events[k];
    StepProgresses(worlds[k], events[k]);
  }
}
