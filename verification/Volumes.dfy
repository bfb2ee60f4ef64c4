// The life of volume claims over all runs: continuity of a pod's volume, and safety of the collector.
module Volumes {
  import opened Wrappers
  import opened Admission
  import opened World

  // ---------------------------------------------------------------- invariants

  // Both the stored spec and the one under reconciliation keep the namespace that was first admitted, g's.
  ghost predicate SpecsAgree(w: World, g: Spec) {
    && SameNamespace(g, w.obj.spec)
    && (w.past.job.Working? ==> SameNamespace(g, w.past.job.snapshot.spec))
  }

  predicate Shaped(w: World, g: Spec, c: nat)
    requires c in w.claims && |g.namespaces| == 1
  {
    var claim := w.claims[c];
    && claim.pod.Some?
    && claim.ns == g.namespaces[0].name && claim.ttl == At(g.namespaces[0].storage.Ttl())
    && (claim.unmounted == Absent || (claim.unmounted.At? && claim.unmounted.t <= Rfc3339(w.now)))
    && claim.created == c < w.next
  }

  predicate Marked(w: World, c: nat) {
    c in w.claims && w.claims[c].unmounted.At?
  }

  // Every claim is as the operator writes claims.
  ghost predicate ClaimsShaped(w: World, g: Spec) {
    && |g.namespaces| == 1
    && forall c | c in w.claims :: Shaped(w, g, c)
  }

  // Every mounted claim exists, carries its pod's name, and is the one its index mounted last.
  ghost predicate MountsAnnotated(w: World) {
    forall i | i in w.pods ::
      && w.pods[i].claim in w.claims && w.claims[w.pods[i].claim].pod == Some(i)
      && i in w.past.last && w.past.last[i] == w.pods[i].claim
  }

  // The claim an index mounted last is the newest of the index's marked claims.
  ghost predicate LastIsNewest(w: World) {
    forall c: nat | Marked(w, c) && w.claims[c].pod.Some? ::
      w.claims[c].pod.value in w.past.last && c <= w.past.last[w.claims[c].pod.value]
  }

  // Unmount times follow creation order among the claims of one pod name.
  ghost predicate MarksOrdered(w: World) {
    forall c: nat, d: nat | Marked(w, c) && Marked(w, d) && c < d && w.claims[c].pod == w.claims[d].pod ::
      w.claims[c].unmounted.t <= w.claims[d].unmounted.t
  }

  // The claim that an index mounted last bears its name.
  ghost predicate LastIsOwn(w: World) {
    forall i | i in w.past.last ::
      w.past.last[i] < w.next && (w.past.last[i] in w.claims ==> w.claims[w.past.last[i]].pod == Some(i))
  }

  // When the claim an index mounted last has been collected, all other marked claims of the index have expired.
  ghost predicate GoneOutlived(w: World) {
    forall d: nat | Marked(w, d) && w.claims[d].pod.Some? ::
      var i := w.claims[d].pod.value;
      i in w.past.last && w.past.last[i] !in w.claims ==> Expired(w.claims[d], w.now)
  }

  // The claim of a pod cleared for deletion is the one that its index mounted last.
  ghost predicate ClearedIsLast(w: World) {
    w.past.cleared.Some? ==>
      var (i, c) := (w.past.cleared.value.index, w.past.cleared.value.claim);
      i in w.past.last && w.past.last[i] == c
  }

  // A claim obtained for the pod being created, which does not exist yet, belongs to that pod alone and is newer than
  // the pod's marked claims.
  ghost predicate HeldIsPrivate(w: World) {
    w.past.held != Nothing ==>
      && w.past.focus.Some? && w.past.focus.value !in w.pods && w.past.held.claim in w.claims
      && w.claims[w.past.held.claim].pod == w.past.focus && w.claims[w.past.held.claim].unmounted == Absent
      && (forall d: nat | Marked(w, d) && w.claims[d].pod == w.past.focus :: d < w.past.held.claim)
  }

  ghost predicate VolInv(w: World, g: Spec) {
    && ClaimsShaped(w, g)
    && MountsAnnotated(w)
    && LastIsNewest(w)
    && MarksOrdered(w)
    && LastIsOwn(w)
    && GoneOutlived(w)
    && ClearedIsLast(w)
    && HeldIsPrivate(w)
  }

  ghost predicate Inv(w: World, g: Spec) {
    SpecsAgree(w, g) && VolInv(w, g)
  }

  // ---------------------------------------------------------------- every step keeps them

  lemma Rfc3339Monotone(s: nat, t: nat)
    requires s <= t
    ensures Rfc3339(s) <= Rfc3339(t)
  {
    assert s == s / SECOND * SECOND + s % SECOND;
    assert t == t / SECOND * SECOND + t % SECOND;
  }

  // The part of a world that the claims' invariants are about is the same, but for the time and for failures.
  ghost predicate VolumesUndisturbed(w: World, w': World) {
    && w.now <= w'.now && w'.next == w.next && w'.claims == w.claims && w'.past.last == w.past.last
    && (forall i | i in w'.pods :: i in w.pods && w'.pods[i].claim == w.pods[i].claim)
    && (w'.past.cleared == None || w'.past.cleared == w.past.cleared)
    && (w'.past.held == Nothing || (w'.past.held == w.past.held && w'.past.focus == w.past.focus))
  }

  predicate VolumeEvent(e: Event) {
    || e.ClaimCollected? || e.Cleared? || e.ClaimMarked? || e.PodDeleted?
    || e.ClaimCreated? || e.ClaimMounted? || e.PodCreated?
  }

  lemma OtherEventsLeaveVolumes(w: World, e: Event)
    requires Enabled(w, e) && !VolumeEvent(e)
    ensures VolumesUndisturbed(w, Apply(w, e))
  {
  }

  lemma KeptUndisturbed(w: World, w': World, g: Spec)
    requires VolInv(w, g) && VolumesUndisturbed(w, w')
    ensures VolInv(w', g)
  {
    Rfc3339Monotone(w.now, w'.now);
    forall c | c in w'.claims
      ensures Shaped(w', g, c)
    {
      assert Shaped(w, g, c);
    }
    assert forall c: nat | Marked(w', c) :: Marked(w, c);
  }

  // Events of volumes write claims of the given shape only.
  lemma ShapesStay(w: World, e: Event, g: Spec)
    requires ClaimsShaped(w, g) && Enabled(w, e) && VolumeEvent(e)
    requires e.ClaimCreated? ==> SpecsAgree(w, g)
    ensures ClaimsShaped(Apply(w, e), g)
  {
    var w' := Apply(w, e);
    forall d | d in w'.claims
      ensures Shaped(w', g, d)
    {
      if d in w.claims {
        assert Shaped(w, g, d);
      }
    }
  }

  lemma NamesBelowNext(w: World, g: Spec)
    requires ClaimsShaped(w, g)
    ensures forall d | d in w.claims :: d < w.next
  {
    forall d | d in w.claims
      ensures d < w.next
    {
      assert Shaped(w, g, d);
    }
  }

  lemma OlderExpires(w: World, g: Spec, c: nat, d: nat)
    requires ClaimsShaped(w, g) && MarksOrdered(w)
    requires Marked(w, c) && Marked(w, d) && c <= d && w.claims[c].pod == w.claims[d].pod
    requires Expired(w.claims[d], w.now)
    ensures Expired(w.claims[c], w.now)
  {
    assert Shaped(w, g, c) && Shaped(w, g, d);
  }

  lemma KeptWhenCollected(w: World, c: nat, g: Spec)
    requires VolInv(w, g) && Enabled(w, ClaimCollected(c))
    ensures VolInv(Apply(w, ClaimCollected(c)), g)
  {
    hide Shaped;
    var w' := Apply(w, ClaimCollected(c));
    ShapesStay(w, ClaimCollected(c), g);
    assert forall d: nat | Marked(w', d) :: Marked(w, d);
    forall d: nat | Marked(w', d) && w.claims[d].pod.Some? && w.past.last[w.claims[d].pod.value] == c
      ensures Expired(w.claims[d], w.now)
    {
      OlderExpires(w, g, d, c);
    }
  }

  lemma KeptWhenCleared(w: World, i: nat, reason: Reason, g: Spec)
    requires VolInv(w, g) && Enabled(w, Cleared(i, reason))
    ensures VolInv(Apply(w, Cleared(i, reason)), g)
  {
    hide Shaped;
    var w' := Apply(w, Cleared(i, reason));
    ShapesStay(w, Cleared(i, reason), g);
    NamesBelowNext(w, g);
    assert forall d: nat | Marked(w', d) :: Marked(w, d);
  }

  // A mark set now is later than all others.
  lemma MarkIsLatest(w: World, g: Spec)
    requires ClaimsShaped(w, g)
    ensures forall d: nat | Marked(w, d) :: w.claims[d].unmounted.t <= Rfc3339(w.now)
  {
    forall d: nat | Marked(w, d)
      ensures w.claims[d].unmounted.t <= Rfc3339(w.now)
    {
      assert Shaped(w, g, d);
    }
  }

  lemma KeptWhenMarked(w: World, i: nat, g: Spec)
    requires VolInv(w, g) && Enabled(w, ClaimMarked(i))
    ensures VolInv(Apply(w, ClaimMarked(i)), g)
  {
    hide Shaped;
    var w' := Apply(w, ClaimMarked(i));
    ShapesStay(w, ClaimMarked(i), g);
    MarkIsLatest(w, g);
    assert forall d: nat | Marked(w', d) :: d == w.past.cleared.value.claim || Marked(w, d);
  }

  lemma KeptWhenDeleted(w: World, i: nat, g: Spec)
    requires VolInv(w, g) && Enabled(w, PodDeleted(i))
    ensures VolInv(Apply(w, PodDeleted(i)), g)
  {
    hide Shaped;
    var w' := Apply(w, PodDeleted(i));
    ShapesStay(w, PodDeleted(i), g);
    assert forall d: nat | Marked(w', d) :: Marked(w, d);
  }

  // At any instant, of two marked claims of one pod the newer one outlives the older one.
  lemma NewerOutlivesOlder(w: World, g: Spec, i: nat, c: nat, d: nat)
    requires ClaimsShaped(w, g) && MarksOrdered(w)
    requires Marked(w, c) && Marked(w, d) && c <= d
    requires w.claims[c].pod == w.claims[d].pod == Some(i)
    ensures Reusable(w.claims[c], i, w.now) ==> Reusable(w.claims[d], i, w.now)
  {
    assert Shaped(w, g, c) && Shaped(w, g, d);
  }

  // What getPersistentVolumeClaim finds is the newest marked claim of the index, expired ones included.
  lemma PickIsNewestMarked(w: World, g: Spec, i: nat, c: nat, d: nat)
    requires ClaimsShaped(w, g) && MarksOrdered(w) && IsPick(w.claims, w.now, i, Some(c))
    requires Marked(w, d) && w.claims[d].pod == Some(i)
    ensures d <= c
  {
    assert Shaped(w, g, c) && Shaped(w, g, d);
    if c < d {
      NewerOutlivesOlder(w, g, i, c, d);
    }
  }

  lemma KeptWhenMounted(w: World, c: nat, g: Spec)
    requires VolInv(w, g) && Enabled(w, ClaimMounted(c))
    ensures VolInv(Apply(w, ClaimMounted(c)), g)
  {
    hide Shaped;
    var w' := Apply(w, ClaimMounted(c));
    ShapesStay(w, ClaimMounted(c), g);
    assert forall d: nat | Marked(w', d) :: Marked(w, d) && d != c;
    forall d: nat | Marked(w', d) && w.claims[d].pod == w.past.focus
      ensures d < c
    {
      PickIsNewestMarked(w, g, w.past.focus.value, c, d);
    }
  }

  lemma KeptWhenCreated(w: World, g: Spec)
    requires VolInv(w, g) && SpecsAgree(w, g) && Enabled(w, ClaimCreated)
    ensures VolInv(Apply(w, ClaimCreated), g)
  {
    hide Shaped, Enabled, Apply, SpecsAgree, MarksOrdered, GoneOutlived;
    var w' := Apply(w, ClaimCreated);
    ShapesStay(w, ClaimCreated, g);
    NamesBelowNext(w, g);
    CreationAddsClaim(w);
    CreationKeepsMarks(w, g);
    assert forall d: nat | Marked(w', d) :: Marked(w, d);
  }

  lemma CreationKeepsMarks(w: World, g: Spec)
    requires VolInv(w, g) && Enabled(w, ClaimCreated)
    ensures MarksOrdered(Apply(w, ClaimCreated)) && GoneOutlived(Apply(w, ClaimCreated))
  {
    hide Shaped, Enabled, Apply, Expired;
    var w' := Apply(w, ClaimCreated);
    NamesBelowNext(w, g);
    CreationAddsClaim(w);
    assert forall d: nat | Marked(w', d) :: Marked(w, d) && w'.claims[d] == w.claims[d];
  }

  lemma CreationAddsClaim(w: World)
    requires Enabled(w, ClaimCreated)
    ensures w.past.focus.Some? && w.past.focus.value !in w.pods && |w.past.job.snapshot.spec.namespaces| == 1
    ensures Apply(w, ClaimCreated) ==
            w.(claims := w.claims[w.next := NewClaim(w.past.focus, w.past.job.snapshot.spec.namespaces[0], w.next)],
               next := w.next + 1, past := w.past.(held := Fresh(w.next)))
  {
    hide IsPick, WantsFreshClaim;
  }

  lemma KeptWhenPodCreated(w: World, build: string, g: Spec)
    requires VolInv(w, g) && Enabled(w, PodCreated(build))
    ensures VolInv(Apply(w, PodCreated(build)), g)
  {
    hide Shaped;
    var w' := Apply(w, PodCreated(build));
    ShapesStay(w, PodCreated(build), g);
    NamesBelowNext(w, g);
    assert forall d: nat | Marked(w', d) :: Marked(w, d);
  }

  lemma StepKeepsVolumes(w: World, e: Event, g: Spec)
    requires VolInv(w, g) && SpecsAgree(w, g) && Enabled(w, e)
    ensures VolInv(Apply(w, e), g)
  {
    if !VolumeEvent(e) {
      OtherEventsLeaveVolumes(w, e);
      KeptUndisturbed(w, Apply(w, e), g);
    } else if e.ClaimCollected? {
      KeptWhenCollected(w, e.c, g);
    } else if e.Cleared? {
      KeptWhenCleared(w, e.i, e.reason, g);
    } else if e.ClaimMarked? {
      KeptWhenMarked(w, e.i, g);
    } else if e.PodDeleted? {
      KeptWhenDeleted(w, e.i, g);
    } else if e.ClaimCreated? {
      KeptWhenCreated(w, g);
    } else if e.ClaimMounted? {
      KeptWhenMounted(w, e.c, g);
    } else {
      KeptWhenPodCreated(w, e.build, g);
    }
  }

  lemma KeepsSpecs(w: World, e: Event, g: Spec)
    requires SpecsAgree(w, g) && Enabled(w, e)
    ensures SpecsAgree(Apply(w, e), g)
  {
    if e.SpecUpdated? {
      AdmitsKeepsNamespace(w.obj.spec, e.spec);
    }
  }

  lemma {:induction false} RunKeepsInv(worlds: seq<World>, events: seq<Event>, k: nat)
    requires IsRun(worlds, events) && k < |worlds|
    ensures Inv(worlds[k], worlds[0].obj.spec)
  {
    if k > 0 {
      RunKeepsInv(worlds, events, k - 1);
      KeepsSpecs(worlds[k - 1], events[k - 1], worlds[0].obj.spec);
      StepKeepsVolumes(worlds[k - 1], events[k - 1], worlds[0].obj.spec);
    }
  }
}
