// Theorems about volumes over all runs: which claim a recreated pod gets, and what the collector may delete.
module Continuity {
  import opened Wrappers
  import opened Admission
  import opened World
  import opened Volumes

  lemma NamedBefore(w: World, g: Spec, c: nat)
    requires Inv(w, g) && c in w.claims
    ensures c < w.next
  {
    assert Shaped(w, g, c);
  }

  // ---------------------------------------------------------------- the collector

  // The collector never deletes a claim that a pod mounts, whatever else the operator was cut short in.
  lemma CollectorSparesMountedClaims(worlds: seq<World>, events: seq<Event>, k: nat)
    requires IsRun(worlds, events) && k < |events| && events[k].ClaimCollected?
    ensures forall i | i in worlds[k].pods :: worlds[k].pods[i].claim != events[k].c
  {
    RunKeepsInv(worlds, events, k);
  }

  // In every world each pod's claim exists, bears the pod's name, and is mounted by no other pod.
  lemma MountedClaimsExist(worlds: seq<World>, events: seq<Event>, k: nat)
    requires IsRun(worlds, events) && k < |worlds|
    ensures forall i | i in worlds[k].pods ::
              && worlds[k].pods[i].claim in worlds[k].claims
              && worlds[k].claims[worlds[k].pods[i].claim].pod == Some(i)
    ensures forall i, j | i in worlds[k].pods && j in worlds[k].pods ::
              worlds[k].pods[i].claim == worlds[k].pods[j].claim ==> i == j
  {
    RunKeepsInv(worlds, events, k);
  }

  // The claim is that of the pod now being deleted.
  predicate BeingDeleted(w: World, c: nat) {
    w.past.cleared.Some? && w.past.cleared.value.claim == c
  }

  // Nothing is written to a claim that may be collected.
  lemma CollectableKept(w: World, e: Event, c: nat)
    requires Enabled(w, e) && Collectable(w, c) && !BeingDeleted(w, c) && c < w.next && c in Apply(w, e).claims
    ensures Apply(w, e).claims[c] == w.claims[c]
  {
    hide Admits, IsUpgradeOf, IsPick;
    if e.ClaimMounted? {
      MountedIsReusable(w, e.c);
    }
  }

  lemma MountedIsReusable(w: World, c: nat)
    requires Enabled(w, ClaimMounted(c))
    ensures c in w.claims && Reusable(w.claims[c], w.past.focus.value, w.now)
  {
  }

  // No pod comes to mount it.
  lemma CollectableUnmounted(w: World, e: Event, i: nat, c: nat)
    requires MountsAnnotated(w) && HeldIsPrivate(w) && Enabled(w, e) && c in w.claims
    requires w.claims[c].pod == Some(i) && w.claims[c].unmounted.At? && !Mounts(w, i, c) && !BeingDeleted(w, c)
    ensures !Mounts(Apply(w, e), i, c) && !BeingDeleted(Apply(w, e), c)
  {
    hide Admits, IsUpgradeOf, IsPick;
  }

  lemma CollectableStays(w: World, e: Event, g: Spec, c: nat)
    requires VolInv(w, g) && Enabled(w, e) && Collectable(w, c) && c in Apply(w, e).claims && !BeingDeleted(w, c)
    ensures Collectable(Apply(w, e), c) && !BeingDeleted(Apply(w, e), c)
  {
    TimePasses(w, e);
    assert c < w.next by {
      assert Shaped(w, g, c);
    }
    hide Enabled, Apply, Mounts, BeingDeleted;
    CollectableKept(w, e, c);
    CollectableUnmounted(w, e, w.claims[c].pod.value, c);
  }

  lemma TimePasses(w: World, e: Event)
    requires Enabled(w, e)
    ensures w.now <= Apply(w, e).now && w.next <= Apply(w, e).next
  {
    hide Admits, IsUpgradeOf, IsPick;
  }

  // A claim that the collector may delete stays so until it is gone: it is never reused or mounted again, and at no
  // time may one claim be both collected and reused. The one exception is the claim of a pod that was lost while it
  // was being deleted.
  lemma {:induction false} CollectableForever(worlds: seq<World>, events: seq<Event>, k: nat, l: nat, c: nat)
    requires IsRun(worlds, events) && k <= l < |worlds|
    requires Collectable(worlds[k], c) && !BeingDeleted(worlds[k], c) && c in worlds[l].claims
    ensures Collectable(worlds[l], c) && !BeingDeleted(worlds[l], c)
    ensures forall i :: !Reusable(worlds[l].claims[c], i, worlds[l].now) && !Mounts(worlds[l], i, c)
    decreases l
  {
    hide Enabled, Apply;
    RunKeepsInv(worlds, events, l);
    if k < l {
      RunKeepsInv(worlds, events, l - 1);
      RunKeepsInv(worlds, events, k);
      NamedBefore(worlds[k], worlds[0].obj.spec, c);
      NamesGrow(worlds, events, k, l - 1);
      if c !in worlds[l - 1].claims {
        GoneStaysGone(worlds, events, l - 1, l, c);
      }
      CollectableForever(worlds, events, k, l - 1, c);
      CollectableStays(worlds[l - 1], events[l - 1], worlds[0].obj.spec, c);
    }
  }

  // The exception: when the pod is lost between being cleared for deletion and the marking of its claim, the claim is
  // marked all the same, and if it was collectable it ceases to be so unless its period is shorter than a second's
  // rounding.
  lemma MarkRevives(w: World, g: Spec, i: nat, c: nat)
    requires Inv(w, g) && Collectable(w, c) && BeingDeleted(w, c) && w.past.held == Nothing
    requires w.past.cleared.value.index == i
    ensures i !in w.pods && Enabled(w, ClaimMarked(i))
    ensures var w' := Apply(w, ClaimMarked(i));
            Collectable(w', c) <==> Rfc3339(w.now) + w.claims[c].ttl.t <= w.now
    ensures var w' := Apply(w, ClaimMarked(i));
            Reusable(w'.claims[c], i, w'.now) <==> w.now < Rfc3339(w.now) + w.claims[c].ttl.t
  {
    assert Shaped(w, g, c);
  }

  // A claim name is used once.
  lemma AbsentStaysAbsent(w: World, e: Event, c: nat)
    requires Enabled(w, e) && c < w.next && c !in w.claims
    ensures c !in Apply(w, e).claims && c < Apply(w, e).next
  {
  }

  // A claim name is used once.
  lemma {:induction false} GoneStaysGone(worlds: seq<World>, events: seq<Event>, m: nat, l: nat, c: nat)
    requires Steps(worlds, events) && m <= l < |worlds|
    requires c < worlds[m].next && c !in worlds[m].claims
    ensures c !in worlds[l].claims && c < worlds[l].next
    decreases l
  {
    if m < l {
      GoneStaysGone(worlds, events, m, l - 1, c);
      AbsentStaysAbsent(worlds[l - 1], events[l - 1], c);
    }
  }

  lemma {:induction false} NamesGrow(worlds: seq<World>, events: seq<Event>, k: nat, l: nat)
    requires Steps(worlds, events) && k <= l < |worlds|
    ensures worlds[k].next <= worlds[l].next && worlds[k].now <= worlds[l].now
    decreases l
  {
    if k < l {
      NamesGrow(worlds, events, k, l - 1);
      assert events[l - 1] == events[l - 1];
    }
  }

  // ---------------------------------------------------------------- what a reconcile has found

  lemma FocusStays(w: World, e: Event)
    requires Enabled(w, e) && Apply(w, e).past.focus.Some? && !e.Focus?
    ensures !e.Begin? && w.past.focus == Apply(w, e).past.focus
    ensures w.past.healthy == Apply(w, e).past.healthy && w.past.job == Apply(w, e).past.job
  {
    hide Admits, IsUpgradeOf, IsPick;
  }

  lemma FocusFinds(w: World, i: nat)
    requires Enabled(w, Focus(i))
    ensures var w' := Apply(w, Focus(i));
            && w'.past.focus == Some(i) && w'.past.job == w.past.job && w.past.job.Working?
            && (w'.past.healthy <==> FoundHealthy(w, i))
  {
  }

  // The reconcile that has an index in focus has reached it at some step, and has worked on nothing else since.
  lemma {:induction false} FocusedAt(worlds: seq<World>, events: seq<Event>, k: nat) returns (f: nat)
    requires IsRun(worlds, events) && k < |worlds| && worlds[k].past.focus.Some?
    ensures f < k && events[f] == Focus(worlds[k].past.focus.value)
    ensures worlds[f].past.job == worlds[k].past.job && worlds[f].past.job.Working?
    ensures worlds[k].past.healthy <==> FoundHealthy(worlds[f], worlds[k].past.focus.value)
    ensures forall j {:trigger events[j]} | f < j < k :: !events[j].Begin? && !events[j].Focus?
  {
    hide Enabled, Apply, FoundHealthy;
    if k > 0 {
      f := k - 1;
      assert events[f] == events[f];
      if events[f].Focus? {
        FocusFinds(worlds[f], events[f].i);
      } else {
        FocusStays(worlds[f], events[f]);
        f := FocusedAt(worlds, events, k - 1);
      }
    }
  }

  predicate FoundHealthy(w: World, i: nat) {
    i in w.pods && !w.pods[i].failed
  }

  // ---------------------------------------------------------------- obtaining a claim

  predicate Obtains(e: Event) {
    e.ClaimCreated? || e.ClaimMounted?
  }

  lemma HeldStays(w: World, e: Event)
    requires Enabled(w, e) && Apply(w, e).past.held != Nothing && !Obtains(e)
    ensures w.past.held == Apply(w, e).past.held && w.past.focus == Apply(w, e).past.focus
    ensures w.past.job == Apply(w, e).past.job && !e.Begin? && !e.Focus?
  {
    hide Admits, IsUpgradeOf;
  }

  lemma ObtainingStaysInFocus(w: World, e: Event)
    requires Enabled(w, e) && Obtains(e)
    ensures Apply(w, e).past.focus == w.past.focus && Apply(w, e).past.job == w.past.job && w.past.focus.Some?
  {
    hide IsPick;
  }

  // The claim that waits for its pod was obtained after a step at which the index had none in hand.
  lemma {:induction false} ObtainedAt(worlds: seq<World>, events: seq<Event>, lo: nat, m: nat) returns (k: nat)
    requires Steps(worlds, events) && lo < m < |worlds| && worlds[m].past.held != Nothing
    requires worlds[lo].past.held == Nothing || worlds[lo].past.focus != worlds[m].past.focus
    ensures lo <= k < m && Obtains(events[k]) && worlds[k + 1].past.held == worlds[m].past.held
    ensures worlds[k].past.focus == worlds[m].past.focus && worlds[k].past.job == worlds[m].past.job
    ensures worlds[m].past.focus.Some?
    ensures forall j {:trigger events[j]} | k < j < m :: !events[j].Begin? && !events[j].Focus?
    decreases m
  {
    hide Enabled, Apply;
    k := m - 1;
    assert events[k] == events[k];
    if Obtains(events[k]) {
      ObtainingStaysInFocus(worlds[k], events[k]);
    } else {
      HeldStays(worlds[k], events[k]);
      k := ObtainedAt(worlds, events, lo, m - 1);
    }
  }

  lemma CreationMountsHeld(w: World, e: Event)
    requires Enabled(w, e) && e.PodCreated?
    ensures w.past.held != Nothing && w.past.focus.Some? && w.past.focus.value in Apply(w, e).pods
    ensures Apply(w, e).pods[w.past.focus.value].claim == w.past.held.claim
  {
  }

  predicate MayReuse(w: World, i: nat) {
    exists c | c in w.claims :: Reusable(w.claims[c], i, w.now)
  }

  // What may be reused for an index follows from the claim that it mounted last.
  lemma ReuseFollowsLast(w: World, g: Spec, i: nat)
    requires VolInv(w, g)
    ensures i !in w.past.last || w.past.last[i] !in w.claims ==> !MayReuse(w, i)
    ensures i in w.past.last && Marked(w, w.past.last[i]) ==>
              (MayReuse(w, i) <==> !Expired(w.claims[w.past.last[i]], w.now))
  {
    if i in w.past.last && Marked(w, w.past.last[i]) && !Expired(w.claims[w.past.last[i]], w.now) {
      assert Shaped(w, g, w.past.last[i]) && Reusable(w.claims[w.past.last[i]], i, w.now);
    }
    forall d: nat | d in w.claims && Reusable(w.claims[d], i, w.now)
      ensures i in w.past.last && w.past.last[i] in w.claims
      ensures Marked(w, w.past.last[i]) ==> !Expired(w.claims[w.past.last[i]], w.now)
    {
      assert Marked(w, d) && !Expired(w.claims[d], w.now);
      if Marked(w, w.past.last[i]) && Expired(w.claims[w.past.last[i]], w.now) {
        OlderExpires(w, g, d, w.past.last[i]);
      }
    }
  }

  lemma ObtainsFreshOrPick(w: World, e: Event, i: nat)
    requires Enabled(w, e) && Obtains(e) && w.past.focus == Some(i)
    ensures w.past.held == Nothing && w.past.cleared == None && i !in w.pods
    ensures if WantsFreshClaim(w) || !MayReuse(w, i) then Apply(w, e).past.held == Fresh(w.next)
            else Apply(w, e).past.held.Reused? && IsPick(w.claims, w.now, i, Some(Apply(w, e).past.held.claim))
  {
    hide Admits;
  }

  // Which claim an index obtains: the newest that may be reused, which is the one it mounted last if that is marked,
  // and an older one otherwise; or a new one.
  lemma ObtainsByLast(w: World, e: Event, g: Spec, i: nat)
    requires Inv(w, g) && Enabled(w, e) && Obtains(e) && w.past.focus == Some(i)
    ensures if WantsFreshClaim(w) || !MayReuse(w, i) then Apply(w, e).past.held == Fresh(w.next)
            else ReusedByLast(w, i, Apply(w, e).past.held)
  {
    hide Enabled, Apply, WantsFreshClaim, MayReuse;
    ObtainsFreshOrPick(w, e, i);
    ReuseFollowsLast(w, g, i);
    if !WantsFreshClaim(w) && MayReuse(w, i) {
      var c := Apply(w, e).past.held.claim;
      assert Marked(w, c);
      if Marked(w, w.past.last[i]) {
        PickIsNewestMarked(w, g, i, c, w.past.last[i]);
      }
    }
  }

  ghost predicate ReusedByLast(w: World, i: nat, held: Held) {
    && held.Reused? && IsPick(w.claims, w.now, i, Some(held.claim))
    && i in w.past.last && held.claim <= w.past.last[i]
    && (held.claim == w.past.last[i] <==> Marked(w, w.past.last[i]))
  }

  lemma StartsWithNothing(worlds: seq<World>, events: seq<Event>)
    requires IsRun(worlds, events)
    ensures worlds[0].past.held == Nothing && worlds[0].past.focus == None
  {
  }

  // The reconcile has found a healthy pod to replace, and its upgrade has the strategy to recreate claims.
  predicate Recreates(w: World, i: nat) {
    w.past.job.Working? && NeedsFreshClaim(w.past.job.upgrade) && FoundHealthy(w, i)
  }

  // The pod created at step m for index i was worked on from step f on, and obtained its claim at step k.
  ghost predicate CreatedFrom(worlds: seq<World>, events: seq<Event>, f: nat, k: nat, m: nat, i: nat)
    requires Steps(worlds, events)
  {
    && f < k < m < |events| && events[f] == Focus(i) && Obtains(events[k]) && events[m].PodCreated?
    && worlds[k].past.focus == worlds[m].past.focus == Some(i) && worlds[f].past.job == worlds[k].past.job
    && i in worlds[m + 1].pods && worlds[k + 1].past.held != Nothing
    && worlds[k + 1].past.held.claim == worlds[m + 1].pods[i].claim
    && (WantsFreshClaim(worlds[k]) <==> Recreates(worlds[f], i))
    && (forall j {:trigger events[j]} | f < j < m :: !events[j].Begin? && !events[j].Focus?)
  }

  lemma CreationTraced(worlds: seq<World>, events: seq<Event>, lo: nat, m: nat, i: nat) returns (f: nat, k: nat)
    requires IsRun(worlds, events) && lo < m < |events| && events[m].PodCreated? && worlds[m].past.focus == Some(i)
    requires worlds[lo].past.held == Nothing || worlds[lo].past.focus != Some(i)
    ensures CreatedFrom(worlds, events, f, k, m, i) && lo <= k
  {
    hide Enabled, Apply, NeedsFreshClaim;
    assert events[m].PodCreated?;
    CreationMountsHeld(worlds[m], events[m]);
    k := ObtainedAt(worlds, events, lo, m);
    f := FocusedAt(worlds, events, k);
  }

  // Which claim a pod mounts, for every pod that is ever created. A new one, if the strategy recreates claims and the
  // reconcile found a healthy pod there, or if there is none to reuse. Otherwise the newest that may be reused: the one
  // that the index mounted last if that is marked, and an older one if it is not.
  lemma WhichClaim(worlds: seq<World>, events: seq<Event>, m: nat, i: nat) returns (f: nat, k: nat)
    requires IsRun(worlds, events) && m < |events| && events[m].PodCreated? && worlds[m].past.focus == Some(i)
    ensures CreatedFrom(worlds, events, f, k, m, i)
    ensures var (w, c) := (worlds[k], worlds[m + 1].pods[i].claim);
            if Recreates(worlds[f], i) || !MayReuse(w, i) then c == w.next
            else ReusedByLast(w, i, Reused(c)) && c < w.next
    ensures var (w, c) := (worlds[k], worlds[m + 1].pods[i].claim);
            i in w.past.last && Marked(w, w.past.last[i]) && !Recreates(worlds[f], i) ==>
              c == if Expired(w.claims[w.past.last[i]], w.now) then w.next else w.past.last[i]
  {
    hide Enabled, Apply, MayReuse, Recreates, WantsFreshClaim, Shaped;
    StartsWithNothing(worlds, events);
    assert m > 0 by {
      assert events[m].PodCreated?;
      CreationMountsHeld(worlds[m], events[m]);
    }
    f, k := CreationTraced(worlds, events, 0, m, i);
    RunKeepsInv(worlds, events, k);
    assert events[k] == events[k];
    ObtainsByLast(worlds[k], events[k], worlds[0].obj.spec, i);
    ReuseFollowsLast(worlds[k], worlds[0].obj.spec, i);
  }

  // An unmarked claim that no pod mounts, that the reconcile in flight does not hold, and that it will not mark.
  ghost predicate Orphan(w: World, c: nat) {
    && c in w.claims && w.claims[c].unmounted == Absent && !BeingDeleted(w, c)
    && (forall i: nat :: !Mounts(w, i, c))
    && (w.past.held != Nothing ==> w.past.held.claim != c)
  }

  lemma UnmarkedLastIsOrphan(w: World, g: Spec, i: nat)
    requires VolInv(w, g) && i !in w.pods && w.past.cleared == None && w.past.held == Nothing
    requires i in w.past.last && w.past.last[i] in w.claims
    ensures Orphan(w, w.past.last[i]) <==> !Marked(w, w.past.last[i])
  {
    assert Shaped(w, g, w.past.last[i]);
  }

  // When a pod goes back to a claim from before its predecessor's, under whatever strategy and after whatever upgrades:
  // exactly if the predecessor's claim is an orphan, an older one may still be reused, and the claim is not recreated.
  lemma OlderClaimReturns(worlds: seq<World>, events: seq<Event>, m: nat, i: nat) returns (f: nat, k: nat)
    requires IsRun(worlds, events) && m < |events| && events[m].PodCreated? && worlds[m].past.focus == Some(i)
    ensures CreatedFrom(worlds, events, f, k, m, i)
    ensures var (w, c) := (worlds[k], worlds[m + 1].pods[i].claim);
            i in w.past.last && c < w.past.last[i] <==>
            i in w.past.last && Orphan(w, w.past.last[i]) && MayReuse(w, i) && !Recreates(worlds[f], i)
  {
    hide Enabled, Apply, MayReuse, Recreates, WantsFreshClaim, Orphan, Shaped, IsPick;
    f, k := WhichClaim(worlds, events, m, i);
    RunKeepsInv(worlds, events, k);
    assert events[k] == events[k];
    ObtainsFreshOrPick(worlds[k], events[k], i);
    ReuseFollowsLast(worlds[k], worlds[0].obj.spec, i);
    if i in worlds[k].past.last && worlds[k].past.last[i] in worlds[k].claims {
      UnmarkedLastIsOrphan(worlds[k], worlds[0].obj.spec, i);
    }
  }

  // ---------------------------------------------------------------- continuity

  // The pod with index i goes, and its claim is marked: the operator deletes it, or it is lost while marked, as when a
  // deletion takes effect after the operator has stopped waiting for it.
  predicate LeavesMarked(w: World, e: Event, i: nat) {
    e == PodDeleted(i) || (e == PodLost(i) && i in w.pods && Marked(w, w.pods[i].claim))
  }

  // The pod with index i is gone, and the claim it mounted, c, is as it was when last marked, unless it has expired and
  // been collected, or has been obtained for the next pod. was is the claim as it was then.
  ghost predicate Awaiting(w: World, i: nat, c: nat, was: Claim) {
    && i !in w.pods && i in w.past.last && w.past.last[i] == c
    && was.pod == Some(i) && was.unmounted.At? && was.ttl.At?
    && (if c in w.claims then w.claims[c] == was || (w.past.held == Reused(c) && w.past.focus == Some(i))
        else Expired(was, w.now))
  }

  lemma LeavingAwaits(w: World, e: Event, g: Spec, i: nat)
    requires Inv(w, g) && Enabled(w, e) && LeavesMarked(w, e, i)
    ensures i in w.pods && w.pods[i].claim in w.claims && w.pods[i].claim < w.next
    ensures Awaiting(Apply(w, e), i, w.pods[i].claim, w.claims[w.pods[i].claim])
    ensures w.past.held == Nothing || w.past.focus != Some(i)
  {
    assert Shaped(w, g, w.pods[i].claim) && Marked(w, w.pods[i].claim);
  }

  // Unless the claim is marked once more, as when the pod was lost during its deletion, it is left alone, or collected
  // when it has expired, or obtained for the next pod.
  lemma OwnClaimStays(w: World, e: Event, i: nat, c: nat, was: Claim)
    requires ClearedIsLast(w) && LastIsOwn(w) && HeldIsPrivate(w) && Enabled(w, e) && Awaiting(w, i, c, was)
    requires (e.Begin? ==> w.past.held != Reused(c)) && (e.PodCreated? ==> w.past.focus != Some(i))
    requires e != ClaimMarked(i)
    ensures var w' := Apply(w, e);
            if c in w'.claims then w'.claims[c] == was || (w'.past.held == Reused(c) && w'.past.focus == Some(i))
            else Expired(was, w'.now)
  {
    hide Admits, IsUpgradeOf, WantsFreshClaim;
  }

  lemma StaysAway(w: World, e: Event, i: nat)
    requires Enabled(w, e) && i !in w.pods && i in w.past.last && (e.PodCreated? ==> w.past.focus != Some(i))
    ensures i !in Apply(w, e).pods && i in Apply(w, e).past.last && Apply(w, e).past.last[i] == w.past.last[i]
  {
    hide Admits, IsUpgradeOf, IsPick;
  }

  lemma MarkedIsLast(w: World, i: nat)
    requires ClearedIsLast(w) && LastIsOwn(w) && Enabled(w, ClaimMarked(i))
    ensures i in w.past.last && w.past.last[i] in w.claims && w.claims[w.past.last[i]].pod == Some(i)
    ensures var w' := Apply(w, ClaimMarked(i));
            w'.claims == w.claims[w.past.last[i] := w.claims[w.past.last[i]].(unmounted := At(Rfc3339(w.now)))]
    ensures w.past.held == Nothing
  {
  }

  lemma AwaitingStays(w: World, e: Event, i: nat, c: nat, was: Claim)
    requires ClearedIsLast(w) && LastIsOwn(w) && HeldIsPrivate(w) && Enabled(w, e) && Awaiting(w, i, c, was)
    requires (e.Begin? ==> w.past.held != Reused(c)) && (e.PodCreated? ==> w.past.focus != Some(i))
    ensures e == ClaimMarked(i) ==> c in Apply(w, e).claims
    ensures Awaiting(Apply(w, e), i, c, if e == ClaimMarked(i) then Apply(w, e).claims[c] else was)
  {
    hide Enabled, Apply;
    StaysAway(w, e, i);
    if e == ClaimMarked(i) {
      MarkedIsLast(w, i);
    } else {
      OwnClaimStays(w, e, i, c, was);
    }
  }

  // From a to k no pod is created for index i.
  ghost predicate NotReplaced(worlds: seq<World>, events: seq<Event>, a: nat, k: nat, i: nat)
    requires Steps(worlds, events) && k <= |events|
  {
    forall j {:trigger events[j]} | a < j < k && events[j].PodCreated? :: worlds[j].past.focus != Some(i)
  }

  // Nor does a reconcile begin while the claim c, obtained for reuse, waits for its pod: the creation of that pod has
  // not failed.
  ghost predicate NotDropped(worlds: seq<World>, events: seq<Event>, a: nat, k: nat, i: nat, c: nat)
    requires Steps(worlds, events) && k <= |events|
  {
    && NotReplaced(worlds, events, a, k, i)
    && (forall j {:trigger events[j]} | a < j < k && events[j].Begin? :: worlds[j].past.held != Reused(c))
  }

  // b is when the claim was last marked: when the pod went, or when it was marked once more.
  lemma {:induction false} AwaitingLasts(worlds: seq<World>, events: seq<Event>, a: nat, k: nat, i: nat)
    returns (b: nat)
    requires IsRun(worlds, events) && a < k <= |events| && LeavesMarked(worlds[a], events[a], i)
    requires i in worlds[a].pods && NotDropped(worlds, events, a, k, i, worlds[a].pods[i].claim)
    ensures a <= b <= k && (b == a || (a < b - 1 && events[b - 1] == ClaimMarked(i)))
    ensures forall j | b <= j < k :: events[j] != ClaimMarked(i)
    ensures worlds[a].pods[i].claim in worlds[b].claims
    ensures var c := worlds[a].pods[i].claim; Awaiting(worlds[k], i, c, worlds[b].claims[c])
    decreases k
  {
    hide Enabled, Apply, Awaiting, ClearedIsLast, LastIsOwn, HeldIsPrivate, ClaimsShaped, MountsAnnotated;
    hide SpecsAgree, LastIsNewest, MarksOrdered, GoneOutlived;
    b := a;
    assert events[a] == events[a];
    if a + 1 < k {
      b := AwaitingLasts(worlds, events, a, k - 1, i);
      RunKeepsInv(worlds, events, k - 1);
      assert events[k - 1] == events[k - 1];
      var c := worlds[a].pods[i].claim;
      AwaitingStays(worlds[k - 1], events[k - 1], i, c, worlds[b].claims[c]);
      if events[k - 1] == ClaimMarked(i) {
        b := k;
      }
    } else {
      RunKeepsInv(worlds, events, a);
      LeavingAwaits(worlds[a], events[a], worlds[0].obj.spec, i);
    }
  }

  // Which claim an awaited pod obtains: its own one exactly when no strategy asks for a new one and it has not
  // expired; otherwise a new one, and never one that it had mounted earlier.
  lemma ObtainsItsOwn(w: World, e: Event, g: Spec, i: nat, c: nat, was: Claim)
    requires Inv(w, g) && Enabled(w, e) && Awaiting(w, i, c, was) && Obtains(e) && w.past.focus == Some(i)
    ensures Apply(w, e).past.held == if WantsFreshClaim(w) || Expired(was, w.now) then Fresh(w.next) else Reused(c)
    ensures c < w.next
  {
    hide Enabled, Apply, WantsFreshClaim, MayReuse, IsPick;
    ObtainsFreshOrPick(w, e, i);
    ObtainsByLast(w, e, g, i);
    ReuseFollowsLast(w, g, i);
  }

  // Continuity over every run: the pod that replaces one that has gone mounts the very same claim exactly when, at the
  // moment the claim was obtained, it had not expired, and the reconcile had not found a healthy pod to be replaced
  // under a strategy that recreates claims. In all other cases it mounts a claim made for it. b is when the claim was
  // last marked, f when the reconcile reached the index, k when it obtained the claim.
  lemma VolumeContinuity(worlds: seq<World>, events: seq<Event>, a: nat, m: nat, i: nat)
    returns (b: nat, f: nat, k: nat)
    requires IsRun(worlds, events) && a < m < |events| && LeavesMarked(worlds[a], events[a], i)
    requires events[m].PodCreated? && worlds[m].past.focus == Some(i)
    requires i in worlds[a].pods && NotDropped(worlds, events, a, m, i, worlds[a].pods[i].claim)
    ensures CreatedFrom(worlds, events, f, k, m, i) && a <= b <= k
    ensures b == a || (a < b - 1 && events[b - 1] == ClaimMarked(i))
    ensures forall j | b <= j < k :: events[j] != ClaimMarked(i)
    ensures worlds[a].pods[i].claim in worlds[b].claims
    ensures var c := worlds[a].pods[i].claim;
            var kept := !Recreates(worlds[f], i) && !Expired(worlds[b].claims[c], worlds[k].now);
            worlds[m + 1].pods[i].claim == if kept then c else worlds[k].next
    ensures worlds[a].pods[i].claim < worlds[k].next
  {
    hide Inv, Awaiting, Enabled, Apply, LeavesMarked, Recreates, WantsFreshClaim;
    assert events[a] == events[a] && events[m].PodCreated?;
    RunKeepsInv(worlds, events, a);
    LeavingAwaits(worlds[a], events[a], worlds[0].obj.spec, i);
    f, k := CreationTraced(worlds, events, a, m, i);
    ObtainsLater(worlds, events, a, k, i);
    b := AwaitingLasts(worlds, events, a, k, i);
    RunKeepsInv(worlds, events, k);
    var c := worlds[a].pods[i].claim;
    ObtainsItsOwn(worlds[k], events[k], worlds[0].obj.spec, i, c, worlds[b].claims[c]);
  }

  lemma ObtainsLater(worlds: seq<World>, events: seq<Event>, a: nat, k: nat, i: nat)
    requires IsRun(worlds, events) && a <= k < |events| && LeavesMarked(worlds[a], events[a], i) && Obtains(events[k])
    ensures a < k
  {
  }

  // ---------------------------------------------------------------- orphans

  lemma OrphanKept(w: World, e: Event, c: nat)
    requires Enabled(w, e) && Orphan(w, c) && c < w.next
    ensures c in Apply(w, e).claims && Apply(w, e).claims[c] == w.claims[c]
  {
    hide Admits, IsUpgradeOf, IsPick;
    if e.ClaimMounted? {
      MountedIsReusable(w, e.c);
    }
  }

  lemma OrphanUnmounted(w: World, e: Event, i: nat, c: nat)
    requires Enabled(w, e) && Orphan(w, c)
    ensures !Mounts(Apply(w, e), i, c)
  {
    hide Admits, IsUpgradeOf, IsPick;
    assert !Mounts(w, i, c);
  }

  lemma OrphanUntouched(w: World, e: Event, c: nat)
    requires Enabled(w, e) && Orphan(w, c) && c < w.next
    ensures !BeingDeleted(Apply(w, e), c)
    ensures Apply(w, e).past.held != Nothing ==> Apply(w, e).past.held.claim != c
  {
    hide Admits, IsUpgradeOf, IsPick;
    if e.Cleared? {
      assert !Mounts(w, e.i, c);
    } else if e.ClaimMounted? {
      MountedIsReusable(w, e.c);
    }
  }

  lemma OrphanStays(w: World, e: Event, g: Spec, c: nat)
    requires ClaimsShaped(w, g) && Enabled(w, e) && Orphan(w, c)
    ensures Orphan(Apply(w, e), c)
  {
    assert Shaped(w, g, c);
    hide Enabled, Apply, Shaped;
    OrphanKept(w, e, c);
    OrphanUntouched(w, e, c);
    forall i: nat
      ensures !Mounts(Apply(w, e), i, c)
    {
      OrphanUnmounted(w, e, i, c);
    }
  }

  lemma OrphansAreUseless(w: World, c: nat)
    requires Orphan(w, c)
    ensures forall i :: !Mounts(w, i, c) && !Reusable(w.claims[c], i, w.now)
    ensures !Collectable(w, c)
  {
  }

  // An orphan is never mounted, never reused and never collected.
  lemma {:induction false} OrphanForever(worlds: seq<World>, events: seq<Event>, k: nat, l: nat, c: nat)
    requires IsRun(worlds, events) && k <= l < |worlds| && Orphan(worlds[k], c)
    ensures Orphan(worlds[l], c) && !Collectable(worlds[l], c)
    ensures forall i :: !Mounts(worlds[l], i, c) && !Reusable(worlds[l].claims[c], i, worlds[l].now)
    decreases l
  {
    hide Enabled, Apply, ClaimsShaped, SpecsAgree, Orphan;
    if k < l {
      OrphanForever(worlds, events, k, l - 1, c);
      RunKeepsInv(worlds, events, l - 1);
      assert events[l - 1] == events[l - 1];
      OrphanStays(worlds[l - 1], events[l - 1], worlds[0].obj.spec, c);
    }
    OrphansAreUseless(worlds[l], c);
  }

  // The reconcile that has obtained the claim ends without the pod.
  predicate DropsHeld(w: World, e: Event, c: nat) {
    e.Begin? && w.past.held != Nothing && w.past.held.claim == c
  }

  // The reconcile that has cleared the claim's pod for deletion ends without marking the claim, and the pod is lost.
  predicate DropsCleared(w: World, e: Event, c: nat) {
    && e.Begin? && w.past.cleared.Some? && w.past.cleared.value.claim == c && w.past.cleared.value.index !in w.pods
    && c in w.claims && !Marked(w, c)
  }

  // The claim's pod is lost while the claim is not marked, and the pod not being deleted.
  predicate LosesPod(w: World, e: Event, c: nat) {
    e.PodLost? && Mounts(w, e.i, c) && !Marked(w, c) && !BeingDeleted(w, c)
  }

  predicate Orphans(w: World, e: Event, c: nat) {
    DropsHeld(w, e, c) || DropsCleared(w, e, c) || LosesPod(w, e, c)
  }

  lemma OrphansWhenDropped(w: World, e: Event, g: Spec, c: nat)
    requires VolInv(w, g) && Enabled(w, e) && (DropsHeld(w, e, c) || DropsCleared(w, e, c))
    ensures Orphan(Apply(w, e), c)
  {
    hide IsUpgradeOf;
    assert Shaped(w, g, c);
  }

  lemma OrphansWhenLost(w: World, e: Event, g: Spec, c: nat)
    requires VolInv(w, g) && Enabled(w, e) && LosesPod(w, e, c)
    ensures Orphan(Apply(w, e), c)
  {
    assert Shaped(w, g, c);
    forall i: nat
      ensures !Mounts(Apply(w, e), i, c)
    {
      assert Mounts(w, e.i, c);
    }
  }

  lemma OnlyTheseBeginningsOrphan(w: World, e: Event, g: Spec, c: nat)
    requires MountsAnnotated(w) && ClearedIsLast(w) && Enabled(w, e) && e.Begin? && Orphan(Apply(w, e), c)
    ensures Orphan(w, c) || DropsHeld(w, e, c) || DropsCleared(w, e, c)
  {
    hide IsUpgradeOf;
    if w.past.cleared.Some? {
      assert !Mounts(Apply(w, e), w.past.cleared.value.index, c);
    }
    assert forall i: nat | Mounts(w, i, c) :: Mounts(Apply(w, e), i, c);
  }

  lemma OnlyTheseLossesOrphan(w: World, e: Event, c: nat)
    requires Enabled(w, e) && e.PodLost? && Orphan(Apply(w, e), c)
    ensures Orphan(w, c) || LosesPod(w, e, c)
  {
    assert forall i: nat | Mounts(w, i, c) && i != e.i :: Mounts(Apply(w, e), i, c);
  }

  lemma OthersOrphanNone(w: World, e: Event, c: nat)
    requires Enabled(w, e) && !e.Begin? && !e.PodLost? && Orphan(Apply(w, e), c)
    ensures Orphan(w, c)
  {
    hide Admits, IsPick, WantsFreshClaim, ReasonHolds;
    var w' := Apply(w, e);
    if e.PodCreated? {
      assert !Mounts(w', w.past.focus.value, c);
    }
    assert forall i: nat | Mounts(w, i, c) && e != PodDeleted(i) :: Mounts(w', i, c);
  }

  lemma OnlyTheseOrphan(w: World, e: Event, g: Spec, c: nat)
    requires VolInv(w, g) && Enabled(w, e) && Orphan(Apply(w, e), c)
    ensures Orphan(w, c) || Orphans(w, e, c)
  {
    hide Enabled, Apply, Orphan, DropsHeld, DropsCleared, LosesPod;
    if e.Begin? {
      OnlyTheseBeginningsOrphan(w, e, g, c);
    } else if e.PodLost? {
      OnlyTheseLossesOrphan(w, e, c);
    } else {
      OthersOrphanNone(w, e, c);
    }
  }

  // Exactly three things orphan a claim.
  lemma {:induction false} OrphansExactly(worlds: seq<World>, events: seq<Event>, l: nat, c: nat)
    requires IsRun(worlds, events) && l < |worlds|
    ensures Orphan(worlds[l], c) <==> exists k {:trigger events[k]} | 0 <= k < l :: Orphans(worlds[k], events[k], c)
  {
    hide Enabled, Apply, Orphan, VolInv, SpecsAgree, Orphans;
    forall k {:trigger events[k]} | 0 <= k < l && Orphans(worlds[k], events[k], c)
      ensures Orphan(worlds[l], c)
    {
      RunKeepsInv(worlds, events, k);
      OrphaningOrphans(worlds[k], events[k], worlds[0].obj.spec, c);
      OrphanForever(worlds, events, k + 1, l, c);
    }
    if Orphan(worlds[l], c) {
      var k := OrphanedAt(worlds, events, l, c);
    }
  }

  lemma OrphaningOrphans(w: World, e: Event, g: Spec, c: nat)
    requires VolInv(w, g) && Enabled(w, e) && Orphans(w, e, c)
    ensures Orphan(Apply(w, e), c)
  {
    hide Enabled, Apply, Orphan, VolInv, DropsHeld, DropsCleared, LosesPod;
    if LosesPod(w, e, c) {
      OrphansWhenLost(w, e, g, c);
    } else {
      OrphansWhenDropped(w, e, g, c);
    }
  }

  lemma NoOrphanAtFirst(worlds: seq<World>, events: seq<Event>, c: nat)
    requires IsRun(worlds, events)
    ensures !Orphan(worlds[0], c)
  {
  }

  lemma {:induction false} OrphanedAt(worlds: seq<World>, events: seq<Event>, l: nat, c: nat) returns (k: nat)
    requires IsRun(worlds, events) && l < |worlds| && Orphan(worlds[l], c)
    ensures k < l && Orphans(worlds[k], events[k], c)
  {
    hide Enabled, Apply, Orphan, VolInv, SpecsAgree, Orphans;
    NoOrphanAtFirst(worlds, events, c);
    k := l - 1;
    RunKeepsInv(worlds, events, k);
    assert events[k] == events[k];
    OnlyTheseOrphan(worlds[k], events[k], worlds[0].obj.spec, c);
    if !Orphans(worlds[k], events[k], c) {
      k := OrphanedAt(worlds, events, k, c);
    }
  }

  lemma LastStays(w: World, e: Event, i: nat)
    requires Enabled(w, e) && (e.PodCreated? ==> w.past.focus != Some(i)) && i in w.past.last
    ensures i in Apply(w, e).past.last && Apply(w, e).past.last[i] == w.past.last[i]
  {
    hide Admits, IsUpgradeOf, IsPick;
  }

  lemma {:induction false} LastStaysOver(worlds: seq<World>, events: seq<Event>, a: nat, k: nat, i: nat)
    requires IsRun(worlds, events) && a < k < |worlds| && NotReplaced(worlds, events, a, k, i)
    requires i in worlds[a].past.last && (events[a].PodCreated? ==> worlds[a].past.focus != Some(i))
    ensures i in worlds[k].past.last && worlds[k].past.last[i] == worlds[a].past.last[i]
    decreases k
  {
    hide Enabled, Apply;
    assert events[k - 1] == events[k - 1];
    if a + 1 < k {
      LastStaysOver(worlds, events, a, k - 1, i);
    }
    LastStays(worlds[k - 1], events[k - 1], i);
  }

  // The replacement of a pod lost from outside, with its claim c unmarked, never gets that claim back: c is an orphan
  // from then on. The replacement mounts the newest claim from before c that may still be reused, or else a new one.
  lemma LostPodLosesItsClaim(worlds: seq<World>, events: seq<Event>, a: nat, m: nat, i: nat) returns (f: nat, k: nat)
    requires IsRun(worlds, events) && a < m < |events| && events[a] == PodLost(i)
    requires i in worlds[a].pods && LosesPod(worlds[a], events[a], worlds[a].pods[i].claim)
    requires events[m].PodCreated? && worlds[m].past.focus == Some(i) && NotReplaced(worlds, events, a, m, i)
    ensures CreatedFrom(worlds, events, f, k, m, i) && a < k
    ensures forall l | a < l < |worlds| :: Orphan(worlds[l], worlds[a].pods[i].claim)
    ensures var (w, c) := (worlds[k], worlds[m + 1].pods[i].claim);
            if Recreates(worlds[f], i) || !MayReuse(w, i) then c == w.next
            else IsPick(w.claims, w.now, i, Some(c)) && c < worlds[a].pods[i].claim
  {
    hide Enabled, Apply, Inv, Orphan, MayReuse, Recreates, WantsFreshClaim, IsPick, LosesPod;
    assert events[a] == PodLost(i) && events[m].PodCreated?;
    var c := worlds[a].pods[i].claim;
    RunKeepsInv(worlds, events, a);
    LosingKeepsLast(worlds[a], worlds[0].obj.spec, i);
    f, k := CreationTraced(worlds, events, a, m, i);
    LastStaysOver(worlds, events, a, k, i);
    forall l | a < l < |worlds|
      ensures Orphan(worlds[l], c)
    {
      OrphansWhenLost(worlds[a], events[a], worlds[0].obj.spec, c);
      OrphanForever(worlds, events, a + 1, l, c);
    }
    OrphanIsUnmarked(worlds[k], c);
    RunKeepsInv(worlds, events, k);
    assert events[k] == events[k];
    ObtainsByLast(worlds[k], events[k], worlds[0].obj.spec, i);
  }

  lemma OrphanIsUnmarked(w: World, c: nat)
    requires Orphan(w, c)
    ensures !Marked(w, c)
  {
  }

  lemma LosingKeepsLast(w: World, g: Spec, i: nat)
    requires Inv(w, g) && i in w.pods
    ensures i in w.past.last && w.past.last[i] == w.pods[i].claim
    ensures w.past.held == Nothing || w.past.focus != Some(i)
  {
  }

  // ---------------------------------------------------------------- names in claims and pods

  ghost predicate NamesAgree(w: World, g: Spec) {
    && |g.namespaces| == 1
    && (forall i | i in w.pods :: w.pods[i].mountNs == w.pods[i].volumeNs == g.namespaces[0].name)
  }

  // Every claim bears the name of the cluster's one namespace as first admitted, and in every pod the data volume
  // has the name of the data mount.
  lemma {:induction false} VolumesMatchMounts(worlds: seq<World>, events: seq<Event>, k: nat)
    requires IsRun(worlds, events) && k < |worlds|
    ensures NamesAgree(worlds[k], worlds[0].obj.spec)
    ensures forall c | c in worlds[k].claims :: worlds[k].claims[c].ns == worlds[0].obj.spec.namespaces[0].name
    ensures var days := worlds[0].obj.spec.namespaces[0].storage.claimTtl;
            forall c | c in worlds[k].claims ::
              worlds[k].claims[c].ttl == At(match days { case Some(t) => t case None => 0 })
  {
    hide Enabled, Apply;
    var g := worlds[0].obj.spec;
    RunKeepsInv(worlds, events, k);
    assert forall c | c in worlds[k].claims :: Shaped(worlds[k], g, c);
    if k > 0 {
      VolumesMatchMounts(worlds, events, k - 1);
      RunKeepsInv(worlds, events, k - 1);
      NamesAgreeStays(worlds[k - 1], events[k - 1], g);
    }
  }

  lemma NamesAgreeStays(w: World, e: Event, g: Spec)
    requires SpecsAgree(w, g) && ClaimsShaped(w, g) && HeldIsPrivate(w) && NamesAgree(w, g) && Enabled(w, e)
    ensures NamesAgree(Apply(w, e), g)
  {
    hide Admits, IsUpgradeOf, IsPick;
    if e.PodCreated? {
      assert Shaped(w, g, w.past.held.claim);
    }
  }
}
