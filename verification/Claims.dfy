// How the reconciler finds the claim that a new pod reuses (pkg/reconciler/pvc.go).
module Claims {
  import opened Wrappers
  import opened World
  import opened Store
  import Sorting

  // An annotation of one of the pod's marked claims cannot be parsed.
  predicate Unreadable(c: Claim, i: nat) {
    && c.pod == Some(i)
    && (c.unmounted.Malformed? || (c.unmounted.At? && c.ttl.Malformed?))
  }

  // Most recent first: the sort key of the fromMostRecent ordering.
  function Recency(claims: map<nat, Claim>): nat -> int {
    (c: nat) => if c in claims then 0 - claims[c].created else 0
  }

  // Collects the reusable claims of the pod with index i.
  method ReusableClaims(claims: map<nat, Claim>, now: nat, i: nat) returns (r: Result<seq<nat>>)
    ensures r.Ok? <==> forall c | c in claims :: !Unreadable(claims[c], i)
    ensures r.Ok? ==> forall c :: c in r.value <==>
              && c in claims && claims[c].pod == Some(i) && claims[c].unmounted.At? && claims[c].ttl.At?
              && (claims[c].ttl.t == 0 || now < claims[c].unmounted.t + claims[c].ttl.t)
  {
    var podPVCs: seq<nat> := [];
    var rest := claims.Keys;
    while rest != {}
      invariant rest <= claims.Keys
      invariant forall c | c in claims.Keys - rest :: !Unreadable(claims[c], i)
      invariant forall c :: c in podPVCs <==> c in claims.Keys - rest && Reusable(claims[c], i, now)
      decreases rest
    {
      var c :| c in rest;
      rest := rest - {c};
      var pvc := claims[c];
      if pvc.pod != Some(i) || pvc.unmounted.Absent? {
        continue;
      }
      if pvc.unmounted.Malformed? {
        return Err;
      }
      if pvc.ttl.Absent? {
        continue;
      }
      if pvc.ttl.Malformed? {
        return Err;
      }
      if pvc.ttl.t == 0 || now < pvc.unmounted.t + pvc.ttl.t {
        podPVCs := podPVCs + [c];
      }
    }
    return Ok(podPVCs);
  }

  method GetPersistentVolumeClaim(api: Api, i: nat) returns (r: Result<Option<nat>>)
    modifies api`fault
    ensures r.Ok? ==> IsPick(api.claims, api.now, i, r.value)
    ensures (exists c | c in api.claims :: Unreadable(api.claims[c], i)) ==> r.Err?
    ensures old(api.fault) ==> api.fault
    ensures r.Err? ==> api.fault || exists c | c in api.claims :: Unreadable(api.claims[c], i)
  {
    var listed := api.Answers();
    if !listed {
      return Err;
    }
    var podPVCs := ReusableClaims(api.claims, api.now, i);
    if podPVCs.Err? {
      return Err;
    }
    if |podPVCs.value| == 0 {
      return Ok(None);
    }
    var sorted := new nat[|podPVCs.value|](k requires 0 <= k < |podPVCs.value| => podPVCs.value[k]);
    assert sorted[..] == podPVCs.value;
    Sorting.SortBy(sorted, Recency(api.claims));
    assert forall c :: c in sorted[..] <==> c in multiset(sorted[..]);
    assert forall c :: c in podPVCs.value <==> c in multiset(podPVCs.value);
    assert sorted[0] in sorted[..];
    return Ok(Some(sorted[0]));
  }
}
