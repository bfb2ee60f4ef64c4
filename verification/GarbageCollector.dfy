// The collector of expired volume claims (pkg/garbagecollector/pvcs.go).
module GarbageCollector {
  import opened World
  import opened Store

  class PVCsHandler {
    const api: Api

    constructor (api: Api)
      ensures this.api == api
    {
      this.api := api;
    }

    // Deletes a claim that has expired and that its pod does not mount. Whatever the call reports, a claim that is
    // not collectable stays; without an error, a collectable one goes. There is an error only if a call fails, if an
    // annotation that is needed cannot be read, or if the claim has expired and names no pod; in the last two cases
    // there always is one.
    method Handle(c: nat) returns (ok: bool)
      requires api.Valid() && c in api.claims
      modifies api`claims, api`collectorFault, api`worlds, api`events
      ensures api.Valid()
      ensures var claim := old(api.claims)[c];
              var collectable :=
                && claim.unmounted.At? && claim.ttl.At? && claim.ttl.t != 0
                && claim.unmounted.t + claim.ttl.t <= api.now
                && claim.pod.Some? && !(claim.pod.value in api.pods && api.pods[claim.pod.value].claim == c);
              && (api.claims == old(api.claims) || (collectable && api.claims == old(api.claims) - {c}))
              && (ok && collectable ==> api.claims == old(api.claims) - {c})
      ensures var claim := old(api.claims)[c];
              var unusable :=
                || claim.unmounted == Malformed
                || (claim.unmounted.At? && !claim.ttl.At?)
                || (&& claim.unmounted.At? && claim.ttl.At? && claim.ttl.t != 0
                    && claim.unmounted.t + claim.ttl.t <= api.now && claim.pod.None?);
              && (unusable ==> !ok && api.claims == old(api.claims))
              && (!ok ==> unusable || api.collectorFault)
    {
      api.StartCollecting();
      var pvc := api.claims[c];
      if pvc.unmounted == Absent {
        return true;
      }
      if pvc.unmounted == Malformed {
        return false;
      }
      if !pvc.ttl.At? {
        return false;
      }
      if pvc.ttl.t == 0 {
        return true;
      }
      if api.now < pvc.unmounted.t + pvc.ttl.t {
        return true;
      }
      if pvc.pod.None? {
        return false;
      }
      var reachable := api.AnswersCollector();
      if !reachable {
        return false;
      }
      if pvc.pod.value in api.pods && api.pods[pvc.pod.value].claim == c {
        return true;
      }
      ok := api.DeleteClaim(c);
    }
  }
}
