// Everything that may happen between two calls of the reconciler: time passes, pods fail or are lost, users change the
// spec, backup jobs end, backups are dropped, and the claim collector runs.
module Environment {
  import opened Wrappers
  import opened Admission
  import opened World
  import opened Store
  import opened GarbageCollector

  lemma QuietComposes(w: World, w': World, w'': World)
    requires Quiet(w, w') && Quiet(w', w'')
    ensures Quiet(w, w'')
  {
  }

  method Act(api: Api)
    requires api.Valid()
    modifies api
    ensures api.Valid() && Quiet(old(api.State()), api.State())
    ensures api.sizes == old(api.sizes) && api.shown == old(api.shown) && (old(api.fault) ==> api.fault)
    ensures !api.fault ==> FocusSpared(old(api.State()), api.State())
    ensures !api.fault && old(api.configMap).Some? ==> api.configMap.Some?
  {
    hide IsRun, Admits, ValidSpec;
    var what: nat := *;
    var n: nat := *;
    var ok: bool := *;
    var source: string, target: string := *, *;
    if what == 0 {
      api.Advance(n);
    } else if what == 1 {
      api.FailPod(n);
    } else if what == 6 {
      api.LosePod(n);
    } else if what == 2 {
      var spec: Spec, secret: SecretLookup := *, *;
      api.UpdateSpec(source, target, spec, secret);
    } else if what == 3 {
      api.EndBackup((source, target), ok);
    } else if what == 4 {
      api.DropBackup((source, target));
    } else if what == 5 {
      var cm: Option<ConfigMap> := *;
      api.TamperWithConfigMap(cm);
    } else {
      Collect(api, n);
    }
  }

  // The collector handles a claim.
  method Collect(api: Api, c: nat)
    requires api.Valid()
    modifies api`claims, api`collectorFault, api`worlds, api`events
    ensures api.Valid() && Quiet(old(api.State()), api.State())
  {
    hide IsRun, Admits;
    if c in api.claims {
      var collector := new PVCsHandler(api);
      var ok := collector.Handle(c);
    }
  }

  method Interfere(api: Api)
    requires api.Valid()
    modifies api
    ensures api.Valid() && Quiet(old(api.State()), api.State())
    ensures api.sizes == old(api.sizes) && api.shown == old(api.shown) && (old(api.fault) ==> api.fault)
    ensures !api.fault ==> FocusSpared(old(api.State()), api.State())
    ensures !api.fault && old(api.configMap).Some? ==> api.configMap.Some?
  {
    var steps: nat := *;
    while steps > 0
      invariant api.Valid() && Quiet(old(api.State()), api.State())
      invariant api.sizes == old(api.sizes) && api.shown == old(api.shown) && (old(api.fault) ==> api.fault)
      invariant !api.fault ==> FocusSpared(old(api.State()), api.State())
      invariant !api.fault && old(api.configMap).Some? ==> api.configMap.Some?
    {
      ghost var before := api.State();
      Act(api);
      QuietComposes(old(api.State()), before, api.State());
      steps := steps - 1;
    }
  }
}
