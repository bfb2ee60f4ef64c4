// The validating webhook for cluster objects (pkg/admission/cluster.go).
module Admission {
  import opened Wrappers
  import opened Versioning
  import opened Upgrades

  const MESH_SEED_ADDRESS_MAX_LENGTH := 63
  const CLUSTER_NAME_MAX_LENGTH := 61
  const NAMESPACE_MAX_NAME_LENGTH := 23
  const DEFAULT_REPLICATION_FACTOR := 2

  datatype StorageType = Device | File

  // claimTtl is the claim's retention period, where zero means that claims are kept forever.
  datatype Storage = Storage(kind: StorageType, size: string, storageClass: Option<string>,
                             claimTtl: Option<nat>, dataInMemory: Option<bool>) {
    function Ttl(): nat {
      if claimTtl.Some? then claimTtl.value else 0
    }
  }

  datatype NamespaceSpec = NamespaceSpec(name: string, replicationFactor: Option<int>, memorySize: Option<string>,
                                         defaultTtl: Option<string>, storage: Storage) {
    function EffectiveReplicationFactor(): int {
      if replicationFactor.Some? then replicationFactor.value else DEFAULT_REPLICATION_FACTOR
    }
  }

  datatype BackupSpec = BackupSpec(ttl: Option<string>, bucket: string, secret: string)

  // scheduling stands for the resource requests, the node selector and the tolerations.
  datatype Spec = Spec(nodeCount: nat, version: string, namespaces: seq<NamespaceSpec>,
                       backupSpec: Option<BackupSpec>, scheduling: string)

  // The outcome of looking up the secret named by the backup spec and its key.
  datatype SecretLookup = Usable | Unusable

  datatype Cluster = Cluster(name: string, kubeNamespace: string, spec: Spec)

  ghost predicate SupportedText(version: string) {
    Parse(version).Ok? && Parse(version).value.IsSupported()
  }

  // Both texts parse and the transition between the two versions is valid.
  ghost predicate ValidTransition(source: string, target: string) {
    && Parse(source).Ok? && Parse(target).Ok?
    && Valid(Parse(source).value, Parse(target).value)
  }

  // ---------------------------------------------------------------- what an admitted spec guarantees

  predicate WithinLimits(s: Spec, ns: NamespaceSpec) {
    && |ns.name| <= NAMESPACE_MAX_NAME_LENGTH
    && ns.EffectiveReplicationFactor() <= s.nodeCount
  }

  ghost predicate ValidSpec(s: Spec) {
    && SupportedText(s.version)
    && |s.namespaces| == 1
    && WithinLimits(s, s.namespaces[0])
  }

  ghost predicate ValidCluster(c: Cluster, secret: SecretLookup) {
    && |c.name| <= CLUSTER_NAME_MAX_LENGTH
    && 2 * (|c.name| + 2) + |c.kubeNamespace| <= MESH_SEED_ADDRESS_MAX_LENGTH
    && ValidSpec(c.spec)
    && (c.spec.backupSpec.Some? ==> secret.Usable?)
  }

  // Two replication factors may follow each other unless both are written out and differ.
  predicate CompatibleFactors(a: Option<int>, b: Option<int>) {
    a.Some? && b.Some? ==> a == b
  }

  // The namespace that wins when a name occurs twice is the last one.
  function NamespaceMap(nss: seq<NamespaceSpec>): map<string, NamespaceSpec> {
    if nss == [] then map[]
    else NamespaceMap(nss[..|nss| - 1])[nss[|nss| - 1].name := nss[|nss| - 1]]
  }

  ghost predicate CompatibleNamespaces(old_: seq<NamespaceSpec>, new_: seq<NamespaceSpec>) {
    var oldnss, newnss := NamespaceMap(old_), NamespaceMap(new_);
    && |newnss| >= |new_|
    && oldnss.Keys <= newnss.Keys
    && (forall name | name in oldnss ::
          && CompatibleFactors(oldnss[name].replicationFactor, newnss[name].replicationFactor)
          && oldnss[name].storage == newnss[name].storage)
  }

  // The transitions from one spec to the next that the webhook lets through.
  ghost predicate ValidUpdate(o: Spec, n: Spec) {
    && (o.version != n.version ==>
          && n.(version := o.version) == o
          && n.backupSpec.Some?
          && ValidTransition(o.version, n.version))
    && CompatibleNamespaces(o.namespaces, n.namespaces)
  }

  predicate Occurs(nss: seq<NamespaceSpec>, name: string) {
    exists k :: 0 <= k < |nss| && nss[k].name == name
  }

  predicate DistinctNames(nss: seq<NamespaceSpec>) {
    forall j, k | 0 <= j < k < |nss| :: nss[j].name != nss[k].name
  }

  // No later namespace has the name of the k-th one.
  predicate IsLastOfName(nss: seq<NamespaceSpec>, k: nat) {
    k < |nss| && forall j | k < j < |nss| :: nss[j].name != nss[k].name
  }

  // The map knows exactly the names that occur,
  lemma {:induction false} NamespaceMapKeys(nss: seq<NamespaceSpec>, name: string)
    ensures name in NamespaceMap(nss) <==> Occurs(nss, name)
  {
    if nss != [] {
      var front := nss[..|nss| - 1];
      NamespaceMapKeys(front, name);
      assert forall k | 0 <= k < |front| :: front[k] == nss[k];
    }
  }

  // has under each the last namespace of the name,
  lemma {:induction false} NamespaceMapLast(nss: seq<NamespaceSpec>, k: nat)
    requires IsLastOfName(nss, k)
    ensures nss[k].name in NamespaceMap(nss) && NamespaceMap(nss)[nss[k].name] == nss[k]
  {
    var front := nss[..|nss| - 1];
    if k < |front| {
      assert nss[|front|].name != nss[k].name;
      assert forall j | k < j < |front| :: front[j].name == nss[j].name;
      NamespaceMapLast(front, k);
    }
  }

  // and is as large as the list exactly if all names differ.
  lemma {:induction false} NamespaceMapSize(nss: seq<NamespaceSpec>)
    ensures |NamespaceMap(nss)| <= |nss| && (|NamespaceMap(nss)| == |nss| <==> DistinctNames(nss))
  {
    if nss != [] {
      var front, last := nss[..|nss| - 1], nss[|nss| - 1];
      NamespaceMapSize(front);
      NamespaceMapKeys(front, last.name);
      assert NamespaceMap(nss).Keys == NamespaceMap(front).Keys + {last.name};
      assert |NamespaceMap(nss)| == |NamespaceMap(nss).Keys|;
      DistinctFront(nss);
    }
  }

  lemma DistinctFront(nss: seq<NamespaceSpec>)
    requires nss != []
    ensures var front := nss[..|nss| - 1];
            DistinctNames(nss) <==>
            DistinctNames(front) && !Occurs(front, nss[|nss| - 1].name)
  {
    var front := nss[..|nss| - 1];
    assert forall k | 0 <= k < |front| :: front[k] == nss[k];
  }

  lemma {:induction false} LastOfName(nss: seq<NamespaceSpec>, j: nat) returns (k: nat)
    requires j < |nss|
    ensures IsLastOfName(nss, k) && nss[k].name == nss[j].name
  {
    k := |nss| - 1;
    if nss[k].name != nss[j].name {
      k := LastOfName(nss[..k], j);
    }
  }

  // What two neighbours of one name owe each other.
  predicate MayFollow(p: NamespaceSpec, q: NamespaceSpec) {
    && p.storage == q.storage
    && (p.replicationFactor == None || q.replicationFactor == None || p.replicationFactor == q.replicationFactor)
  }

  lemma CompatibleMeans(o: seq<NamespaceSpec>, n: seq<NamespaceSpec>, i: nat, j: nat)
    requires CompatibleNamespaces(o, n) && IsLastOfName(o, i) && j < |n| && n[j].name == o[i].name
    ensures MayFollow(o[i], n[j])
  {
    hide NamespaceMap;
    NamespaceMapSize(n);
    NamespaceMapLast(o, i);
    NamespaceMapLast(n, j);
  }

  lemma CompatibleSince(o: seq<NamespaceSpec>, n: seq<NamespaceSpec>, name: string)
    requires ListMayFollow(o, n) && name in NamespaceMap(o)
    ensures name in NamespaceMap(n) && MayFollow(NamespaceMap(o)[name], NamespaceMap(n)[name])
  {
    hide NamespaceMap, MayFollow;
    NamespaceMapKeys(o, name);
    var k: nat :| k < |o| && o[k].name == name;
    var i := LastOfName(o, k);
    var j: nat :| j < |n| && n[j].name == o[i].name;
    NamespaceMapLast(o, i);
    NamespaceMapLast(n, j);
  }

  // No name occurs twice in the new list, no old name is missing, and the last old namespace of a name keeps its
  // storage and, if both write it out, its factor.
  ghost predicate ListMayFollow(o: seq<NamespaceSpec>, n: seq<NamespaceSpec>) {
    && DistinctNames(n)
    && (forall i: nat | i < |o| :: Occurs(n, o[i].name))
    && (forall i: nat, j: nat | IsLastOfName(o, i) && j < |n| && n[j].name == o[i].name :: MayFollow(o[i], n[j]))
  }

  // Which lists of namespaces the comparison of maps lets follow each other.
  lemma CompatibleExactly(o: seq<NamespaceSpec>, n: seq<NamespaceSpec>)
    ensures CompatibleNamespaces(o, n) <==> ListMayFollow(o, n)
  {
    hide NamespaceMap;
    NamespaceMapSize(n);
    if CompatibleNamespaces(o, n) {
      forall i: nat | i < |o|
        ensures Occurs(n, o[i].name)
      {
        NamespaceMapKeys(o, o[i].name);
        NamespaceMapKeys(n, o[i].name);
      }
      forall i: nat, j: nat | IsLastOfName(o, i) && j < |n| && n[j].name == o[i].name
        ensures MayFollow(o[i], n[j])
      {
        CompatibleMeans(o, n, i, j);
      }
    } else if ListMayFollow(o, n) {
      forall name | name in NamespaceMap(o)
        ensures name in NamespaceMap(n) && MayFollow(NamespaceMap(o)[name], NamespaceMap(n)[name])
      {
        CompatibleSince(o, n, name);
      }
      assert NamespaceMap(o).Keys <= NamespaceMap(n).Keys;
    }
  }

  // The clusters admitted, condition by condition.
  lemma ValidClusterExactly(c: Cluster, secret: SecretLookup)
    ensures ValidCluster(c, secret) <==>
            && |c.name| <= 61 && 2 * (|c.name| + 2) + |c.kubeNamespace| <= 63
            && Parse(c.spec.version).Ok? && Parse(c.spec.version).value.Print() in SUPPORTED_VERSIONS
            && |c.spec.namespaces| == 1 && |c.spec.namespaces[0].name| <= 23
            && (match c.spec.namespaces[0].replicationFactor
                case Some(factor) => factor <= c.spec.nodeCount
                case None => 2 <= c.spec.nodeCount)
            && (c.spec.backupSpec == None || secret == Usable)
  {
    hide Parse, Contains;
    if Parse(c.spec.version).Ok? {
      ContainsIsMembership(SUPPORTED_VERSIONS, Parse(c.spec.version).value.Print());
    }
  }

  // ---------------------------------------------------------------- the webhook's checks

  method ValidateVersionText(text: string) returns (ok: bool)
    ensures ok <==> SupportedText(text)
  {
    var version := NewVersionFromString(text);
    return version.Ok? && version.value.IsSupported();
  }

  // Every name has at most 23 characters, and every replication factor, two where it is not set, is at most the number
  // of nodes.
  method ValidateNamespaceLimits(spec: Spec) returns (ok: bool)
    ensures ok <==> forall k | 0 <= k < |spec.namespaces| ::
              && |spec.namespaces[k].name| <= 23
              && match spec.namespaces[k].replicationFactor
                 case Some(factor) => factor <= spec.nodeCount
                 case None => 2 <= spec.nodeCount
    ensures ok <==> forall k | 0 <= k < |spec.namespaces| :: WithinLimits(spec, spec.namespaces[k])
  {
    for k := 0 to |spec.namespaces|
      invariant forall j | 0 <= j < k :: WithinLimits(spec, spec.namespaces[j])
    {
      var ns := spec.namespaces[k];
      if |ns.name| > NAMESPACE_MAX_NAME_LENGTH {
        return false;
      }
      var currentReplicationFactor := DEFAULT_REPLICATION_FACTOR;
      if ns.replicationFactor.Some? {
        currentReplicationFactor := ns.replicationFactor.value;
      }
      if currentReplicationFactor > spec.nodeCount {
        return false;
      }
    }
    return true;
  }

  method ValidateCluster(c: Cluster, secret: SecretLookup) returns (ok: bool)
    ensures ok <==> ValidCluster(c, secret)
  {
    if |c.name| > CLUSTER_NAME_MAX_LENGTH {
      return false;
    }
    if 2 * (|c.name| + 2) + |c.kubeNamespace| > MESH_SEED_ADDRESS_MAX_LENGTH {
      return false;
    }
    hide Parse, Contains;
    var supported := ValidateVersionText(c.spec.version);
    if !supported {
      return false;
    }
    if |c.spec.namespaces| != 1 {
      return false;
    }
    var limits := ValidateNamespaceLimits(c.spec);
    if !limits {
      return false;
    }
    if c.spec.backupSpec.Some? && secret.Unusable? {
      return false;
    }
    return true;
  }

  method BuildNamespaceMap(nss: seq<NamespaceSpec>) returns (res: map<string, NamespaceSpec>)
    ensures res == NamespaceMap(nss)
  {
    res := map[];
    for k := 0 to |nss|
      invariant res == NamespaceMap(nss[..k])
    {
      assert nss[..k + 1][..k] == nss[..k];
      res := res[nss[k].name := nss[k]];
    }
    assert nss[..|nss|] == nss;
  }

  method ValidateVersion(o: Spec, n: Spec) returns (ok: bool)
    ensures ok <==> o.version == n.version || ValidTransition(o.version, n.version)
  {
    if o.version == n.version {
      return true;
    }
    var source := NewVersionFromString(o.version);
    if source.Err? {
      return false;
    }
    var target := NewVersionFromString(n.version);
    if target.Err? {
      return false;
    }
    return VersionUpgrade(source.value, target.value).IsValid();
  }

  method ValidateNamespaces(o: Spec, n: Spec) returns (ok: bool)
    ensures ok <==> CompatibleNamespaces(o.namespaces, n.namespaces)
  {
    var oldnss := BuildNamespaceMap(o.namespaces);
    var newnss := BuildNamespaceMap(n.namespaces);
    if |newnss| < |n.namespaces| {
      return false;
    }
    var names := oldnss.Keys;
    while names != {}
      invariant names <= oldnss.Keys && oldnss.Keys - names <= newnss.Keys
      decreases names
    {
      var name :| name in names;
      if name !in newnss {
        return false;
      }
      names := names - {name};
    }
    names := newnss.Keys;
    while names != {}
      invariant names <= newnss.Keys
      invariant forall name | name in newnss.Keys - names && name in oldnss ::
                  && CompatibleFactors(oldnss[name].replicationFactor, newnss[name].replicationFactor)
                  && oldnss[name].storage == newnss[name].storage
      decreases names
    {
      var name :| name in names;
      names := names - {name};
      if name !in oldnss {
        continue;
      }
      if !CompatibleFactors(oldnss[name].replicationFactor, newnss[name].replicationFactor) {
        return false;
      }
      if oldnss[name].storage != newnss[name].storage {
        return false;
      }
    }
    return true;
  }

  // Of two specs with one namespace each, the second may follow the first exactly if the version stays or changes
  // alone, with a backup spec, and validly, and the namespace keeps its name, its storage and, if both write it out,
  // its factor.
  method ValidateUpdate(o: Spec, n: Spec) returns (ok: bool)
    ensures ok <==> ValidUpdate(o, n)
    ensures |o.namespaces| == |n.namespaces| == 1 ==>
              var (p, q) := (o.namespaces[0], n.namespaces[0]);
              ok <==>
                && (|| o.version == n.version
                    || (&& n == o.(version := n.version) && n.backupSpec != None
                        && Parse(o.version).Ok? && Parse(n.version).Ok?
                        && Valid(Parse(o.version).value, Parse(n.version).value)))
                && p.name == q.name && p.storage == q.storage
                && (p.replicationFactor == None || q.replicationFactor == None
                    || p.replicationFactor == q.replicationFactor)
  {
    if |o.namespaces| == |n.namespaces| == 1 {
      AdmitsKeepsNamespace(o, n);
    }
    if o.version != n.version {
      var tmp := n.(version := o.version);
      if tmp != o {
        return false;
      }
      if n.backupSpec.None? {
        return false;
      }
    }
    ok := ValidateVersion(o, n);
    if !ok {
      return;
    }
    ok := ValidateNamespaces(o, n);
  }

  // ---------------------------------------------------------------- chains of admitted specs

  ghost predicate Admits(o: Spec, n: Spec) {
    ValidSpec(n) && ValidUpdate(o, n)
  }

  ghost predicate AdmittedChain(specs: seq<Spec>) {
    && |specs| >= 1
    && ValidSpec(specs[0])
    && (forall k | 0 <= k < |specs| - 1 :: Admits(specs[k], specs[k + 1]))
  }

  // The backup spec may be dropped at any time, even while an upgrade is due.
  lemma BackupSpecMayGo(s: Spec)
    requires ValidSpec(s)
    ensures Admits(s, s.(backupSpec := None))
  {
    NamespaceMapOfOne(s.namespaces);
  }

  // What never changes once a cluster has been admitted: its only namespace's name and storage.
  ghost predicate SameNamespace(a: Spec, b: Spec) {
    && |a.namespaces| == 1 && |b.namespaces| == 1
    && a.namespaces[0].name == b.namespaces[0].name
    && a.namespaces[0].storage == b.namespaces[0].storage
  }

  ghost predicate SameOrUpgraded(source: string, target: string) {
    source == target || ValidTransition(source, target)
  }

  lemma NamespaceMapOfOne(nss: seq<NamespaceSpec>)
    requires |nss| == 1
    ensures NamespaceMap(nss) == map[nss[0].name := nss[0]]
  {
    assert nss[..0] == [];
  }

  // One admitted update of a valid spec: exactly what it may do to the namespace.
  lemma AdmitsKeepsNamespace(o: Spec, n: Spec)
    requires |o.namespaces| == |n.namespaces| == 1
    ensures CompatibleNamespaces(o.namespaces, n.namespaces) <==>
            && SameNamespace(o, n)
            && CompatibleFactors(o.namespaces[0].replicationFactor, n.namespaces[0].replicationFactor)
  {
    NamespaceMapOfOne(o.namespaces);
    NamespaceMapOfOne(n.namespaces);
    assert o.namespaces[0].name in NamespaceMap(o.namespaces);
  }

  lemma TransitionsCompose(a: string, b: string, c: string)
    requires SameOrUpgraded(a, b) && SameOrUpgraded(b, c)
    ensures SameOrUpgraded(a, c)
    ensures a == c ==> a == b
  {
    if a != b && b != c {
      AcceptsIsStrictOrder(Parse(a).value, Parse(b).value, Parse(c).value);
    }
  }

  // Along every chain of admitted specs there is exactly one namespace, its name and storage never change,
  // its effective replication factor never exceeds the node count, and the version only moves along valid upgrades.
  lemma {:induction false} AdmittedChainKeeps(specs: seq<Spec>, j: nat, k: nat)
    requires AdmittedChain(specs) && j <= k < |specs|
    ensures ValidSpec(specs[k]) && |specs[k].namespaces| == 1 && |specs[k].namespaces[0].name| <= 23
    ensures match specs[k].namespaces[0].replicationFactor
            case Some(factor) => factor <= specs[k].nodeCount
            case None => 2 <= specs[k].nodeCount
    ensures SameNamespace(specs[j], specs[k])
    ensures SameOrUpgraded(specs[j].version, specs[k].version)
    decreases k
  {
    if k > 0 {
      AdmittedChainKeeps(specs, if j < k then j else j - 1, k - 1);
      assert Admits(specs[k - 1], specs[k]);
      AdmitsKeepsNamespace(specs[k - 1], specs[k]);
      if j < k {
        TransitionsCompose(specs[j].version, specs[k - 1].version, specs[k].version);
      }
    }
  }

  function Max(a: int, b: int): int {
    if a < b then b else a
  }

  // The spec with the given node count and replication factor.
  function Resized(s: Spec, nodeCount: nat, factor: Option<int>): Spec
    requires |s.namespaces| == 1
  {
    s.(nodeCount := nodeCount, namespaces := [s.namespaces[0].(replicationFactor := factor)])
  }

  lemma ResizingAdmitted(s: Spec, m: nat, a: Option<int>, n: nat, b: Option<int>)
    requires ValidSpec(s) && CompatibleFactors(a, b)
    requires s.namespaces[0].(replicationFactor := b).EffectiveReplicationFactor() <= n
    ensures Admits(Resized(s, m, a), Resized(s, n, b))
  {
    hide SupportedText, NamespaceMap;
    AdmitsKeepsNamespace(Resized(s, m, a), Resized(s, n, b));
  }

  // The explicit replication factor, by contrast, is fixed only between neighbours that both write it out: from every
  // valid spec an admitted chain leads to every factor, by leaving the field out in between, on enough nodes. Only the
  // factor has changed at its end, and the node count if it was below the factor.
  lemma ReplicationFactorChanges(s: Spec, factor: int) returns (specs: seq<Spec>)
    requires ValidSpec(s)
    ensures AdmittedChain(specs) && specs[0] == s
    ensures specs[|specs| - 1] == Resized(s, Max(s.nodeCount, factor), Some(factor))
  {
    hide SupportedText, Admits;
    var f, n := s.namespaces[0].replicationFactor, Max(Max(s.nodeCount, factor), DEFAULT_REPLICATION_FACTOR);
    assert s == Resized(s, s.nodeCount, f);
    ResizingAdmitted(s, s.nodeCount, f, n, f);
    ResizingAdmitted(s, n, f, n, None);
    ResizingAdmitted(s, n, None, n, Some(factor));
    ResizingAdmitted(s, n, Some(factor), Max(s.nodeCount, factor), Some(factor));
    specs := [s, Resized(s, n, f), Resized(s, n, None), Resized(s, n, Some(factor)),
              Resized(s, Max(s.nodeCount, factor), Some(factor))];
  }

  predicate WritesFactor(s: Spec) {
    |s.namespaces| == 1 && s.namespaces[0].replicationFactor.Some?
  }

  // It stays the same along every admitted chain whose members all write it out.
  lemma {:induction false} ReplicationFactorStays(specs: seq<Spec>, j: nat, k: nat)
    requires AdmittedChain(specs) && j <= k < |specs|
    requires forall l | j <= l <= k :: WritesFactor(specs[l])
    ensures WritesFactor(specs[j]) && WritesFactor(specs[k])
    ensures specs[j].namespaces[0].replicationFactor == specs[k].namespaces[0].replicationFactor
    decreases k
  {
    hide ValidSpec, ValidTransition, NamespaceMap;
    if j < k {
      ReplicationFactorStays(specs, j, k - 1);
      assert WritesFactor(specs[k - 1]) && WritesFactor(specs[k]);
      assert Admits(specs[k - 1], specs[k]);
      AdmitsKeepsNamespace(specs[k - 1], specs[k]);
    }
  }
}
