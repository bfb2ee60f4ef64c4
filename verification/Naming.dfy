// The names that the operator derives from other names, and their lengths.
module Naming {
  import opened Text
  import opened Versioning
  import opened Admission
  import BackupObjects

  // ---------------------------------------------------------------- pre-upgrade backups

  function Strip(version: string): string {
    if version == [] then []
    else if version[0] == '.' then Strip(version[1..])
    else [version[0]] + Strip(version[1..])
  }

  function GetBackupName(namespace: string, source: string, target: string): string {
    namespace + "-" + Strip(source) + "-" + Strip(target) + "-upgrade"
  }

  // The format, on an example.
  lemma SampleBackupName()
    ensures GetBackupName("data", "4.0.0.4", "4.2.0.10") == "data-4004-42010-upgrade"
  {
    hide Strip;
    StripDotted("4", "0", "0", "4");
    StripDotted("4", "2", "0", "10");
    assert "4.0.0.4" == Dotted("4", "0", "0", "4") && "4.2.0.10" == Dotted("4", "2", "0", "10");
  }

  lemma {:induction false} StripKeeps(version: string, c: char)
    ensures c in Strip(version) <==> c in version && c != '.'
  {
    if version != [] {
      StripKeeps(version[1..], c);
    }
  }

  lemma StripCons(c: char, s: string)
    ensures Strip([c] + s) == (if c == '.' then [] else [c]) + Strip(s)
  {
    assert ([c] + s)[1..] == s;
  }

  lemma Regroup(a: string, b: string, c: string)
    ensures a + (b + c) == a + b + c
  {
  }

  lemma {:induction false} StripJoins(a: string, b: string)
    ensures Strip(a + b) == Strip(a) + Strip(b)
  {
    if a == [] {
      assert a + b == b;
    } else {
      hide Strip;
      var c, rest := a[0], a[1..];
      StripJoins(rest, b);
      StripCons(c, rest);
      StripCons(c, rest + b);
      Regroup([c], rest, b);
      Regroup(if c == '.' then [] else [c], Strip(rest), Strip(b));
      assert a == [c] + rest;
    }
  }

  lemma {:induction false} StripPlain(s: string)
    requires '.' !in s
    ensures Strip(s) == s
  {
    if s != [] {
      StripPlain(s[1..]);
    }
  }

  lemma StripDot(a: string, b: string)
    requires '.' !in b
    ensures Strip(a + "." + b) == Strip(a) + b
  {
    StripJoins(a + ".", b);
    StripJoins(a, ".");
    StripPlain(b);
    assert Strip(".") == "";
  }

  function Dotted(a: string, b: string, c: string, d: string): string {
    a + "." + b + "." + c + "." + d
  }

  lemma StripDotted(a: string, b: string, c: string, d: string)
    requires '.' !in a && '.' !in b && '.' !in c && '.' !in d
    ensures Strip(Dotted(a, b, c, d)) == a + b + c + d
  {
    hide Strip;
    StripPlain(a);
    StripDot(a, b);
    StripDot(a + "." + b, c);
    StripDot(a + "." + b + "." + c, d);
  }

  lemma DashAt(a: string, b: string)
    requires '-' !in b
    ensures var s := a + "-" + b; s[|a|] == '-' && forall k | |a| < k < |s| :: s[k] != '-'
  {
    var s := a + "-" + b;
    forall k | |a| < k < |s|
      ensures s[k] != '-'
    {
      assert s[k] == b[k - |a| - 1];
    }
  }

  // The last dash separates a text from a part that is free of dashes.
  lemma LastDash(a: string, b: string, c: string, d: string)
    requires a + "-" + b == c + "-" + d
    requires '-' !in b && '-' !in d
    ensures a == c && b == d
  {
    DashAt(a, b);
    DashAt(c, d);
    var s := a + "-" + b;
    assert |a| == |c|;
    assert a == s[..|a|] && c == s[..|a|];
    assert b == s[|a| + 1..] && d == s[|a| + 1..];
  }

  // Two backup names are equal exactly when the namespaces and the stripped versions are, whatever the namespaces
  // look like, as long as the versions have no dashes.
  lemma BackupNameDecides(ns: string, s: string, t: string, ns': string, s': string, t': string)
    requires '-' !in s && '-' !in t && '-' !in s' && '-' !in t'
    ensures GetBackupName(ns, s, t) == GetBackupName(ns', s', t') <==>
            ns == ns' && Strip(s) == Strip(s') && Strip(t) == Strip(t')
  {
    if GetBackupName(ns, s, t) == GetBackupName(ns', s', t') {
      StripKeeps(s, '-');
      StripKeeps(t, '-');
      StripKeeps(s', '-');
      StripKeeps(t', '-');
      assert "-upgrade" == "-" + "upgrade";
      var a, a' := ns + "-" + Strip(s) + "-" + Strip(t), ns' + "-" + Strip(s') + "-" + Strip(t');
      assert a + "-" + "upgrade" == GetBackupName(ns, s, t);
      assert a' + "-" + "upgrade" == GetBackupName(ns', s', t');
      LastDash(a, "upgrade", a', "upgrade");
      LastDash(ns + "-" + Strip(s), Strip(t), ns' + "-" + Strip(s'), Strip(t'));
      LastDash(ns, Strip(s), ns', Strip(s'));
    }
  }

  lemma ReleaseText(minor: string, revision: string)
    ensures "4." + minor + ".0." + revision == Dotted("4", minor, "0", revision)
    ensures '-' !in minor && '-' !in revision ==> '-' !in Dotted("4", minor, "0", revision)
  {
  }

  lemma SmallIsPlain(n: nat)
    requires n <= 10
    ensures '.' !in Small(n) && '-' !in Small(n) && (n < 10 ==> |Small(n)| == 1)
  {
  }

  // A supported version is a four, a one-digit minor number, a zero, and a revision; without its dots it can be read
  // in one way only.
  lemma SupportedStripped(version: string) returns (minor: string, revision: string)
    requires version in SUPPORTED_VERSIONS
    ensures |minor| == 1 && version == Dotted("4", minor, "0", revision)
    ensures Strip(version) == "4" + minor + "0" + revision && '-' !in version
  {
    hide Strip, Dotted;
    ReleasesMatchTexts();
    var k :| 0 <= k < |SUPPORTED_VERSIONS| && SUPPORTED_VERSIONS[k] == version;
    var m, r := RELEASES[k].0, RELEASES[k].1;
    assert m < 10;
    hide Small;
    SmallIsPlain(m);
    SmallIsPlain(r);
    minor, revision := Small(m), Small(r);
    ReleaseText(minor, revision);
    StripDotted("4", minor, "0", revision);
  }

  lemma StrippedParts(minor: string, revision: string, s: string)
    requires |minor| == 1 && s == "4" + minor + "0" + revision
    ensures |s| >= 3 && minor == [s[1]] && revision == s[3..]
  {
  }

  lemma StripInjective(v: string, w: string)
    requires v in SUPPORTED_VERSIONS && w in SUPPORTED_VERSIONS
    ensures Strip(v) == Strip(w) <==> v == w
  {
    hide Strip, Dotted;
    var m, r := SupportedStripped(v);
    var m', r' := SupportedStripped(w);
    StrippedParts(m, r, Strip(v));
    StrippedParts(m', r', Strip(w));
  }

  // Over the supported versions and all namespaces, a backup's name tells its namespace, source and target.
  lemma BackupNameInjective(ns: string, s: string, t: string, ns': string, s': string, t': string)
    requires s in SUPPORTED_VERSIONS && t in SUPPORTED_VERSIONS && s' in SUPPORTED_VERSIONS && t' in SUPPORTED_VERSIONS
    ensures GetBackupName(ns, s, t) == GetBackupName(ns', s', t') <==> ns == ns' && s == s' && t == t'
  {
    var m0, r0 := SupportedStripped(s);
    var m1, r1 := SupportedStripped(t);
    var m2, r2 := SupportedStripped(s');
    var m3, r3 := SupportedStripped(t');
    BackupNameDecides(ns, s, t, ns', s', t');
    StripInjective(s, s');
    StripInjective(t, t');
  }

  // Beyond the supported versions the stripped dots are missed.
  lemma BackupNamesCollide(ns: string, target: string)
    ensures GetBackupName(ns, Dotted("4", "2", "0", "10"), target)
         == GetBackupName(ns, Dotted("4", "20", "1", "0"), target)
  {
    hide Strip;
    StripDotted("4", "2", "0", "10");
    StripDotted("4", "20", "1", "0");
  }

  lemma PrintIsDotted(v: Version)
    ensures v.Print() == Dotted(Itoa(v.major), Itoa(v.minor), Itoa(v.patch), Itoa(v.revision))
  {
    hide Itoa;
    var a, b, c, d := Itoa(v.major), Itoa(v.minor), Itoa(v.patch), Itoa(v.revision);
    assert Join([d], '.') == d;
    assert [c, d][1..] == [d] && [b, c, d][1..] == [c, d] && [a, b, c, d][1..] == [b, c, d];
    assert Join([c, d], '.') == c + "." + d;
    assert Join([b, c, d], '.') == b + "." + (c + "." + d);
    assert Join([a, b, c, d], '.') == a + "." + (b + "." + (c + "." + d));
  }

  predicate TwoDigit(v: Version) {
    0 <= v.major < 100 && 0 <= v.minor < 100 && 0 <= v.patch < 100 && 0 <= v.revision < 100
  }

  lemma StrippedLength(v: Version)
    requires TwoDigit(v)
    ensures |Strip(v.Print())| <= 8
  {
    hide Strip;
    AtoiItoa(v.major);
    AtoiItoa(v.minor);
    AtoiItoa(v.patch);
    AtoiItoa(v.revision);
    PrintIsDotted(v);
    StripDotted(Itoa(v.major), Itoa(v.minor), Itoa(v.patch), Itoa(v.revision));
  }

  // The job of a pre-upgrade backup, and of its restore, has a name that Kubernetes accepts in full.
  lemma JobNameFits(ns: string, v: Version, w: Version, key: BackupObjects.Key)
    requires |ns| <= NAMESPACE_MAX_NAME_LENGTH && TwoDigit(v) && TwoDigit(w)
    requires key.name == GetBackupName(ns, v.Print(), w.Print())
    ensures |key.JobName()| <= 63
  {
    StrippedLength(v);
    StrippedLength(w);
  }

  // ---------------------------------------------------------------- pods

  function PodName(cluster: string, i: nat): string {
    cluster + "-" + DigitsOf(i)
  }

  function TrimPrefix(s: string, prefix: string): string {
    if prefix <= s then s[|prefix|..] else s
  }

  function PodIndex(cluster: string, name: string): int {
    var parsed := Atoi(TrimPrefix(name, cluster + "-"));
    if parsed.Some? then parsed.value else -1
  }

  lemma SamplePodName()
    ensures PodName("as", 10) == "as-10"
  {
    assert DigitsOf(1) == "1";
  }

  // The index is read back from the name of a pod, whatever the cluster is called.
  lemma PodIndexOfName(cluster: string, i: nat)
    requires IsInt64(i)
    ensures PodIndex(cluster, PodName(cluster, i)) == i
  {
    AtoiItoa(i);
    assert PodName(cluster, i)[|cluster + "-"|..] == DigitsOf(i);
  }

  function MeshSeedAddress(pod: string, cluster: string, kubeNamespace: string): string {
    pod + "." + cluster + "." + kubeNamespace
  }

  // The address is the names of the pod, the cluster and the Kubernetes namespace, in this order.
  lemma SeedAddressTells(pod: string, cluster: string, kubeNamespace: string)
    requires '.' !in pod && '.' !in cluster && '.' !in kubeNamespace
    ensures Split(MeshSeedAddress(pod, cluster, kubeNamespace), '.') == [pod, cluster, kubeNamespace]
  {
    hide Split;
    var address := MeshSeedAddress(pod, cluster, kubeNamespace);
    SplitFront(pod, cluster + "." + kubeNamespace, '.');
    SplitFront(cluster, kubeNamespace, '.');
    SplitFront(kubeNamespace, "", '.');
    assert address == pod + "." + (cluster + "." + kubeNamespace);
  }

  // The bound on names that admission checks is exactly what the addresses of the pods with one-digit indices need.
  lemma MeshSeedAddressFits(cluster: string, kubeNamespace: string, i: nat)
    requires i < 10
    ensures |MeshSeedAddress(PodName(cluster, i), cluster, kubeNamespace)| <= MESH_SEED_ADDRESS_MAX_LENGTH
            <==> 2 * (|cluster| + 2) + |kubeNamespace| <= MESH_SEED_ADDRESS_MAX_LENGTH
  {
  }
}
