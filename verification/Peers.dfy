// How a new pod learns the addresses of the other pods: the operator joins them into one argument
// (pkg/reconciler/pod.go), which the pod's init container splits into lines of configuration (cmd/asinit/main.go).
module Peers {
  import opened Text
  import opened Naming

  const HEARTBEAT_PORT := 3002

  // The addresses of all pods but the one with the given name, in order.
  function Addresses(pods: seq<string>, podName: string, cluster: string, kubeNamespace: string): seq<string> {
    if pods == [] then []
    else
      var front := Addresses(pods[..|pods| - 1], podName, cluster, kubeNamespace);
      var pod := pods[|pods| - 1];
      if pod == podName then front else front + [MeshSeedAddress(pod, cluster, kubeNamespace)]
  }

  function Blanks(n: nat): (s: seq<string>)
    ensures |s| == n && forall k | 0 <= k < n :: s[k] == ""
  {
    seq(n, _ => "")
  }

  // The slice starts out with as many empty strings as there are pods, and the addresses come after them.
  method BuildPeerList(pods: seq<string>, podName: string, cluster: string, kubeNamespace: string)
    returns (peerList: string)
    ensures peerList == Join(Blanks(|pods|) + Addresses(pods, podName, cluster, kubeNamespace), ',')
  {
    var peers := Blanks(|pods|);
    for k := 0 to |pods|
      invariant peers == Blanks(|pods|) + Addresses(pods[..k], podName, cluster, kubeNamespace)
    {
      assert pods[..k + 1][..k] == pods[..k];
      if podName != pods[k] {
        peers := peers + [MeshSeedAddress(pods[k], cluster, kubeNamespace)];
      }
    }
    assert pods[..|pods|] == pods;
    return Join(peers, ',');
  }

  function NonBlank(parts: seq<string>): seq<string> {
    if parts == [] then []
    else if parts[0] == "" then NonBlank(parts[1..])
    else [parts[0]] + NonBlank(parts[1..])
  }

  // strings.FieldsFunc with a comma as the separator.
  function Fields(s: string): seq<string> {
    NonBlank(Split(s, ','))
  }

  lemma NonBlankStep(parts: seq<string>)
    requires parts != []
    ensures NonBlank(parts) == (if parts[0] == "" then [] else [parts[0]]) + NonBlank(parts[1..])
  {
  }

  lemma {:induction false} NonBlankJoins(a: seq<string>, b: seq<string>)
    ensures NonBlank(a + b) == NonBlank(a) + NonBlank(b)
  {
    if a == [] {
      assert a + b == b;
    } else {
      NonBlankJoins(a[1..], b);
      NonBlankStep(a);
      NonBlankStep(a + b);
      hide NonBlank;
      assert (a + b)[1..] == a[1..] + b;
    }
  }

  lemma {:induction false} NonBlankDrops(blanks: seq<string>)
    requires forall k | 0 <= k < |blanks| :: blanks[k] == ""
    ensures NonBlank(blanks) == []
  {
    if blanks != [] {
      NonBlankDrops(blanks[1..]);
    }
  }

  lemma {:induction false} NonBlankKeeps(parts: seq<string>)
    requires forall k | 0 <= k < |parts| :: parts[k] != ""
    ensures NonBlank(parts) == parts
  {
    if parts != [] {
      NonBlankKeeps(parts[1..]);
    }
  }

  lemma {:induction false} FieldsAreClean(parts: seq<string>)
    requires forall k | 0 <= k < |parts| :: ',' !in parts[k]
    ensures forall k | 0 <= k < |NonBlank(parts)| :: ',' !in NonBlank(parts)[k]
  {
    if parts != [] {
      FieldsAreClean(parts[1..]);
    }
  }

  predicate CommaFree(parts: seq<string>) {
    forall k | 0 <= k < |parts| :: ',' !in parts[k]
  }

  lemma NoFields()
    ensures Fields(Join([], ',')) == []
  {
    assert Split("", ',') == [""];
    assert NonBlank([""]) == [];
  }

  // Splitting what was joined gives back the non-empty parts, in order, exactly when none of them has a comma.
  lemma FieldsOfJoin(n: nat, parts: seq<string>)
    requires n > 0 || parts == []
    requires forall k | 0 <= k < |parts| :: parts[k] != ""
    ensures Fields(Join(Blanks(n) + parts, ',')) == parts <==> CommaFree(parts)
  {
    hide NonBlank, Split, Join;
    if CommaFree(parts) {
      if n > 0 {
        SplitJoin(Blanks(n) + parts, ',');
        NonBlankJoins(Blanks(n), parts);
        NonBlankDrops(Blanks(n));
        NonBlankKeeps(parts);
      } else {
        NoFields();
        assert Blanks(n) + parts == [];
      }
    } else {
      SplitPartsClean(Join(Blanks(n) + parts, ','), ',');
      FieldsAreClean(Split(Join(Blanks(n) + parts, ','), ','));
    }
  }

  lemma {:induction false} AddressesAreOthers(pods: seq<string>, podName: string, cluster: string,
                                              kubeNamespace: string)
    ensures forall a :: a in Addresses(pods, podName, cluster, kubeNamespace) <==>
              exists k :: 0 <= k < |pods| && pods[k] != podName && a == MeshSeedAddress(pods[k], cluster, kubeNamespace)
    ensures ',' !in cluster && ',' !in kubeNamespace && CommaFree(pods) ==>
              CommaFree(Addresses(pods, podName, cluster, kubeNamespace))
    ensures forall k | 0 <= k < |Addresses(pods, podName, cluster, kubeNamespace)| ::
              Addresses(pods, podName, cluster, kubeNamespace)[k] != ""
    ensures |Addresses(pods, podName, cluster, kubeNamespace)| <= |pods|
  {
    if pods != [] {
      AddressesAreOthers(pods[..|pods| - 1], podName, cluster, kubeNamespace);
    }
  }

  // The init container recovers exactly the addresses of the other pods, in order, whenever no name has a comma. The
  // empty strings in front do no harm, not even when there is no other pod.
  lemma PeersRoundTrip(pods: seq<string>, podName: string, cluster: string, kubeNamespace: string)
    ensures var addresses := Addresses(pods, podName, cluster, kubeNamespace);
            && (Fields(Join(Blanks(|pods|) + addresses, ',')) == addresses <==> CommaFree(addresses))
            && (',' !in cluster && ',' !in kubeNamespace && CommaFree(pods) ==> CommaFree(addresses))
  {
    AddressesAreOthers(pods, podName, cluster, kubeNamespace);
    FieldsOfJoin(|pods|, Addresses(pods, podName, cluster, kubeNamespace));
  }

  function SeedLine(peer: string): string {
    "mesh-seed-address-port " + peer + " " + Itoa(HEARTBEAT_PORT) + "\n"
  }

  function SeedLines(peers: seq<string>): string {
    if peers == [] then [] else SeedLines(peers[..|peers| - 1]) + SeedLine(peers[|peers| - 1])
  }

  // The init container's loop: one line of configuration for each field of its argument.
  method BuildSeeds(peerList: string) returns (text: string)
    ensures text == SeedLines(Fields(peerList))
  {
    var fields := Fields(peerList);
    text := [];
    for k := 0 to |fields|
      invariant text == SeedLines(fields[..k])
    {
      assert fields[..k + 1][..k] == fields[..k];
      text := text + SeedLine(fields[k]);
    }
    assert fields[..|fields|] == fields;
  }

  // Without spaces in the address, a line says three things: what it is, the address, and the port.
  lemma SeedLineTells(peer: string)
    requires ' ' !in peer
    ensures SeedLine(peer)[|SeedLine(peer)| - 1] == '\n'
    ensures Split(SeedLine(peer)[..|SeedLine(peer)| - 1], ' ') == ["mesh-seed-address-port", peer, "3002"]
  {
    hide Split;
    PortPrints();
    SplitFront("mesh-seed-address-port", peer + " " + "3002", ' ');
    SplitFront(peer, "3002", ' ');
    SplitFront("3002", "", ' ');
    assert SeedLine(peer)[..|SeedLine(peer)| - 1] == "mesh-seed-address-port" + " " + (peer + " " + "3002");
  }

  lemma PortPrints()
    ensures Itoa(HEARTBEAT_PORT) == "3002"
  {
    assert DigitsOf(3) == "3";
    assert DigitsOf(30) == "30";
    assert DigitsOf(300) == "300";
  }

  // The lines follow each other, in order, each ended by a newline.
  lemma {:induction false} SeedLinesTell(peers: seq<string>, k: nat) returns (start: nat)
    requires k < |peers|
    ensures start + |SeedLine(peers[k])| <= |SeedLines(peers)|
    ensures SeedLines(peers)[start..start + |SeedLine(peers[k])|] == SeedLine(peers[k])
    ensures start == |SeedLines(peers[..k])| && SeedLines(peers)[..start] == SeedLines(peers[..k])
  {
    var front := peers[..|peers| - 1];
    if k < |front| {
      start := SeedLinesTell(front, k);
      assert front[..k] == peers[..k];
    } else {
      start := |SeedLines(front)|;
    }
  }

  // From the operator to the configuration: the new pod's seeds are the other pods.
  method SeedsOfPod(pods: seq<string>, podName: string, cluster: string, kubeNamespace: string) returns (text: string)
    requires ',' !in cluster && ',' !in kubeNamespace && CommaFree(pods)
    ensures text == SeedLines(Addresses(pods, podName, cluster, kubeNamespace))
  {
    var peerList := BuildPeerList(pods, podName, cluster, kubeNamespace);
    PeersRoundTrip(pods, podName, cluster, kubeNamespace);
    text := BuildSeeds(peerList);
  }
}
