// An in-place sort, standing for Go's sort.Sort, which the listings of pods and claims are passed to.
module Sorting {
  ghost predicate SortedBy(s: seq<nat>, key: nat -> int) {
    forall i, j | 0 <= i <= j < |s| :: key(s[i]) <= key(s[j])
  }

  method LeastFrom(a: array<nat>, key: nat -> int, lo: nat) returns (m: nat)
    requires lo < a.Length
    ensures lo <= m < a.Length
    ensures forall j | lo <= j < a.Length :: key(a[m]) <= key(a[j])
  {
    m := lo;
    for j := lo + 1 to a.Length
      invariant lo <= m < j
      invariant forall k | lo <= k < j :: key(a[m]) <= key(a[k])
    {
      if key(a[j]) < key(a[m]) {
        m := j;
      }
    }
  }

  method Swap(a: array<nat>, i: nat, j: nat)
    requires i < a.Length && j < a.Length
    modifies a
    ensures a[i] == old(a[j]) && a[j] == old(a[i])
    ensures forall k | 0 <= k < a.Length && k != i && k != j :: a[k] == old(a[k])
    ensures multiset(a[..]) == multiset(old(a[..]))
  {
    a[i], a[j] := a[j], a[i];
  }

  method SortBy(a: array<nat>, key: nat -> int)
    modifies a
    ensures SortedBy(a[..], key)
    ensures multiset(a[..]) == multiset(old(a[..]))
  {
    for n := 0 to a.Length
      invariant SortedBy(a[..n], key)
      invariant forall i, j | 0 <= i < n <= j < a.Length :: key(a[i]) <= key(a[j])
      invariant multiset(a[..]) == multiset(old(a[..]))
    {
      var m := LeastFrom(a, key, n);
      Swap(a, n, m);
    }
    assert a[..] == a[..a.Length];
  }
}
