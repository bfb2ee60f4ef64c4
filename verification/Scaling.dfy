// Which pod indices a successful ensurePods leaves behind (pkg/reconciler/pod.go, ensurePods).
module Scaling {
  function Below(d: nat): (s: set<nat>)
    ensures forall i: nat :: i in s <==> i < d
    ensures |s| == d
  {
    if d == 0 then {} else Below(d - 1) + {d - 1}
  }

  function Extras(s: set<nat>, d: nat): set<nat> {
    set i | i in s && d <= i
  }

  // Scale-down deletes the indices from d up to the number of pods; the rest of the loop creates the missing ones.
  function After(s: set<nat>, d: nat): set<nat> {
    Below(d) + set i | i in s && d <= i && |s| <= i
  }

  // The pods after n successful runs.
  function AfterRuns(s: set<nat>, d: nat, n: nat): set<nat> {
    if n == 0 then s else After(AfterRuns(s, d, n - 1), d)
  }

  lemma SizeWithExtras(s: set<nat>, d: nat)
    requires Below(d) <= s
    ensures |s| == d + |Extras(s, d)|
  {
    assert s == Below(d) + Extras(s, d);
  }

  lemma SubsetSize(s: set<nat>, t: set<nat>)
    requires s <= t
    ensures |s| <= |t| && (|s| == |t| ==> s == t)
  {
    assert t == s + (t - s);
    assert |t| == |s| + |t - s|;
  }

  // From a gapless set of indices a run reaches the desired one exactly.
  lemma FromContiguous(n: nat, d: nat)
    ensures After(Below(n), d) == Below(d)
  {
  }

  // A run leaves the pods as they are exactly when all wanted ones exist, and every surplus one lies at or beyond
  // the number of pods, where scale-down does not look.
  lemma FixedPoint(s: set<nat>, d: nat)
    ensures After(s, d) == s <==> Below(d) <= s && forall i | i in Extras(s, d) :: d + |Extras(s, d)| <= i
  {
    if Below(d) <= s {
      SizeWithExtras(s, d);
      assert s == Below(d) + Extras(s, d);
      if i :| i in Extras(s, d) && i < |s| {
        assert i !in After(s, d);
      } else {
        assert After(s, d) == Below(d) + Extras(s, d);
      }
    }
  }

  lemma ExtrasShrink(s: set<nat>, d: nat)
    ensures Extras(After(s, d), d) <= Extras(s, d)
    ensures Below(d) <= s && After(s, d) != s ==> |Extras(After(s, d), d)| < |Extras(s, d)|
  {
    SubsetSize(Extras(After(s, d), d), Extras(s, d));
    if Below(d) <= s && Extras(After(s, d), d) == Extras(s, d) {
      assert s == Below(d) + Extras(s, d);
      assert After(s, d) == Below(d) + Extras(After(s, d), d);
    }
  }

  lemma {:induction false} RunsSettle(s: set<nat>, d: nat, n: nat)
    requires n > 0
    ensures Below(d) <= AfterRuns(s, d, n) && Extras(AfterRuns(s, d, n), d) <= Extras(s, d)
    ensures || After(AfterRuns(s, d, n), d) == AfterRuns(s, d, n)
            || |Extras(AfterRuns(s, d, n), d)| + n <= |Extras(s, d)| + 1
    ensures |Extras(AfterRuns(s, d, n), d)| == 0 ==> After(AfterRuns(s, d, n), d) == AfterRuns(s, d, n)
  {
    ExtrasShrink(AfterRuns(s, d, n - 1), d);
    if n == 1 {
      SubsetSize(Extras(AfterRuns(s, d, n), d), Extras(s, d));
    } else {
      RunsSettle(s, d, n - 1);
    }
    if |Extras(AfterRuns(s, d, n), d)| == 0 {
      NoExtrasSettle(AfterRuns(s, d, n), d);
    }
  }

  lemma NoExtrasSettle(s: set<nat>, d: nat)
    requires Below(d) <= s && |Extras(s, d)| == 0
    ensures After(s, d) == s
  {
    FixedPoint(s, d);
  }

  // From any set, repeated successful runs reach a fixed point after at most one run more than there are surplus
  // pods; on the way surplus pods only go.
  lemma RunsReachFixedPoint(s: set<nat>, d: nat, n: nat)
    requires n >= |Extras(s, d)| + 1
    ensures After(AfterRuns(s, d, n), d) == AfterRuns(s, d, n)
    ensures Extras(AfterRuns(s, d, n), d) <= Extras(s, d)
  {
    RunsSettle(s, d, n);
  }

  // A surplus pod that scale-down never reaches: with indices 0 and 7 and one pod wanted, pod 7 stays for good.
  lemma SurplusMayStay()
    ensures After({0, 7}, 1) == {0, 7}
  {
    assert |{0, 7}| == 2;
    assert Below(1) == {0};
  }
}
