// Classification of version transitions and the strategy each one needs (pkg/versioning/upgrade.go).
module Upgrades {
  import opened Wrappers
  import opened Versioning

  datatype Strategy = DefaultStrategy | To42XYStrategy {
    predicate RecreatesClaims() {
      To42XYStrategy?
    }
  }

  datatype VersionUpgrade = VersionUpgrade(source: Version, target: Version) {
    // The last disjunct compares the target with itself, as the source does, and is never true.
    predicate IsDowngrade() {
      || target.major < source.major
      || target.minor < source.minor
      || target.patch < source.patch
      || target.revision < target.revision
    }

    predicate IsMajorUpgrade() {
      !IsDowngrade() && target.major > source.major
    }

    predicate IsMinorUpgrade() {
      !IsDowngrade() && !IsMajorUpgrade() && target.minor > source.minor
    }

    predicate IsPatchUpgrade() {
      !IsDowngrade() && !IsMajorUpgrade() && !IsMinorUpgrade() && target.patch > source.patch
    }

    predicate IsRevisionUpgrade() {
      && !IsDowngrade() && !IsMajorUpgrade() && !IsMinorUpgrade() && !IsPatchUpgrade()
      && target.revision > source.revision
    }

    // The part of IsValid that does not look at the list of supported versions.
    predicate Accepted() {
      IsMinorUpgrade() || IsPatchUpgrade() || IsRevisionUpgrade()
    }

    predicate IsValid() {
      source.IsSupported() && target.IsSupported() && Accepted()
    }

    function GetStrategy(): Result<Strategy> {
      if !IsValid() then Err
      else if target.major == 4 && source.minor <= 1 && target.minor >= 2 then Ok(To42XYStrategy)
      else Ok(DefaultStrategy)
    }
  }

  predicate Accepts(v: Version, w: Version) {
    VersionUpgrade(v, w).Accepted()
  }

  predicate Valid(v: Version, w: Version) {
    VersionUpgrade(v, w).IsValid()
  }

  predicate LexLess(v: Version, w: Version) {
    || v.major < w.major
    || (v.major == w.major && v.minor < w.minor)
    || (v.major == w.major && v.minor == w.minor && v.patch < w.patch)
    || (v.major == w.major && v.minor == w.minor && v.patch == w.patch && v.revision < w.revision)
  }

  // Which transitions the classifiers accept, over all versions: the lexicographic order,
  // cut down to equal majors and to hops that do not lower the patch number.
  lemma AcceptsExactly(v: Version, w: Version)
    ensures Accepts(v, w) <==> LexLess(v, w) && v.major == w.major && v.patch <= w.patch
  {
  }

  // The accepted transitions are a strict partial order on all versions, despite the self-comparison in IsDowngrade.
  lemma AcceptsIsStrictOrder(u: Version, v: Version, w: Version)
    ensures !Accepts(v, v)
    ensures Accepts(u, v) && Accepts(v, w) ==> Accepts(u, w)
    ensures Accepts(u, v) ==> !Accepts(v, u)
  {
  }

  // On supported versions the valid transitions are exactly the lexicographic order.
  lemma ValidIsLexicographic(v: Version, w: Version)
    requires v.InRange() && w.InRange() && v.IsSupported() && w.IsSupported()
    ensures Valid(v, w) <==> LexLess(v, w)
  {
    var j := SupportedIsRelease(v);
    var k := SupportedIsRelease(w);
  }

  // ---------------------------------------------------------------- chains of upgrades

  predicate Recreates(v: Version, w: Version) {
    VersionUpgrade(v, w).GetStrategy() == Ok(To42XYStrategy)
  }

  // Between versions in range, claims are recreated exactly by the valid transitions that start before 4.2.0.0 and do
  // not end before it.
  lemma RecreatesExactly(v: Version, w: Version)
    requires v.InRange() && w.InRange()
    ensures Recreates(v, w) <==>
            Valid(v, w) && LexLess(v, Version(4, 2, 0, 0)) && !LexLess(w, Version(4, 2, 0, 0))
    ensures Valid(v, w) && !Recreates(v, w) ==> VersionUpgrade(v, w).GetStrategy() == Ok(DefaultStrategy)
  {
    if Valid(v, w) {
      var j := SupportedIsRelease(v);
      var k := SupportedIsRelease(w);
    }
  }

  ghost predicate UpgradeChain(vs: seq<Version>) {
    && |vs| >= 2
    && (forall k | 0 <= k < |vs| - 1 :: Valid(vs[k], vs[k + 1]))
  }

  // The number of hops in a chain whose strategy recreates the volume claims.
  function Recreations(vs: seq<Version>): nat {
    if |vs| < 2 then 0
    else (if Recreates(vs[0], vs[1]) then 1 else 0) + Recreations(vs[1..])
  }

  lemma {:induction false} ChainIsValid(vs: seq<Version>)
    requires UpgradeChain(vs)
    ensures Valid(vs[0], vs[|vs| - 1])
  {
    if |vs| > 2 {
      ChainIsValid(vs[1..]);
      AcceptsIsStrictOrder(vs[0], vs[1], vs[|vs| - 1]);
    }
  }

  // However an upgrade is cut into hops, its claims are recreated once if the direct hop would recreate them
  // and never otherwise.
  lemma {:induction false} RecreationsMatchDirectHop(vs: seq<Version>)
    requires UpgradeChain(vs)
    ensures Recreations(vs) == if Recreates(vs[0], vs[|vs| - 1]) then 1 else 0
  {
    ChainIsValid(vs);
    if |vs| > 2 {
      ChainIsValid(vs[1..]);
      RecreationsMatchDirectHop(vs[1..]);
    }
  }
}
