// Aerospike versions and the transitions between them (pkg/versioning).
module Versioning {
  import opened Wrappers
  import opened Text

  datatype Version = Version(major: int, minor: int, patch: int, revision: int) {
    function Parts(): seq<string> {
      [Itoa(major), Itoa(minor), Itoa(patch), Itoa(revision)]
    }

    function Print(): string {
      Join(Parts(), '.')
    }

    predicate IsSupported() {
      Contains(SUPPORTED_VERSIONS, Print())
    }

    predicate InRange() {
      IsInt64(major) && IsInt64(minor) && IsInt64(patch) && IsInt64(revision)
    }
  }

  const SUPPORTED_VERSIONS: seq<string> := [
    "4.0.0.4", "4.0.0.5", "4.0.0.6", "4.1.0.1", "4.1.0.6",
    "4.2.0.3", "4.2.0.4", "4.2.0.5", "4.2.0.10",
    "4.3.0.2", "4.3.0.4", "4.3.0.6", "4.3.0.7", "4.3.0.8", "4.3.0.10"
  ]

  // ---------------------------------------------------------------- version text

  ghost predicate Numeric(parts: seq<string>) {
    forall k | 0 <= k < |parts| :: Atoi(parts[k]).Some?
  }

  // What a version string means: three or four dot-separated integers, the fourth one defaulting to zero.
  ghost function Parse(s: string): Result<Version> {
    var parts := Split(s, '.');
    if 3 <= |parts| <= 4 && Numeric(parts) then
      Ok(Version(Atoi(parts[0]).value, Atoi(parts[1]).value, Atoi(parts[2]).value,
                 if |parts| == 4 then Atoi(parts[3]).value else 0))
    else Err
  }

  method NewVersionFromString(s: string) returns (r: Result<Version>)
    ensures r == Parse(s)
  {
    var parts := Split(s, '.');
    if |parts| < 3 || |parts| > 4 {
      return Err;
    }
    var numbers := new int[4](_ => 0);
    for i := 0 to |parts|
      invariant forall k | 0 <= k < i :: Atoi(parts[k]) == Some(numbers[k])
      invariant forall k | i <= k < 4 :: numbers[k] == 0
    {
      match Atoi(parts[i])
      case None =>
        return Err;
      case Some(n) =>
        numbers[i] := n;
    }
    return Ok(Version(numbers[0], numbers[1], numbers[2], numbers[3]));
  }

  // Parsing inverts printing for every version whose components are 64-bit integers.
  lemma ParsePrint(v: Version)
    requires v.InRange()
    ensures Parse(v.Print()) == Ok(v)
  {
    hide Split, Join, Atoi, Itoa;
    AtoiItoa(v.major);
    AtoiItoa(v.minor);
    AtoiItoa(v.patch);
    AtoiItoa(v.revision);
    SplitJoin(v.Parts(), '.');
    assert Split(v.Print(), '.') == v.Parts();
  }

  // A missing revision means zero, and a plus sign is read over.
  lemma ShortTextMeans(a: string, b: string, c: string)
    requires '.' !in a && '.' !in b && '.' !in c
    ensures Parse(a + "." + b + "." + c) == Parse(a + "." + b + "." + c + ".0")
    ensures a != "" && AllDigits(a) ==> Atoi("+" + a) == Atoi(a)
  {
    hide Split, Join, ValueOf;
    SplitJoin([a, b, c], '.');
    SplitJoin([a, b, c, "0"], '.');
    JoinTexts(a, b, c);
    SmallNumbersPrint(0);
    AtoiItoa(0);
    if a != "" {
      assert ("+" + a)[1..] == a;
    }
  }

  lemma JoinTexts(a: string, b: string, c: string)
    ensures Join([a, b, c], '.') == a + "." + b + "." + c
    ensures Join([a, b, c, "0"], '.') == a + "." + b + "." + c + ".0"
  {
    assert [a, b, c][1..] == [b, c] && [b, c][1..] == [c];
    assert [a, b, c, "0"][1..] == [b, c, "0"] && [b, c, "0"][1..] == [c, "0"] && [c, "0"][1..] == ["0"];
    assert Join([c, "0"], '.') == c + "." + "0";
    assert Join([b, c, "0"], '.') == b + "." + Join([c, "0"], '.');
    assert Join([b, c], '.') == b + "." + c;
    assert b + "." + (c + "." + "0") == b + "." + c + ".0";
    assert a + "." + (b + "." + c + ".0") == a + "." + b + "." + c + ".0";
    assert a + "." + (b + "." + c) == a + "." + b + "." + c;
  }

  // Printing a parsed string normalises it: the text is accepted again, means the same version,
  // and does not change a second time. This covers the three-part spelling.
  lemma PrintParseNormalises(s: string)
    requires Parse(s).Ok?
    ensures var t := Parse(s).value.Print(); Parse(t) == Parse(s) && Parse(t).value.Print() == t
  {
    ParsePrint(Parse(s).value);
  }

  lemma PrintInjective(v: Version, w: Version)
    requires v.InRange() && w.InRange() && v.Print() == w.Print()
    ensures v == w
  {
    ParsePrint(v);
    ParsePrint(w);
  }

  // ---------------------------------------------------------------- supported versions

  predicate Contains(s: seq<string>, e: string) {
    |s| > 0 && (s[0] == e || Contains(s[1..], e))
  }

  lemma {:induction false} ContainsIsMembership(s: seq<string>, e: string)
    ensures Contains(s, e) <==> e in s
  {
    if |s| > 0 {
      ContainsIsMembership(s[1..], e);
    }
  }

  // Minor and revision numbers of the supported versions; the major number is 4 and the patch number 0 in all of them.
  const RELEASES: seq<(int, int)> := [
    (0, 4), (0, 5), (0, 6), (1, 1), (1, 6), (2, 3), (2, 4), (2, 5), (2, 10),
    (3, 2), (3, 4), (3, 6), (3, 7), (3, 8), (3, 10)
  ]

  function Release(k: nat): Version
    requires k < |RELEASES|
  {
    Version(4, RELEASES[k].0, 0, RELEASES[k].1)
  }

  // The decimal text of the numbers up to ten.
  function Small(n: nat): string
    requires n <= 10
  {
    if n == 10 then "10" else [('0' as int + n) as char]
  }

  lemma SmallNumbersPrint(n: nat)
    requires n <= 10
    ensures Itoa(n) == Small(n)
  {
    assert DigitsOf(1) == "1";
  }

  lemma SmallVersionPrints(minor: nat, revision: nat)
    requires minor <= 10 && revision <= 10
    ensures Version(4, minor, 0, revision).Print() == "4." + Small(minor) + ".0." + Small(revision)
  {
    var v := Version(4, minor, 0, revision);
    SmallNumbersPrint(4);
    SmallNumbersPrint(minor);
    SmallNumbersPrint(0);
    SmallNumbersPrint(revision);
    calc {
      v.Print();
      Itoa(4) + "." + Join(v.Parts()[1..], '.');
      "4." + (Small(minor) + "." + Join(v.Parts()[1..][1..], '.'));
      "4." + (Small(minor) + "." + ("0." + Small(revision)));
      "4." + Small(minor) + ".0." + Small(revision);
    }
  }

  lemma ReleasesMatchTexts()
    ensures |RELEASES| == |SUPPORTED_VERSIONS|
    ensures forall k | 0 <= k < |RELEASES| ::
              && 0 <= RELEASES[k].0 <= 10 && 0 <= RELEASES[k].1 <= 10
              && SUPPORTED_VERSIONS[k] == "4." + Small(RELEASES[k].0) + ".0." + Small(RELEASES[k].1)
  {
  }

  lemma SupportedIsRelease(v: Version) returns (k: nat)
    requires v.InRange() && v.IsSupported()
    ensures k < |RELEASES| && v == Release(k)
  {
    ContainsIsMembership(SUPPORTED_VERSIONS, v.Print());
    ReleasesMatchTexts();
    k :| 0 <= k < |SUPPORTED_VERSIONS| && SUPPORTED_VERSIONS[k] == v.Print();
    SmallVersionPrints(RELEASES[k].0, RELEASES[k].1);
    PrintInjective(v, Release(k));
  }
}
