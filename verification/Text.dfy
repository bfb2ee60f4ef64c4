// The string operations of Go's standard library that the operator's formats rely on:
// decimal printing and parsing, splitting on a separator, and joining.
module Text {
  import opened Wrappers

  const MAX_INT: int := 0x7fff_ffff_ffff_ffff
  const MIN_INT: int := -0x8000_0000_0000_0000

  predicate IsInt64(n: int) {
    MIN_INT <= n <= MAX_INT
  }

  predicate IsDigit(c: char) {
    '0' <= c <= '9'
  }

  predicate AllDigits(s: string) {
    forall k | 0 <= k < |s| :: IsDigit(s[k])
  }

  function DigitsOf(n: nat): (s: string)
    ensures |s| >= 1 && AllDigits(s)
    ensures n < 100 ==> |s| <= 2
  {
    var last := [('0' as int + n % 10) as char];
    if n < 10 then last else DigitsOf(n / 10) + last
  }

  function ValueOf(s: string): int
    requires AllDigits(s)
  {
    if s == [] then 0 else 10 * ValueOf(s[..|s| - 1]) + (s[|s| - 1] as int - '0' as int)
  }

  // fmt's %d verb.
  function Itoa(n: int): string {
    if n < 0 then "-" + DigitsOf(-n) else DigitsOf(n)
  }

  // strconv.Atoi: an optional sign, at least one digit, and a value that fits 64 bits.
  function Atoi(s: string): Option<int> {
    var signed := |s| > 0 && (s[0] == '-' || s[0] == '+');
    var body := if signed then s[1..] else s;
    if body == [] || !AllDigits(body) then None
    else
      var n: int := if signed && s[0] == '-' then -ValueOf(body) else ValueOf(body);
      if IsInt64(n) then Some(n) else None
  }

  lemma {:induction false} ValueOfDigits(n: nat)
    ensures ValueOf(DigitsOf(n)) == n
  {
    if n >= 10 {
      ValueOfDigits(n / 10);
      assert DigitsOf(n)[..|DigitsOf(n)| - 1] == DigitsOf(n / 10);
    } else {
      assert DigitsOf(n)[..0] == [];
    }
  }

  lemma AtoiItoa(n: int)
    requires IsInt64(n)
    ensures Atoi(Itoa(n)) == Some(n)
    ensures '.' !in Itoa(n)
  {
    var m := if n < 0 then -n else n;
    ValueOfDigits(m);
    assert IsDigit(DigitsOf(m)[0]);
    if n < 0 {
      assert Itoa(n)[1..] == DigitsOf(m);
    }
  }

  // strings.Split for a one-character separator.
  function Split(s: string, sep: char): (parts: seq<string>)
    ensures |parts| >= 1
  {
    if s == [] then [[]]
    else
      var rest := Split(s[1..], sep);
      if s[0] == sep then [[]] + rest else [[s[0]] + rest[0]] + rest[1..]
  }

  // strings.Join for a one-character separator.
  function Join(parts: seq<string>, sep: char): string {
    if |parts| == 0 then []
    else if |parts| == 1 then parts[0]
    else parts[0] + [sep] + Join(parts[1..], sep)
  }

  // Splitting a part that is free of separators off the front.
  lemma {:induction false} SplitFront(part: string, rest: string, sep: char)
    requires sep !in part
    ensures Split(part, sep) == [part]
    ensures Split(part + [sep] + rest, sep) == [part] + Split(rest, sep)
  {
    var s := part + [sep] + rest;
    if part == [] {
      assert s[1..] == rest;
    } else {
      SplitFront(part[1..], rest, sep);
      assert s[1..] == part[1..] + [sep] + rest;
      assert [part[0]] + part[1..] == part;
    }
  }

  lemma {:induction false} SplitJoin(parts: seq<string>, sep: char)
    requires |parts| >= 1
    requires forall k | 0 <= k < |parts| :: sep !in parts[k]
    ensures Split(Join(parts, sep), sep) == parts
  {
    if |parts| == 1 {
      SplitFront(parts[0], [], sep);
    } else {
      SplitJoin(parts[1..], sep);
      SplitFront(parts[0], Join(parts[1..], sep), sep);
    }
  }

  lemma {:induction false} SplitPartsClean(s: string, sep: char)
    ensures forall k | 0 <= k < |Split(s, sep)| :: sep !in Split(s, sep)[k]
  {
    if s != [] {
      SplitPartsClean(s[1..], sep);
    }
  }
}
