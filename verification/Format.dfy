/**
 Decimal numbers and separators in strings: what the `%d` verb prints, and splitting at the
 first separator.
 */
module Format {
  import opened Common

  predicate IsDigit(c: char) {
    '0' <= c <= '9'
  }

  predicate AllDigits(s: string) {
    forall i :: 0 <= i < |s| ==> IsDigit(s[i])
  }

  function Digit(d: nat): (c: char)
    requires d < 10
    ensures IsDigit(c)
  {
    '0' + d as char
  }

  function ValueOf(c: char): nat
    requires IsDigit(c)
  {
    (c - '0') as nat
  }

  /** A natural number in decimal, without leading zeros. */
  function Decimal(n: nat): (s: string)
    ensures s != [] && AllDigits(s)
  {
    if n < 10 then [Digit(n)] else Decimal(n / 10) + [Digit(n % 10)]
  }

  function Parse(s: string): nat
    requires AllDigits(s)
  {
    if s == [] then 0 else 10 * Parse(s[..|s| - 1]) + ValueOf(s[|s| - 1])
  }

  lemma DigitValue(d: nat)
    requires d < 10
    ensures ValueOf(Digit(d)) == d
  {
  }

  lemma {:induction false} ParseDecimal(n: nat)
    ensures Parse(Decimal(n)) == n
  {
    if n < 10 {
      DigitValue(n);
      assert Parse([]) == 0;
    } else {
      ParseDecimal(n / 10);
      DigitValue(n % 10);
      var s := Decimal(n);
      assert s[..|s| - 1] == Decimal(n / 10);
    }
  }

  lemma DecimalInjective(a: nat, b: nat)
    requires Decimal(a) == Decimal(b)
    ensures a == b
  {
    ParseDecimal(a);
    ParseDecimal(b);
  }

  /** The parts before and after the first `sep`. */
  function SplitFirst(s: string, sep: char): (r: Option<(string, string)>)
    ensures r.Some? ==> |r.value.0| + |r.value.1| < |s|
  {
    if s == [] then None
    else if s[0] == sep then Some(("", s[1..]))
    else
      var rest := SplitFirst(s[1..], sep);
      if rest.None? then None else Some(([s[0]] + rest.value.0, rest.value.1))
  }

  /** Joining and then splitting at the first separator gives the parts back, whatever the second part holds. */
  lemma {:induction false} SplitJoined(a: string, sep: char, b: string)
    requires sep !in a
    ensures SplitFirst(a + [sep] + b, sep) == Some((a, b))
  {
    var s := a + [sep] + b;
    if a == [] {
      assert s[1..] == b;
    } else {
      assert s[1..] == a[1..] + [sep] + b;
      SplitJoined(a[1..], sep, b);
      assert [a[0]] + a[1..] == a;
    }
  }

  /** Splitting loses nothing: the parts around the first separator are the string. */
  lemma {:induction false} SplitIsJoin(s: string, sep: char)
    ensures SplitFirst(s, sep).Some? ==>
              var (a, b) := SplitFirst(s, sep).value;
              sep !in a && s == a + [sep] + b
    ensures SplitFirst(s, sep).None? ==> sep !in s
  {
    if s != [] && s[0] != sep {
      SplitIsJoin(s[1..], sep);
    }
  }

  function Join(parts: seq<string>, sep: char): string {
    if parts == [] then ""
    else if |parts| == 1 then parts[0]
    else parts[0] + [sep] + Join(parts[1..], sep)
  }

  /** The parts between all separators. */
  function SplitAll(s: string, sep: char): seq<string>
    decreases |s|
  {
    var first := SplitFirst(s, sep);
    if first.None? then [s] else [first.value.0] + SplitAll(first.value.1, sep)
  }

  lemma {:induction false} NoSplit(s: string, sep: char)
    requires sep !in s
    ensures SplitFirst(s, sep) == None
  {
    if s != [] {
      NoSplit(s[1..], sep);
    }
  }

  lemma {:induction false} SplitAllJoin(parts: seq<string>, sep: char)
    requires parts != [] && forall i :: 0 <= i < |parts| ==> sep !in parts[i]
    ensures SplitAll(Join(parts, sep), sep) == parts
  {
    if |parts| == 1 {
      NoSplit(parts[0], sep);
    } else {
      SplitJoined(parts[0], sep, Join(parts[1..], sep));
      SplitAllJoin(parts[1..], sep);
    }
  }
}
