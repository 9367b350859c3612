/**
 Sector numbers printed as ranges: ArrayToString in
 damocles-manager/cmd/damocles-manager/internal/util_sealer_sectors.go.
 */
module Ranges {
  import opened Common
  import opened Format

  datatype Range = Range(lo: nat, hi: nat)

  function Show(r: Range): string {
    if r.lo == r.hi then Decimal(r.lo) else Decimal(r.lo) + "-" + Decimal(r.hi)
  }

  function ShowAll(rs: seq<Range>): (parts: seq<string>)
    ensures |parts| == |rs|
  {
    if rs == [] then [] else ShowAll(rs[..|rs| - 1]) + [Show(rs[|rs| - 1])]
  }

  lemma {:induction false} ShowAllAt(rs: seq<Range>, i: nat)
    requires i < |rs|
    ensures ShowAll(rs)[i] == Show(rs[i])
  {
    if i < |rs| - 1 {
      ShowAllAt(rs[..|rs| - 1], i);
    }
  }

  /** The numbers some range covers. */
  ghost predicate Covers(rs: seq<Range>, x: nat) {
    exists i :: 0 <= i < |rs| && rs[i].lo <= x <= rs[i].hi
  }

  /** Ascending, disjoint, and with a gap between any two: no two could be one. */
  ghost predicate Canonical(rs: seq<Range>) {
    && (forall i :: 0 <= i < |rs| ==> rs[i].lo <= rs[i].hi)
    && (forall i, j :: 0 <= i < j < |rs| ==> rs[i].hi + 1 < rs[j].lo)
  }

  // ---------------------------------------------------------------------------
  // Reading the text back

  function ParseRange(s: string): Option<Range> {
    var parts := SplitFirst(s, '-');
    if parts.None? then
      if AllDigits(s) && s != "" then Some(Range(Parse(s), Parse(s))) else None
    else if AllDigits(parts.value.0) && AllDigits(parts.value.1) && parts.value.0 != "" && parts.value.1 != "" then
      Some(Range(Parse(parts.value.0), Parse(parts.value.1)))
    else None
  }

  function ParseAll(parts: seq<string>): Option<seq<Range>> {
    if parts == [] then Some([])
    else
      var first, rest := ParseRange(parts[0]), ParseAll(parts[1..]);
      if first.Some? && rest.Some? then Some([first.value] + rest.value) else None
  }

  function Read(text: string): Option<seq<Range>> {
    if text == "" then Some([]) else ParseAll(SplitAll(text, ','))
  }

  lemma ParseShow(r: Range)
    ensures ParseRange(Show(r)) == Some(r)
    ensures ',' !in Show(r) && Show(r) != ""
  {
    ParseDecimal(r.lo);
    ParseDecimal(r.hi);
    if r.lo == r.hi {
      NoSplit(Decimal(r.lo), '-');
    } else {
      SplitJoined(Decimal(r.lo), '-', Decimal(r.hi));
    }
  }

  lemma {:induction false} ParseAllSnoc(parts: seq<string>, rs: seq<Range>, r: Range)
    requires ParseAll(parts) == Some(rs)
    ensures ParseAll(parts + [Show(r)]) == Some(rs + [r])
  {
    var more := parts + [Show(r)];
    if parts == [] {
      ParseShow(r);
      assert more == [Show(r)] && more[1..] == [];
      assert rs + [r] == [r] == [r] + [];
    } else {
      assert more[1..] == parts[1..] + [Show(r)];
      ParseAllSnoc(parts[1..], rs[1..], r);
      assert more[0] == parts[0];
      assert rs + [r] == [rs[0]] + (rs[1..] + [r]);
    }
  }

  lemma {:induction false} ParseAllShow(rs: seq<Range>)
    ensures ParseAll(ShowAll(rs)) == Some(rs)
  {
    if rs != [] {
      var front := rs[..|rs| - 1];
      ParseAllShow(front);
      ParseAllSnoc(ShowAll(front), front, rs[|rs| - 1]);
      assert rs == front + [rs[|rs| - 1]];
    }
  }

  /** Any list of ranges can be read back from its text. */
  lemma ReadJoined(rs: seq<Range>)
    ensures Read(Join(ShowAll(rs), ',')) == Some(rs)
  {
    if rs != [] {
      forall i | 0 <= i < |rs| ensures ',' !in ShowAll(rs)[i] && ShowAll(rs)[i] != "" {
        ShowAllAt(rs, i);
        ParseShow(rs[i]);
      }
      SplitAllJoin(ShowAll(rs), ',');
      ParseAllShow(rs);
    }
  }

  // ---------------------------------------------------------------------------
  // The ranges of a sorted list

  ghost predicate Sorted(xs: seq<nat>) {
    forall i, j :: 0 <= i < j < |xs| ==> xs[i] <= xs[j]
  }

  /** One more number `y` joins the last range or begins the next. */
  function WithNext(front: seq<Range>, last: Range, y: nat): seq<Range> {
    if y == last.hi then front + [last]
    else if y == last.hi + 1 then front + [Range(last.lo, y)]
    else front + [last] + [Range(y, y)]
  }

  /** The ranges of the first `n` numbers of a sorted list. */
  function RangesOf(xs: seq<nat>, n: nat): (rs: seq<Range>)
    requires n <= |xs|
    ensures rs == [] <==> n == 0
  {
    if n == 0 then []
    else if n == 1 then [Range(xs[0], xs[0])]
    else
      var rs := RangesOf(xs, n - 1);
      WithNext(rs[..|rs| - 1], rs[|rs| - 1], xs[n - 1])
  }

  ghost predicate Describes(rs: seq<Range>, xs: seq<nat>, n: nat)
    requires n <= |xs|
  {
    && Canonical(rs)
    && (n > 0 ==> rs != [] && rs[|rs| - 1].hi == xs[n - 1])
    && forall x: nat :: Covers(rs, x) <==> x in xs[..n]
  }

  lemma CoversSnoc(rs: seq<Range>, r: Range, x: nat)
    ensures Covers(rs + [r], x) <==> Covers(rs, x) || r.lo <= x <= r.hi
  {
    if Covers(rs, x) {
      var i :| 0 <= i < |rs| && rs[i].lo <= x <= rs[i].hi;
      assert (rs + [r])[i] == rs[i];
    }
    if r.lo <= x <= r.hi {
      assert (rs + [r])[|rs|] == r;
    }
  }

  lemma CanonicalNext(front: seq<Range>, last: Range, y: nat)
    requires Canonical(front + [last]) && last.hi <= y
    ensures Canonical(WithNext(front, last, y))
  {
    var rs, next := front + [last], WithNext(front, last, y);
    assert rs[|front|] == last;
    assert forall i :: 0 <= i < |front| ==> rs[i] == front[i] && next[i] == front[i];
    forall i, j | 0 <= i < j < |next| ensures next[i].hi + 1 < next[j].lo {
      assert i < |front| ==> rs[i].hi + 1 < rs[|front|].lo;
      assert j < |front| ==> rs[i].hi + 1 < rs[j].lo;
    }
  }

  lemma CoversNext(front: seq<Range>, last: Range, y: nat, x: nat)
    requires last.lo <= last.hi <= y
    ensures Covers(WithNext(front, last, y), x) <==> Covers(front + [last], x) || x == y
  {
    CoversSnoc(front, last, x);
    CoversSnoc(front, Range(last.lo, y), x);
    CoversSnoc(front + [last], Range(y, y), x);
  }

  lemma {:induction false} RangesDescribe(xs: seq<nat>, n: nat)
    requires n <= |xs| && Sorted(xs)
    ensures Describes(RangesOf(xs, n), xs, n)
  {
    if n == 1 {
      assert xs[..1] == [xs[0]];
    } else if n > 1 {
      RangesDescribe(xs, n - 1);
      var rs, y := RangesOf(xs, n - 1), xs[n - 1];
      var front, last := rs[..|rs| - 1], rs[|rs| - 1];
      assert rs == front + [last];
      assert xs[n - 2] <= y;
      DescribesNext(front, last, xs, n - 1);
    }
  }

  lemma DescribesNext(front: seq<Range>, last: Range, xs: seq<nat>, n: nat)
    requires 0 < n < |xs| && Describes(front + [last], xs, n) && last.hi <= xs[n]
    ensures Describes(WithNext(front, last, xs[n]), xs, n + 1)
  {
    assert (front + [last])[|front|] == last;
    CanonicalNext(front, last, xs[n]);
    assert xs[..n + 1] == xs[..n] + [xs[n]];
    forall x: nat ensures Covers(WithNext(front, last, xs[n]), x) <==> x in xs[..n + 1] {
      CoversNext(front, last, xs[n], x);
    }
  }

  // ---------------------------------------------------------------------------
  // util_sealer_sectors.go

  function Insert(xs: seq<nat>, x: nat): seq<nat> {
    if xs == [] || xs[|xs| - 1] <= x then xs + [x] else Insert(xs[..|xs| - 1], x) + [xs[|xs| - 1]]
  }

  lemma {:induction false} InsertBag(xs: seq<nat>, x: nat)
    ensures multiset(Insert(xs, x)) == multiset(xs) + multiset{x}
  {
    if xs != [] && xs[|xs| - 1] > x {
      InsertBag(xs[..|xs| - 1], x);
      assert xs == xs[..|xs| - 1] + [xs[|xs| - 1]];
    }
  }

  lemma {:induction false} InsertSorted(xs: seq<nat>, x: nat)
    requires Sorted(xs)
    ensures Sorted(Insert(xs, x)) && |Insert(xs, x)| == |xs| + 1
    ensures forall y :: y in Insert(xs, x) ==> y in xs || y == x
  {
    if xs != [] && xs[|xs| - 1] > x {
      var front, last := Insert(xs[..|xs| - 1], x), xs[|xs| - 1];
      InsertSorted(xs[..|xs| - 1], x);
      forall i | 0 <= i < |front| ensures front[i] <= last {
        assert front[i] in front;
      }
    }
  }

  method SortedCopy(xs: seq<nat>) returns (ys: seq<nat>)
    ensures Sorted(ys) && multiset(ys) == multiset(xs) && |ys| == |xs|
  {
    ys := [];
    for i := 0 to |xs|
      invariant Sorted(ys) && multiset(ys) == multiset(xs[..i]) && |ys| == i
    {
      InsertBag(ys, xs[i]);
      InsertSorted(ys, xs[i]);
      assert xs[..i + 1] == xs[..i] + [xs[i]];
      ys := Insert(ys, xs[i]);
    }
    assert xs[..|xs|] == xs;
  }

  /** sort.Slice: the array ends up sorted, with the same numbers in it. */
  method SortSlice(a: array<nat>)
    modifies a
    ensures Sorted(a[..]) && multiset(a[..]) == multiset(old(a[..]))
  {
    var sorted := SortedCopy(a[..]);
    for i := 0 to a.Length
      invariant a[..i] == sorted[..i]
    {
      a[i] := sorted[i];
    }
    assert a[..] == a[..a.Length] == sorted[..a.Length] == sorted;
  }

  /** The text before the first dash, or all of it. */
  function Head(s: string): string {
    var parts := SplitFirst(s, '-');
    if parts.None? then s else parts.value.0
  }

  lemma HeadShow(r: Range)
    ensures Head(Show(r)) == Decimal(r.lo)
  {
    if r.lo == r.hi {
      NoSplit(Decimal(r.lo), '-');
    } else {
      SplitJoined(Decimal(r.lo), '-', Decimal(r.hi));
    }
  }

  /** Replacing the last range, or adding one, in the text. */
  lemma ShowAllNext(rs: seq<Range>, r: Range)
    requires rs != []
    ensures var front := ShowAll(rs)[..|rs| - 1];
            && ShowAll(rs) == front + [Show(rs[|rs| - 1])]
            && ShowAll(rs[..|rs| - 1] + [r]) == front + [Show(r)]
            && ShowAll(rs + [r]) == ShowAll(rs) + [Show(r)]
  {
    var front := rs[..|rs| - 1];
    assert (front + [r])[..|front|] == front;
    assert (rs + [r])[..|rs|] == rs;
  }

  /** How the text changes with the next number. */
  lemma TextNext(rs: seq<Range>, parts: seq<string>, s: string, y: nat)
    requires rs != [] && parts + [s] == ShowAll(rs)
    requires rs[|rs| - 1].lo <= rs[|rs| - 1].hi <= y
    ensures var last := rs[|rs| - 1];
            var next := ShowAll(WithNext(rs[..|rs| - 1], last, y));
            && (y == last.hi ==> next == parts + [s])
            && (y == last.hi + 1 ==> next == parts + [Head(s) + "-" + Decimal(y)])
            && (y > last.hi + 1 ==> next == parts + [s] + [Decimal(y)])
  {
    var front, last := rs[..|rs| - 1], rs[|rs| - 1];
    assert rs == front + [last];
    ShowAllNext(rs, Range(last.lo, y));
    ShowAllNext(rs, Range(y, y));
    HeadShow(last);
    var texts := ShowAll(rs);
    assert texts[..|rs| - 1] == parts && texts[|rs| - 1] == s;
  }

  lemma LastRange(xs: seq<nat>, n: nat)
    requires 0 < n <= |xs| && Sorted(xs)
    ensures var rs := RangesOf(xs, n); rs[|rs| - 1].lo <= rs[|rs| - 1].hi == xs[n - 1]
  {
    RangesDescribe(xs, n);
  }

  /** One turn of the loop: the number `y` after `prev`, with `s` the text of the range `prev` is in. */
  method Take(parts: seq<string>, s: string, prev: nat, y: nat, ghost rs: seq<Range>)
    returns (parts': seq<string>, s': string)
    requires rs != [] && parts + [s] == ShowAll(rs) && s != ""
    requires rs[|rs| - 1].lo <= rs[|rs| - 1].hi == prev <= y < UINT64
    ensures parts' + [s'] == ShowAll(WithNext(rs[..|rs| - 1], rs[|rs| - 1], y)) && s' != ""
  {
    TextNext(rs, parts, s, y);
    parts', s' := parts, s;
    if y == prev {
    } else if y == (prev + 1) % UINT64 {
      s' := Head(s) + "-" + Decimal(y);
    } else {
      parts' := parts + [s];
      s' := Decimal(y);
    }
  }

  method Compress(xs: seq<nat>) returns (parts: seq<string>)
    requires Sorted(xs) && forall i :: 0 <= i < |xs| ==> xs[i] < UINT64
    ensures parts == ShowAll(RangesOf(xs, |xs|))
  {
    parts := [];
    var s := "";
    ghost var rs: seq<Range> := [];
    for i := 0 to |xs|
      invariant rs == RangesOf(xs, i)
      invariant i == 0 ==> parts == [] && s == ""
      invariant i > 0 ==> s != "" && parts + [s] == ShowAll(rs)
    {
      if i == 0 {
        s := Decimal(xs[0]);
        rs := [Range(xs[0], xs[0])];
        assert ShowAll(rs) == ShowAll([]) + [s];
      } else {
        LastRange(xs, i);
        parts, s := Take(parts, s, xs[i - 1], xs[i], rs);
        rs := WithNext(rs[..|rs| - 1], rs[|rs| - 1], xs[i]);
      }
    }
    if s != "" {
      parts := parts + [s];
    }
  }

  /** The text lists, in order, the fewest ranges that cover exactly the numbers of the array;
      they can be read back from it. */
  method ArrayToString(a: array<nat>) returns (text: string)
    requires forall i :: 0 <= i < a.Length ==> a[i] < UINT64
    modifies a
    ensures Sorted(a[..]) && multiset(a[..]) == multiset(old(a[..]))
    ensures Read(text).Some? && Canonical(Read(text).value)
    ensures forall x: nat :: Covers(Read(text).value, x) <==> x in old(a[..])
    ensures text == Join(ShowAll(Read(text).value), ',')
  {
    ghost var before := a[..];
    SortSlice(a);
    SameMembers(before, a[..]);
    forall i | 0 <= i < a.Length ensures a[i] < UINT64 {
      assert a[..][i] in a[..];
    }
    var parts := Compress(a[..]);
    text := Join(parts, ',');
    ghost var rs := RangesOf(a[..], a.Length);
    ReadJoined(rs);
    RangesDescribe(a[..], a.Length);
    assert a[..][..a.Length] == a[..];
  }

  lemma SameMembers(xs: seq<nat>, ys: seq<nat>)
    requires multiset(xs) == multiset(ys)
    ensures forall x :: x in xs <==> x in ys
  {
    forall x ensures x in xs <==> x in ys {
      assert x in multiset(xs) <==> x in xs;
      assert x in multiset(ys) <==> x in ys;
    }
  }

  // ---------------------------------------------------------------------------
  // One text per set

  /** Canonical ranges that cover the same numbers are the same ranges. */
  lemma {:induction false} CanonicalUnique(rs: seq<Range>, qs: seq<Range>)
    requires Canonical(rs) && Canonical(qs)
    requires forall x: nat :: Covers(rs, x) <==> Covers(qs, x)
    ensures rs == qs
  {
    if rs == [] || qs == [] {
      CoversFirst(rs);
      CoversFirst(qs);
    } else {
      FirstLess(rs, qs);
      FirstLess(qs, rs);
      forall x: nat ensures Covers(rs[1..], x) <==> Covers(qs[1..], x) {
        CoversRest(rs, x);
        CoversRest(qs, x);
      }
      CanonicalUnique(rs[1..], qs[1..]);
      assert rs == [rs[0]] + rs[1..] && qs == [qs[0]] + qs[1..];
    }
  }

  lemma CoversFirst(rs: seq<Range>)
    requires Canonical(rs)
    ensures rs != [] ==> Covers(rs, rs[0].lo)
  {
  }

  lemma GapAfterFirst(rs: seq<Range>)
    requires Canonical(rs) && rs != []
    ensures !Covers(rs, rs[0].hi + 1)
  {
  }

  /** The first range of `rs` starts and ends no later than that of `qs`. */
  lemma FirstLess(rs: seq<Range>, qs: seq<Range>)
    requires Canonical(rs) && Canonical(qs) && rs != [] && qs != []
    requires forall x: nat :: Covers(rs, x) <==> Covers(qs, x)
    ensures rs[0].lo <= qs[0].lo && rs[0].hi <= qs[0].hi
  {
    CoversFirst(rs);
    CoversFirst(qs);
    var i :| 0 <= i < |rs| && rs[i].lo <= qs[0].lo <= rs[i].hi;
    var j :| 0 <= j < |qs| && qs[j].lo <= rs[0].lo <= qs[j].hi;
    GapAfterFirst(qs);
    assert Covers(rs, qs[0].hi + 1) <==> Covers(qs, qs[0].hi + 1);
    OutsideFirst(rs, qs[0].hi + 1);
  }

  lemma OutsideFirst(rs: seq<Range>, x: nat)
    requires rs != [] && !Covers(rs, x)
    ensures x < rs[0].lo || rs[0].hi < x
  {
  }

  lemma CoversRest(rs: seq<Range>, x: nat)
    requires Canonical(rs) && rs != []
    ensures Covers(rs[1..], x) <==> Covers(rs, x) && x > rs[0].hi
  {
    if Covers(rs[1..], x) {
      var i :| 0 <= i < |rs[1..]| && rs[1..][i].lo <= x <= rs[1..][i].hi;
      assert rs[i + 1] == rs[1..][i];
    }
    if Covers(rs, x) && x > rs[0].hi {
      var i :| 0 <= i < |rs| && rs[i].lo <= x <= rs[i].hi;
      assert rs[1..][i - 1] == rs[i];
    }
  }

  /** The text is a normal form: it depends only on which numbers are in the array. */
  lemma OneTextPerSet(rs: seq<Range>, qs: seq<Range>)
    requires Canonical(rs) && Canonical(qs)
    ensures Join(ShowAll(rs), ',') == Join(ShowAll(qs), ',') <==> forall x: nat :: Covers(rs, x) <==> Covers(qs, x)
  {
    ReadJoined(rs);
    ReadJoined(qs);
    if forall x: nat :: Covers(rs, x) <==> Covers(qs, x) {
      CanonicalUnique(rs, qs);
    }
  }
}
