/** Types, small functions and facts shared by every module. */
module Common {

  datatype Option<+T> = None | Some(value: T)

  datatype Result<+T> = Ok(value: T) | Err

  const UINT64 := 0x1_0000_0000_0000_0000

  function One(b: bool): nat {
    if b then 1 else 0
  }

  function Flatten<T>(xss: seq<seq<T>>): seq<T> {
    if xss == [] then [] else Flatten(xss[..|xss| - 1]) + xss[|xss| - 1]
  }

  lemma FlattenSnoc<T>(xss: seq<seq<T>>, xs: seq<T>)
    ensures Flatten(xss + [xs]) == Flatten(xss) + xs
  {
    assert (xss + [xs])[..|xss|] == xss;
  }

  lemma {:induction false} SubsetCount<T>(a: set<T>, b: set<T>)
    requires a <= b
    ensures |a| <= |b|
  {
    if a != {} {
      var x :| x in a;
      SubsetCount(a - {x}, b - {x});
    }
  }

  /** Some element of a set: the next key of a Go map iteration. */
  method Pick<T>(s: set<T>) returns (x: T)
    requires s != {}
    ensures x in s
  {
    x :| x in s;
  }

  lemma MulMonotone(x: int, y: int, n: int)
    requires x <= y && 0 <= n
    ensures x * n <= y * n
  {
    assert (y - x) * n >= 0;
    assert y * n == x * n + (y - x) * n;
  }

  /** The quotient is pinned by the interval it stands for. */
  lemma QuotientIs(a: int, n: int, q: int)
    requires 0 < n && q * n <= a < q * n + n
    ensures a / n == q
  {
    var d := a / n;
    assert d * n <= a < d * n + n;
    assert (d + 1) * n == d * n + n;
    assert (q + 1) * n == q * n + n;
    if d < q {
      MulMonotone(d + 1, q, n);
    } else if q < d {
      MulMonotone(q + 1, d, n);
    }
  }
}
