// Integer arithmetic as Go does it: int64s that wrap around and division that truncates toward zero.
//
// Beside these, the few nonlinear facts the allocator needs, and sums over a list.  Dafny's own division
// rounds down and its integers are unbounded, so both are written out, and products are compared only
// through these lemmas.

module Arithmetic {
  const TWO63: int := 0x8000_0000_0000_0000
  const TWO64: int := 0x1_0000_0000_0000_0000

  function Min(a: int, b: int): int {
    if a < b then a else b
  }

  function Max(a: int, b: int): int {
    if a > b then a else b
  }

  /** The int64 that holds `x`. */
  function Wrap64(x: int): (w: int)
    ensures -TWO63 <= w < TWO63
    ensures -TWO63 <= x < TWO63 ==> w == x
    ensures TWO63 <= x < TWO64 + TWO63 ==> w == x - TWO64
  {
    (x + TWO63) % TWO64 - TWO63
  }

  predicate Int64(x: int) {
    -TWO63 <= x < TWO63
  }

  /** A running difference that wraps at every step is the wrapped difference. */
  lemma WrapMinus(a: int, b: int)
    ensures Wrap64(Wrap64(a) - b) == Wrap64(a - b)
  {
    var q := (a + TWO63) / TWO64;
    assert Wrap64(a) == a - q * TWO64;
    assert Wrap64(a) - b + TWO63 == a - b + TWO63 - q * TWO64;
    ModShift(a - b + TWO63, q);
  }

  lemma ModShift(x: int, q: int)
    ensures (x - q * TWO64) % TWO64 == x % TWO64
  {
  }

  /** Go's `/`: truncation toward zero. */
  function TruncDiv(a: int, b: int): int
    requires b > 0
  {
    if a >= 0 then a / b else -((-a) / b)
  }

  lemma MulMonotone(a: int, b: int, k: int)
    requires a <= b && k >= 0
    ensures a * k <= b * k && k * a <= k * b
  {
  }

  lemma MulCancel(a: int, b: int, k: int)
    requires k > 0 && k * a <= k * b
    ensures a <= b
  {
    if b < a { assert k * b + k <= k * a by { MulMonotone(b + 1, a, k); } }
  }

  lemma MulCancelStrict(a: int, b: int, k: int)
    requires k > 0 && k * a < k * b
    ensures a < b
  {
    if b <= a { MulMonotone(b, a, k); }
  }

  /** Floor division loses less than one unit. */
  lemma DivBounds(a: int, d: int)
    requires d > 0
    ensures d * (a / d) <= a < d * (a / d) + d
  {
  }

  lemma DivNonneg(a: int, d: int)
    requires d > 0 && a >= 0
    ensures a / d >= 0
  {
  }

  lemma MulNonneg(a: int, b: int)
    requires a >= 0 && b >= 0
    ensures a * b >= 0
  {
  }

  /** A share of `x` no larger than one keeps below `x`. */
  lemma ShareBelow(c: int, x: int, d: int)
    requires d > 0 && x >= 0 && 0 <= c <= d
    ensures 0 <= c * x / d <= x
  {
    MulNonneg(c, x);
    DivNonneg(c * x, d);
    DivBounds(c * x, d);
    MulMonotone(c, d, x);
    MulCancel(c * x / d, x, d);
  }

  /** A share of at least one keeps above. */
  lemma ShareAbove(c: int, x: int, d: int)
    requires d > 0 && x >= 0 && d <= c
    ensures x <= c * x / d
  {
    DivBounds(c * x, d);
    MulMonotone(d, c, x);
    var q := c * x / d;
    assert d * x < d * q + d;
    assert d * q + d == d * (q + 1);
    MulCancelStrict(x, q + 1, d);
  }

  /** Wrapping a product of nonnegative numbers only lowers it. */
  lemma WrapBelow(x: int)
    requires x >= 0
    ensures Wrap64(x) <= x
  {
  }

  lemma TruncBelow(w: int, x: int, r: int)
    requires r > 0 && w <= x && x >= 0
    ensures r * TruncDiv(w, r) <= x
  {
    if w >= 0 {
      DivBounds(w, r);
    } else {
      DivNonneg(-w, r);
      MulMonotone(TruncDiv(w, r), 0, r);
    }
  }

  lemma TruncAbove(w: int, r: int)
    requires r > 0 && w >= -TWO63
    ensures r * TruncDiv(w, r) >= -TWO63
  {
    if w >= 0 {
      DivNonneg(w, r);
      MulNonneg(r, w / r);
    } else {
      DivBounds(-w, r);
    }
  }

  /** When a truncated quotient reaches `q`. */
  lemma TruncReaches(w: int, r: int, q: int)
    requires r > 0 && q >= 0
    ensures TruncDiv(w, r) >= q <==> if q > 0 then w >= r * q else w > -r
  {
    if w >= 0 {
      DivBounds(w, r);
      DivNonneg(w, r);
      if w >= r * q {
        MulCancelStrict(q, w / r + 1, r);
      } else if w / r >= q {
        MulMonotone(q, w / r, r);
      }
    } else {
      DivBounds(-w, r);
      DivNonneg(-w, r);
      MulNonneg(r, q);
      if (-w) / r >= 1 { MulMonotone(1, (-w) / r, r); }
    }
  }

  /** The sum of `f` over a list. */
  function SumBy<T>(s: seq<T>, f: T -> int): int {
    if s == [] then 0 else SumBy(s[..|s| - 1], f) + f(s[|s| - 1])
  }

  lemma SumPair<T>(a: T, b: T, f: T -> int)
    ensures SumBy([a, b], f) == f(a) + f(b)
  {
    assert [a, b][..1] == [a] && [a][..0] == [];
    assert SumBy([a], f) == SumBy([a][..0], f) + f(a) == f(a);
  }

  lemma {:induction false} SumByConcat<T>(a: seq<T>, b: seq<T>, f: T -> int)
    ensures SumBy(a + b, f) == SumBy(a, f) + SumBy(b, f)
  {
    if b == [] {
      assert a + b == a;
    } else {
      assert (a + b)[..|a + b| - 1] == a + b[..|b| - 1];
      SumByConcat(a, b[..|b| - 1], f);
    }
  }

  /** Taking one element out of the middle. */
  lemma SumByWithout<T>(front: seq<T>, x: T, back: seq<T>, f: T -> int)
    ensures SumBy(front + [x] + back, f) == SumBy(front + back, f) + f(x)
  {
    SumByConcat(front, back, f);
    SumByConcat(front + [x], back, f);
    SumByConcat(front, [x], f);
  }

  lemma WithoutOne<T>(init: seq<T>, x: T, front: seq<T>, back: seq<T>)
    requires multiset(init + [x]) == multiset(front + [x] + back)
    ensures multiset(init) == multiset(front + back)
  {
    assert multiset(init + [x]) == multiset(init) + multiset{x};
    assert multiset(front + [x] + back) == multiset(front + back) + multiset{x};
    assert multiset(init) == multiset(init + [x]) - multiset{x};
    assert multiset(front + back) == multiset(front + [x] + back) - multiset{x};
  }

  /** A sum does not depend on the order. */
  lemma {:induction false} SumByPermuted<T>(a: seq<T>, b: seq<T>, f: T -> int)
    requires multiset(a) == multiset(b)
    ensures SumBy(a, f) == SumBy(b, f)
    decreases |a|
  {
    if a == [] {
      assert |b| == |multiset(b)| == 0;
    } else {
      var init, last := a[..|a| - 1], a[|a| - 1];
      assert a == init + [last];
      assert last in multiset(b);
      var i :| 0 <= i < |b| && b[i] == last;
      var front, back := b[..i], b[i + 1..];
      assert b == front + [last] + back;
      WithoutOne(init, last, front, back);
      SumByPermuted(init, front + back, f);
      SumByWithout(front, last, back, f);
    }
  }

  lemma {:induction false} SumByEqual<T>(s: seq<T>, f: T -> int, g: T -> int)
    requires forall x <- s :: f(x) == g(x)
    ensures SumBy(s, f) == SumBy(s, g)
  {
    if s != [] { SumByEqual(s[..|s| - 1], f, g); }
  }
}
