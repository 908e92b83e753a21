/** Cancellation and floor facts about integer products, proved once and used by name. */
module Arithmetic {
  function Scaled(x: int, y: int): int { x * y }

  function Times(x: real, y: real): real { x * y }

  lemma {:induction false} NonNegative(a: int, b: int)
    requires a >= 0 && b >= 0
    ensures a * b >= 0
  {
  }

  lemma {:induction false} Distribute(x: int, y: int, w: int)
    ensures (y - x - 1) * w == y * w - x * w - w
  {
  }

  lemma {:induction false} LessScaled(x: int, y: int, w: int)
    requires x < y && w > 0
    ensures x * w < y * w
  {
    NonNegative(y - x - 1, w);
    Distribute(x, y, w);
  }

  lemma {:induction false} LeqScaled(x: int, y: int, w: int)
    requires x <= y && w >= 0
    ensures x * w <= y * w
  {
    NonNegative(y - x, w);
  }

  lemma {:induction false} Cancel(x: int, y: int, w: int)
    requires w > 0
    ensures x * w <= y * w ==> x <= y
  {
    if x > y {
      LessScaled(y, x, w);
    }
  }

  lemma {:induction false} CancelLess(x: int, y: int, w: int)
    requires w > 0
    ensures x * w < y * w ==> x < y
  {
    if x > y {
      LessScaled(y, x, w);
    }
  }

  lemma {:induction false} FloorAtLeast(n: int, k: int, w: int)
    requires w > 0 && n >= k * w
    ensures n / w >= k
  {
    var q := n / w;
    assert n < (q + 1) * w;
    CancelLess(k, q + 1, w);
  }

  lemma {:induction false} FloorBelow(n: int, k: int, w: int)
    requires w > 0 && n < k * w
    ensures n / w < k
  {
    var q := n / w;
    assert q * w <= n;
    CancelLess(q, k, w);
  }

  lemma {:induction false} FloorIs(n: int, k: int, w: int)
    requires w > 0 && k * w <= n < (k + 1) * w
    ensures n / w == k
  {
    FloorAtLeast(n, k, w);
    FloorBelow(n, k + 1, w);
  }

  lemma {:induction false} ProductPositive(a: real, b: real)
    requires a >= 0.0 && b >= 0.0
    ensures a * b >= 0.0
    ensures a > 0.0 && b > 0.0 ==> a * b > 0.0
  {
  }

  /** n / d rounded half away from zero. */
  function HalfAway(n: int, d: int): int
    requires d > 0
  {
    if n >= 0 then (2 * n + d) / (2 * d) else -((d - 2 * n) / (2 * d))
  }

  lemma {:induction false} HalfAwayMonotone(n: int, m: int, d: int)
    requires d > 0 && n <= m
    ensures HalfAway(n, d) <= HalfAway(m, d)
  {
    if n >= 0 {
      FloorAtLeast(2 * m + d, HalfAway(n, d), 2 * d);
    } else if m < 0 {
      FloorAtLeast(d - 2 * n, -HalfAway(m, d), 2 * d);
    } else {
      FloorAtLeast(d - 2 * n, 0, 2 * d);
      FloorAtLeast(2 * m + d, 0, 2 * d);
    }
  }

  lemma {:induction false} TimesAdds(a: real, b: real, w: real)
    ensures Times(a + b, w) == Times(a, w) + Times(b, w)
  {
  }

  lemma {:induction false} TimesPositive(a: real, b: real)
    requires a > 0.0 && b > 0.0
    ensures Times(a, b) > 0.0
  {
    ProductPositive(a, b);
  }

  lemma {:induction false} CancelReal(x: real, y: real, w: real)
    requires w > 0.0
    ensures Times(x, w) < Times(y, w) ==> x < y
    ensures Times(x, w) <= Times(y, w) ==> x <= y
  {
    hide Times;
    if x > y {
      TimesPositive(x - y, w);
      TimesAdds(y, x - y, w);
      assert y + (x - y) == x;
    }
  }

  /** Whole multiples of w around n, as reals. */
  lemma {:induction false} Multiples(k: int, w: int)
    ensures Times(k as real, w as real) == (k * w) as real
    ensures Times((k + 1) as real, w as real) == (k * w) as real + w as real
    ensures Times((k - 1) as real, w as real) == (k * w) as real - w as real
  {
    assert (k + 1) * w == k * w + w && (k - 1) * w == k * w - w;
    MultipleReal(k, w);
    MultipleReal(k + 1, w);
    MultipleReal(k - 1, w);
  }

  lemma {:induction false} MultipleReal(k: int, w: int)
    ensures k as real * w as real == (k * w) as real
  {
  }

  lemma {:induction false} FloorBetween(x: real, k: int, w: real)
    requires w > 0.0 && Times(k as real, w) <= Times(x, w) < Times((k + 1) as real, w)
    ensures x.Floor == k
  {
    hide Times;
    CancelReal(k as real, x, w);
    CancelReal(x, (k + 1) as real, w);
  }

  lemma {:induction false} FloorUnique(x: real, n: int, w: int)
    requires w > 0 && Times(x, w as real) == n as real
    ensures x.Floor == n / w
  {
    var k := n / w;
    assert k * w <= n < k * w + w;
    Multiples(k, w);
    FloorBetween(x, k, w as real);
  }
}
