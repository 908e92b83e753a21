/** The verdict rule (resolve_outcome). Returns are in units of 0.0001 %, thresholds in units of 0.01 %. */
module Verdict {
  import opened Arithmetic
  import opened Domain

  /** (resolution - reference) / reference * 100 quantised to four places. */
  function ReturnUnits(reference: int, resolution: int): int
    requires reference > 0
  {
    HalfAway((resolution - reference) * 1_000_000, reference)
  }

  /** Which outcome a return of n / d units means under the two thresholds; d = 1 for the quantised return. */
  function Judge(n: int, d: int, buyPct: int, sellPct: int): Outcome {
    if n >= Threshold(buyPct, d) then Buy else if n <= Threshold(sellPct, d) then Sell else Hold
  }

  /** A threshold of pct hundredths of a percent, d-fold. */
  function Threshold(pct: int, d: int): int { 100 * pct * d }

  function Resolve(reference: int, resolution: int, buyPct: int, sellPct: int): Result<(Outcome, int)> {
    if reference <= 0 then Err(BadValue)
    else
      var r := ReturnUnits(reference, resolution);
      if r >= 100 * buyPct then Ok((Buy, r))
      else if r <= 100 * sellPct then Ok((Sell, r))
      else Ok((Hold, r))
  }

  function Rank(o: Outcome): int {
    match o
    case Sell => 0
    case Hold => 1
    case Buy => 2
  }

  /** Raising the resolution price never lowers the verdict, whatever the thresholds, crossed or not. */
  lemma {:induction false} VerdictMonotone(reference: int, low: int, high: int, buyPct: int, sellPct: int)
    requires reference > 0 && low <= high
    ensures Rank(Resolve(reference, low, buyPct, sellPct).value.0) <= Rank(Resolve(reference, high, buyPct, sellPct).value.0)
  {
    HalfAwayMonotone((low - reference) * 1_000_000, (high - reference) * 1_000_000, reference);
  }

  /** Exactly when the rounded return reaches a threshold of t units: halves count for t > 0 only. */
  lemma {:induction false} ReachesIff(n: int, d: int, t: int)
    requires d > 0
    ensures HalfAway(n, d) >= t <==> if t > 0 then 2 * n + d >= 2 * (t * d) else 2 * n + d > 2 * (t * d)
  {
    if n >= 0 {
      FloorReaches(2 * n + d, t, 2 * d);
      if t <= 0 { LeqScaled(t, 0, d); }
    } else {
      FloorReaches(d - 2 * n, -t + 1, 2 * d);
      if t > 0 { LeqScaled(1, t, d); }
    }
    DoubleScaled(t, d);
  }

  lemma {:induction false} FloorReaches(m: int, k: int, e: int)
    requires e > 0
    ensures m / e >= k <==> m >= k * e
  {
    if m >= k * e {
      FloorAtLeast(m, k, e);
    } else {
      FloorBelow(m, k, e);
    }
  }

  lemma {:induction false} DoubleScaled(t: int, d: int)
    ensures t * (2 * d) == 2 * (t * d)
    ensures (-t + 1) * (2 * d) == 2 * d - 2 * (t * d)
  {
  }

  /** Exactly when the rounded return is at most a threshold of t units: halves count for t < 0 only. */
  lemma {:induction false} StaysBelowIff(n: int, d: int, t: int)
    requires d > 0
    ensures HalfAway(n, d) <= t <==> if t < 0 then 2 * n - d <= 2 * (t * d) else 2 * n - d < 2 * (t * d)
  {
    ReachesIff(n, d, t + 1);
    assert (t + 1) * d == t * d + d;
  }

  /**
   * The rounded verdict equals the verdict on the exact return whenever the exact return is more than half a
   * unit (0.00005 %) away from both thresholds.
   */
  lemma {:induction false} AgreesAwayFromThresholds(reference: int, resolution: int, buyPct: int, sellPct: int)
    requires reference > 0
    requires var n := (resolution - reference) * 1_000_000;
      && (2 * n - 2 * Threshold(buyPct, reference) > reference || 2 * Threshold(buyPct, reference) - 2 * n > reference)
      && (2 * n - 2 * Threshold(sellPct, reference) > reference || 2 * Threshold(sellPct, reference) - 2 * n > reference)
    ensures Resolve(reference, resolution, buyPct, sellPct).value.0
         == Judge((resolution - reference) * 1_000_000, reference, buyPct, sellPct)
  {
    var n := (resolution - reference) * 1_000_000;
    ReachesIff(n, reference, 100 * buyPct);
    StaysBelowIff(n, reference, 100 * sellPct);
  }

  /**
   * The verdict in plain numbers. The return in percent is 100 * (resolution - reference) / reference; it is BUY when,
   * rounded half up at four places, it reaches buyPct hundredths, else SELL when it is at most sellPct hundredths, else
   * HOLD. A reference price that is not positive is the only error.
   */
  lemma {:induction false} VerdictIs(reference: int, resolution: int, buyPct: int, sellPct: int)
    ensures Resolve(reference, resolution, buyPct, sellPct).Ok? <==> reference > 0
    ensures reference > 0 ==>
      var units := HalfUp((resolution - reference) as real * 1000000.0 / reference as real);
      && Resolve(reference, resolution, buyPct, sellPct).value.1 == units
      && (Resolve(reference, resolution, buyPct, sellPct).value.0 == Buy <==> units >= 100 * buyPct)
      && (Resolve(reference, resolution, buyPct, sellPct).value.0 == Sell <==> units < 100 * buyPct && units <= 100 * sellPct)
  {
    if reference > 0 {
      var n := (resolution - reference) * 1_000_000;
      HalfAwayIsHalfUp(n, reference);
      assert n as real == (resolution - reference) as real * 1000000.0;
    }
  }

  /** The half-open strip below the BUY threshold in which rounding lifts a return over it. */
  predicate LiftedToBuy(n: int, d: int, buyPct: int) {
    n < Threshold(buyPct, d) && if buyPct > 0 then 2 * n + d >= 2 * Threshold(buyPct, d) else 2 * n + d > 2 * Threshold(buyPct, d)
  }

  predicate DroppedToSell(n: int, d: int, sellPct: int) {
    n > Threshold(sellPct, d) && if sellPct < 0 then 2 * n - d <= 2 * Threshold(sellPct, d) else 2 * n - d < 2 * Threshold(sellPct, d)
  }

  /**
   * Rounding changes the verdict exactly inside the two strips; with crossed thresholds, where BUY wins every overlap
   * and nothing is left to HOLD, only the strip below the BUY threshold matters.
   */
  lemma {:induction false} RoundingChangesVerdictIff(reference: int, resolution: int, buyPct: int, sellPct: int)
    requires reference > 0
    ensures var n := (resolution - reference) * 1_000_000;
      Resolve(reference, resolution, buyPct, sellPct).value.0 != Judge(n, reference, buyPct, sellPct)
      <==> LiftedToBuy(n, reference, buyPct) || (sellPct < buyPct && DroppedToSell(n, reference, sellPct))
  {
    var n := (resolution - reference) * 1_000_000;
    ReachesIff(n, reference, 100 * buyPct);
    StaysBelowIff(n, reference, 100 * sellPct);
    if sellPct < buyPct {
      LeqScaled(100 * sellPct + 100, 100 * buyPct, reference);
    } else {
      ReachesIff(n, reference, 100 * sellPct + 1);
      LeqScaled(100 * buyPct, 100 * sellPct, reference);
    }
  }

  /** The integer form computes Decimal's ROUND_HALF_UP of the quotient. */
  lemma {:induction false} HalfAwayIsHalfUp(n: int, d: int)
    requires d > 0
    ensures HalfAway(n, d) == HalfUp(n as real / d as real)
  {
    var x, e := n as real / d as real, (2 * d) as real;
    QuotientBack(n, d);
    if n >= 0 {
      assert (x + 0.5) * e == (2 * n + d) as real;
      FloorUnique(x + 0.5, 2 * n + d, 2 * d);
    } else {
      assert (0.5 - x) * e == (d - 2 * n) as real;
      FloorUnique(0.5 - x, d - 2 * n, 2 * d);
    }
  }

  lemma {:induction false} QuotientBack(n: int, d: int)
    requires d > 0
    ensures (n as real / d as real) * d as real == n as real
    ensures n >= 0 <==> n as real / d as real >= 0.0
  {
    var x := n as real / d as real;
    assert x * d as real == n as real;
    if x >= 0.0 {
      ProductPositive(x, d as real);
    } else {
      ProductPositive(-x, d as real);
      assert -x * d as real == -(x * d as real);
    }
  }
}
