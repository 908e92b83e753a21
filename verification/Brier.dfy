/** The Brier score of a member's allocation (brier_score and _member_allocation). */
module Brier {
  import opened Sums
  import opened Arithmetic
  import opened Domain
  import opened Parimutuel

  datatype Forecast = Forecast(buy: real, sell: real, hold: real) {
    function At(o: Outcome): real {
      match o
      case Buy => buy
      case Sell => sell
      case Hold => hold
    }

    ghost predicate IsDistribution() {
      buy >= 0.0 && sell >= 0.0 && hold >= 0.0 && buy + sell + hold == 1.0
    }
  }

  function Square(x: real): real { x * x }

  function Indicator(o: Outcome, w: Outcome): real { if o == w then 1.0 else 0.0 }

  function Miss(p: Forecast, o: Outcome, w: Outcome): real { Square(p.At(o) - Indicator(o, w)) }

  /** The squared misses of the first n outcomes. */
  function Misses(p: Forecast, w: Outcome, n: nat): real
    requires n <= |ALL_OUTCOMES|
  {
    if n == 0 then 0.0 else Misses(p, w, n - 1) + Miss(p, ALL_OUTCOMES[n - 1], w)
  }

  /** The score before it is quantised to six places. */
  function RawScore(p: Forecast, w: Outcome): real { Misses(p, w, |ALL_OUTCOMES|) }

  /** In units of 0.000001. */
  function Score(p: Forecast, w: Outcome): int { HalfUp(RawScore(p, w) * 1000000.0) }

  method BrierScore(p: Forecast, w: Outcome) returns (score: int)
    ensures score == Score(p, w)
  {
    var total := 0.0;
    for k := 0 to |ALL_OUTCOMES|
      invariant total == Misses(p, w, k)
    {
      total := total + Miss(p, ALL_OUTCOMES[k], w);
    }
    return HalfUp(total * 1000000.0);
  }

  lemma {:induction false} ThreeMisses(p: Forecast, w: Outcome)
    ensures RawScore(p, w) == Miss(p, Buy, w) + Miss(p, Sell, w) + Miss(p, Hold, w)
  {
    assert Misses(p, w, 1) == Misses(p, w, 0) + Miss(p, Buy, w);
    assert Misses(p, w, 2) == Misses(p, w, 1) + Miss(p, Sell, w);
    assert Misses(p, w, 3) == Misses(p, w, 2) + Miss(p, Hold, w);
  }

  lemma {:induction false} SquarePositive(x: real)
    requires x > 0.0
    ensures Square(x) > 0.0
  {
    calc {
      Square(x);
      x * x;
    > { ProductPositive(x, x); }
      0.0;
    }
  }

  lemma {:induction false} SquareEven(x: real)
    ensures Square(x) == Square(-x)
  {
  }

  lemma {:induction false} SquareZero(x: real)
    ensures Square(x) >= 0.0
    ensures Square(x) == 0.0 <==> x == 0.0
  {
    if x > 0.0 {
      SquarePositive(x);
    } else if x < 0.0 {
      SquarePositive(-x);
      SquareEven(x);
    }
  }

  lemma {:induction false} SquareOfPart(x: real)
    requires 0.0 <= x <= 1.0
    ensures 0.0 <= Square(x) <= x
  {
    ProductPositive(x, 1.0 - x);
    assert x * (1.0 - x) == x - Square(x);
    SquareZero(x);
  }

  lemma {:induction false} SquareOfMiss(x: real)
    requires 0.0 <= x <= 1.0
    ensures 0.0 <= Square(x - 1.0) <= 1.0 - x
  {
    SquareOfPart(1.0 - x);
    SquareEven(x - 1.0);
    assert -(x - 1.0) == 1.0 - x;
  }

  /** The score of a distribution is between 0 and 2, and 0 exactly on full certainty in the winner. */
  lemma {:induction false} ScoreRange(p: Forecast, w: Outcome)
    requires p.IsDistribution()
    ensures 0.0 <= RawScore(p, w) <= 2.0
    ensures RawScore(p, w) == 0.0 <==> p.At(w) == 1.0
    ensures 0 <= Score(p, w) <= 2_000_000
  {
    hide Square, Miss, Misses;
    var raw := RawScore(p, w);
    MissOnly(p, w);
    match w {
      case Buy => TermRange(p.buy, p.sell, p.hold);
      case Sell => TermRange(p.sell, p.buy, p.hold);
      case Hold => TermRange(p.hold, p.buy, p.sell);
    }
    HalfUpBounds(raw * 1000000.0, 2_000_000);
  }

  lemma {:induction false} HalfUpBounds(x: real, n: int)
    requires 0.0 <= x <= n as real
    ensures 0 <= HalfUp(x) <= n
  {
  }

  lemma {:induction false} MissOnly(p: Forecast, w: Outcome)
    ensures RawScore(p, w) == match w
      case Buy => Square(p.buy - 1.0) + Square(p.sell) + Square(p.hold)
      case Sell => Square(p.sell - 1.0) + Square(p.buy) + Square(p.hold)
      case Hold => Square(p.hold - 1.0) + Square(p.buy) + Square(p.sell)
  {
    ThreeMisses(p, w);
    assert p.buy - 0.0 == p.buy && p.sell - 0.0 == p.sell && p.hold - 0.0 == p.hold;
  }

  /** The score of probability x on the winner and y, z on the others. */
  lemma {:induction false} TermRange(x: real, y: real, z: real)
    requires x >= 0.0 && y >= 0.0 && z >= 0.0 && x + y + z == 1.0
    ensures 0.0 <= Square(x - 1.0) + Square(y) + Square(z) <= 2.0
    ensures Square(x - 1.0) + Square(y) + Square(z) == 0.0 <==> x == 1.0
  {
    hide Square;
    SquareOfMiss(x);
    SquareOfPart(y);
    SquareOfPart(z);
    SquareZero(x - 1.0);
    SquareZero(y);
    SquareZero(z);
  }

  /** The published score is the sum of squared misses to the nearest millionth, halves up. */
  lemma {:induction false} ScoreIsRounded(p: Forecast, w: Outcome)
    ensures RawScore(p, w) == (p.buy - if w == Buy then 1.0 else 0.0) * (p.buy - if w == Buy then 1.0 else 0.0)
      + (p.sell - if w == Sell then 1.0 else 0.0) * (p.sell - if w == Sell then 1.0 else 0.0)
      + (p.hold - if w == Hold then 1.0 else 0.0) * (p.hold - if w == Hold then 1.0 else 0.0)
    ensures -0.5 <= Score(p, w) as real - RawScore(p, w) * 1000000.0 <= 0.5
    ensures RawScore(p, w) >= 0.0 ==> Score(p, w) as real - RawScore(p, w) * 1000000.0 > -0.5
  {
    ThreeMisses(p, w);
  }

  /** The score to expect from forecast p when outcomes follow q. */
  function Expected(q: Forecast, p: Forecast): real {
    q.buy * RawScore(p, Buy) + q.sell * RawScore(p, Sell) + q.hold * RawScore(p, Hold)
  }

  function Distance(p: Forecast, q: Forecast): real {
    Square(p.buy - q.buy) + Square(p.sell - q.sell) + Square(p.hold - q.hold)
  }

  /** What one outcome of true probability q contributes when it is forecast with x. */
  function Term(q: real, x: real): real { q * Square(x - 1.0) + (1.0 - q) * Square(x) }

  function Variance(q: real): real { q * (1.0 - q) }

  lemma {:induction false} TermSplit(q: real, x: real)
    ensures Term(q, x) == Square(x - q) + Variance(q)
  {
  }

  lemma {:induction false} Regroup(a: real, b: real, c: real, x1: real, x0: real, y1: real, y0: real, z1: real, z0: real)
    requires a + b + c == 1.0
    ensures a * (x1 + y0 + z0) + b * (x0 + y1 + z0) + c * (x0 + y0 + z1)
      == (a * x1 + (1.0 - a) * x0) + (b * y1 + (1.0 - b) * y0) + (c * z1 + (1.0 - c) * z0)
  {
    assert 1.0 - a == b + c && 1.0 - b == a + c && 1.0 - c == a + b;
    assert (b + c) * x0 == b * x0 + c * x0;
    assert (a + c) * y0 == a * y0 + c * y0;
    assert (a + b) * z0 == a * z0 + b * z0;
  }

  lemma {:induction false} ExpectedTerms(q: Forecast, p: Forecast)
    requires q.IsDistribution()
    ensures Expected(q, p) == Term(q.buy, p.buy) + Term(q.sell, p.sell) + Term(q.hold, p.hold)
  {
    hide Square, RawScore;
    MissOnly(p, Buy);
    MissOnly(p, Sell);
    MissOnly(p, Hold);
    Regroup(q.buy, q.sell, q.hold, Square(p.buy - 1.0), Square(p.buy), Square(p.sell - 1.0), Square(p.sell),
            Square(p.hold - 1.0), Square(p.hold));
  }

  lemma {:induction false} ExpectedSplit(q: Forecast, p: Forecast)
    requires q.IsDistribution()
    ensures Expected(q, p) == Distance(p, q) + Variance(q.buy) + Variance(q.sell) + Variance(q.hold)
  {
    hide Square, Expected, Term, Variance;
    ExpectedTerms(q, p);
    TermSplit(q.buy, p.buy);
    TermSplit(q.sell, p.sell);
    TermSplit(q.hold, p.hold);
  }

  /**
   * The rule is strictly proper: whatever the true distribution q, misreporting p costs exactly the sum of squared
   * differences, so reporting q is the unique minimiser.
   */
  lemma {:induction false} StrictlyProper(q: Forecast, p: Forecast)
    requires q.IsDistribution()
    ensures Expected(q, p) - Expected(q, q) == Distance(p, q)
    ensures Distance(p, q) >= 0.0
    ensures Expected(q, p) <= Expected(q, q) <==> p == q
  {
    hide Square, Miss, Misses, Expected, Variance;
    ExpectedSplit(q, p);
    ExpectedSplit(q, q);
    SquareZero(p.buy - q.buy);
    SquareZero(p.sell - q.sell);
    SquareZero(p.hold - q.hold);
    SquareZero(0.0);
  }

  // ------------------------------------------------------------------ allocations as forecasts

  function TotalStake(bets: seq<Stake>): int { Sum(StakeAmount(), bets) }

  function On(o: Outcome): Stake -> int { (s: Stake) => if s.outcome == o then s.amount else 0 }

  function Portion(x: int, total: int): real
    requires total > 0
  {
    x as real / total as real
  }

  /** A member's stakes normalised to a distribution; all zero when nothing is staked. */
  function Allocation(bets: seq<Stake>): Forecast {
    var total := TotalStake(bets);
    if total <= 0 then Forecast(0.0, 0.0, 0.0)
    else Forecast(Portion(Sum(On(Buy), bets), total), Portion(Sum(On(Sell), bets), total), Portion(Sum(On(Hold), bets), total))
  }

  method MemberAllocation(bets: seq<Stake>) returns (p: Forecast)
    ensures p == Allocation(bets)
  {
    var total := TotalStake(bets);
    p := Forecast(0.0, 0.0, 0.0);
    if total <= 0 {
      return;
    }
    ZeroPortion(total);
    for i := 0 to |bets|
      invariant p == Forecast(Portion(Sum(On(Buy), bets[..i]), total), Portion(Sum(On(Sell), bets[..i]), total),
                              Portion(Sum(On(Hold), bets[..i]), total))
    {
      var b := bets[i];
      assert bets[..i + 1] == bets[..i] + [b];
      SumSnoc(On(Buy), bets[..i], b);
      SumSnoc(On(Sell), bets[..i], b);
      SumSnoc(On(Hold), bets[..i], b);
      PortionAdds(Sum(On(b.outcome), bets[..i]), b.amount, total);
      var share := Portion(b.amount, total);
      match b.outcome {
        case Buy => p := p.(buy := p.buy + share);
        case Sell => p := p.(sell := p.sell + share);
        case Hold => p := p.(hold := p.hold + share);
      }
    }
    assert bets[..|bets|] == bets;
  }

  lemma {:induction false} ZeroPortion(total: int)
    requires total > 0
    ensures Portion(0, total) == 0.0
    ensures Portion(total, total) == 1.0
  {
  }

  lemma {:induction false} PortionAdds(x: int, y: int, total: int)
    requires total > 0
    ensures Portion(x + y, total) == Portion(x, total) + Portion(y, total)
  {
  }

  lemma {:induction false} PortionNonNegative(x: int, total: int)
    requires total > 0 && x >= 0
    ensures Portion(x, total) >= 0.0
  {
  }

  /** Positive stakes make a distribution, so the laws above apply to every participating member. */
  lemma {:induction false} AllocationIsDistribution(bets: seq<Stake>)
    requires bets != [] && forall s :: s in bets ==> s.amount > 0
    ensures Allocation(bets).IsDistribution()
  {
    var total := TotalStake(bets);
    SumNonNegative(StakeAmount(), bets);
    assert bets[0] in bets;
    var b, s, h := Sum(On(Buy), bets), Sum(On(Sell), bets), Sum(On(Hold), bets);
    SumAdd(On(Buy), On(Sell), NotHold(), bets);
    SumAdd(NotHold(), On(Hold), StakeAmount(), bets);
    SumNonNegative(On(Buy), bets);
    SumNonNegative(On(Sell), bets);
    SumNonNegative(On(Hold), bets);
    PortionNonNegative(b, total);
    PortionNonNegative(s, total);
    PortionNonNegative(h, total);
    PortionAdds(b, s, total);
    PortionAdds(b + s, h, total);
    ZeroPortion(total);
  }

  function NotHold(): Stake -> int { (s: Stake) => if s.outcome != Hold then s.amount else 0 }
}
