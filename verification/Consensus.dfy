/** Consensus probabilities read off the stakes (consensus.py). Probabilities are in units of 0.0001. */
module Consensus {
  import opened Sums
  import opened Arithmetic
  import opened Domain
  import opened Parimutuel
  import SettlementLaws

  const UNIT: int := 10_000

  /** One number per outcome. */
  datatype Spread = Spread(buy: int, sell: int, hold: int) {
    function At(o: Outcome): int {
      match o
      case Buy => buy
      case Sell => sell
      case Hold => hold
    }

    function Plus(o: Outcome, x: int): Spread {
      match o
      case Buy => Spread(buy + x, sell, hold)
      case Sell => Spread(buy, sell + x, hold)
      case Hold => Spread(buy, sell, hold + x)
    }

    function Sum(): int { buy + sell + hold }

    /** The first outcome with the largest entry, in the order of ALL_OUTCOMES. */
    function Leader(): (o: Outcome)
      ensures At(o) >= buy && At(o) >= sell && At(o) >= hold
    {
      FirstLeading(buy >= sell && buy >= hold, sell >= hold)
    }
  }

  datatype Consensus = Consensus(staked: Spread, total: int, participants: nat, probability: Spread) {
    function LeadingOutcome(): Option<Outcome> {
      if total <= 0 then None else Some(staked.Leader())
    }

    function LeadingProbability(): int {
      match LeadingOutcome()
      case None => 0
      case Some(o) => probability.At(o)
    }
  }

  function StakedOn(stakes: seq<Stake>): Spread {
    Spread(Sum(WinningAmount(Buy), stakes), Sum(WinningAmount(Sell), stakes), Sum(WinningAmount(Hold), stakes))
  }

  function Members(stakes: seq<Stake>): set<nat> {
    set s | s in stakes && s.amount > 0 :: s.member
  }

  function Quantised(staked: Spread): Spread
    requires staked.Sum() > 0
  {
    var t := staked.Sum();
    Spread(HalfAway(UNIT * staked.buy, t), HalfAway(UNIT * staked.sell, t), HalfAway(UNIT * staked.hold, t))
  }

  /** The quantised shares with the rounding drift absorbed by the leader. */
  function Published(staked: Spread): Spread {
    if staked.Sum() > 0 then
      var p := Quantised(staked);
      p.Plus(staked.Leader(), UNIT - p.Sum())
    else Spread(0, 0, 0)
  }

  function Compute(stakes: seq<Stake>): Consensus {
    var staked := StakedOn(stakes);
    Consensus(staked, staked.Sum(), |Members(stakes)|, Published(staked))
  }

  method ComputeConsensus(stakes: seq<Stake>) returns (c: Consensus)
    ensures c == Compute(stakes)
  {
    var staked := Spread(0, 0, 0);
    var members: set<nat> := {};
    for i := 0 to |stakes|
      invariant staked == StakedOn(stakes[..i])
      invariant members == Members(stakes[..i])
    {
      var s := stakes[i];
      assert stakes[..i + 1] == stakes[..i] + [s];
      StakedOnSnoc(stakes[..i], s);
      if s.amount <= 0 {
        assert Members(stakes[..i + 1]) == Members(stakes[..i]);
        continue;
      }
      staked := staked.Plus(s.outcome, s.amount);
      members := members + {s.member};
    }
    assert stakes[..|stakes|] == stakes;
    var total := staked.Sum();
    var probability := Spread(0, 0, 0);
    if total > 0 {
      for k := 0 to |ALL_OUTCOMES|
        invariant probability == Spread(
          if k > 0 then HalfAway(UNIT * staked.buy, total) else 0,
          if k > 1 then HalfAway(UNIT * staked.sell, total) else 0,
          if k > 2 then HalfAway(UNIT * staked.hold, total) else 0)
      {
        var o := ALL_OUTCOMES[k];
        probability := probability.Plus(o, HalfAway(UNIT * staked.At(o), total));
      }
      var drift := UNIT - probability.Sum();
      if drift != 0 {
        probability := probability.Plus(staked.Leader(), drift);
      }
    }
    return Consensus(staked, total, |members|, probability);
  }

  lemma {:induction false} StakedOnSnoc(stakes: seq<Stake>, s: Stake)
    ensures StakedOn(stakes + [s]) == if s.amount > 0 then StakedOn(stakes).Plus(s.outcome, s.amount) else StakedOn(stakes)
  {
    SumSnoc(WinningAmount(Buy), stakes, s);
    SumSnoc(WinningAmount(Sell), stakes, s);
    SumSnoc(WinningAmount(Hold), stakes, s);
  }

  // ------------------------------------------------------------------ meaning

  /** Outcome totals are nonnegative and add up to the pool that settlement pays out of. */
  lemma {:induction false} StakedIsPool(stakes: seq<Stake>)
    ensures StakedOn(stakes).Sum() == Pool(stakes)
    ensures forall o :: StakedOn(stakes).At(o) == WinningPool(stakes, o) >= 0
  {
    SumAdd(WinningAmount(Buy), WinningAmount(Sell), NotHeld(), stakes);
    SumAdd(NotHeld(), WinningAmount(Hold), PositiveAmount(), stakes);
    SumFilter(StakeAmount(), Positive(), PositiveAmount(), stakes);
    forall o ensures StakedOn(stakes).At(o) == WinningPool(stakes, o) >= 0 {
      SumFilter(StakeAmount(), Winning(o), WinningAmount(o), stakes);
      WinningPoolPositive(stakes, o);
    }
  }

  function NotHeld(): Stake -> int { (s: Stake) => if s.outcome != Hold && s.amount > 0 then s.amount else 0 }

  lemma {:induction false} NearestWithin(n: int, d: int)
    requires d > 0 && n >= 0
    ensures 2 * n - d < 2 * (HalfAway(n, d) * d) <= 2 * n + d
    ensures HalfAway(n, d) >= 0
  {
    var m, e := 2 * n + d, 2 * d;
    assert m == m / e * e + m % e;
    assert m / e * e == 2 * (m / e * d);
  }

  /** How far a published probability p is from the true share s / t, in units: |p - UNIT * s / t| * t. */
  function Error(p: int, s: int, t: int): int { p * t - UNIT * s }

  lemma {:induction false} Drift(a: int, b: int, c: int, t: int)
    requires t > 0 && 2 * (a * t) + 2 * (b * t) + 2 * (c * t) <= 2 * (UNIT * t) + 3 * t
    requires 2 * (a * t) + 2 * (b * t) + 2 * (c * t) > 2 * (UNIT * t) - 3 * t
    ensures -1 <= UNIT - (a + b + c) <= 1
  {
    var sum := a + b + c;
    assert sum * t == a * t + b * t + c * t;
    CancelLess(2 * UNIT - 3, 2 * sum, t);
    Cancel(2 * sum, 2 * UNIT + 3, t);
  }

  /**
   * Published probabilities of a nonempty pool add up to exactly one, lie in [0, 1], miss the true share by at
   * most half a unit (the leader by at most one, and less than one upwards), and put the leader at most one unit
   * below anyone else.
   */
  lemma {:induction false} PublishedProbabilities(stakes: seq<Stake>)
    requires Pool(stakes) > 0
    ensures var c := Compute(stakes);
      var l, p, s, t := c.staked.Leader(), c.probability, c.staked, c.total;
      && t == Pool(stakes)
      && p.Sum() == UNIT
      && -1 <= UNIT - Quantised(s).Sum() <= 1
      && (forall o :: 0 <= p.At(o) <= UNIT)
      && (forall o :: o != l ==> -t < 2 * Error(p.At(o), s.At(o), t) <= t)
      && -t <= Error(p.At(l), s.At(l), t) < t
      && (forall o :: p.At(o) <= p.At(l) + 1)
      && c.LeadingOutcome() == Some(l) && c.LeadingProbability() == p.At(l)
      && (forall o :: p.At(o) * t - 10_000 * s.At(o) == Error(p.At(o), s.At(o), t))
  {
    StakedIsPool(stakes);
    var s := StakedOn(stakes);
    assert s.At(Buy) >= 0 && s.At(Sell) >= 0 && s.At(Hold) >= 0;
    PublishedSpread(s);
  }

  lemma {:induction false} QuantisedWithin(s: Spread, o: Outcome)
    requires s.buy >= 0 && s.sell >= 0 && s.hold >= 0 && s.Sum() > 0
    ensures -s.Sum() < 2 * Error(Quantised(s).At(o), s.At(o), s.Sum()) <= s.Sum()
    ensures 0 <= Quantised(s).At(o) <= Quantised(s).At(s.Leader())
  {
    NearestWithin(UNIT * s.At(o), s.Sum());
    HalfAwayMonotone(UNIT * s.At(o), UNIT * s.At(s.Leader()), s.Sum());
  }

  lemma {:induction false} PublishedSpread(s: Spread)
    requires s.buy >= 0 && s.sell >= 0 && s.hold >= 0 && s.Sum() > 0
    ensures var l, p, t := s.Leader(), Published(s), s.Sum();
      && p.Sum() == UNIT
      && -1 <= UNIT - Quantised(s).Sum() <= 1
      && (forall o :: 0 <= p.At(o) <= UNIT)
      && (forall o :: o != l ==> -t < 2 * Error(p.At(o), s.At(o), t) <= t)
      && -t <= Error(p.At(l), s.At(l), t) < t
      && (forall o :: p.At(o) <= p.At(l) + 1)
  {
    hide HalfAway, Error;
    var l, t, q := s.Leader(), s.Sum(), Quantised(s);
    QuantisedWithin(s, Buy);
    QuantisedWithin(s, Sell);
    QuantisedWithin(s, Hold);
    match l {
      case Buy => Absorbed(s.buy, s.sell, s.hold, t, q.buy, q.sell, q.hold);
      case Sell => Absorbed(s.sell, s.buy, s.hold, t, q.sell, q.buy, q.hold);
      case Hold => Absorbed(s.hold, s.buy, s.sell, t, q.hold, q.buy, q.sell);
    }
  }

  /** One leader a and two others b, c whose quantised shares are x, y, z: what absorbing the drift in a gives. */
  lemma {:induction false} Absorbed(a: int, b: int, c: int, t: int, x: int, y: int, z: int)
    requires t > 0 && a + b + c == t
    requires -t < 2 * Error(x, a, t) <= t && -t < 2 * Error(y, b, t) <= t && -t < 2 * Error(z, c, t) <= t
    requires 0 <= y <= x && 0 <= z <= x
    ensures -1 <= UNIT - (x + y + z) <= 1
    ensures var lead := UNIT - y - z;
      && 0 <= lead <= UNIT && y <= UNIT && z <= UNIT
      && -t <= Error(lead, a, t) < t
      && y <= lead + 1 && z <= lead + 1
  {
    Drift(x, y, z, t);
    var lead := UNIT - y - z;
    assert lead * t == UNIT * t - y * t - z * t;
    assert UNIT * t == UNIT * a + UNIT * b + UNIT * c;
  }

  /** The leader has the largest stake, and every outcome before it in the order BUY, SELL, HOLD strictly less. */
  lemma {:induction false} LeaderIsFirstLargest(s: Spread)
    ensures forall o :: s.At(o) <= s.At(s.Leader())
    ensures forall i, j :: 0 <= i < j < 3 && [Buy, Sell, Hold][j] == s.Leader() ==> s.At([Buy, Sell, Hold][i]) < s.At(s.Leader())
  {
    assert s.At(Buy) == s.buy && s.At(Sell) == s.sell && s.At(Hold) == s.hold;
  }

  /** Without a positive stake there is no leader, no probability and no participant. */
  lemma {:induction false} NobodyStaked(stakes: seq<Stake>)
    requires forall s :: s in stakes ==> s.amount <= 0
    ensures Compute(stakes) == Consensus(Spread(0, 0, 0), 0, 0, Spread(0, 0, 0))
  {
    hide StakedOn, Members, Published;
    NoStakes(stakes);
    NoSpread();
  }

  lemma {:induction false} NoStakes(stakes: seq<Stake>)
    requires forall s :: s in stakes ==> s.amount <= 0
    ensures StakedOn(stakes) == Spread(0, 0, 0) && Members(stakes) == {}
  {
    SumZero(WinningAmount(Buy), stakes);
    SumZero(WinningAmount(Sell), stakes);
    SumZero(WinningAmount(Hold), stakes);
  }

  /** There is a leader exactly when something is staked; its probability is the published one, else zero. */
  lemma {:induction false} LeadingIs(c: Consensus)
    ensures c.LeadingOutcome() == if c.total > 0 then Some(c.staked.Leader()) else None
    ensures c.LeadingProbability() == if c.total > 0 then c.probability.At(c.staked.Leader()) else 0
  {
  }

  lemma {:induction false} NoSpread()
    ensures Published(Spread(0, 0, 0)) == Spread(0, 0, 0)
  {
  }

  /** The leader need not be the published maximum: absorbing the drift can leave it one unit behind a tie. */
  lemma {:induction false} LeaderBehindTie()
    ensures var p := Published(Spread(6667, 6667, 6666));
      Spread(6667, 6667, 6666).Leader() == Buy && p == Spread(3333, 3334, 3333)
  {
  }

  /**
   * Exactly when some outcome is published above the leader: the quantised shares add up to more than one, so that the
   * leader gives a unit back, and another outcome is quantised to the same share.
   */
  lemma {:induction false} LeaderPublishedBelowIff(stakes: seq<Stake>)
    requires Pool(stakes) > 0
    ensures Compute(stakes).staked.Sum() > 0
    ensures var c := Compute(stakes);
      var l, q := c.staked.Leader(), Quantised(c.staked);
      (exists o :: c.probability.At(o) > c.LeadingProbability())
      <==> q.Sum() > UNIT && (exists o :: o != l && q.At(o) == q.At(l))
  {
    StakedIsPool(stakes);
    var s := StakedOn(stakes);
    assert s.At(Buy) >= 0 && s.At(Sell) >= 0 && s.At(Hold) >= 0;
    SpreadPublishedBelowIff(s);
  }

  lemma {:induction false} SpreadPublishedBelowIff(s: Spread)
    requires s.buy >= 0 && s.sell >= 0 && s.hold >= 0 && s.Sum() > 0
    ensures (exists o :: Published(s).At(o) > Published(s).At(s.Leader()))
      <==> Quantised(s).Sum() > UNIT && (exists o :: o != s.Leader() && Quantised(s).At(o) == Quantised(s).At(s.Leader()))
  {
    var l, p, q := s.Leader(), Published(s), Quantised(s);
    PublishedSpread(s);
    QuantisedWithin(s, Buy);
    QuantisedWithin(s, Sell);
    QuantisedWithin(s, Hold);
    forall o ensures p.At(o) == q.At(o) + (if o == l then UNIT - q.Sum() else 0) && q.At(o) <= q.At(l) {
    }
    if o :| p.At(o) > p.At(l) {
      assert o != l && q.At(o) == q.At(l) && q.Sum() > UNIT;
    }
    if q.Sum() > UNIT {
      forall o | o != l && q.At(o) == q.At(l) ensures p.At(o) > p.At(l) {
      }
    }
  }

  /** Consensus depends only on the multiset of stakes. */
  lemma {:induction false} ConsensusIgnoresRowOrder(xs: seq<Stake>, ys: seq<Stake>)
    requires multiset(xs) == multiset(ys)
    ensures Compute(xs) == Compute(ys)
  {
    SumPermutation(WinningAmount(Buy), xs, ys);
    SumPermutation(WinningAmount(Sell), xs, ys);
    SumPermutation(WinningAmount(Hold), xs, ys);
    SettlementLaws.SameMembers(xs, ys);
    assert Members(xs) == Members(ys);
  }

  /** A published probability above one half certifies a strict majority of all stake, so no tie was broken. */
  lemma {:induction false} AboveHalfIsMajority(stakes: seq<Stake>, o: Outcome)
    requires Pool(stakes) > 0 && Compute(stakes).LeadingOutcome() == Some(o)
    requires 2 * Compute(stakes).LeadingProbability() > UNIT
    ensures 2 * WinningPool(stakes, o) > Pool(stakes)
    ensures forall q :: q != o ==> WinningPool(stakes, q) < WinningPool(stakes, o)
  {
    PublishedProbabilities(stakes);
    StakedIsPool(stakes);
    var c := Compute(stakes);
    var p, s, t := c.probability.At(o), c.staked.At(o), c.total;
    assert p * t >= 5001 * t by { LeqScaled(5001, p, t); }
    assert Error(p, s, t) < t;
    var all := c.staked;
    assert all.At(Buy) == all.buy && all.At(Sell) == all.sell && all.At(Hold) == all.hold;
  }
}
