/** The payouts written back to the bet rows (settlement.py): how far they may be from the member's payout. */
module Apportionment {
  import opened Sums
  import opened Arithmetic
  import opened Tally
  import opened Tables
  import opened Steps
  import opened LedgerLaws
  import opened Invariants
  import opened Conservation
  import opened LastWins

  /** The payout shown on one row of member m. */
  function Shown(m: nat): Bet -> int { (b: Bet) => if b.member == m && b.payout.Some? then b.payout.value else 0 }

  function ShownBefore(m: nat, payout: int, total: int): Bet -> int {
    (b: Bet) => if b.member == m then Apportioned(payout, b.stake, total) else 0
  }

  lemma {:induction false} RowWithinHalfCent(payout: int, stake: int, total: int)
    requires total > 0
    ensures -total <= 2 * (Scaled(Apportioned(payout, stake, total), total) - Scaled(payout, stake)) <= total
  {
    var x := (payout * stake) as real / total as real;
    HalfUnit(Apportioned(payout, stake, total), x, payout * stake, total);
  }

  lemma {:induction false} HalfUnit(n: int, x: real, product: int, total: int)
    requires total > 0 && x == product as real / total as real && -0.5 <= n as real - x <= 0.5
    ensures -total <= 2 * (Scaled(n, total) - product) <= total
  {
    HalfReal(n as real, x, product as real, total as real);
    assert Scaled(n, total) as real == n as real * total as real;
  }

  lemma {:induction false} HalfReal(n: real, x: real, product: real, t: real)
    requires t > 0.0 && x == product / t && -0.5 <= n - x <= 0.5
    ensures -0.5 * t <= n * t - product <= 0.5 * t
  {
    assert x * t == product;
    ProductPositive(n - x + 0.5, t);
    ProductPositive(0.5 - (n - x), t);
    assert (n - x + 0.5) * t == n * t - x * t + 0.5 * t;
    assert (0.5 - (n - x)) * t == 0.5 * t - n * t + x * t;
  }

  lemma {:induction false} ScaledSum(x: int, y: int, w: int)
    ensures Scaled(x + y, w) == Scaled(x, w) + Scaled(y, w)
    ensures Scaled(w, x + y) == Scaled(w, x) + Scaled(w, y)
  {
  }

  lemma {:induction false} RowsWithinHalfCents(bets: seq<Bet>, m: nat, payout: int, total: int)
    requires total > 0
    ensures var gap := Scaled(Sum(ShownBefore(m, payout, total), bets), total) - Scaled(payout, Sum(StakeBy(m), bets));
      Scaled(0 - CountWhere(By(m), bets), total) <= 2 * gap <= Scaled(CountWhere(By(m), bets), total)
  {
    if bets != [] {
      var n := |bets| - 1;
      var front, b := bets[..n], bets[n];
      RowsWithinHalfCents(front, m, payout, total);
      RowWithinHalfCent(payout, b.stake, total);
      ScaledSum(Sum(ShownBefore(m, payout, total), front), ShownBefore(m, payout, total)(b), total);
      ScaledSum(Sum(StakeBy(m), front), StakeBy(m)(b), payout);
      ScaledSum(CountWhere(By(m), front), 1, total);
      ScaledSum(0 - CountWhere(By(m), front), -1, total);
      if b.member != m {
        assert Scaled(0, total) == 0 && Scaled(payout, 0) == 0;
      } else {
        assert Scaled(1, total) == total && Scaled(-1, total) == -total;
      }
    }
  }

  lemma {:induction false} CancelTotal(shown: int, payout: int, rows: int, total: int)
    requires total > 0
    requires Scaled(0 - rows, total) <= 2 * (Scaled(shown, total) - Scaled(payout, total)) <= Scaled(rows, total)
    ensures 0 - rows <= 2 * (shown - payout) <= rows
  {
    Arithmetic.Cancel(2 * (shown - payout), rows, total);
    Arithmetic.Cancel(0 - rows, 2 * (shown - payout), total);
  }

  lemma {:induction false} RowsShowBefore(bets: seq<Bet>, m: nat, payouts: seq<Credit>)
    requires PositiveStakes(bets)
    ensures Sum(Shown(m), Map(RowPayout(payouts, StakeTotals(bets)), bets))
         == Sum(ShownBefore(m, Get(payouts, m), Previous(bets, m)), bets)
  {
    RefundsAreStakes(bets);
    assert Get(StakeTotals(bets), m) == Previous(bets, m);
    SumMapped(Shown(m), RowPayout(payouts, StakeTotals(bets)), ShownBefore(m, Get(payouts, m), Previous(bets, m)), bets);
  }

  lemma {:induction false} RowsShow(bets: seq<Bet>, m: nat, payouts: seq<Credit>)
    requires PositiveStakes(bets) && Previous(bets, m) > 0
    ensures var shown, rows := Sum(Shown(m), Map(RowPayout(payouts, StakeTotals(bets)), bets)), CountWhere(By(m), bets);
      0 - rows <= 2 * (shown - Get(payouts, m)) <= rows
  {
    var total, paid := Previous(bets, m), Get(payouts, m);
    RowsShowBefore(bets, m, payouts);
    RowsWithinHalfCents(bets, m, paid, total);
    CancelTotal(Sum(ShownBefore(m, paid, total), bets), paid, CountWhere(By(m), bets), total);
  }

  /**
   * After settlement every row shows its own share of the member's payout, stake for stake, to half a cent, and is
   * otherwise the row it was.
   */
  lemma {:induction false} RowShowsItsShare(cfg: Config, s: State, k: nat, i: nat)
    requires Consistent(s) && SettleMarket(cfg, s, k).Ok? && i < |s.markets[k].bets|
    ensures k < |SettleMarket(cfg, s, k).value.markets|
    ensures var b, after := s.markets[k].bets[i], SettleMarket(cfg, s, k).value.markets[k].bets;
      var total, paid := Sum(StakeBy(b.member), s.markets[k].bets), Get(Paid(cfg, s.markets[k]), b.member);
      && |after| == |s.markets[k].bets| && after[i].payout.Some? && after[i] == b.(payout := after[i].payout)
      && -total <= 2 * (Scaled(after[i].payout.value, total) - Scaled(paid, b.stake)) <= total
  {
    var bets := s.markets[k].bets;
    var b := bets[i];
    assert MarketWell(s.markets[k], |s.members|);
    RefundsAreStakes(bets);
    assert Get(StakeTotals(bets), b.member) == Previous(bets, b.member);
    SumNonNegative(StakeBy(b.member), bets);
    assert b in bets && StakeBy(b.member)(b) > 0;
    RowWithinHalfCent(Get(Paid(cfg, s.markets[k]), b.member), b.stake, Previous(bets, b.member));
  }

  /**
   * After settlement the rows of a member show in total what the member was paid, up to half a cent per row; a member
   * with a single row is shown the exact amount.
   */
  lemma {:induction false} RowsShowThePayout(cfg: Config, s: State, k: nat, m: nat)
    requires Consistent(s) && SettleMarket(cfg, s, k).Ok? && Previous(s.markets[k].bets, m) > 0
    ensures var bets, after := s.markets[k].bets, SettleMarket(cfg, s, k).value.markets[k].bets;
      var shown, rows, paid := Sum(Shown(m), after), CountWhere(By(m), bets), Get(Paid(cfg, s.markets[k]), m);
      && 0 - rows <= 2 * (shown - paid) <= rows
      && (rows == 1 ==> shown == paid)
  {
    assert MarketWell(s.markets[k], |s.members|);
    RowsShow(s.markets[k].bets, m, Paid(cfg, s.markets[k]));
  }
}
