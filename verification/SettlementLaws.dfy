/** What parimutuel settlement promises: conservation, floors, fairness, and independence of the row order. */
module SettlementLaws {
  import opened Sums
  import opened Arithmetic
  import opened Domain
  import opened Tally
  import opened Parimutuel

  function One(): Stake -> int { (s: Stake) => 1 }

  /** The cents m put on rows, and the number of m's rows. */
  function StakeOf(rows: seq<Stake>, m: nat): int { Sum(Only(StakeAmount(), m), rows) }

  function RowsOf(rows: seq<Stake>, m: nat): int { Sum(Only(One(), m), rows) }

  /** The exact floor share of each row. */
  function FloorOf(d: int, w: int): Stake -> int
    requires w > 0
  {
    (s: Stake) => FloorShare(d, s.amount, w)
  }

  ghost predicate OneRowEach(rows: seq<Stake>) {
    forall i, j :: 0 <= i < j < |rows| ==> rows[i].member != rows[j].member
  }

  // ------------------------------------------------------------------ sums of shares

  /** f misses a d/w share of each row by at most slack/w. */
  ghost predicate Within(f: Stake -> int, rows: seq<Stake>, d: int, w: int, slack: int) {
    forall s :: s in rows ==> d * s.amount - slack <= f(s) * w <= d * s.amount
  }

  lemma {:induction false} SharesWithin(f: Stake -> int, rows: seq<Stake>, d: int, w: int, slack: int)
    requires Within(f, rows, d, w, slack)
    ensures Scaled(d, Sum(StakeAmount(), rows)) - Scaled(slack, |rows|) <= Scaled(Sum(f, rows), w)
    ensures Scaled(Sum(f, rows), w) <= Scaled(d, Sum(StakeAmount(), rows))
  {
    if rows != [] {
      var n := |rows| - 1;
      var s := rows[n];
      SharesWithin(f, rows[..n], d, w, slack);
      assert s in rows;
      ScaledAdds(d, Sum(StakeAmount(), rows[..n]), s.amount);
      ScaledAdds(slack, n, 1);
      ScaledAddsLeft(Sum(f, rows[..n]), f(s), w);
    }
  }

  lemma {:induction false} ScaledAdds(x: int, y: int, z: int)
    ensures Scaled(x, y + z) == Scaled(x, y) + x * z
  {
  }

  lemma {:induction false} ScaledAddsLeft(x: int, y: int, z: int)
    ensures Scaled(x + y, z) == Scaled(x, z) + y * z
  {
  }

  /** Cancelling the winning pool w from a bound on w-fold sums. */
  lemma {:induction false} CancelPool(total: int, d: int, w: int, rows: nat, slack: int)
    requires w > 0 && 0 <= slack <= w
    requires Scaled(d, w) - Scaled(slack, rows) <= Scaled(total, w) <= Scaled(d, w)
    ensures total <= d
    ensures d - total <= rows
    ensures slack < w && rows > 0 ==> d - total < rows
  {
    Cancel(total, d, w);
    LeqScaled(slack, w, rows);
    ScaledAddsLeft(d - rows, rows, w);
    Cancel(d - rows, total, w);
    if slack < w && rows > 0 {
      LessScaled(slack, w, rows);
      CancelLess(d - rows, total, w);
    }
  }

  lemma {:induction false} RemainderBound(rnd: real -> real, stakes: seq<Stake>, w: Outcome, bps: int, slack: int)
    requires WinningPool(stakes, w) > 0 && 0 <= slack <= WinningPool(stakes, w)
    requires Within(ShareOf(rnd, Distributable(stakes, w, bps), WinningPool(stakes, w)), Winners(stakes, w),
                    Distributable(stakes, w, bps), WinningPool(stakes, w), slack)
    ensures 0 <= Remainder(rnd, stakes, w, bps) <= |Winners(stakes, w)|
    ensures slack < WinningPool(stakes, w) ==> Remainder(rnd, stakes, w, bps) < |Winners(stakes, w)|
  {
    var rows, d, wp := Winners(stakes, w), Distributable(stakes, w, bps), WinningPool(stakes, w);
    var f := ShareOf(rnd, d, wp);
    SharesWithin(f, rows, d, wp, slack);
    AccrueMeaning(f, rows);
    WinningPoolPositive(stakes, w);
    CancelPool(Sum(f, rows), d, wp, |rows|, slack);
  }

  lemma {:induction false} RoundedRowsWithin(rnd: real -> real, stakes: seq<Stake>, w: Outcome, bps: int)
    requires IsRounding(rnd) && ValidRake(bps) && 0 < WinningPool(stakes, w) && Pool(stakes) <= POOL_LIMIT
    ensures WinningPool(stakes, w) <= Distributable(stakes, w, bps) <= Pool(stakes)
    ensures forall s :: s in Winners(stakes, w) ==>
      var d, wp := Distributable(stakes, w, bps), WinningPool(stakes, w);
      0 < s.amount <= wp && RoundsDown(Share(rnd, d, s.amount, wp), RoundedQuotient(rnd, d, s.amount, wp), d, s.amount, wp)
    ensures Within(ShareOf(rnd, Distributable(stakes, w, bps), WinningPool(stakes, w)), Winners(stakes, w),
                   Distributable(stakes, w, bps), WinningPool(stakes, w), WinningPool(stakes, w))
  {
    var rows, d, wp := Winners(stakes, w), Distributable(stakes, w, bps), WinningPool(stakes, w);
    PoolsOrdered(stakes, w, bps);
    WinningPoolPositive(stakes, w);
    forall s | s in rows
      ensures RoundsDown(Share(rnd, d, s.amount, wp), RoundedQuotient(rnd, d, s.amount, wp), d, s.amount, wp)
      ensures d * s.amount - wp <= Share(rnd, d, s.amount, wp) * wp <= d * s.amount
    {
      RoundedShare(rnd, d, s.amount, wp);
      RoundedDownWithin(Share(rnd, d, s.amount, wp), RoundedQuotient(rnd, d, s.amount, wp), d, s.amount, wp);
    }
  }

  lemma {:induction false} RoundedDownWithin(share: int, y: real, d: int, a: int, w: int)
    requires w > 0 && RoundsDown(share, y, d, a, w)
    ensures d * a - w <= share * w <= d * a
  {
    FloorWithin(d, a, w);
    if share == FloorShare(d, a, w) - 1 {
      assert share * w == FloorShare(d, a, w) * w - w;
      assert d * a == FloorShare(d, a, w) * w;
    }
  }

  lemma {:induction false} FloorWithin(d: int, a: int, w: int)
    requires w > 0
    ensures d * a - (w - 1) <= FloorShare(d, a, w) * w <= d * a
    ensures d * a % w == 0 ==> d * a == FloorShare(d, a, w) * w
  {
    var n := d * a;
    assert n == n / w * w + n % w;
  }

  lemma {:induction false} ExactRowsWithin(stakes: seq<Stake>, w: Outcome, bps: int)
    requires WinningPool(stakes, w) > 0
    ensures Within(ShareOf(Exact(), Distributable(stakes, w, bps), WinningPool(stakes, w)), Winners(stakes, w),
                   Distributable(stakes, w, bps), WinningPool(stakes, w), WinningPool(stakes, w) - 1)
  {
    var d, wp := Distributable(stakes, w, bps), WinningPool(stakes, w);
    forall s | s in Winners(stakes, w)
      ensures d * s.amount - (wp - 1) <= Share(Exact(), d, s.amount, wp) * wp <= d * s.amount
    {
      ExactShare(d, s.amount, wp);
      FloorWithin(d, s.amount, wp);
    }
  }

  /** A pool at least as large as the winning pool returns each row at least its stake. */
  lemma {:induction false} FloorKeepsStake(d: int, a: int, w: int)
    requires 0 < w <= d && a >= 0
    ensures FloorShare(d, a, w) >= a
  {
    LeqScaled(w, d, a);
    FloorAtLeast(d * a, a, w);
  }

  // ------------------------------------------------------------------ the payout dictionary

  /** The dictionary in closed form when somebody won. */
  lemma {:induction false} PayoutsWithWinner(rnd: real -> real, stakes: seq<Stake>, w: Outcome, bps: int)
    requires WinningPool(stakes, w) > 0
    ensures Winners(stakes, w) != []
    ensures var p, top := Payouts(rnd, stakes, w, bps), Top(Winners(stakes, w)).member;
      var f := ShareOf(rnd, Distributable(stakes, w, bps), WinningPool(stakes, w));
      var extra := if Remainder(rnd, stakes, w, bps) > 0 then Remainder(rnd, stakes, w, bps) else 0;
      && DistinctMembers(p)
      && (forall m: nat :: Has(p, m) <==> Appears(Winners(stakes, w), m))
      && (forall m: nat :: Get(p, m) == Sum(Only(f, m), Winners(stakes, w)) + if m == top then extra else 0)
      && Total(p) == Total(Shares(rnd, stakes, w, bps)) + extra
  {
    WinningPoolPositive(stakes, w);
    var rows := Winners(stakes, w);
    var f := ShareOf(rnd, Distributable(stakes, w, bps), WinningPool(stakes, w));
    AccrueMeaning(f, rows);
    TopIsAhead(rows);
    var r := Remainder(rnd, stakes, w, bps);
    assert Appears(rows, Top(rows).member) by {
      var i :| 0 <= i < |rows| && rows[i] == Top(rows);
    }
    if r > 0 {
      AddMeaning(Shares(rnd, stakes, w, bps), Top(rows).member, r);
    }
  }

  /** With nobody on the verdict, everyone gets exactly their stakes back and nothing is withheld. */
  lemma {:induction false} PayoutsWithoutWinner(rnd: real -> real, stakes: seq<Stake>, w: Outcome, bps: int)
    requires WinningPool(stakes, w) <= 0
    ensures var p := Payouts(rnd, stakes, w, bps);
      && DistinctMembers(p)
      && (forall m: nat :: Has(p, m) <==> Appears(Staked(stakes), m))
      && (forall m: nat :: Get(p, m) == StakeOf(Staked(stakes), m))
      && Total(p) == Pool(stakes)
  {
    AccrueMeaning(StakeAmount(), Staked(stakes));
  }

  /** What a settlement withholds: the rake if somebody won, nothing otherwise. */
  function Withheld(stakes: seq<Stake>, w: Outcome, bps: int): int {
    if WinningPool(stakes, w) > 0 then Rake(stakes, w, bps) else 0
  }

  /** The rake: bps ten-thousandths of what was staked on other outcomes, rounded down to a cent. */
  lemma {:induction false} RakeIs(stakes: seq<Stake>, w: Outcome, bps: int)
    ensures Rake(stakes, w, bps) == (Pool(stakes) - WinningPool(stakes, w)) * bps / 10_000
  {
    hide Pool, WinningPool;
  }

  // ------------------------------------------------------------------ pools and payees in terms of the rows

  /** The pool adds up the positive stakes, the winning pool those on the winning outcome. */
  lemma {:induction false} PoolsAreSums(stakes: seq<Stake>, w: Outcome, all: Stake -> int, winning: Stake -> int)
    requires forall s: Stake :: all(s) == if s.amount > 0 then s.amount else 0
    requires forall s: Stake :: winning(s) == if s.amount > 0 && s.outcome == w then s.amount else 0
    ensures Pool(stakes) == Sum(all, stakes) && WinningPool(stakes, w) == Sum(winning, stakes)
  {
    SumFilter(StakeAmount(), Positive(), all, stakes);
    SumFilter(StakeAmount(), Winning(w), winning, stakes);
  }

  /**
   * Who is paid: with a positive stake on the winning outcome, its stakers; without, everybody with a positive stake.
   * A rake outside 0 .. 9999 is the only error.
   */
  lemma {:induction false} PayeesAre(rnd: real -> real, stakes: seq<Stake>, w: Outcome, bps: int)
    ensures Settle(rnd, stakes, w, bps).Ok? <==> 0 <= bps < 10_000
    ensures WinningPool(stakes, w) > 0 <==> exists s :: s in stakes && s.outcome == w && s.amount > 0
    ensures Settle(rnd, stakes, w, bps).Ok? && WinningPool(stakes, w) > 0 ==> forall m: nat ::
      Has(Settle(rnd, stakes, w, bps).value, m) <==> exists s :: s in stakes && s.member == m && s.outcome == w && s.amount > 0
    ensures Settle(rnd, stakes, w, bps).Ok? && WinningPool(stakes, w) <= 0 ==> forall m: nat ::
      Has(Settle(rnd, stakes, w, bps).value, m) <==> exists s :: s in stakes && s.member == m && s.amount > 0
  {
    WinningPoolPositive(stakes, w);
    FilterMembers(Winning(w), stakes);
    FilterMembers(Positive(), stakes);
    if Winners(stakes, w) != [] {
      assert Winners(stakes, w)[0] in Winners(stakes, w);
      PayoutsWithWinner(rnd, stakes, w, bps);
      AppearsIn(Winners(stakes, w));
    } else {
      PayoutsWithoutWinner(rnd, stakes, w, bps);
      AppearsIn(Staked(stakes));
    }
  }

  lemma {:induction false} AppearsIn(rows: seq<Stake>)
    ensures forall m: nat :: Appears(rows, m) <==> exists s :: s in rows && s.member == m
  {
    forall m: nat ensures Appears(rows, m) <==> exists s :: s in rows && s.member == m {
      if Appears(rows, m) {
        var i :| 0 <= i < |rows| && rows[i].member == m;
        assert rows[i] in rows;
      }
      if s :| s in rows && s.member == m {
        var i :| 0 <= i < |rows| && rows[i] == s;
        assert rows[i].member == m;
      }
    }
  }

  /**
   * The rule as the 28-digit context computes it: cents are conserved, the winners get the pool less bps / 10000 of the
   * losing pool, rounded down, the remainder is at most one cent per
   * winning row, exactly the winners are paid, and nobody drops more than one cent per row below stake.
   */
  lemma {:induction false} RoundedSettlement(rnd: real -> real, stakes: seq<Stake>, w: Outcome, bps: int)
    requires IsRounding(rnd) && ValidRake(bps) && 0 < WinningPool(stakes, w) && Pool(stakes) <= POOL_LIMIT
    ensures 0 <= Remainder(rnd, stakes, w, bps) <= |Winners(stakes, w)|
    ensures Total(Payouts(rnd, stakes, w, bps)) + Rake(stakes, w, bps) == Pool(stakes)
    ensures Total(Payouts(rnd, stakes, w, bps)) == Pool(stakes) - (Pool(stakes) - WinningPool(stakes, w)) * bps / 10_000
    ensures forall m: nat :: Has(Payouts(rnd, stakes, w, bps), m) <==> Appears(Winners(stakes, w), m)
    ensures forall m: nat ::
      StakeOf(Winners(stakes, w), m) - RowsOf(Winners(stakes, w), m) <= Get(Payouts(rnd, stakes, w, bps), m)
  {
    var rows, d, wp := Winners(stakes, w), Distributable(stakes, w, bps), WinningPool(stakes, w);
    RakeIs(stakes, w, bps);
    RoundedRowsWithin(rnd, stakes, w, bps);
    RemainderBound(rnd, stakes, w, bps, wp);
    PayoutsWithWinner(rnd, stakes, w, bps);
    forall m: nat ensures Get(Payouts(rnd, stakes, w, bps), m) >= StakeOf(rows, m) - RowsOf(rows, m) {
      var less := MinusOne();
      forall s | s in rows ensures Only(less, m)(s) <= Only(ShareOf(rnd, d, wp), m)(s) {
        FloorKeepsStake(d, s.amount, wp);
      }
      SumLe(Only(less, m), Only(ShareOf(rnd, d, wp), m), rows);
      SumAdd(Only(less, m), Only(One(), m), Only(StakeAmount(), m), rows);
    }
  }

  /** d * a is a whole multiple of w that is at most a * w only if d is w. */
  lemma {:induction false} WholeShareAboveStake(d: int, a: int, w: int)
    requires 0 < a && 0 < w < d && d * a % w == 0
    ensures FloorShare(d, a, w) > a
  {
    var f := FloorShare(d, a, w);
    assert d * a == f * w;
    LessScaled(w, d, a);
    CancelLess(a, f, w);
  }

  lemma {:induction false} WholeShareIsStake(a: int, w: int)
    requires w > 0
    ensures FloorShare(w, a, w) == a && w * a % w == 0
  {
    FloorIs(w * a, a, w);
    assert w * a == (w * a / w) * w + w * a % w;
  }

  /**
   * Exactly when a winning row gets back less than it staked: the whole distributable amount is the winning pool, so
   * that the exact share is the stake itself, and the 28-digit product falls short of it.
   */
  lemma {:induction false} RowBelowStakeIff(rnd: real -> real, d: int, a: int, w: int)
    requires IsRounding(rnd) && 0 < a <= w <= d <= POOL_LIMIT
    ensures Share(rnd, d, a, w) < a <==> d == w && RoundedQuotient(rnd, d, a, w) < a as real
  {
    RoundedShare(rnd, d, a, w);
    FloorKeepsStake(d, a, w);
    if d == w {
      WholeShareIsStake(a, w);
    } else if d * a % w == 0 {
      WholeShareAboveStake(d, a, w);
    }
  }

  /** As soon as anything beyond the winners' own stakes is distributed, rounding costs no winner any principal. */
  lemma {:induction false} PrincipalIsSafe(rnd: real -> real, stakes: seq<Stake>, w: Outcome, bps: int, m: nat)
    requires IsRounding(rnd) && ValidRake(bps) && 0 < WinningPool(stakes, w) && Pool(stakes) <= POOL_LIMIT
    requires Distributable(stakes, w, bps) > WinningPool(stakes, w)
    ensures Get(Payouts(rnd, stakes, w, bps), m) >= StakeOf(Winners(stakes, w), m)
  {
    var rows, d, wp := Winners(stakes, w), Distributable(stakes, w, bps), WinningPool(stakes, w);
    RoundedRowsWithin(rnd, stakes, w, bps);
    PayoutsWithWinner(rnd, stakes, w, bps);
    WinningPoolPositive(stakes, w);
    forall s | s in rows ensures Only(StakeAmount(), m)(s) <= Only(ShareOf(rnd, d, wp), m)(s) {
      RowBelowStakeIff(rnd, d, s.amount, wp);
    }
    SumLe(Only(StakeAmount(), m), Only(ShareOf(rnd, d, wp), m), rows);
  }

  function MinusOne(): Stake -> int { (s: Stake) => s.amount - 1 }

  // ------------------------------------------------------------------ who can lose a cent of principal

  lemma {:induction false} NoSingleRowLess(f: Stake -> int, g: Stake -> int, rows: seq<Stake>)
    requires forall s :: s in rows ==> f(s) <= g(s)
    ensures Sum(f, rows) < Sum(g, rows) <==> exists s :: s in rows && f(s) < g(s)
  {
    if rows != [] {
      var n := |rows| - 1;
      var front, last := rows[..n], rows[n];
      assert rows == front + [last];
      SumLe(f, g, front);
      NoSingleRowLess(f, g, front);
      if f(last) < g(last) {
        assert last in rows;
      }
    }
  }

  /** All that a member other than the top staker loses, the top staker gains. */
  lemma {:induction false} TopStakerIsMadeWhole(f: Stake -> int, rows: seq<Stake>, m: nat)
    requires forall s :: s in rows ==> f(s) <= s.amount
    ensures Sum(Only(f, m), rows) + Sum(StakeAmount(), rows) - Sum(f, rows) >= StakeOf(rows, m)
  {
    if rows != [] {
      var n := |rows| - 1;
      assert rows == rows[..n] + [rows[n]];
      TopStakerIsMadeWhole(f, rows[..n], m);
    }
  }

  /** The winning rows of m whose 28-digit product falls short of the stake. */
  ghost predicate FallsShort(rnd: real -> real, rows: seq<Stake>, d: int, w: int, m: nat)
    requires w > 0
  {
    exists s :: s in rows && s.member == m && RoundedQuotient(rnd, d, s.amount, w) < s.amount as real
  }

  /**
   * Exactly when a member is paid less than the winning stake: nobody staked on another outcome, the member is not the
   * top staker, who takes the remainder, and the rounded product of one of the member's rows falls short of its stake.
   */
  lemma {:induction false} PaidBelowStakeIff(rnd: real -> real, stakes: seq<Stake>, w: Outcome, bps: int, m: nat)
    requires IsRounding(rnd) && ValidRake(bps) && 0 < WinningPool(stakes, w) && Pool(stakes) <= POOL_LIMIT
    ensures Get(Payouts(rnd, stakes, w, bps), m) < StakeOf(Winners(stakes, w), m)
      <==> && Pool(stakes) == WinningPool(stakes, w)
           && m != Top(Winners(stakes, w)).member
           && FallsShort(rnd, Winners(stakes, w), Distributable(stakes, w, bps), WinningPool(stakes, w), m)
  {
    LosersAreRaked(stakes, w, bps);
    if Pool(stakes) == WinningPool(stakes, w) {
      UncontestedBelowStakeIff(rnd, stakes, w, bps, m);
    } else {
      PrincipalIsSafe(rnd, stakes, w, bps, m);
    }
  }

  /** A rake below 100 % leaves part of every losing pool to the winners. */
  lemma {:induction false} LosersAreRaked(stakes: seq<Stake>, w: Outcome, bps: int)
    requires ValidRake(bps)
    ensures WinningPool(stakes, w) <= Pool(stakes)
    ensures Distributable(stakes, w, bps) > WinningPool(stakes, w) <==> Pool(stakes) > WinningPool(stakes, w)
    ensures Pool(stakes) == WinningPool(stakes, w) ==> Distributable(stakes, w, bps) == WinningPool(stakes, w)
  {
    PoolsOrdered(stakes, w, bps);
    var losing := Pool(stakes) - WinningPool(stakes, w);
    if losing > 0 {
      LessScaled(bps, BASIS_POINTS, losing);
      FloorBelow(losing * bps, losing, BASIS_POINTS);
    }
  }

  lemma {:induction false} UncontestedBelowStakeIff(rnd: real -> real, stakes: seq<Stake>, w: Outcome, bps: int, m: nat)
    requires IsRounding(rnd) && ValidRake(bps) && 0 < WinningPool(stakes, w) == Pool(stakes) <= POOL_LIMIT
    ensures Get(Payouts(rnd, stakes, w, bps), m) < StakeOf(Winners(stakes, w), m)
      <==> && m != Top(Winners(stakes, w)).member
           && FallsShort(rnd, Winners(stakes, w), Distributable(stakes, w, bps), WinningPool(stakes, w), m)
  {
    var rows, d, wp := Winners(stakes, w), Distributable(stakes, w, bps), WinningPool(stakes, w);
    LosersAreRaked(stakes, w, bps);
    PayoutsWithWinner(rnd, stakes, w, bps);
    RoundedSettlement(rnd, stakes, w, bps);
    UncontestedRows(rnd, stakes, w, bps);
    AccrueMeaning(ShareOf(rnd, d, wp), rows);
    if m == Top(rows).member {
      TopStakerIsMadeWhole(ShareOf(rnd, d, wp), rows, m);
    } else {
      RowsBelowStakeIff(rnd, rows, d, m);
    }
  }

  /** When only the winning stakes are shared out, no row gets more than its stake. */
  lemma {:induction false} UncontestedRows(rnd: real -> real, stakes: seq<Stake>, w: Outcome, bps: int)
    requires IsRounding(rnd) && ValidRake(bps) && 0 < WinningPool(stakes, w) == Pool(stakes) <= POOL_LIMIT
    ensures Distributable(stakes, w, bps) == WinningPool(stakes, w)
    ensures forall s :: s in Winners(stakes, w) ==>
      && Share(rnd, WinningPool(stakes, w), s.amount, WinningPool(stakes, w)) <= s.amount
      && (Share(rnd, WinningPool(stakes, w), s.amount, WinningPool(stakes, w)) < s.amount
          <==> RoundedQuotient(rnd, WinningPool(stakes, w), s.amount, WinningPool(stakes, w)) < s.amount as real)
  {
    var wp := WinningPool(stakes, w);
    LosersAreRaked(stakes, w, bps);
    WinningPoolPositive(stakes, w);
    forall s | s in Winners(stakes, w)
      ensures Share(rnd, wp, s.amount, wp) <= s.amount
      ensures Share(rnd, wp, s.amount, wp) < s.amount <==> RoundedQuotient(rnd, wp, s.amount, wp) < s.amount as real
    {
      RowBelowStakeIff(rnd, wp, s.amount, wp);
      RoundedShare(rnd, wp, s.amount, wp);
      WholeShareIsStake(s.amount, wp);
    }
  }

  lemma {:induction false} RowsBelowStakeIff(rnd: real -> real, rows: seq<Stake>, wp: int, m: nat)
    requires wp > 0
    requires forall s :: s in rows ==>
      && Share(rnd, wp, s.amount, wp) <= s.amount
      && (Share(rnd, wp, s.amount, wp) < s.amount <==> RoundedQuotient(rnd, wp, s.amount, wp) < s.amount as real)
    ensures Sum(Only(ShareOf(rnd, wp, wp), m), rows) < StakeOf(rows, m) <==> FallsShort(rnd, rows, wp, wp, m)
  {
    var f, g := Only(ShareOf(rnd, wp, wp), m), Only(StakeAmount(), m);
    NoSingleRowLess(f, g, rows);
    if s :| s in rows && f(s) < g(s) {
      assert s.member == m && RoundedQuotient(rnd, wp, s.amount, wp) < s.amount as real;
    }
    if FallsShort(rnd, rows, wp, wp, m) {
      var s :| s in rows && s.member == m && RoundedQuotient(rnd, wp, s.amount, wp) < s.amount as real;
      assert f(s) < g(s);
    }
  }

  /** The rounding that always errs downwards by the full half unit. */
  function Downward(): real -> real { (x: real) => x * 0.9999999999999999999999999995 }

  lemma {:induction false} DownwardIsRounding()
    ensures IsRounding(Downward())
  {
  }

  lemma {:induction false} DownwardFallsShort(a: int, w: int)
    requires 0 < a && 0 < w
    ensures RoundedQuotient(Downward(), w, a, w) < a as real
    ensures RoundedQuotient(Downward(), w, a, w)
      == w as real * (a as real / w as real * 0.9999999999999999999999999995) * 0.9999999999999999999999999995
  {
    var r, k := Quotient(a as real, w as real), 0.9999999999999999999999999995;
    RatioBack(a as real, w as real);
    assert RoundedQuotient(Downward(), w, a, w) == Times(w as real, r * k) * k;
    ScaledDown(w as real, r, k, a as real);
  }

  lemma {:induction false} ScaledDown(w: real, r: real, k: real, a: real)
    requires r * w == a && a > 0.0 && k == 0.9999999999999999999999999995
    ensures Times(w, r * k) * k < a
  {
    assert w * (r * k) == (r * w) * k;
  }

  ghost predicate PrincipalSafe(stakes: seq<Stake>, w: Outcome, bps: int) {
    forall rnd: real -> real, m: nat ::
      IsRounding(rnd) ==> Get(Payouts(rnd, stakes, w, bps), m) >= StakeOf(Winners(stakes, w), m)
  }

  /**
   * What a caller can check: no winner loses principal under any 28-digit rounding if and only if somebody staked on
   * another outcome, or there is only one winning member.
   */
  lemma {:induction false} PrincipalSafeIff(stakes: seq<Stake>, w: Outcome, bps: int)
    requires ValidRake(bps) && 0 < WinningPool(stakes, w) && Pool(stakes) <= POOL_LIMIT
    ensures Winners(stakes, w) != []
    ensures PrincipalSafe(stakes, w, bps)
      <==> Pool(stakes) > WinningPool(stakes, w)
           || forall s :: s in Winners(stakes, w) ==> s.member == Top(Winners(stakes, w)).member
  {
    WinningPoolPositive(stakes, w);
    LosersAreRaked(stakes, w, bps);
    var rows := Winners(stakes, w);
    if Pool(stakes) > WinningPool(stakes, w) || forall s :: s in rows ==> s.member == Top(rows).member {
      forall rnd: real -> real, m: nat | IsRounding(rnd)
        ensures Get(Payouts(rnd, stakes, w, bps), m) >= StakeOf(rows, m)
      {
        PaidBelowStakeIff(rnd, stakes, w, bps, m);
      }
    } else {
      var s :| s in rows && s.member != Top(rows).member;
      DownwardIsRounding();
      DownwardFallsShort(s.amount, WinningPool(stakes, w));
      PaidBelowStakeIff(Downward(), stakes, w, bps, s.member);
      assert Get(Payouts(Downward(), stakes, w, bps), s.member) < StakeOf(rows, s.member);
    }
  }

  /**
   * The exact rule: cents are conserved, the remainder is less than one cent per winning row, everyone but the
   * top staker gets exactly the floor share, and every winner gets at least the winning stake back.
   */
  lemma {:induction false} ExactSettlement(stakes: seq<Stake>, w: Outcome, bps: int)
    requires ValidRake(bps) && 0 < WinningPool(stakes, w)
    ensures var p, rows := Payouts(Exact(), stakes, w, bps), Winners(stakes, w);
      var floor := FloorOf(Distributable(stakes, w, bps), WinningPool(stakes, w));
      && rows != []
      && Total(p) + Rake(stakes, w, bps) == Pool(stakes)
      && Total(p) == Pool(stakes) - (Pool(stakes) - WinningPool(stakes, w)) * bps / 10_000
      && 0 <= Rake(stakes, w, bps) <= Pool(stakes) - WinningPool(stakes, w)
      && (forall m: nat :: Has(p, m) <==> Appears(rows, m))
      && (forall m: nat :: m != Top(rows).member ==> Get(p, m) == Sum(Only(floor, m), rows))
      && (forall m: nat :: Sum(Only(floor, m), rows) <= Get(p, m) < Sum(Only(floor, m), rows) + |rows|)
      && (forall m: nat :: Get(p, m) >= StakeOf(rows, m))
  {
    var rows, d, wp := Winners(stakes, w), Distributable(stakes, w, bps), WinningPool(stakes, w);
    RakeIs(stakes, w, bps);
    PoolsOrdered(stakes, w, bps);
    ExactRowsWithin(stakes, w, bps);
    RemainderBound(Exact(), stakes, w, bps, wp - 1);
    PayoutsWithWinner(Exact(), stakes, w, bps);
    WinningPoolPositive(stakes, w);
    var share, floor := ShareOf(Exact(), d, wp), FloorOf(d, wp);
    forall m: nat
      ensures Sum(Only(share, m), rows) == Sum(Only(floor, m), rows) >= StakeOf(rows, m)
    {
      forall s | s in rows
        ensures Only(share, m)(s) == Only(floor, m)(s) >= Only(StakeAmount(), m)(s)
      {
        ExactShare(d, s.amount, wp);
        FloorKeepsStake(d, s.amount, wp);
      }
      SumSame(Only(share, m), Only(floor, m), rows);
      SumLe(Only(StakeAmount(), m), Only(floor, m), rows);
    }
  }

  lemma {:induction false} ExactIsRounding()
    ensures IsRounding(Exact())
  {
  }

  // ------------------------------------------------------------------ fairness

  lemma {:induction false} ShareMonotone(rnd: real -> real, d: int, a: int, b: int, w: int)
    requires IsRounding(rnd) && d >= 0 && w > 0 && 0 <= a <= b
    ensures Share(rnd, d, a, w) <= Share(rnd, d, b, w)
  {
    var x, y := Quotient(a as real, w as real), Quotient(b as real, w as real);
    QuotientMonotone(a as real, b as real, w as real);
    assert rnd(x) <= rnd(y);
    assert 0.0 <= rnd(x) by { RoundingIsNear(rnd, x); }
    TimesMonotone(d as real, rnd(x), rnd(y));
  }

  lemma {:induction false} QuotientMonotone(a: real, b: real, w: real)
    requires w > 0.0 && 0.0 <= a <= b
    ensures 0.0 <= Quotient(a, w) <= Quotient(b, w)
  {
  }

  lemma {:induction false} TimesMonotone(d: real, x: real, y: real)
    requires d >= 0.0 && 0.0 <= x <= y
    ensures 0.0 <= Times(d, x) <= Times(d, y)
  {
    ProductPositive(d, y - x);
    ProductPositive(d, x);
    assert d * (y - x) == d * y - d * x;
  }

  lemma {:induction false} OnlyRow(f: Stake -> int, rows: seq<Stake>, i: nat)
    requires OneRowEach(rows) && i < |rows|
    ensures Sum(Only(f, rows[i].member), rows) == f(rows[i])
  {
    var g := Only(f, rows[i].member);
    SumSplit(g, rows, i);
    SumZero(g, rows[..i]);
    SumZero(g, rows[i + 1..]);
  }

  /** With one winning row each, a strictly smaller winning stake never earns more, in either layer. */
  lemma {:induction false} SmallerStakeNeverEarnsMore(rnd: real -> real, stakes: seq<Stake>, w: Outcome, bps: int, i: nat, j: nat)
    requires IsRounding(rnd) && ValidRake(bps) && OneRowEach(Winners(stakes, w))
    requires i < |Winners(stakes, w)| && j < |Winners(stakes, w)|
    requires Winners(stakes, w)[i].amount < Winners(stakes, w)[j].amount
    ensures Get(Payouts(rnd, stakes, w, bps), Winners(stakes, w)[i].member)
         <= Get(Payouts(rnd, stakes, w, bps), Winners(stakes, w)[j].member)
  {
    var rows := Winners(stakes, w);
    WinningPoolPositive(stakes, w);
    PoolsOrdered(stakes, w, bps);
    var d, wp := Distributable(stakes, w, bps), WinningPool(stakes, w);
    PayoutsWithWinner(rnd, stakes, w, bps);
    TopIsAhead(rows);
    OnlyRow(ShareOf(rnd, d, wp), rows, i);
    OnlyRow(ShareOf(rnd, d, wp), rows, j);
    ShareMonotone(rnd, d, rows[i].amount, rows[j].amount, wp);
    var t :| 0 <= t < |rows| && rows[t] == Top(rows);
    assert Ahead(Top(rows), rows[j]);
    assert t != i;
  }

  // ------------------------------------------------------------------ row order

  lemma {:induction false} SameMembers<T>(xs: seq<T>, ys: seq<T>)
    requires multiset(xs) == multiset(ys)
    ensures forall x :: x in xs <==> x in ys
  {
    forall x ensures x in xs <==> x in ys {
      assert x in xs <==> x in multiset(xs);
      assert x in ys <==> x in multiset(ys);
    }
  }

  lemma {:induction false} SameTop(xs: seq<Stake>, ys: seq<Stake>)
    requires xs != [] && ys != [] && multiset(xs) == multiset(ys)
    ensures Top(xs).member == Top(ys).member
  {
    SameMembers(xs, ys);
    TopIsAhead(xs);
    TopIsAhead(ys);
    assert Ahead(Top(xs), Top(ys)) && Ahead(Top(ys), Top(xs));
  }

  lemma {:induction false} SameAppearances(xs: seq<Stake>, ys: seq<Stake>, m: nat)
    requires multiset(xs) == multiset(ys) && Appears(xs, m)
    ensures Appears(ys, m)
  {
    SameMembers(xs, ys);
    var i :| 0 <= i < |xs| && xs[i].member == m;
    assert xs[i] in ys;
    var j :| 0 <= j < |ys| && ys[j] == xs[i];
  }

  lemma {:induction false} SameAccrual(f: Stake -> int, xs: seq<Stake>, ys: seq<Stake>)
    requires multiset(xs) == multiset(ys)
    ensures Total(Accrue(f, xs)) == Total(Accrue(f, ys))
    ensures forall m: nat :: Get(Accrue(f, xs), m) == Get(Accrue(f, ys), m)
    ensures forall m: nat :: Has(Accrue(f, xs), m) <==> Has(Accrue(f, ys), m)
  {
    AccrueMeaning(f, xs);
    AccrueMeaning(f, ys);
    SumPermutation(f, xs, ys);
    forall m: nat
      ensures Sum(Only(f, m), xs) == Sum(Only(f, m), ys)
      ensures Appears(xs, m) <==> Appears(ys, m)
    {
      SumPermutation(Only(f, m), xs, ys);
      if Appears(xs, m) { SameAppearances(xs, ys, m); }
      if Appears(ys, m) { SameAppearances(ys, xs, m); }
    }
  }

  /** The payout map depends only on the multiset of stakes, not on the order the query returned them in. */
  lemma {:induction false} SettlementIgnoresRowOrder(rnd: real -> real, xs: seq<Stake>, ys: seq<Stake>, w: Outcome, bps: int)
    requires multiset(xs) == multiset(ys)
    ensures forall m: nat :: Get(Payouts(rnd, xs, w, bps), m) == Get(Payouts(rnd, ys, w, bps), m)
    ensures forall m: nat :: Has(Payouts(rnd, xs, w, bps), m) <==> Has(Payouts(rnd, ys, w, bps), m)
    ensures Total(Payouts(rnd, xs, w, bps)) == Total(Payouts(rnd, ys, w, bps))
    ensures Withheld(xs, w, bps) == Withheld(ys, w, bps)
  {
    SamePools(xs, ys, w);
    SameWithheld(xs, ys, w, bps);
    if WinningPool(xs, w) > 0 {
      SameWinners(rnd, xs, ys, w, bps);
    } else {
      SameRefunds(rnd, xs, ys, w, bps);
    }
  }

  lemma {:induction false} SamePools(xs: seq<Stake>, ys: seq<Stake>, w: Outcome)
    requires multiset(xs) == multiset(ys)
    ensures multiset(Staked(xs)) == multiset(Staked(ys)) && Pool(xs) == Pool(ys)
    ensures multiset(Winners(xs, w)) == multiset(Winners(ys, w)) && WinningPool(xs, w) == WinningPool(ys, w)
  {
    FilterPermutation(Positive(), xs, ys);
    FilterPermutation(Winning(w), xs, ys);
    SumPermutation(StakeAmount(), Staked(xs), Staked(ys));
    SumPermutation(StakeAmount(), Winners(xs, w), Winners(ys, w));
  }

  lemma {:induction false} SameWithheld(xs: seq<Stake>, ys: seq<Stake>, w: Outcome, bps: int)
    requires Pool(xs) == Pool(ys) && WinningPool(xs, w) == WinningPool(ys, w)
    ensures Withheld(xs, w, bps) == Withheld(ys, w, bps)
  {
  }

  lemma {:induction false} SameRefunds(rnd: real -> real, xs: seq<Stake>, ys: seq<Stake>, w: Outcome, bps: int)
    requires multiset(Staked(xs)) == multiset(Staked(ys))
    requires WinningPool(xs, w) <= 0 && WinningPool(ys, w) <= 0
    ensures forall m: nat :: Get(Payouts(rnd, xs, w, bps), m) == Get(Payouts(rnd, ys, w, bps), m)
    ensures forall m: nat :: Has(Payouts(rnd, xs, w, bps), m) <==> Has(Payouts(rnd, ys, w, bps), m)
    ensures Total(Payouts(rnd, xs, w, bps)) == Total(Payouts(rnd, ys, w, bps))
  {
    SameAccrual(StakeAmount(), Staked(xs), Staked(ys));
    assert Payouts(rnd, xs, w, bps) == Accrue(StakeAmount(), Staked(xs));
    assert Payouts(rnd, ys, w, bps) == Accrue(StakeAmount(), Staked(ys));
  }

  lemma {:induction false} SameWinners(rnd: real -> real, xs: seq<Stake>, ys: seq<Stake>, w: Outcome, bps: int)
    requires multiset(Winners(xs, w)) == multiset(Winners(ys, w))
    requires WinningPool(xs, w) == WinningPool(ys, w) > 0 && Pool(xs) == Pool(ys)
    ensures forall m: nat :: Get(Payouts(rnd, xs, w, bps), m) == Get(Payouts(rnd, ys, w, bps), m)
    ensures forall m: nat :: Has(Payouts(rnd, xs, w, bps), m) <==> Has(Payouts(rnd, ys, w, bps), m)
    ensures Total(Payouts(rnd, xs, w, bps)) == Total(Payouts(rnd, ys, w, bps))
  {
    var us, vs := Winners(xs, w), Winners(ys, w);
    var f := ShareOf(rnd, Distributable(xs, w, bps), WinningPool(xs, w));
    assert f == ShareOf(rnd, Distributable(ys, w, bps), WinningPool(ys, w));
    SameAccrual(f, us, vs);
    assert Shares(rnd, xs, w, bps) == Accrue(f, us) && Shares(rnd, ys, w, bps) == Accrue(f, vs);
    WinningPoolPositive(xs, w);
    WinningPoolPositive(ys, w);
    SameTop(us, vs);
    AccrueMeaning(f, us);
    AccrueMeaning(f, vs);
    var r := Remainder(rnd, xs, w, bps);
    assert r == Remainder(rnd, ys, w, bps);
    if r > 0 {
      AddMeaning(Accrue(f, us), Top(us).member, r);
      AddMeaning(Accrue(f, vs), Top(vs).member, r);
    }
  }

  // ------------------------------------------------------------------ the dropped cent

  /** Takes the interval between twenty-eight threes and one third to its lower end and fixes everything else. */
  function ShortThird(): real -> real {
    (x: real) => if 0.3333333333333333333333333333 <= x <= 1.0 / 3.0 then 0.3333333333333333333333333333 else x
  }

  /**
   * Returning every winner's stake fails once quotients are rounded: three equal stakes with nobody against them
   * pay 100.02, 99.99 and 99.99, as Python computes it, while the exact rule pays 100.00 three times.
   */
  lemma {:induction false} DroppedCent(stakes: seq<Stake>)
    requires stakes == [Stake(1, Buy, 10000), Stake(2, Buy, 10000), Stake(3, Buy, 10000)]
    ensures IsRounding(ShortThird())
    ensures Payouts(ShortThird(), stakes, Buy, 0) == [Credit(1, 10002), Credit(2, 9999), Credit(3, 9999)]
    ensures Payouts(Exact(), stakes, Buy, 0) == [Credit(1, 10000), Credit(2, 10000), Credit(3, 10000)]
  {
    assert stakes == [] + [stakes[0]] + [stakes[1]] + [stakes[2]];
    AllStaked(stakes);
    ThreeRows(ShareOf(ShortThird(), 30000, 30000), stakes);
    ThreeRows(ShareOf(Exact(), 30000, 30000), stakes);
    ThreeRows(StakeAmount(), stakes);
    assert Quotient(10000.0, 30000.0) == 1.0 / 3.0;
    var p := Times(30000.0, 0.3333333333333333333333333333);
    assert p == 9999.999999999999999999999999;
    assert Share(ShortThird(), 30000, 10000, 30000) == 9999;
    ExactShare(30000, 10000, 30000);
    assert Top(stakes[..1]) == stakes[0];
    assert Top(stakes[..2]) == stakes[0];
    assert stakes[..2][..1] == stakes[..1];
  }

  lemma {:induction false} AllStaked(stakes: seq<Stake>)
    requires stakes == [Stake(1, Buy, 10000), Stake(2, Buy, 10000), Stake(3, Buy, 10000)]
    ensures Staked(stakes) == stakes && Winners(stakes, Buy) == stakes
    ensures Pool(stakes) == WinningPool(stakes, Buy) == 30000
  {
    FilterAll(Positive(), stakes);
    FilterAll(Winning(Buy), stakes);
    ThreeRows(StakeAmount(), stakes);
  }

  lemma {:induction false} ThreeRows(f: Stake -> int, rows: seq<Stake>)
    requires |rows| == 3 && OneRowEach(rows)
    ensures Sum(f, rows) == f(rows[0]) + f(rows[1]) + f(rows[2])
    ensures Accrue(f, rows) == [Credit(rows[0].member, f(rows[0])), Credit(rows[1].member, f(rows[1])),
                                Credit(rows[2].member, f(rows[2]))]
    ensures Total(Accrue(f, rows)) == Sum(f, rows)
  {
    var a, b := rows[..2], rows[..1];
    assert a[..1] == b && b[..0] == [];
    assert rows[0].member != rows[1].member && rows[0].member != rows[2].member && rows[1].member != rows[2].member;
    assert Sum(f, b) == f(rows[0]);
    assert Sum(f, a) == Sum(f, b) + f(rows[1]);
    assert Accrue(f, b) == [Credit(rows[0].member, f(rows[0]))];
    AddAbsent(Accrue(f, b), rows[1].member, f(rows[1]));
    AddAbsent(Accrue(f, a), rows[2].member, f(rows[2]));
    AccrueMeaning(f, rows);
  }
}
