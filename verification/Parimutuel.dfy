/**
 * Parimutuel settlement (consensus.py). The quotient and the product inside a row share are rounded by an
 * arbitrary function `rnd`: Python's 28-digit decimal context is one such function, and the identity gives
 * the exact rule. Amounts are whole cents, so ROUND_DOWN to 0.01 is a floor.
 */
module Parimutuel {
  import opened Sums
  import opened Arithmetic
  import opened Domain
  import opened Tally

  const BASIS_POINTS: int := 10_000

  /** 10^13 cents, the largest pool for which the rounded rule is analysed. */
  const POOL_LIMIT: int := 10_000_000_000_000

  /** v is within a relative error of 5 * 10^-28, half a unit in the 28th digit, of x. */
  ghost predicate Near(v: real, x: real) {
    -x <= 2000000000000000000000000000.0 * (v - x) <= x
  }

  /** A monotone rounding of the nonnegative numbers to 28 significant digits. */
  ghost predicate IsRounding(rnd: real -> real) {
    && (forall x {:trigger rnd(x)} :: x >= 0.0 ==> Near(rnd(x), x))
    && (forall x, y {:trigger rnd(x), rnd(y)} :: 0.0 <= x <= y ==> rnd(x) <= rnd(y))
  }

  function Exact(): real -> real { (x: real) => x }

  function Positive(): Stake -> bool { (s: Stake) => s.amount > 0 }

  function Winning(w: Outcome): Stake -> bool { (s: Stake) => s.outcome == w && s.amount > 0 }

  function StakeAmount(): Stake -> int { (s: Stake) => s.amount }

  function Staked(stakes: seq<Stake>): seq<Stake> { Filter(Positive(), stakes) }

  function Winners(stakes: seq<Stake>, w: Outcome): seq<Stake> { Filter(Winning(w), stakes) }

  function Pool(stakes: seq<Stake>): int { Sum(StakeAmount(), Staked(stakes)) }

  function WinningPool(stakes: seq<Stake>, w: Outcome): int { Sum(StakeAmount(), Winners(stakes, w)) }

  /** The fee on a losing pool, rounded down to a cent. */
  function Fee(losing: int, bps: int): int { losing * bps / BASIS_POINTS }

  function Rake(stakes: seq<Stake>, w: Outcome, bps: int): int {
    Fee(Pool(stakes) - WinningPool(stakes, w), bps)
  }

  function Distributable(stakes: seq<Stake>, w: Outcome, bps: int): int {
    Pool(stakes) - Rake(stakes, w, bps)
  }

  /** What one winning row of `a` cents receives out of `d` cents shared over `w` winning cents. */
  function Share(rnd: real -> real, d: int, a: int, w: int): int
    requires w > 0
  {
    RoundedQuotient(rnd, d, a, w).Floor
  }

  function RoundedQuotient(rnd: real -> real, d: int, a: int, w: int): real
    requires w > 0
  {
    rnd(Times(d as real, rnd(Quotient(a as real, w as real))))
  }

  function Quotient(x: real, y: real): real
    requires y != 0.0
  {
    x / y
  }

  function ShareOf(rnd: real -> real, d: int, w: int): Stake -> int
    requires w > 0
  {
    (s: Stake) => Share(rnd, d, s.amount, w)
  }

  /** The order of the key (amount, -member): s is at least as good as t. */
  predicate Ahead(s: Stake, t: Stake) {
    s.amount > t.amount || (s.amount == t.amount && s.member <= t.member)
  }

  /** The first row whose key is maximal, as the built-in `max` picks it. */
  function Top(rows: seq<Stake>): Stake
    requires rows != []
  {
    var n := |rows| - 1;
    if n == 0 then rows[0]
    else
      var best := Top(rows[..n]);
      if Ahead(best, rows[n]) then best else rows[n]
  }

  function Shares(rnd: real -> real, stakes: seq<Stake>, w: Outcome, bps: int): seq<Credit>
    requires WinningPool(stakes, w) > 0
  {
    Accrue(ShareOf(rnd, Distributable(stakes, w, bps), WinningPool(stakes, w)), Winners(stakes, w))
  }

  function Remainder(rnd: real -> real, stakes: seq<Stake>, w: Outcome, bps: int): int
    requires WinningPool(stakes, w) > 0
  {
    Distributable(stakes, w, bps) - Total(Shares(rnd, stakes, w, bps))
  }

  predicate ValidRake(bps: int) { 0 <= bps < BASIS_POINTS }

  /** The payout dictionary; None of the branches below depends on anything but the arguments. */
  function Payouts(rnd: real -> real, stakes: seq<Stake>, w: Outcome, bps: int): seq<Credit> {
    WinningPoolPositive(stakes, w);
    if WinningPool(stakes, w) <= 0 then Accrue(StakeAmount(), Staked(stakes))
    else
      var shares := Shares(rnd, stakes, w, bps);
      var remainder := Remainder(rnd, stakes, w, bps);
      if remainder > 0 then Add(shares, Top(Winners(stakes, w)).member, remainder) else shares
  }

  function Settle(rnd: real -> real, stakes: seq<Stake>, w: Outcome, bps: int): Result<seq<Credit>> {
    if ValidRake(bps) then Ok(Payouts(rnd, stakes, w, bps)) else Err(BadValue)
  }

  method RefundAll(stakes: seq<Stake>) returns (payouts: seq<Credit>)
    ensures payouts == Accrue(StakeAmount(), Staked(stakes))
  {
    payouts := [];
    for i := 0 to |stakes|
      invariant payouts == Accrue(StakeAmount(), Staked(stakes[..i]))
    {
      var s := stakes[i];
      assert stakes[..i + 1] == stakes[..i] + [s];
      FilterSnoc(Positive(), stakes[..i], s);
      if s.amount > 0 {
        AccrueSnoc(StakeAmount(), Staked(stakes[..i]), s);
        payouts := Add(payouts, s.member, s.amount);
      }
    }
    assert stakes[..|stakes|] == stakes;
  }

  method ShareOut(rnd: real -> real, winners: seq<Stake>, distributable: int, winningPool: int)
    returns (payouts: seq<Credit>)
    requires winningPool > 0
    ensures payouts == Accrue(ShareOf(rnd, distributable, winningPool), winners)
  {
    payouts := [];
    ghost var share := ShareOf(rnd, distributable, winningPool);
    for i := 0 to |winners|
      invariant payouts == Accrue(share, winners[..i])
    {
      var s := winners[i];
      assert winners[..i + 1] == winners[..i] + [s];
      AccrueSnoc(share, winners[..i], s);
      payouts := Add(payouts, s.member, Share(rnd, distributable, s.amount, winningPool));
    }
    assert winners[..|winners|] == winners;
  }

  method SettleParimutuel(rnd: real -> real, stakes: seq<Stake>, w: Outcome, bps: int)
    returns (r: Result<seq<Credit>>)
    ensures r == Settle(rnd, stakes, w, bps)
  {
    hide Share, Fee, Top, Accrue, Sum, Filter, Add;
    if bps < 0 || bps >= BASIS_POINTS {
      return Err(BadValue);
    }
    var winners := Winners(stakes, w);
    var totalPool := Pool(stakes);
    var winningPool := WinningPool(stakes, w);
    WinningPoolPositive(stakes, w);
    var payouts: seq<Credit>;
    if winningPool <= 0 {
      payouts := RefundAll(stakes);
      return Ok(payouts);
    }
    var losingPool := totalPool - winningPool;
    var rake := Fee(losingPool, bps);
    var distributable := totalPool - rake;
    payouts := ShareOut(rnd, winners, distributable, winningPool);
    assert payouts == Shares(rnd, stakes, w, bps);
    var remainder := distributable - Total(payouts);
    if remainder > 0 {
      var top := Top(winners);
      payouts := Add(payouts, top.member, remainder);
    }
    return Ok(payouts);
  }

  lemma {:induction false} AccrueSnoc(f: Stake -> int, rows: seq<Stake>, s: Stake)
    ensures Accrue(f, rows + [s]) == Add(Accrue(f, rows), s.member, f(s))
  {
    assert (rows + [s])[..|rows|] == rows;
  }

  // ------------------------------------------------------------------ pools

  lemma {:induction false} WinningPoolPositive(stakes: seq<Stake>, w: Outcome)
    ensures WinningPool(stakes, w) > 0 <==> Winners(stakes, w) != []
    ensures WinningPool(stakes, w) >= 0
    ensures forall s :: s in Winners(stakes, w) ==> 0 < s.amount <= WinningPool(stakes, w)
  {
    var rows := Winners(stakes, w);
    FilterMembers(Winning(w), stakes);
    SumNonNegative(StakeAmount(), rows);
    if rows != [] {
      assert rows[0] in rows;
    }
  }

  function PositiveAmount(): Stake -> int { (s: Stake) => if s.amount > 0 then s.amount else 0 }

  function WinningAmount(w: Outcome): Stake -> int {
    (s: Stake) => if s.outcome == w && s.amount > 0 then s.amount else 0
  }

  /** The winning pool is part of the pool and the rake comes out of the losing part only. */
  lemma {:induction false} PoolsOrdered(stakes: seq<Stake>, w: Outcome, bps: int)
    ensures 0 <= WinningPool(stakes, w) <= Pool(stakes)
    ensures ValidRake(bps) ==> 0 <= Rake(stakes, w, bps) <= Pool(stakes) - WinningPool(stakes, w)
  {
    SumFilter(StakeAmount(), Positive(), PositiveAmount(), stakes);
    SumFilter(StakeAmount(), Winning(w), WinningAmount(w), stakes);
    SumLe(WinningAmount(w), PositiveAmount(), stakes);
    WinningPoolPositive(stakes, w);
    if ValidRake(bps) {
      FeeBounds(Pool(stakes) - WinningPool(stakes, w), bps);
    }
  }

  lemma {:induction false} FeeBounds(losing: int, bps: int)
    requires losing >= 0 && ValidRake(bps)
    ensures 0 <= Fee(losing, bps) <= losing
  {
    assert 0 <= losing * bps <= losing * BASIS_POINTS;
  }

  lemma {:induction false} TopIsAhead(rows: seq<Stake>)
    requires rows != []
    ensures Top(rows) in rows
    ensures forall s :: s in rows ==> Ahead(Top(rows), s)
    ensures forall s :: s in rows ==> s.amount <= Top(rows).amount
    ensures forall s :: s in rows && s.amount == Top(rows).amount ==> Top(rows).member <= s.member
  {
    var n := |rows| - 1;
    if n > 0 {
      TopIsAhead(rows[..n]);
      assert rows == rows[..n] + [rows[n]];
    }
  }

  // ------------------------------------------------------------------ one row

  /** The quotient rule without rounding. */
  function FloorShare(d: int, a: int, w: int): int
    requires w > 0
  {
    d * a / w
  }

  lemma {:induction false} ExactShare(d: int, a: int, w: int)
    requires w > 0
    ensures Share(Exact(), d, a, w) == FloorShare(d, a, w) == d * a / w
  {
    var x := d as real * (a as real / w as real);
    assert x * w as real == d as real * a as real by {
      assert (a as real / w as real) * w as real == a as real;
    }
    FloorUnique(x, d * a, w);
  }

  lemma {:induction false} NearScaled(v: real, x: real, c: real)
    requires Near(v, x) && c >= 0.0
    ensures Near(v * c, x * c)
  {
    var gap := 2000000000000000000000000000.0 * (v - x);
    assert (x - gap) * c >= 0.0;
    assert (x + gap) * c >= 0.0;
    assert gap * c == 2000000000000000000000000000.0 * (v * c - x * c);
  }

  ghost predicate CloseTo(y: real, n: real, w: real) {
    -0.2 < y * w - n < 0.2
  }

  lemma {:induction false} RatioBack(a: real, w: real)
    requires w > 0.0 && a >= 0.0
    ensures (a / w) * w == a && a / w >= 0.0
  {
  }

  lemma {:induction false} ProductBound(d: int, a: int, limit: int)
    requires 0 < a <= d <= limit
    ensures 0 <= d * a <= limit * limit
  {
    assert d * a <= d * limit;
    assert (limit - d) * limit >= 0;
  }

  lemma {:induction false} RealProduct(d: int, a: int)
    ensures (d * a) as real == d as real * a as real
  {
  }

  lemma {:induction false} TwoRoundings(r: real, q: real, d: real, y: real, w: real, a: real)
    requires w > 0.0 && d >= 0.0 && r >= 0.0
    requires r * w == a && Near(q, r)
    requires d * q >= 0.0 ==> Near(y, d * q)
    ensures q >= 0.0 && d * q >= 0.0 && y >= 0.0
    ensures Near((d * q) * w, d * a)
    ensures Near(y * w, (d * q) * w)
  {
    assert q >= 0.0;
    assert d * q >= 0.0;
    NearScaled(q, r, w);
    NearScaled(q * w, a, d);
    assert (q * w) * d == (d * q) * w && a * d == d * a;
    NearScaled(y, d * q, w);
  }

  /** Multiplying the rounded share y back by w misses d * a by less than a fifth of a cent. */
  lemma {:induction false} RoundedProduct(d: real, a: real, w: real, r: real, q: real, y: real)
    requires w > 0.0 && d >= 0.0 && r >= 0.0 && r * w == a
    requires d * a <= 100000000000000000000000000.0
    requires Near(q, r) && (d * q >= 0.0 ==> Near(y, d * q))
    ensures q >= 0.0 && d * q >= 0.0 && y >= 0.0
    ensures CloseTo(y, d * a, w)
  {
    TwoRoundings(r, q, d, y, w, a);
    ErrorBudget(d * a, (d * q) * w, y * w);
  }

  lemma {:induction false} ErrorBudget(exact: real, product: real, result: real)
    requires exact <= 100000000000000000000000000.0
    requires Near(product, exact) && Near(result, product)
    ensures -0.2 < result - exact < 0.2
  {
  }

  /** Rounding down a value whose w-fold is within a fifth of n gives n / w, or one less if w divides n. */
  /** The same with the multiples of w named: near is y * w, m is k * w, and n is m + rest. */
  lemma {:induction false} FloorNearAt(y: real, w: real, near: real, k: int, m: real, rest: real)
    requires w > 0.0 && near == Times(y, w)
    requires Times(k as real, w) == m && Times((k + 1) as real, w) == m + w && Times((k - 1) as real, w) == m - w
    requires rest == 0.0 || 1.0 <= rest
    requires rest <= w - 1.0 && -0.2 < near - (m + rest) < 0.2
    ensures if rest == 0.0 && y < k as real then y.Floor == k - 1 else y.Floor == k
  {
    hide Times;
    if near < m {
      FloorBetween(y, k - 1, w);
    } else {
      FloorBetween(y, k, w);
    }
  }

  lemma {:induction false} FloorNear(y: real, n: int, w: int)
    requires w > 0 && y >= 0.0 && CloseTo(y, n as real, w as real)
    ensures y.Floor == n / w || y.Floor == n / w - 1
    ensures y.Floor == n / w - 1 <==> n % w == 0 && y < (n / w) as real
    ensures y.Floor >= 0
  {
    var k, rest := n / w, n % w;
    DivMod(n, w);
    Multiples(k, w);
    FloorNearAt(y, w as real, Times(y, w as real), k, (k * w) as real, rest as real);
  }

  lemma {:induction false} DivMod(n: int, w: int)
    requires w > 0
    ensures n as real == (n / w * w) as real + (n % w) as real && 0 <= n % w <= w - 1
  {
  }

  /** share is the exact floor, or one cent less; the latter exactly when the exact share is whole and y misses it. */
  ghost predicate RoundsDown(share: int, y: real, d: int, a: int, w: int)
    requires w > 0
  {
    && (share == FloorShare(d, a, w) || share == FloorShare(d, a, w) - 1)
    && (share == FloorShare(d, a, w) - 1 <==> d * a % w == 0 && y < FloorShare(d, a, w) as real)
    && share >= 0
  }

  lemma {:induction false} RoundedIsClose(d: int, a: int, w: int, r: real, q: real, y: real)
    requires 0 < a <= w <= d <= POOL_LIMIT && r == Quotient(a as real, w as real)
    requires Near(q, r) && (Times(d as real, q) >= 0.0 ==> Near(y, Times(d as real, q)))
    ensures y >= 0.0 && CloseTo(y, (d * a) as real, w as real)
  {
    ProductBound(d, a, POOL_LIMIT);
    RealProduct(d, a);
    RatioBack(a as real, w as real);
    RoundedProduct(d as real, a as real, w as real, r, q, y);
  }

  lemma {:induction false} RoundedFloor(d: int, a: int, w: int, r: real, q: real, y: real)
    requires 0 < a <= w <= d <= POOL_LIMIT && r == Quotient(a as real, w as real)
    requires Near(q, r) && (Times(d as real, q) >= 0.0 ==> Near(y, Times(d as real, q)))
    ensures RoundsDown(y.Floor, y, d, a, w)
  {
    RoundedIsClose(d, a, w, r, q, y);
    FloorNear(y, d * a, w);
  }

  lemma {:induction false} RoundingIsNear(rnd: real -> real, x: real)
    requires IsRounding(rnd)
    ensures x >= 0.0 ==> Near(rnd(x), x)
  {
  }

  /** The two roundings inside one share: q for the quotient r, y for the product. */
  lemma {:induction false} ShareSteps(rnd: real -> real, d: int, a: int, w: int) returns (r: real, q: real, y: real)
    requires IsRounding(rnd) && w > 0 && a >= 0
    ensures r == Quotient(a as real, w as real) && Near(q, r)
    ensures Times(d as real, q) >= 0.0 ==> Near(y, Times(d as real, q))
    ensures RoundedQuotient(rnd, d, a, w) == y
  {
    r := Quotient(a as real, w as real);
    RatioBack(a as real, w as real);
    RoundingIsNear(rnd, r);
    q := rnd(r);
    var p := Times(d as real, q);
    RoundingIsNear(rnd, p);
    y := rnd(p);
  }

  /**
   * A 28-digit share is the exact floor, or one cent less; it is one cent less exactly when the exact share is
   * a whole number of cents and the rounded product falls short of it.
   */
  lemma {:induction false} RoundedShare(rnd: real -> real, d: int, a: int, w: int)
    requires IsRounding(rnd) && 0 < a <= w <= d <= POOL_LIMIT
    ensures RoundsDown(Share(rnd, d, a, w), RoundedQuotient(rnd, d, a, w), d, a, w)
  {
    var r, q, y := ShareSteps(rnd, d, a, w);
    RoundedFloor(d, a, w, r, q, y);
  }
}
