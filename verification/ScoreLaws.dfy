/** The leaderboard figure by figure: which markets, stakes and entries each one counts, and the order of the rows. */
module ScoreLaws {
  import opened Sums
  import opened Domain
  import opened Tables
  import opened Parimutuel
  import opened Steps
  import opened LedgerLaws
  import opened Invariants
  import opened LastWins
  import opened Scoring
  import Brier

  function StakeOn(m: nat, o: Outcome): Bet -> int {
    (b: Bet) => if b.member == m && b.outcome == o then b.stake else 0
  }

  function BetOn(o: Outcome): Bet -> int { (b: Bet) => if b.outcome == o then b.stake else 0 }

  /** The market was settled with a winner, and the member has a bet on it. */
  ghost predicate TookPart(mk: Market, m: nat) {
    mk.status == Settled && mk.winner.Some? && exists b :: b in mk.bets && b.member == m
  }

  /** The outcome on which the member staked most; of equal stakes BUY comes first, then SELL. */
  ghost function Favourite(mk: Market, m: nat): Outcome {
    var buy, sell, hold := Sum(StakeOn(m, Buy), mk.bets), Sum(StakeOn(m, Sell), mk.bets), Sum(StakeOn(m, Hold), mk.bets);
    if buy >= sell && buy >= hold then Buy else if sell >= hold then Sell else Hold
  }

  /** How far the share x of a total is from certainty in what happened, squared. */
  ghost function Off(x: int, total: int, happened: bool): real
    requires total > 0
  {
    var gap := x as real / total as real - if happened then 1.0 else 0.0;
    gap * gap
  }

  /** The Brier score of the member's split on one market, in millionths, rounded half up; 0 where it does not count. */
  ghost function SplitScore(m: nat): Market -> int {
    (mk: Market) =>
      var total := Sum(StakeBy(m), mk.bets);
      if !TookPart(mk, m) || total <= 0 then 0
      else
        var off := Off(Sum(StakeOn(m, Buy), mk.bets), total, mk.winner == Some(Buy))
                 + Off(Sum(StakeOn(m, Sell), mk.bets), total, mk.winner == Some(Sell))
                 + Off(Sum(StakeOn(m, Hold), mk.bets), total, mk.winner == Some(Hold));
        HalfUp(off * 1000000.0)
  }

  // ------------------------------------------------------------------ one market

  lemma {:induction false} StakesAre(mk: Market, m: nat)
    ensures forall o: Outcome :: Sum(Brier.On(o), StakesBy(mk, m)) == Sum(StakeOn(m, o), mk.bets)
    ensures Brier.TotalStake(StakesBy(mk, m)) == Sum(StakeBy(m), mk.bets)
    ensures StakesBy(mk, m) != [] <==> exists b :: b in mk.bets && b.member == m
  {
    var mine := Filter(By(m), mk.bets);
    forall o: Outcome ensures Sum(Brier.On(o), StakesBy(mk, m)) == Sum(StakeOn(m, o), mk.bets) {
      SumMapped(Brier.On(o), AsStake(), BetOn(o), mine);
      SumFilter(BetOn(o), By(m), StakeOn(m, o), mk.bets);
    }
    SumMapped(StakeAmount(), AsStake(), BetStake(), mine);
    SumFilter(BetStake(), By(m), StakeBy(m), mk.bets);
    FilterMembers(By(m), mk.bets);
    if mine != [] {
      assert mine[0] in mine;
    }
  }

  lemma {:induction false} StakedSomething(mk: Market, m: nat, members: nat)
    requires MarketWell(mk, members) && TookPart(mk, m)
    ensures Sum(StakeBy(m), mk.bets) > 0
  {
    var b :| b in mk.bets && b.member == m;
    SumNonNegative(StakeBy(m), mk.bets);
    assert StakeBy(m)(b) > 0;
  }

  lemma {:induction false} OffIsMiss(p: Brier.Forecast, o: Outcome, w: Outcome, x: int, total: int)
    requires total > 0 && p.At(o) == Brier.Portion(x, total)
    ensures Brier.Miss(p, o, w) == Off(x, total, w == o)
  {
  }

  lemma {:induction false} SplitIsScored(p: Brier.Forecast, w: Outcome, b: int, s: int, h: int, total: int)
    requires total > 0
    requires p == Brier.Forecast(Brier.Portion(b, total), Brier.Portion(s, total), Brier.Portion(h, total))
    ensures Brier.RawScore(p, w) == Off(b, total, w == Buy) + Off(s, total, w == Sell) + Off(h, total, w == Hold)
  {
    hide Off, Brier.Portion, Brier.Miss, Brier.Misses;
    OffIsMiss(p, Buy, w, b, total);
    OffIsMiss(p, Sell, w, s, total);
    OffIsMiss(p, Hold, w, h, total);
    Brier.ThreeMisses(p, w);
  }

  lemma {:induction false} MarketHit(mk: Market, m: nat, members: nat)
    requires MarketWell(mk, members) && TookPart(mk, m)
    ensures Hit(m)(mk) <==> mk.winner == Some(Favourite(mk, m))
  {
    hide Brier.Allocation, TopOf, StakesBy;
    StakesAre(mk, m);
    StakedSomething(mk, m, members);
    TopIsLargestStake(StakesBy(mk, m));
  }

  lemma {:induction false} MarketPoints(mk: Market, m: nat, members: nat)
    requires MarketWell(mk, members) && TookPart(mk, m)
    ensures Points(m)(mk) == SplitScore(m)(mk)
  {
    hide Off, Brier.Portion, Brier.RawScore, HalfUp, StakesBy;
    StakesAre(mk, m);
    StakedSomething(mk, m, members);
    SplitIsScored(Brier.Allocation(StakesBy(mk, m)), mk.winner.value, Sum(StakeOn(m, Buy), mk.bets),
                  Sum(StakeOn(m, Sell), mk.bets), Sum(StakeOn(m, Hold), mk.bets), Sum(StakeBy(m), mk.bets));
  }

  /** A market counts for a member, is a hit and scores by the member's stakes on it alone. */
  lemma {:induction false} MarketCounts(mk: Market, m: nat, members: nat)
    requires MarketWell(mk, members)
    ensures Counts(m)(mk) <==> TookPart(mk, m)
    ensures TookPart(mk, m) ==> (Hit(m)(mk) <==> mk.winner == Some(Favourite(mk, m)))
    ensures TookPart(mk, m) ==> Points(m)(mk) == SplitScore(m)(mk)
  {
    hide Hit, Points, SplitScore, Favourite, StakesBy;
    StakesAre(mk, m);
    if TookPart(mk, m) {
      MarketHit(mk, m, members);
      MarketPoints(mk, m, members);
    }
  }

  // ------------------------------------------------------------------ one row

  ghost function Parts(markets: seq<Market>, m: nat): set<nat> {
    set k: nat | k < |markets| && TookPart(markets[k], m)
  }

  ghost function HitParts(markets: seq<Market>, m: nat): set<nat> {
    set k: nat | k < |markets| && TookPart(markets[k], m) && markets[k].winner == Some(Favourite(markets[k], m))
  }

  lemma {:induction false} FilterTwice<T>(p: T -> bool, q: T -> bool, both: T -> bool, xs: seq<T>)
    requires forall x :: both(x) <==> p(x) && q(x)
    ensures Filter(q, Filter(p, xs)) == Filter(both, xs)
  {
    if xs != [] {
      var n := |xs| - 1;
      FilterTwice(p, q, both, xs[..n]);
      if p(xs[n]) {
        FilterSnoc(q, Filter(p, xs[..n]), xs[n]);
      }
    }
  }

  function CountsAndHits(m: nat): Market -> bool { (mk: Market) => Counts(m)(mk) && Hit(m)(mk) }

  lemma {:induction false} PlayedIs(s: State, m: nat)
    requires Consistent(s)
    ensures |Played(s, m)| == |Parts(s.markets, m)|
    ensures CountWhere(Hit(m), Played(s, m)) == |HitParts(s.markets, m)|
    ensures Sum(Points(m), Played(s, m)) == Sum(SplitScore(m), s.markets)
  {
    hide Counts, Hit, Points, TookPart, Favourite, Off, HalfUp;
    forall mk | mk in s.markets
      ensures Counts(m)(mk) <==> TookPart(mk, m)
      ensures TookPart(mk, m) ==> (Hit(m)(mk) <==> mk.winner == Some(Favourite(mk, m)))
      ensures SplitScore(m)(mk) == if Counts(m)(mk) then Points(m)(mk) else 0
    {
      var k :| 0 <= k < |s.markets| && s.markets[k] == mk;
      assert MarketWell(s.markets[k], |s.members|);
      MarketCounts(mk, m, |s.members|);
    }
    SumFilter(Points(m), Counts(m), SplitScore(m), s.markets);
    CountIsCardinality(Counts(m), s.markets);
    assert Places(Counts(m), s.markets) == Parts(s.markets, m);
    FilterTwice(Counts(m), Hit(m), CountsAndHits(m), s.markets);
    CountIsCardinality(CountsAndHits(m), s.markets);
    assert Places(CountsAndHits(m), s.markets) == HitParts(s.markets, m);
  }

  /**
   * Every figure of a row: balance and net profit are sums over the ledger that differ by the grants; the settled
   * markets and the hits are counted in the tables; the hit rate is their quotient in 0.0001 and the average score that
   * of the scores of those markets in 0.000001, both rounded half even, and missing where nothing was played.
   */
  lemma {:induction false} RowFigures(s: State, row: MemberScore)
    requires Consistent(s) && row in Leaderboard(s)
    ensures row.member < |s.members| && s.members[row.member].active
    ensures row.balance == Sum(OfMember(row.member), s.ledger) == row.netProfit + Sum(GrantTo(row.member), s.ledger)
    ensures row.settled == |Parts(s.markets, row.member)| && row.hits == |HitParts(s.markets, row.member)|
    ensures row.settled == 0 ==> row.hitRate == 0 && row.brier == None
    ensures row.settled > 0 ==>
      && row.hitRate == HalfEven((row.hits * 10_000) as real / row.settled as real)
      && row.brier == Some(HalfEven(Sum(SplitScore(row.member), s.markets) as real / row.settled as real))
  {
    hide Played, HalfEven;
    OnBoard(s, row);
    BalanceIsProfitPlusGrants(s.ledger, row.member);
    PlayedIs(s, row.member);
  }

  // ------------------------------------------------------------------ the order of the rows

  ghost predicate Ascending(rows: seq<MemberScore>) {
    forall i, j :: 0 <= i < j < |rows| ==> rows[i].member < rows[j].member
  }

  lemma {:induction false} FilterAscending(p: MemberScore -> bool, rows: seq<MemberScore>)
    requires Ascending(rows)
    ensures Ascending(Filter(p, rows))
  {
    if rows != [] {
      var n := |rows| - 1;
      var front := Filter(p, rows[..n]);
      FilterAscending(p, rows[..n]);
      FilterMembers(p, rows[..n]);
      forall i | 0 <= i < |front| ensures front[i].member < rows[n].member {
        assert front[i] in rows[..n];
      }
    }
  }

  lemma {:induction false} AcrossParts(front: seq<MemberScore>, back: seq<MemberScore>, a: MemberScore, b: MemberScore)
    requires Ascending(front + back) && a in front && b in back
    ensures a.member < b.member
  {
    var x :| 0 <= x < |front| && front[x] == a;
    var y :| 0 <= y < |back| && back[y] == b;
    assert (front + back)[x] == a && (front + back)[|front| + y] == b;
  }

  /** Two rows that pass a filter keep their order in it. */
  lemma {:induction false} FilterKeepsOrder(p: MemberScore -> bool, rows: seq<MemberScore>, i: nat, j: nat)
    requires i < j < |rows| && p(rows[i]) && p(rows[j]) && Ascending(Filter(p, rows))
    ensures rows[i].member < rows[j].member
  {
    var front, back := rows[..j], rows[j..];
    assert rows == front + back;
    FilterAppend(p, front, back);
    FilterMembers(p, front);
    FilterMembers(p, back);
    assert front[i] in Filter(p, front) && back[0] in Filter(p, back);
    AcrossParts(Filter(p, front), Filter(p, back), rows[i], rows[j]);
  }

  lemma {:induction false} ActiveAscending(members: seq<Member>)
    ensures forall i, j :: 0 <= i < j < |ActiveIds(members)| ==> ActiveIds(members)[i] < ActiveIds(members)[j]
  {
    if members != [] {
      var n := |members| - 1;
      ActiveAscending(members[..n]);
      ActiveMeaning(members[..n]);
      forall i | 0 <= i < |ActiveIds(members[..n])| ensures ActiveIds(members[..n])[i] < n {
        assert ActiveIds(members[..n])[i] in ActiveIds(members[..n]);
      }
    }
  }

  /** A lower average score is better, and any score is better than none. */
  ghost predicate Better(a: Option<int>, b: Option<int>) { a.Some? && (b.None? || a.value < b.value) }

  lemma {:induction false} RowsAscending(s: State)
    ensures Ascending(Map(ScoreOf(s), ActiveIds(s.members)))
  {
    hide Played, Counts, Hit, Points, HalfEven;
    ActiveAscending(s.members);
    forall m: nat ensures ScoreOf(s)(m).member == m {
    }
  }

  lemma {:induction false} TiesById(s: State, i: nat, j: nat)
    requires i < j < |Leaderboard(s)| && SameKey(Leaderboard(s)[i])(Leaderboard(s)[j])
    ensures Leaderboard(s)[i].member < Leaderboard(s)[j].member
  {
    hide Ranked, ScoreOf, BrierKey;
    var rows, p := Map(ScoreOf(s), ActiveIds(s.members)), SameKey(Leaderboard(s)[i]);
    RankedIsStableSort(rows, Leaderboard(s)[i]);
    RowsAscending(s);
    FilterAscending(p, rows);
    FilterKeepsOrder(p, Leaderboard(s), i, j);
  }

  /** The sort keys compare like the scores, every score being below the key of having none. */
  lemma {:induction false} KeysCompare(a: MemberScore, b: MemberScore)
    requires a.brier.Some? ==> a.brier.value < 9_000_000
    requires b.brier.Some? ==> b.brier.value < 9_000_000
    ensures BrierKey(a) < BrierKey(b) <==> Better(a.brier, b.brier)
    ensures BrierKey(a) == BrierKey(b) <==> a.brier == b.brier
  {
  }

  /**
   * The order of the board leaves nothing open: the larger net profit first; of equal profits the better average score,
   * members without a score behind those with one; of equal scores the member who joined first.
   */
  lemma {:induction false} BoardOrder(s: State, i: nat, j: nat)
    requires Consistent(s) && i < j < |Leaderboard(s)|
    ensures var a, b := Leaderboard(s)[i], Leaderboard(s)[j];
      || a.netProfit > b.netProfit
      || (a.netProfit == b.netProfit && (Better(a.brier, b.brier) || (a.brier == b.brier && a.member < b.member)))
  {
    hide Ranked, ScoreFor, BrierKey;
    var board := Leaderboard(s);
    var a, b := board[i], board[j];
    RankedIsStableSort(Map(ScoreOf(s), ActiveIds(s.members)), a);
    assert a in board && b in board;
    OnBoard(s, a);
    OnBoard(s, b);
    ScoresInRange(s, a.member);
    ScoresInRange(s, b.member);
    assert Before(a, b);
    KeysCompare(a, b);
    if SameKey(a)(b) {
      TiesById(s, i, j);
    }
  }
}
