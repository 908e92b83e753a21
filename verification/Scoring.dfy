/** The leaderboard (scoring.py) as a function of the database, and how it agrees with the ledger. */
module Scoring {
  import opened Sums
  import opened Domain
  import opened Tables
  import opened Parimutuel
  import opened Steps
  import opened LedgerLaws
  import opened Invariants
  import opened Conservation
  import opened LastWins
  import Brier

  /** Hit rate in 0.0001, average Brier score in 0.000001. */
  datatype MemberScore = MemberScore(member: nat, balance: int, netProfit: int, settled: nat, hits: nat, hitRate: int,
                                     brier: Option<int>)

  function ProfitOf(m: nat): Entry -> int {
    (e: Entry) => if e.member == m && e.kind in {BetLock, BetRefund, CancelRefund, Payout} then e.amount else 0
  }

  function NetProfit(ledger: seq<Entry>, m: nat): int { Sum(ProfitOf(m), ledger) }

  function GrantTo(m: nat): Entry -> int { (e: Entry) => if e.member == m && e.kind == Grant then e.amount else 0 }

  function Grants(ledger: seq<Entry>, m: nat): int { Sum(GrantTo(m), ledger) }

  function ActiveIds(members: seq<Member>): seq<nat> {
    if members == [] then []
    else
      var n := |members| - 1;
      ActiveIds(members[..n]) + if members[n].active then [n] else []
  }

  /** The rows of one member on a market, as settlement reads them. */
  function StakesBy(mk: Market, m: nat): seq<Stake> { Rows(Filter(By(m), mk.bets)) }

  /** A settled market on which m had bets. */
  function Counts(m: nat): Market -> bool {
    (mk: Market) => mk.status == Settled && mk.winner.Some? && StakesBy(mk, m) != []
  }

  /** `max` over the outcomes by allocated probability: the first of the largest. */
  function TopOf(p: Brier.Forecast): Outcome {
    FirstLeading(p.buy >= p.sell && p.buy >= p.hold, p.sell >= p.hold)
  }

  function Hit(m: nat): Market -> bool {
    (mk: Market) => mk.winner == Some(TopOf(Brier.Allocation(StakesBy(mk, m))))
  }

  function Points(m: nat): Market -> int {
    (mk: Market) => if mk.winner.Some? then Brier.Score(Brier.Allocation(StakesBy(mk, m)), mk.winner.value) else 0
  }

  function Played(s: State, m: nat): seq<Market> { Filter(Counts(m), s.markets) }

  function ScoreFor(s: State, m: nat, settled: nat, hits: nat, total: int): MemberScore {
    MemberScore(m, Balance(s.ledger, m), NetProfit(s.ledger, m), settled, hits,
                if settled > 0 then HalfEven((hits * 10_000) as real / settled as real) else 0,
                if settled > 0 then Some(HalfEven(total as real / settled as real)) else None)
  }

  function ScoreOf(s: State): nat -> MemberScore {
    (m: nat) => ScoreFor(s, m, |Played(s, m)|, CountWhere(Hit(m), Played(s, m)), Sum(Points(m), Played(s, m)))
  }

  /** Nobody scores 9, the key of members without a score. */
  function BrierKey(score: MemberScore): int { if score.brier.Some? then score.brier.value else 9_000_000 }

  predicate Before(a: MemberScore, b: MemberScore) {
    a.netProfit > b.netProfit || (a.netProfit == b.netProfit && BrierKey(a) <= BrierKey(b))
  }

  function Inserted(sorted: seq<MemberScore>, x: MemberScore): seq<MemberScore> {
    if sorted == [] || Before(sorted[|sorted| - 1], x) then sorted + [x]
    else Inserted(sorted[..|sorted| - 1], x) + [sorted[|sorted| - 1]]
  }

  /** The stable sort by net profit, highest first, then by Brier score, lowest first. */
  function Ranked(scores: seq<MemberScore>): seq<MemberScore> {
    if scores == [] then [] else Inserted(Ranked(scores[..|scores| - 1]), scores[|scores| - 1])
  }

  function Leaderboard(s: State): seq<MemberScore> { Ranked(Map(ScoreOf(s), ActiveIds(s.members))) }

  // ------------------------------------------------------------------ ranking

  ghost predicate InOrder(scores: seq<MemberScore>) {
    forall i, j :: 0 <= i < j < |scores| ==> Before(scores[i], scores[j])
  }

  function SameKey(x: MemberScore): MemberScore -> bool {
    (y: MemberScore) => y.netProfit == x.netProfit && BrierKey(y) == BrierKey(x)
  }

  lemma {:induction false} InsertedMembers(sorted: seq<MemberScore>, x: MemberScore)
    ensures multiset(Inserted(sorted, x)) == multiset(sorted) + multiset{x}
  {
    if sorted != [] && !Before(sorted[|sorted| - 1], x) {
      var n := |sorted| - 1;
      assert sorted == sorted[..n] + [sorted[n]];
      InsertedMembers(sorted[..n], x);
    }
  }

  lemma {:induction false} InOrderSnoc(scores: seq<MemberScore>, x: MemberScore)
    requires InOrder(scores) && forall y :: y in scores ==> Before(y, x)
    ensures InOrder(scores + [x])
  {
  }

  lemma {:induction false} InsertedInOrder(sorted: seq<MemberScore>, x: MemberScore)
    requires InOrder(sorted)
    ensures InOrder(Inserted(sorted, x))
  {
    if sorted != [] {
      var n := |sorted| - 1;
      var front, last := sorted[..n], sorted[n];
      if Before(last, x) {
        InOrderSnoc(sorted, x);
      } else {
        InsertedInOrder(front, x);
        InsertedMembers(front, x);
        forall y | y in Inserted(front, x) ensures Before(y, last) {
          assert y in multiset(Inserted(front, x));
        }
        InOrderSnoc(Inserted(front, x), last);
      }
    }
  }

  /** The new element goes behind everything it ties with. */
  lemma {:induction false} InsertedBehindTies(sorted: seq<MemberScore>, x: MemberScore, key: MemberScore)
    ensures Filter(SameKey(key), Inserted(sorted, x)) == Filter(SameKey(key), sorted) + if SameKey(key)(x) then [x] else []
  {
    FilterSnoc(SameKey(key), sorted, x);
    if sorted != [] && !Before(sorted[|sorted| - 1], x) {
      var n := |sorted| - 1;
      InsertedBehindTies(sorted[..n], x, key);
      FilterSnoc(SameKey(key), Inserted(sorted[..n], x), sorted[n]);
    }
  }

  /** The board is ordered, loses nobody, and keeps members with equal keys in their original order. */
  lemma {:induction false} RankedIsStableSort(scores: seq<MemberScore>, key: MemberScore)
    ensures InOrder(Ranked(scores))
    ensures multiset(Ranked(scores)) == multiset(scores)
    ensures Filter(SameKey(key), Ranked(scores)) == Filter(SameKey(key), scores)
  {
    if scores != [] {
      var n := |scores| - 1;
      assert scores == scores[..n] + [scores[n]];
      RankedIsStableSort(scores[..n], key);
      InsertedInOrder(Ranked(scores[..n]), scores[n]);
      InsertedMembers(Ranked(scores[..n]), scores[n]);
      InsertedBehindTies(Ranked(scores[..n]), scores[n], key);
      FilterSnoc(SameKey(key), scores[..n], scores[n]);
    }
  }

  // ------------------------------------------------------------------ profit and ledger

  lemma {:induction false} BalanceIsProfitPlusGrants(ledger: seq<Entry>, m: nat)
    ensures Balance(ledger, m) == NetProfit(ledger, m) + Grants(ledger, m)
  {
    SumAdd(ProfitOf(m), GrantTo(m), OfMember(m), ledger);
  }

  /** Every member holds exactly the initial grant, nobody else any. */
  ghost predicate GrantedOnce(cfg: Config, s: State) {
    forall m: nat :: Grants(s.ledger, m) == if m < |s.members| then cfg.initialPoints else 0
  }

  lemma {:induction false} NoGrants(es: seq<Entry>, m: nat)
    requires forall e :: e in es ==> e.kind != Grant
    ensures Grants(es, m) == 0
  {
    SumZero(GrantTo(m), es);
  }

  lemma {:induction false} LedgerWithoutGrants(cfg: Config, s: State, t: State, es: seq<Entry>)
    requires GrantedOnce(cfg, s) && |t.members| == |s.members| && t.ledger == s.ledger + es
    requires forall e :: e in es ==> e.kind != Grant
    ensures GrantedOnce(cfg, t)
  {
    forall m: nat ensures Grants(t.ledger, m) == Grants(s.ledger, m) {
      SumAppend(GrantTo(m), s.ledger, es);
      NoGrants(es, m);
    }
  }

  lemma {:induction false} CreditsAreNoGrants(ledger: seq<Entry>, k: nat, kind: EntryKind, bets: seq<Bet>, cfg: Config,
                                              w: Outcome, members: nat)
    requires BetsWell(bets, members) && kind != Grant
    ensures forall e :: e in NewEntries(ledger, k, kind, Payouts(cfg.rnd, Rows(bets), w, cfg.rakeBps)) ==> e.kind == kind
    ensures forall e :: e in NewEntries(ledger, k, kind, StakeTotals(bets)) ==> e.kind == kind
  {
    PayoutKeys(cfg.rnd, bets, w, cfg.rakeBps, members);
    NewEntriesShape(ledger, k, kind, Payouts(cfg.rnd, Rows(bets), w, cfg.rakeBps));
    NewEntriesShape(ledger, k, kind, StakeTotals(bets));
  }

  /** A call that writes the ledger writes no grant, except when a member is created. */
  lemma {:induction false} SingleGrantedOnce(cfg: Config, s: State, step: Step)
    requires Consistent(s) && GrantedOnce(cfg, s) && Single(step)
    ensures GrantedOnce(cfg, Apply(cfg, s, step))
  {
    hide BuildDecision, ExecuteDecision, ResolveMarket, Tick, Payouts;
    var t := Apply(cfg, s, step);
    match step {
      case NewMember =>
        forall m: nat ensures Grants(t.ledger, m) == if m < |t.members| then cfg.initialPoints else 0 {
          SumSnoc(GrantTo(m), s.ledger, Entry(|s.members|, None, Grant, cfg.initialPoints));
          assert Grants(s.ledger, m) == if m < |s.members| then cfg.initialPoints else 0;
        }
      case Allocate(k, m, lots, now) =>
        if PlaceAllocation(cfg, s, k, m, lots, now).Ok? {
          AllocateEffect(cfg, s, k, m, lots, now);
          var bets := s.markets[k].bets;
          LedgerWithoutGrants(cfg, s, t, AllocationEntries(k, m, Previous(bets, m), Sum(LotAmount(), Cleaned(lots))));
        }
      case SettleUp(k) =>
        if SettleMarket(cfg, s, k).Ok? {
          var mk := s.markets[k];
          assert MarketWell(mk, |s.members|);
          CreditsAreNoGrants(s.ledger, k, Payout, mk.bets, cfg, mk.winner.value, |s.members|);
          LedgerWithoutGrants(cfg, s, t, NewEntries(s.ledger, k, Payout, Paid(cfg, mk)));
        }
      case Cancel(k) =>
        if CancelMarket(s, k).Ok? {
          var mk := s.markets[k];
          assert MarketWell(mk, |s.members|);
          CreditsAreNoGrants(s.ledger, k, CancelRefund, mk.bets, cfg, Buy, |s.members|);
          LedgerWithoutGrants(cfg, s, t, NewEntries(s.ledger, k, CancelRefund, StakeTotals(mk.bets)));
        }
      case _ => LedgerUntouched(cfg, s, step);
    }
  }

  lemma {:induction false} LedgerUntouched(cfg: Config, s: State, step: Step)
    requires Single(step) && !step.NewMember? && !step.Allocate? && !step.SettleUp? && !step.Cancel?
    ensures Apply(cfg, s, step).ledger == s.ledger && |Apply(cfg, s, step).members| == |s.members|
  {
    match step {
      case Decide(k, q) =>
        if BuildDecision(cfg, s, k, q).Ok? { DecideEffect(cfg, s, k, q); }
      case Approve(d, env) => ExecuteEffect(cfg, s, d, env);
      case _ =>
    }
  }

  lemma {:induction false} SinglesGrantedOnce(cfg: Config, s: State, steps: seq<Step>)
    requires Consistent(s) && GrantedOnce(cfg, s) && forall step :: step in steps ==> Single(step)
    ensures GrantedOnce(cfg, Run(cfg, s, steps))
    decreases |steps|
  {
    if steps != [] {
      assert steps[0] in steps;
      SingleConsistent(cfg, s, steps[0]);
      SingleGrantedOnce(cfg, s, steps[0]);
      SinglesGrantedOnce(cfg, Apply(cfg, s, steps[0]), steps[1..]);
    }
  }

  lemma {:induction false} StepGrantedOnce(cfg: Config, s: State, step: Step)
    requires Consistent(s) && GrantedOnce(cfg, s)
    ensures GrantedOnce(cfg, Apply(cfg, s, step))
  {
    if step.Scheduled? {
      var automatic := TickIsRun(cfg, s, step.now, step.feeds);
      SinglesGrantedOnce(cfg, s, automatic);
    } else {
      SingleGrantedOnce(cfg, s, step);
    }
  }

  lemma {:induction false} RunGrantedOnce(cfg: Config, s: State, steps: seq<Step>)
    requires Consistent(s) && GrantedOnce(cfg, s)
    ensures GrantedOnce(cfg, Run(cfg, s, steps))
    decreases |steps|
  {
    if steps != [] {
      StepConsistent(cfg, s, steps[0]);
      StepGrantedOnce(cfg, s, steps[0]);
      RunGrantedOnce(cfg, Apply(cfg, s, steps[0]), steps[1..]);
    }
  }

  lemma {:induction false} ActiveMeaning(members: seq<Member>)
    ensures forall m: nat :: m in ActiveIds(members) <==> m < |members| && members[m].active
  {
    if members != [] {
      var n := |members| - 1;
      ActiveMeaning(members[..n]);
    }
  }

  lemma {:induction false} SameRows(scores: seq<MemberScore>, row: MemberScore)
    ensures row in Ranked(scores) <==> row in scores
  {
    RankedIsStableSort(scores, row);
    assert row in Ranked(scores) <==> row in multiset(Ranked(scores));
    assert row in scores <==> row in multiset(scores);
  }

  /** A row is on the board exactly when it is the score of an active member. */
  lemma {:induction false} OnBoard(s: State, row: MemberScore)
    ensures row in Leaderboard(s) <==>
      row.member < |s.members| && s.members[row.member].active && row == ScoreOf(s)(row.member)
  {
    var ids, f := ActiveIds(s.members), ScoreOf(s);
    var rows := Map(f, ids);
    SameRows(rows, row);
    ActiveMeaning(s.members);
    if row in rows {
      var i :| 0 <= i < |rows| && rows[i] == row;
      assert row == f(ids[i]) && ids[i] in ids;
    }
    if row.member in ids && row == f(row.member) {
      var i :| 0 <= i < |ids| && ids[i] == row.member;
      assert rows[i] == row;
    }
  }

  /** In every reachable state, on every row of the board, net profit is the balance minus the initial grant. */
  lemma {:induction false} BoardAgreesWithLedger(cfg: Config, steps: seq<Step>, row: MemberScore)
    requires row in Leaderboard(Run(cfg, EMPTY, steps))
    ensures row.netProfit == row.balance - cfg.initialPoints
    ensures row.balance == Balance(Run(cfg, EMPTY, steps).ledger, row.member) >= 0
  {
    var s := Run(cfg, EMPTY, steps);
    assert Consistent(EMPTY) && GrantedOnce(cfg, EMPTY);
    RunConsistent(cfg, EMPTY, steps);
    RunGrantedOnce(cfg, EMPTY, steps);
    OnBoard(s, row);
    BalanceIsProfitPlusGrants(s.ledger, row.member);
  }

  // ------------------------------------------------------------------ the sum of all profits

  function Profit(): MemberScore -> int { (row: MemberScore) => row.netProfit }

  function ProfitIn(ledger: seq<Entry>): nat -> int { (m: nat) => NetProfit(ledger, m) }

  function UpTo(n: nat): seq<nat> { if n == 0 then [] else UpTo(n - 1) + [n - 1] }

  lemma {:induction false} AllActive(members: seq<Member>)
    requires forall i :: 0 <= i < |members| ==> members[i].active
    ensures ActiveIds(members) == UpTo(|members|)
  {
    if members != [] {
      AllActive(members[..|members| - 1]);
    }
  }

  lemma {:induction false} ProfitsAndGrants(ledger: seq<Entry>, n: nat)
    ensures Sum(ProfitIn(ledger), UpTo(n)) == BalanceSum(ledger, n) - GrantSum(ledger, n)
  {
    if n > 0 {
      ProfitsAndGrants(ledger, n - 1);
      BalanceIsProfitPlusGrants(ledger, n - 1);
      SumSnoc<nat>(ProfitIn(ledger), UpTo(n - 1), n - 1);
    }
  }

  function GrantSum(ledger: seq<Entry>, n: nat): int {
    if n == 0 then 0 else GrantSum(ledger, n - 1) + Grants(ledger, n - 1)
  }

  lemma {:induction false} GrantSumSnoc(ledger: seq<Entry>, e: Entry, n: nat)
    ensures GrantSum(ledger + [e], n) == GrantSum(ledger, n) + if e.member < n then GrantAmount()(e) else 0
  {
    if n > 0 {
      GrantSumSnoc(ledger, e, n - 1);
      SumSnoc(GrantTo(n - 1), ledger, e);
    }
  }

  lemma {:induction false} GrantsAddUp(ledger: seq<Entry>, n: nat)
    requires forall e :: e in ledger ==> e.member < n
    ensures GrantSum(ledger, n) == Granted(ledger)
  {
    if ledger == [] {
      NoGrantSum(n);
    } else {
      var l := |ledger| - 1;
      assert ledger == ledger[..l] + [ledger[l]];
      GrantsAddUp(ledger[..l], n);
      GrantSumSnoc(ledger[..l], ledger[l], n);
    }
  }

  lemma {:induction false} NoGrantSum(n: nat)
    ensures GrantSum([], n) == 0
  {
    if n > 0 {
      NoGrantSum(n - 1);
    }
  }

  lemma {:induction false} BoardProfits(s: State)
    ensures Sum(Profit(), Leaderboard(s)) == Sum(ProfitIn(s.ledger), ActiveIds(s.members))
  {
    var rows := Map(ScoreOf(s), ActiveIds(s.members));
    RankedIsStableSort(rows, MemberScore(0, 0, 0, 0, 0, 0, None));
    SumPermutation(Profit(), rows, Leaderboard(s));
    SumMapped(Profit(), ScoreOf(s), ProfitIn(s.ledger), ActiveIds(s.members));
  }

  /**
   * After a guarded run in which every market ended settled or cancelled and every member is active, the net profits on
   * the board add up to minus the rake the settled markets withheld.
   */
  lemma {:induction false} ProfitsSumToRake(cfg: Config, steps: seq<Step>)
    requires GuardedRun(cfg, EMPTY, steps)
    requires Reliable(cfg, Granted(Run(cfg, EMPTY, steps).ledger))
    requires forall m :: 0 <= m < |Run(cfg, EMPTY, steps).members| ==> Run(cfg, EMPTY, steps).members[m].active
    requires forall k :: 0 <= k < |Run(cfg, EMPTY, steps).markets| ==> Terminal(Run(cfg, EMPTY, steps).markets[k].status)
    ensures var s := Run(cfg, EMPTY, steps);
      Sum(Profit(), Leaderboard(s)) == -Sum(RakeKept(cfg), s.markets)
  {
    var s := Run(cfg, EMPTY, steps);
    assert Consistent(EMPTY);
    RunConsistent(cfg, EMPTY, steps);
    GuardedRunsConserve(cfg, steps);
    BoardProfits(s);
    AllActive(s.members);
    ProfitsAndGrants(s.ledger, |s.members|);
    forall e | e in s.ledger ensures e.member < |s.members| {
      assert EntryWell(e, |s.members|, |s.markets|);
    }
    GrantsAddUp(s.ledger, |s.members|);
    forall mk | mk in s.markets ensures LiveStake()(mk) == 0 {
    }
    SumZero(LiveStake(), s.markets);
  }

  // ------------------------------------------------------------------ hits and Brier scores

  lemma {:induction false} PortionOrder(x: int, y: int, total: int)
    requires total > 0
    ensures Brier.Portion(x, total) >= Brier.Portion(y, total) <==> x >= y
  {
    if x >= y {
      Brier.PortionAdds(y, x - y, total);
      Brier.PortionNonNegative(x - y, total);
    } else {
      Brier.PortionAdds(x, y - x, total);
      PortionPositive(y - x, total);
    }
  }

  lemma {:induction false} PortionPositive(x: int, total: int)
    requires total > 0 && x > 0
    ensures Brier.Portion(x, total) > 0.0
  {
    assert x as real / total as real * total as real == x as real;
  }

  /** A hit means the winner is the outcome on which the member staked most, ties going to the earlier outcome. */
  lemma {:induction false} TopIsLargestStake(rows: seq<Stake>)
    requires Brier.TotalStake(rows) > 0
    ensures var b, s, h := Sum(Brier.On(Buy), rows), Sum(Brier.On(Sell), rows), Sum(Brier.On(Hold), rows);
      TopOf(Brier.Allocation(rows)) == if b >= s && b >= h then Buy else if s >= h then Sell else Hold
  {
    var b, s, h := Sum(Brier.On(Buy), rows), Sum(Brier.On(Sell), rows), Sum(Brier.On(Hold), rows);
    PortionOrder(b, s, Brier.TotalStake(rows));
    PortionOrder(b, h, Brier.TotalStake(rows));
    PortionOrder(s, h, Brier.TotalStake(rows));
  }

  lemma {:induction false} PointsRange(mk: Market, m: nat, members: nat)
    requires BetsWell(mk.bets, members) && Counts(m)(mk)
    ensures 0 <= Points(m)(mk) <= 2_000_000
  {
    var mine := Filter(By(m), mk.bets);
    FilterMembers(By(m), mk.bets);
    forall r | r in Rows(mine) ensures r.amount > 0 {
      var i :| 0 <= i < |mine| && Rows(mine)[i] == r;
      assert mine[i] in mine;
    }
    Brier.AllocationIsDistribution(Rows(mine));
    Brier.ScoreRange(Brier.Allocation(Rows(mine)), mk.winner.value);
  }

  function Constant(c: int): Market -> int { (mk: Market) => c }

  lemma {:induction false} SumConstant(c: int, xs: seq<Market>)
    ensures Sum(Constant(c), xs) == c * |xs|
  {
    if xs != [] {
      SumConstant(c, xs[..|xs| - 1]);
    }
  }

  lemma {:induction false} QuotientRange(total: int, n: nat, top: int)
    requires n > 0 && 0 <= total <= top * n
    ensures 0 <= HalfEven(total as real / n as real) <= top
  {
    var x := total as real / n as real;
    assert x * n as real == total as real;
    assert 0.0 <= x;
    assert x <= top as real by {
      assert (top as real - x) * n as real >= 0.0;
    }
  }

  /**
   * On any consistent database: hits never exceed the settled markets played, the hit rate is in [0, 1], and the Brier
   * score is present exactly when something was played and then lies in [0, 2].
   */
  lemma {:induction false} ScoresInRange(s: State, m: nat)
    requires Consistent(s)
    ensures var row := ScoreOf(s)(m);
      && row.hits <= row.settled && 0 <= row.hitRate <= 10_000
      && (row.brier.Some? <==> row.settled > 0)
      && (row.brier.Some? ==> 0 <= row.brier.value <= 2_000_000)
  {
    var played := Played(s, m);
    FilterMembers(Counts(m), s.markets);
    FilterMembers(Hit(m), played);
    forall mk | mk in played ensures 0 <= Points(m)(mk) <= Constant(2_000_000)(mk) {
      var k :| 0 <= k < |s.markets| && s.markets[k] == mk;
      assert MarketWell(s.markets[k], |s.members|);
      PointsRange(mk, m, |s.members|);
    }
    SumNonNegative(Points(m), played);
    SumLe(Points(m), Constant(2_000_000), played);
    SumConstant(2_000_000, played);
    if |played| > 0 {
      QuotientRange(Sum(Points(m), played), |played|, 2_000_000);
      QuotientRange(CountWhere(Hit(m), played) * 10_000, |played|, 10_000);
    }
  }
}
