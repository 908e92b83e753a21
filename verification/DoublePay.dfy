/**
 * What a late approval can cost: a settled market is made live by approving its decision, resolved again at another
 * price and settled again, and both sides have been paid out of one pool.
 */
module DoublePay {
  import opened Sums
  import opened Domain
  import opened Tally
  import opened Tables
  import opened Parimutuel
  import opened Risk
  import opened Steps
  import opened LedgerLaws
  import opened Invariants
  import Burst
  import Revival
  import Consensus
  import SettlementLaws
  import Verdict

  function Settings(): Config { Revival.Settings() }

  const GRANT0 := Entry(0, None, Grant, 100)
  const GRANT1 := Entry(1, None, Grant, 100)
  const LOCK0 := Entry(0, Some(0), BetLock, -20)
  const LOCK1 := Entry(1, Some(0), BetLock, -10)
  const PAID0 := Entry(0, Some(0), Payout, 30)
  const PAID1 := Entry(1, Some(0), Payout, 30)

  const BUYER := Bet(0, Buy, 20, None)
  const SELLER := Bet(1, Sell, 10, None)
  const ROWS := [Stake(0, Buy, 20), Stake(1, Sell, 10)]
  const PLAN := Decision(0, Buy, 30, 2, 10, Some(100), Limit, Pending)

  const LOCKED := [GRANT0, GRANT1, LOCK0, LOCK1]

  function Topic(status: MarketStatus, reference: Option<int>, bets: seq<Bet>): Market {
    Market(0, "005930", 10, 20, 100, -100, 1000, status, reference, None, None, bets)
  }

  function Joined(): State {
    State([Member(true), Member(true)], [Topic(Open, None, [])], [GRANT0, GRANT1], [], [], map[])
  }

  function BuyerIn(): State {
    Joined().(markets := [Topic(Open, None, [BUYER])], ledger := [GRANT0, GRANT1, LOCK0])
  }

  function BothIn(): State { Joined().(markets := [Topic(Open, None, [BUYER, SELLER])], ledger := LOCKED) }

  function Ended(): State { BothIn().(markets := [Topic(Closed, Some(100), [BUYER, SELLER])]) }

  function Planned(): State {
    BothIn().(markets := [Topic(Decided, Some(100), [BUYER, SELLER])], decisions := [PLAN])
  }

  const START: seq<Step> := [NewMember, NewMember, Burst.OPENING]
  const BETTING: seq<Step> := [Allocate(0, 0, [Lot(Buy, 20)], 0), Allocate(0, 1, [Lot(Sell, 10)], 0)]
  const DECIDING: seq<Step> := [Close(0, Some(100)), Decide(0, Some(100))]
  const FIRST: seq<Step> := [Resolve(0, Some(200)), SettleUp(0)]
  const SECOND: seq<Step> := [Resolve(0, Some(50)), SettleUp(0)]

  function Approval(): Step { Approve(0, Revival.Approval()) }

  // ------------------------------------------------------------------ up to the decision

  lemma {:induction false} BothJoin()
    ensures Run(Settings(), EMPTY, START) == Joined()
  {
    var cfg := Settings();
    var first, second := CreateMember(cfg, EMPTY), CreateMember(cfg, CreateMember(cfg, EMPTY));
    assert START == [NewMember, NewMember] + [Burst.OPENING];
    RunAppend(cfg, EMPTY, [NewMember, NewMember], [Burst.OPENING]);
    RunTwo(cfg, EMPTY, NewMember, NewMember);
    Burst.RunOne(cfg, second, Burst.OPENING);
    assert second.ledger == [GRANT0, GRANT1];
  }

  lemma {:induction false} LotAccepted(lot: Lot, balance: int)
    requires 1 <= lot.amount <= balance
    ensures Cleaned([lot]) == [lot] && Sum(LotAmount(), [lot]) == lot.amount
    ensures AllocationError(Settings(), Open, 10, 0, [lot], balance) == None
  {
    FilterOne(PositiveLot(), lot);
    SumOne(LotAmount(), lot);
    assert balance as real * 1.0 == balance as real;
    assert MaxAllowed(Settings(), balance) == balance;
    assert !BelowMinimum(Settings(), [lot]);
  }

  lemma {:induction false} BuyerRows()
    ensures Balance([GRANT0, GRANT1], 0) == 100 && Previous([], 0) == 0
    ensures ReplacedBets([], 0, [Lot(Buy, 20)]) == [BUYER]
    ensures [GRANT0, GRANT1] + AllocationEntries(0, 0, 0, 20) == [GRANT0, GRANT1, LOCK0]
  {
    TwoSums(OfMember(0), GRANT0, GRANT1);
  }

  lemma {:induction false} BuyerBets()
    ensures Apply(Settings(), Joined(), BETTING[0]) == BuyerIn()
  {
    hide AllocationError, Cleaned, Balance, Previous, ReplacedBets, AllocationEntries;
    LotAccepted(Lot(Buy, 20), 100);
    BuyerRows();
  }

  lemma {:induction false} SellerRows()
    ensures Balance([GRANT0, GRANT1, LOCK0], 1) == 100 && Previous([BUYER], 1) == 0
    ensures ReplacedBets([BUYER], 1, [Lot(Sell, 10)]) == [BUYER, SELLER]
    ensures [GRANT0, GRANT1, LOCK0] + AllocationEntries(0, 1, 0, 10) == LOCKED
  {
    TwoSums(OfMember(1), GRANT0, GRANT1);
    SumSnoc(OfMember(1), [GRANT0, GRANT1], LOCK0);
    assert [GRANT0, GRANT1] + [LOCK0] == [GRANT0, GRANT1, LOCK0];
    SumOne(StakeBy(1), BUYER);
    FilterOne(NotBy(1), BUYER);
  }

  lemma {:induction false} SellerBets()
    ensures Apply(Settings(), BuyerIn(), BETTING[1]) == BothIn()
  {
    hide AllocationError, Cleaned, Balance, Previous, ReplacedBets, AllocationEntries;
    LotAccepted(Lot(Sell, 10), 100);
    SellerRows();
  }

  lemma {:induction false} TwoSums<T>(f: T -> int, x: T, y: T)
    ensures Sum(f, [x, y]) == f(x) + f(y)
  {
    assert [x, y] == [x] + [y];
    SumOne(f, x);
    SumSnoc(f, [x], y);
  }

  lemma {:induction false} TheConsensus()
    ensures Rows([BUYER, SELLER]) == ROWS
    ensures Consensus.Compute(ROWS)
      == Consensus.Consensus(Consensus.Spread(20, 10, 0), 30, 2, Consensus.Spread(6667, 3333, 0))
  {
    TwoSums(WinningAmount(Buy), ROWS[0], ROWS[1]);
    TwoSums(WinningAmount(Sell), ROWS[0], ROWS[1]);
    TwoSums(WinningAmount(Hold), ROWS[0], ROWS[1]);
    assert ROWS == [ROWS[0], ROWS[1]];
    assert ROWS[0].member in Consensus.Members(ROWS) && ROWS[1].member in Consensus.Members(ROWS);
    assert Consensus.Members(ROWS) == {0, 1};
  }

  lemma {:induction false} PlansTen()
    ensures var c := Consensus.Consensus(Consensus.Spread(20, 10, 0), 30, 2, Consensus.Spread(6667, 3333, 0));
      && MakePlan(Settings(), Ended(), Ended().markets[0], c, Some(100)) == Ok(Steps.Plan(false, 10, Some(100)))
      && DecisionOf(0, c, Steps.Plan(false, 10, Some(100))) == PLAN
  {
  }

  lemma {:induction false} ClosesAndDecides()
    ensures Run(Settings(), BothIn(), DECIDING) == Planned()
  {
    hide MakePlan, DecisionOf, Consensus.Compute;
    TheConsensus();
    PlansTen();
    RunTwo(Settings(), BothIn(), DECIDING[0], DECIDING[1]);
    assert Apply(Settings(), BothIn(), DECIDING[0]) == Ended();
  }

  // ------------------------------------------------------------------ from the decision on

  /** What matters of the state: the ledger, and the one market's status, winner, rows, prices and thresholds. */
  ghost predicate At(s: State, ledger: seq<Entry>, status: MarketStatus, winner: Option<Outcome>) {
    && s.ledger == ledger && |s.markets| == 1
    && s.markets[0].status == status && s.markets[0].winner == winner && Rows(s.markets[0].bets) == ROWS
    && s.markets[0].reference == Some(100) && s.markets[0].buyPct == 100 && s.markets[0].sellPct == -100
    && s.markets[0].fund == 0 && s.markets[0].ticker == "005930"
  }

  lemma {:induction false} Resolves(s: State, ledger: seq<Entry>, winner: Option<Outcome>, quote: int, w: Outcome)
    requires |s.markets| == 1 && At(s, ledger, s.markets[0].status, winner)
    requires s.markets[0].status in {Decided, MarketStatus.Executed}
    requires Verdict.Resolve(100, quote, 100, -100).Ok? && Verdict.Resolve(100, quote, 100, -100).value.0 == w
    ensures var t := Apply(Settings(), s, Resolve(0, Some(quote)));
      At(t, ledger, Resolved, Some(w)) && t.decisions == s.decisions && t.orders == s.orders
  {
  }

  lemma {:induction false} TheVerdicts()
    ensures Verdict.Resolve(100, 200, 100, -100) == Ok((Buy, 1_000_000))
    ensures Verdict.Resolve(100, 50, 100, -100) == Ok((Sell, -500_000))
  {
  }

  lemma {:induction false} OneWinner(w: Outcome, row: Stake)
    requires (w == Buy && row == ROWS[0]) || (w == Sell && row == ROWS[1])
    ensures Winners(ROWS, w) == [row]
  {
    FilterOne(Winning(w), ROWS[0]);
    FilterSnoc(Winning(w), [ROWS[0]], ROWS[1]);
    assert [ROWS[0]] + [ROWS[1]] == ROWS;
  }

  lemma {:induction false} ThePools(w: Outcome, row: Stake)
    requires (w == Buy && row == ROWS[0]) || (w == Sell && row == ROWS[1])
    ensures Winners(ROWS, w) == [row] && WinningPool(ROWS, w) == row.amount && Pool(ROWS) == 30
    ensures Rake(ROWS, w, 0) == 0
  {
    OneWinner(w, row);
    SumOne(StakeAmount(), row);
    FilterAll(Positive(), ROWS);
    TwoSums(StakeAmount(), ROWS[0], ROWS[1]);
    assert [ROWS[0], ROWS[1]] == ROWS;
  }

  /** The only winner takes the pool of 30. */
  lemma {:induction false} WinnerTakesAll(w: Outcome, row: Stake)
    requires (w == Buy && row == ROWS[0]) || (w == Sell && row == ROWS[1])
    ensures Payouts(Exact(), ROWS, w, 0) == [Credit(row.member, 30)]
  {
    ThePools(w, row);
    ExactShare(30, row.amount, row.amount);
    SettlementLaws.WholeShareIsStake(30, row.amount);
    assert FloorShare(30, row.amount, row.amount) == 30;
    assert [row][..0] == [];
    var shares := Shares(Exact(), ROWS, w, 0);
    assert shares == [Credit(row.member, 30)];
    SumOne(AmountOf(), Credit(row.member, 30));
  }

  lemma {:induction false} Settles(s: State, ledger: seq<Entry>, w: Outcome, row: Stake)
    requires At(s, ledger, Resolved, Some(w)) && !HasEntry(ledger, row.member, 0, Payout)
    requires (w == Buy && row == ROWS[0]) || (w == Sell && row == ROWS[1])
    ensures var t := Apply(Settings(), s, SettleUp(0));
      && At(t, ledger + [Entry(row.member, Some(0), Payout, 30)], Settled, Some(w))
      && t.decisions == s.decisions && t.orders == s.orders
  {
    hide Payouts;
    WinnerTakesAll(w, row);
    var f := RowPayout([Credit(row.member, 30)], StakeTotals(s.markets[0].bets));
    PayoutsKeepRows(f, s.markets[0].bets);
    NewPayout(ledger, row.member);
  }

  lemma {:induction false} NewPayout(ledger: seq<Entry>, m: nat)
    requires !HasEntry(ledger, m, 0, Payout)
    ensures NewEntries(ledger, 0, Payout, [Credit(m, 30)]) == [Entry(m, Some(0), Payout, 30)]
  {
    assert [Credit(m, 30)][..0] == [];
    assert NewEntries(ledger, 0, Payout, []) == [];
  }

  lemma {:induction false} GateIsOpen(s: State, mk: Market)
    requires s.orders == [] && mk.fund == 0 && mk.ticker == "005930"
    ensures var env := Revival.Approval();
      Reasons(Settings(), s, ContextOf(mk, PLAN, 100), env.now, env.session, Some(env.balance)) == []
  {
    var env := Revival.Approval();
    assert SumReal(Value(), []) == 0.0;
    assert DailyOrders([], 0, env.now) == 0;
    AllowedParts(Settings(), s, ContextOf(mk, PLAN, 100), env.now, env.session, Some(env.balance));
  }

  lemma {:induction false} Revives(s: State, ledger: seq<Entry>)
    requires At(s, ledger, Settled, Some(Buy)) && s.decisions == [PLAN] && s.orders == []
    ensures At(Apply(Settings(), s, Approval()), ledger, MarketStatus.Executed, Some(Buy))
  {
    hide Reasons;
    GateIsOpen(s, s.markets[0]);
  }

  /** A resolution at another verdict's price and a settlement. */
  lemma {:induction false} Round(s: State, ledger: seq<Entry>, winner: Option<Outcome>, quote: int, w: Outcome, row: Stake)
    requires |s.markets| == 1 && At(s, ledger, s.markets[0].status, winner)
    requires s.markets[0].status in {Decided, MarketStatus.Executed}
    requires Verdict.Resolve(100, quote, 100, -100).Ok? && Verdict.Resolve(100, quote, 100, -100).value.0 == w
    requires !HasEntry(ledger, row.member, 0, Payout)
    requires (w == Buy && row == ROWS[0]) || (w == Sell && row == ROWS[1])
    ensures var t := Run(Settings(), s, [Resolve(0, Some(quote)), SettleUp(0)]);
      && At(t, ledger + [Entry(row.member, Some(0), Payout, 30)], Settled, Some(w))
      && t.decisions == s.decisions && t.orders == s.orders
  {
    hide Apply;
    RunTwo(Settings(), s, Resolve(0, Some(quote)), SettleUp(0));
    Resolves(s, ledger, winner, quote, w);
    Settles(Apply(Settings(), s, Resolve(0, Some(quote))), ledger, w, row);
  }

  function WholeRun(): seq<Step> { START + BETTING + DECIDING + FIRST + [Approval()] + SECOND }

  lemma {:induction false} FirstHalf()
    ensures Run(Settings(), EMPTY, START + BETTING + DECIDING) == Planned()
  {
    hide Run, Apply;
    BothJoin();
    BuyerBets();
    SellerBets();
    ClosesAndDecides();
    RunTwo(Settings(), Joined(), BETTING[0], BETTING[1]);
    assert BETTING == [BETTING[0], BETTING[1]];
    RunAppend(Settings(), EMPTY, START, BETTING);
    RunAppend(Settings(), EMPTY, START + BETTING, DECIDING);
  }

  lemma {:induction false} SecondHalf()
    ensures At(Run(Settings(), Planned(), FIRST + [Approval()] + SECOND), LOCKED + [PAID0] + [PAID1], Settled, Some(Sell))
  {
    hide Run, Apply, HasEntry, Payouts;
    var cfg := Settings();
    TheVerdicts();
    TheConsensus();
    NoPayoutYet(0);
    NoPayoutYet(1);
    Round(Planned(), LOCKED, None, 200, Buy, ROWS[0]);
    var settled := Run(cfg, Planned(), FIRST);
    Revives(settled, LOCKED + [PAID0]);
    Burst.RunOne(cfg, settled, Approval());
    Round(Apply(cfg, settled, Approval()), LOCKED + [PAID0], Some(Buy), 50, Sell, ROWS[1]);
    RunAppend(cfg, Planned(), FIRST, [Approval()]);
    RunAppend(cfg, Planned(), FIRST + [Approval()], SECOND);
  }

  lemma {:induction false} NoPayoutYet(m: nat)
    requires m < 2
    ensures !HasEntry(LOCKED, m, 0, Payout)
    ensures !HasEntry(LOCKED + [PAID0], 1, 0, Payout)
  {
  }

  lemma {:induction false} FinalBalances()
    ensures Balance(LOCKED + [PAID0] + [PAID1], 0) == 110 && Balance(LOCKED + [PAID0] + [PAID1], 1) == 120
    ensures Granted(LOCKED + [PAID0] + [PAID1]) == 200
  {
    SixSums(OfMember(0));
    SixSums(OfMember(1));
    SixSums(GrantAmount());
  }

  lemma {:induction false} SixSums(f: Entry -> int)
    ensures Sum(f, LOCKED + [PAID0] + [PAID1]) == f(GRANT0) + f(GRANT1) + f(LOCK0) + f(LOCK1) + f(PAID0) + f(PAID1)
  {
    SumSnoc(f, LOCKED + [PAID0], PAID1);
    SumSnoc(f, LOCKED, PAID0);
    assert LOCKED == [GRANT0, GRANT1] + [LOCK0, LOCK1];
    SumAppend(f, [GRANT0, GRANT1], [LOCK0, LOCK1]);
    TwoSums(f, GRANT0, GRANT1);
    TwoSums(f, LOCK0, LOCK1);
  }

  /**
   * Twelve steps without a guard: both outcomes of one market are paid, the buyer ends with 110 cents and the seller
   * with 120, although the two were granted 200 in all. No balance goes negative and nobody is paid twice, so the
   * unguarded invariants hold throughout.
   */
  lemma {:induction false} BothSidesArePaid()
    ensures var s := Run(Settings(), EMPTY, WholeRun());
      && Balance(s.ledger, 0) == 110 && Balance(s.ledger, 1) == 120
      && Balance(s.ledger, 0) + Balance(s.ledger, 1) > Granted(s.ledger) == 200
      && HasEntry(s.ledger, 0, 0, Payout) && HasEntry(s.ledger, 1, 0, Payout)
      && |s.markets| == 1 && s.markets[0].status == Settled && s.markets[0].winner == Some(Sell)
  {
    hide Run, Balance, Granted;
    FirstHalf();
    SecondHalf();
    FinalBalances();
    assert WholeRun() == (START + BETTING + DECIDING) + (FIRST + [Approval()] + SECOND);
    RunAppend(Settings(), EMPTY, START + BETTING + DECIDING, FIRST + [Approval()] + SECOND);
    var ledger := LOCKED + [PAID0] + [PAID1];
    assert Matches(ledger[4], 0, 0, Payout) && Matches(ledger[5], 1, 0, Payout);
  }
}
