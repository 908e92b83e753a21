/**
 * Why conservation needs the guard on approvals: a seven-step run through the services as they are, in which a
 * decision is approved after its market was cancelled.
 */
module Revival {
  import opened Sums
  import opened Domain
  import opened Tally
  import opened Tables
  import opened Parimutuel
  import opened Risk
  import opened Steps
  import opened Invariants
  import opened Conservation
  import Consensus

  function Settings(): Config {
    Config(Exact(), 0, 100, 1, 1.0, 100, -100, 0.0, 0.5, 1_000_000, 10, 1.0, false, false)
  }

  function Topic(status: MarketStatus, reference: Option<int>, bets: seq<Bet>): Market {
    Market(0, "005930", 10, 20, 100, -100, 1000, status, reference, None, None, bets)
  }

  const GRANT := Entry(0, None, Grant, 100)
  const LOCK := Entry(0, Some(0), BetLock, -10)
  const REFUND := Entry(0, Some(0), CancelRefund, 10)
  const BET := Bet(0, Buy, 10, None)
  const PENDING := Decision(0, Buy, 10, 1, 10, Some(100), Limit, Pending)

  function Joined(): State { State([Member(true)], [], [GRANT], [], [], map[]) }

  function Opened(): State { Joined().(markets := [Topic(Open, None, [])]) }

  function Staked(): State { Opened().(markets := [Topic(Open, None, [BET])], ledger := [GRANT, LOCK]) }

  function Closing(): State { Staked().(markets := [Topic(Closed, Some(100), [BET])]) }

  function Awaiting(): State { Closing().(markets := [Topic(Decided, Some(100), [BET])], decisions := [PENDING]) }

  function Refunded(): State {
    Awaiting().(markets := [Topic(Cancelled, Some(100), [BET])], ledger := [GRANT, LOCK, REFUND])
  }

  function Approval(): Env {
    Env(30, 30, Some(100), Session(true, true), Some(Snapshot(10000.0, [])), true)
  }

  const PREFIX: seq<Step> := [
    NewMember, NewMarket(true, 0, "005930", 10, 20, 1000, None, None), Allocate(0, 0, [Lot(Buy, 10)], 0),
    Close(0, Some(100)), Decide(0, Some(100)), Cancel(0)]

  lemma {:induction false} TenIsAccepted(lot: Lot)
    requires lot == Lot(Buy, 10)
    ensures Cleaned([lot]) == [lot] && Sum(LotAmount(), [lot]) == 10
    ensures AllocationError(Settings(), Open, 10, 0, [lot], 100) == None
  {
    FilterOne(PositiveLot(), lot);
    SumOne(LotAmount(), lot);
    assert !BelowMinimum(Settings(), [lot]);
    assert MaxAllowed(Settings(), 100) == 100;
  }

  lemma {:induction false} TenRows()
    ensures Balance([GRANT], 0) == 100 && Previous([], 0) == 0
    ensures ReplacedBets([], 0, [Lot(Buy, 10)]) == [BET]
    ensures [GRANT] + AllocationEntries(0, 0, 0, 10) == [GRANT, LOCK]
  {
    SumOne(OfMember(0), GRANT);
  }

  lemma {:induction false} StakesTheTen()
    ensures Apply(Settings(), Opened(), Allocate(0, 0, [Lot(Buy, 10)], 0)) == Staked()
  {
    hide AllocationError, Cleaned, Balance, Previous, ReplacedBets, AllocationEntries;
    TenIsAccepted(Lot(Buy, 10));
    TenRows();
  }

  lemma {:induction false} TheConsensus()
    ensures Rows([BET]) == [Stake(0, Buy, 10)]
    ensures Consensus.Compute([Stake(0, Buy, 10)])
      == Consensus.Consensus(Consensus.Spread(10, 0, 0), 10, 1, Consensus.Spread(10_000, 0, 0))
  {
    var row := Stake(0, Buy, 10);
    SumOne(WinningAmount(Buy), row);
    SumOne(WinningAmount(Sell), row);
    SumOne(WinningAmount(Hold), row);
    assert Consensus.Members([row]) == {0};
  }

  lemma {:induction false} DecidesToBuy()
    ensures Apply(Settings(), Closing(), Decide(0, Some(100))) == Awaiting()
  {
    TheConsensus();
    var c := Consensus.Compute([Stake(0, Buy, 10)]);
    FilterOne(IsActive(), Member(true));
    assert ActiveCount([Member(true)]) == 1;
    assert !HasDecision([], 0);
    assert MakePlan(Settings(), Closing(), Closing().markets[0], c, Some(100)) == Ok(Plan(false, 10, Some(100)));
    assert DecisionOf(0, c, Plan(false, 10, Some(100))) == PENDING;
  }

  lemma {:induction false} RefundIsTen()
    ensures StakeTotals([BET]) == [Credit(0, 10)]
  {
    TheConsensus();
    var row := Stake(0, Buy, 10);
    assert [row][..0] == [];
    assert Accrue(StakeAmount(), []) == [];
    assert Add([], 0, 10) == [Credit(0, 10)];
  }

  lemma {:induction false} RefundEntry(ledger: seq<Entry>)
    requires ledger == [GRANT, LOCK]
    ensures ledger + NewEntries(ledger, 0, CancelRefund, [Credit(0, 10)]) == [GRANT, LOCK, REFUND]
  {
    forall i | 0 <= i < |ledger| ensures !Matches(ledger[i], 0, 0, CancelRefund) {
    }
    assert [Credit(0, 10)][..0] == [];
    assert NewEntries(ledger, 0, CancelRefund, []) == [];
  }

  lemma {:induction false} RefundsTheTen()
    ensures Apply(Settings(), Awaiting(), Cancel(0)) == Refunded()
  {
    RefundIsTen();
    RefundEntry([GRANT, LOCK]);
  }

  lemma {:induction false} JoinsAndOpens()
    ensures Apply(Settings(), EMPTY, PREFIX[0]) == Joined() && Apply(Settings(), Joined(), PREFIX[1]) == Opened()
  {
  }

  lemma {:induction false} FirstThree()
    ensures Run(Settings(), EMPTY, PREFIX) == Run(Settings(), Staked(), PREFIX[3..])
    ensures GuardedRun(Settings(), EMPTY, PREFIX) == GuardedRun(Settings(), Staked(), PREFIX[3..])
  {
    hide Apply;
    var cfg := Settings();
    JoinsAndOpens();
    StakesTheTen();
    assert PREFIX[1..][0] == PREFIX[1] && PREFIX[2..][0] == PREFIX[2];
    assert PREFIX[1..][1..] == PREFIX[2..] && PREFIX[2..][1..] == PREFIX[3..];
    Advance(cfg, EMPTY, PREFIX, Joined());
    Advance(cfg, Joined(), PREFIX[1..], Opened());
    Advance(cfg, Opened(), PREFIX[2..], Staked());
  }

  lemma {:induction false} LastThree()
    ensures Run(Settings(), Staked(), PREFIX[3..]) == Refunded()
    ensures GuardedRun(Settings(), Staked(), PREFIX[3..])
  {
    var cfg := Settings();
    DecidesToBuy();
    RefundsTheTen();
    assert PREFIX[3..][0] == PREFIX[3] && PREFIX[4..][0] == PREFIX[4] && PREFIX[5..][0] == PREFIX[5];
    assert PREFIX[3..][1..] == PREFIX[4..] && PREFIX[4..][1..] == PREFIX[5..] && PREFIX[5..][1..] == [];
    ClosesAtHundred();
    Advance(cfg, Staked(), PREFIX[3..], Closing());
    Advance(cfg, Closing(), PREFIX[4..], Awaiting());
    Advance(cfg, Awaiting(), PREFIX[5..], Refunded());
  }

  lemma {:induction false} ClosesAtHundred()
    ensures Apply(Settings(), Staked(), Close(0, Some(100))) == Closing()
  {
  }

  lemma {:induction false} PrefixLeadsToRefund()
    ensures Run(Settings(), EMPTY, PREFIX) == Refunded()
    ensures GuardedRun(Settings(), EMPTY, PREFIX)
  {
    FirstThree();
    LastThree();
  }

  /** One step of a run that is no approval. */
  lemma {:induction false} Advance(cfg: Config, s: State, steps: seq<Step>, t: State)
    requires steps != [] && !steps[0].Approve? && Apply(cfg, s, steps[0]) == t
    ensures Run(cfg, s, steps) == Run(cfg, t, steps[1..])
    ensures GuardedRun(cfg, s, steps) == GuardedRun(cfg, t, steps[1..])
  {
  }

  lemma {:induction false} ApprovalGoesThrough()
    ensures ExecuteDecision(Settings(), Refunded(), 0, Approval()).error.None?
  {
    var s, env := Refunded(), Approval();
    var ctx := ContextOf(s.markets[0], PENDING, 100);
    assert SumReal(Value(), []) == 0.0;
    assert DailyOrders(s.orders, 0, 30) == 0;
    AllowedParts(Settings(), s, ctx, env.now, env.session, Some(env.balance));
  }

  lemma {:induction false} RefundedIsSound()
    ensures Sound(Settings(), Refunded()) && Conserved(Settings(), Refunded())
    ensures Reliable(Settings(), Granted(Refunded().ledger))
  {
    var cfg := Settings();
    PrefixLeadsToRefund();
    GrantedHundred();
    assert Sound(cfg, EMPTY);
    GuardedRunSound(cfg, EMPTY, PREFIX);
    SoundIsConserved(cfg, Refunded());
  }

  lemma {:induction false} StillPooled()
    ensures Pool(Rows(Refunded().markets[0].bets)) == 10
  {
    TheConsensus();
    Consensus.StakedIsPool([Stake(0, Buy, 10)]);
  }

  /**
   * The code as it is does not conserve points on every run: after the cancelled market has been refunded, approving
   * its pending decision makes it live again, and its pool counts although nobody has it locked any more.
   */
  lemma {:induction false} ApprovingARefundedMarketBreaksConservation()
    ensures Run(Settings(), EMPTY, PREFIX) == Refunded() && GuardedRun(Settings(), EMPTY, PREFIX)
    ensures Conserved(Settings(), Refunded()) && !Guarded(Refunded(), Approve(0, Approval()))
    ensures var after := Apply(Settings(), Refunded(), Approve(0, Approval()));
      |after.markets| == 1 && after.markets[0].status == MarketStatus.Executed && !Conserved(Settings(), after)
  {
    PrefixLeadsToRefund();
    RefundedIsSound();
    ApprovalBreaks();
  }

  lemma {:induction false} ApprovalBreaks()
    requires Sound(Settings(), Refunded()) && Reliable(Settings(), Granted(Refunded().ledger))
    ensures !Guarded(Refunded(), Approve(0, Approval()))
    ensures var after := Apply(Settings(), Refunded(), Approve(0, Approval()));
      |after.markets| == 1 && after.markets[0].status == MarketStatus.Executed && !Conserved(Settings(), after)
  {
    StillPooled();
    ApprovalGoesThrough();
    ApprovalConservesIff(Settings(), Refunded(), 0, Approval());
    ExecuteEffect(Settings(), Refunded(), 0, Approval());
  }

  lemma {:induction false} GrantedHundred()
    ensures Granted(Refunded().ledger) == 100
  {
    var ledger := Refunded().ledger;
    assert ledger == [GRANT] + [LOCK] + [REFUND];
    SumSnoc(GrantAmount(), [GRANT] + [LOCK], REFUND);
    SumSnoc(GrantAmount(), [GRANT], LOCK);
    SumOne(GrantAmount(), GRANT);
  }
}
