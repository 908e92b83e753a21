/**
 * The order limit is exact over runs: a run from the empty database that reaches the limit at one instant and places
 * one more order a day and a microsecond later, whose row is stamped earlier than it is checked.
 */
module Burst {
  import opened Sums
  import opened Domain
  import opened Tables
  import opened Parimutuel
  import opened Risk
  import opened Steps
  import opened Invariants
  import opened RateLimit
  import Consensus

  /** One point per market, no quorum, room for every order. */
  function Settings(limit: nat): Config {
    Config(Exact(), 0, limit + 1, 1, 1.0, 100, -100, 0.0, 0.5, 1_000_000, limit, 1.0, false, false)
  }

  const BET := Bet(0, Buy, 1, None)

  function Topic(status: MarketStatus, reference: Option<int>, bets: seq<Bet>): Market {
    Market(0, "005930", 10, 20, 100, -100, 1000, status, reference, None, None, bets)
  }

  function Lock(i: nat): Entry { Entry(0, Some(i), BetLock, -1) }

  function Plan(i: nat, status: DecisionStatus): Decision { Decision(i, Buy, 1, 1, 10, Some(100), Limit, status) }

  function Sent(i: nat, stamp: int): Order {
    Order(i, i, 0, "005930", BuySide, Limit, 10, Some(100), stamp, Submitted)
  }

  function EnvAt(now: int, stamp: int): Env {
    Env(now, stamp, Some(100), Session(true, true), Some(Snapshot(10000.0, [])), true)
  }

  const OPENING := NewMarket(true, 0, "005930", 10, 20, 1000, None, None)

  function Staking(i: nat): Step { Allocate(i, 0, [Lot(Buy, 1)], 0) }

  /** Open market i, stake one cent on BUY, close, decide, approve. */
  function Block(i: nat, now: int, stamp: int): seq<Step> {
    [OPENING, Staking(i), Close(i, Some(100)), Decide(i, Some(100)), Approve(i, EnvAt(now, stamp))]
  }

  /** i blocks done: as many markets, decisions and spent cents. */
  ghost predicate Ready(limit: nat, s: State, i: nat) {
    && s.members == [Member(true)]
    && |s.markets| == i == |s.decisions|
    && (forall d :: 0 <= d < i ==> s.decisions[d].market == d)
    && Balance(s.ledger, 0) == limit + 1 - i
  }

  function WithTopic(s: State, mk: Market): State { s.(markets := s.markets + [mk]) }

  lemma {:induction false} LastUpdated<T>(xs: seq<T>, a: T, b: T)
    ensures (xs + [a])[|xs| := b] == xs + [b]
  {
  }

  lemma {:induction false} OneLot()
    ensures Cleaned([Lot(Buy, 1)]) == [Lot(Buy, 1)] && Sum(LotAmount(), [Lot(Buy, 1)]) == 1
    ensures ReplacedBets([], 0, [Lot(Buy, 1)]) == [BET]
  {
    assert [Lot(Buy, 1)][..0] == [];
  }

  lemma {:induction false} WholeBalance(limit: nat, balance: nat)
    ensures MaxAllowed(Settings(limit), balance) == balance
  {
    assert balance as real * 1.0 == balance as real;
  }

  lemma {:induction false} OneIsAccepted(limit: nat, balance: nat)
    requires balance >= 1
    ensures AllocationError(Settings(limit), Open, 10, 0, [Lot(Buy, 1)], balance) == None
  {
    OneLot();
    WholeBalance(limit, balance);
    assert !BelowMinimum(Settings(limit), [Lot(Buy, 1)]);
  }

  lemma {:induction false} Stakes(limit: nat, s: State, i: nat)
    requires Ready(limit, s, i) && i <= limit
    ensures Apply(Settings(limit), WithTopic(s, Topic(Open, None, [])), Staking(i))
      == WithTopic(s, Topic(Open, None, [BET])).(ledger := s.ledger + [Lock(i)])
  {
    hide AllocationError, MaxAllowed;
    OneIsAccepted(limit, limit + 1 - i);
    OneLot();
    LastUpdated(s.markets, Topic(Open, None, []), Topic(Open, None, [BET]));
    assert Previous([], 0) == 0;
    assert AllocationEntries(i, 0, 0, 1) == [Lock(i)];
  }

  lemma {:induction false} Closes(limit: nat, s: State)
    ensures Apply(Settings(limit), WithTopic(s, Topic(Open, None, [BET])), Close(|s.markets|, Some(100)))
      == WithTopic(s, Topic(Closed, Some(100), [BET]))
  {
    LastUpdated(s.markets, Topic(Open, None, [BET]), Topic(Closed, Some(100), [BET]));
  }

  lemma {:induction false} OneStake()
    ensures Rows([BET]) == [Stake(0, Buy, 1)]
    ensures Consensus.Compute([Stake(0, Buy, 1)])
      == Consensus.Consensus(Consensus.Spread(1, 0, 0), 1, 1, Consensus.Spread(10_000, 0, 0))
  {
    var row := Stake(0, Buy, 1);
    SumOne(WinningAmount(Buy), row);
    SumOne(WinningAmount(Sell), row);
    SumOne(WinningAmount(Hold), row);
    assert Consensus.Members([row]) == {0};
  }

  lemma {:induction false} PlansTen(limit: nat, s: State, mk: Market)
    requires s.members == [Member(true)] && mk == Topic(Closed, Some(100), [BET])
    ensures var c := Consensus.Consensus(Consensus.Spread(1, 0, 0), 1, 1, Consensus.Spread(10_000, 0, 0));
      && MakePlan(Settings(limit), s, mk, c, Some(100)) == Ok(Steps.Plan(false, 10, Some(100)))
      && DecisionOf(|s.decisions|, c, Steps.Plan(false, 10, Some(100))) == Plan(|s.decisions|, Pending)
  {
    assert [Member(true)][..0] == [];
    assert ActiveCount([Member(true)]) == 1;
  }

  lemma {:induction false} Decides(limit: nat, s: State, i: nat)
    requires s.members == [Member(true)] && |s.markets| == i == |s.decisions|
    requires forall d :: 0 <= d < i ==> s.decisions[d].market == d
    ensures Apply(Settings(limit), WithTopic(s, Topic(Closed, Some(100), [BET])), Decide(i, Some(100)))
      == WithTopic(s, Topic(Decided, Some(100), [BET])).(decisions := s.decisions + [Plan(i, Pending)])
  {
    hide MakePlan, DecisionOf, Consensus.Compute;
    OneStake();
    PlansTen(limit, WithTopic(s, Topic(Closed, Some(100), [BET])), Topic(Closed, Some(100), [BET]));
    LastUpdated(s.markets, Topic(Closed, Some(100), [BET]), Topic(Decided, Some(100), [BET]));
  }

  lemma {:induction false} Allowed(limit: nat, s: State, i: nat, now: int, stamp: int)
    requires DailyOrders(s.orders, 0, now) < limit
    ensures var env := EnvAt(now, stamp);
      Reasons(Settings(limit), s, ContextOf(Topic(Decided, Some(100), [BET]), Plan(i, Pending), 100), env.now, env.session,
              Some(env.balance)) == []
  {
    var env := EnvAt(now, stamp);
    var ctx := ContextOf(Topic(Decided, Some(100), [BET]), Plan(i, Pending), 100);
    assert SumReal(Value(), []) == 0.0;
    AllowedParts(Settings(limit), s, ctx, env.now, env.session, Some(env.balance));
  }

  lemma {:induction false} Approves(limit: nat, s: State, i: nat, now: int, stamp: int)
    requires |s.markets| == i == |s.decisions| && DailyOrders(s.orders, 0, now) < limit
    ensures Apply(Settings(limit),
                  WithTopic(s, Topic(Decided, Some(100), [BET])).(decisions := s.decisions + [Plan(i, Pending)]),
                  Approve(i, EnvAt(now, stamp)))
      == WithTopic(s, Topic(MarketStatus.Executed, Some(100), [BET])).(decisions := s.decisions + [Plan(i, Done)],
                                                        orders := s.orders + [Sent(i, stamp)])
  {
    hide Reasons;
    var before := WithTopic(s, Topic(Decided, Some(100), [BET])).(decisions := s.decisions + [Plan(i, Pending)]);
    Allowed(limit, before, i, now, stamp);
    LastUpdated(s.markets, Topic(Decided, Some(100), [BET]), Topic(MarketStatus.Executed, Some(100), [BET]));
    LastUpdated(s.decisions, Plan(i, Pending), Plan(i, Done));
  }

  lemma {:induction false} RunFive(cfg: Config, s: State, a: Step, b: Step, c: Step, d: Step, e: Step)
    ensures Run(cfg, s, [a, b, c, d, e]) == Apply(cfg, Apply(cfg, Apply(cfg, Apply(cfg, Apply(cfg, s, a), b), c), d), e)
  {
    hide Apply;
    assert [a, b, c, d, e] == [a, b] + ([c, d] + [e]);
    RunAppend(cfg, s, [a, b], [c, d] + [e]);
    RunAppend(cfg, Run(cfg, s, [a, b]), [c, d], [e]);
    RunTwo(cfg, s, a, b);
    RunTwo(cfg, Run(cfg, s, [a, b]), c, d);
    RunOne(cfg, Run(cfg, Run(cfg, s, [a, b]), [c, d]), e);
  }

  lemma {:induction false} RunOne(cfg: Config, s: State, e: Step)
    ensures Run(cfg, s, [e]) == Apply(cfg, s, e)
  {
    assert [e][1..] == [];
    assert Run(cfg, Apply(cfg, s, e), []) == Apply(cfg, s, e);
  }

  /** One block adds one order, provided the gate has counted fewer than the limit. */
  lemma {:induction false} BlockAddsOrder(limit: nat, s: State, i: nat, now: int, stamp: int)
    requires Ready(limit, s, i) && i <= limit && DailyOrders(s.orders, 0, now) < limit
    ensures var t := Run(Settings(limit), s, Block(i, now, stamp));
      Ready(limit, t, i + 1) && t.orders == s.orders + [Sent(i, stamp)]
  {
    hide Apply, DailyOrders;
    var cfg := Settings(limit);
    var locked := s.(ledger := s.ledger + [Lock(i)]);
    RunFive(cfg, s, OPENING, Staking(i), Close(i, Some(100)), Decide(i, Some(100)), Approve(i, EnvAt(now, stamp)));
    Opens(limit, s);
    Stakes(limit, s, i);
    Closes(limit, locked);
    Decides(limit, locked, i);
    Approves(limit, locked, i, now, stamp);
    SumSnoc(OfMember(0), s.ledger, Lock(i));
  }

  lemma {:induction false} Opens(limit: nat, s: State)
    ensures Apply(Settings(limit), s, OPENING) == WithTopic(s, Topic(Open, None, []))
  {
  }

  // ------------------------------------------------------------------ a full limit, and one more

  /** The member joins, then n blocks are approved and stamped at time 0. */
  function Full(n: nat): seq<Step> {
    if n == 0 then [NewMember] else Full(n - 1) + Block(n - 1, 0, 0)
  }

  lemma {:induction false} FullIsReady(limit: nat, n: nat)
    requires n <= limit
    ensures var s := Run(Settings(limit), EMPTY, Full(n));
      && Ready(limit, s, n) && |s.orders| == n
      && (forall o :: o in s.orders ==> o.fund == 0 && o.status == Submitted && o.createdAt == 0)
  {
    var cfg := Settings(limit);
    if n == 0 {
      RunOne(cfg, EMPTY, NewMember);
      SumSnoc(OfMember(0), [], Entry(0, None, Grant, limit + 1));
      assert [] + [Entry(0, None, Grant, limit + 1)] == [Entry(0, None, Grant, limit + 1)];
    } else {
      hide Block;
      FullIsReady(limit, n - 1);
      var s := Run(cfg, EMPTY, Full(n - 1));
      RunAppend(cfg, EMPTY, Full(n - 1), Block(n - 1, 0, 0));
      FilterMembers(Recent(0, 0 - DAY), s.orders);
      BlockAddsOrder(limit, s, n - 1, 0, 0);
    }
  }

  /** A full limit at time 0 and one more order, checked a microsecond past the day but stamped at `length`. */
  function Overflow(limit: nat, length: int): seq<Step> { Full(limit) + Block(limit, DAY + 1, length) }

  lemma {:induction false} FullClocks(n: nat, skew: int)
    requires skew >= 0
    ensures ClocksWithin(Full(n), skew)
  {
    if n > 0 {
      FullClocks(n - 1, skew);
    }
  }

  /** The gate lets all of them through, and the closed window 0 .. length holds one more order than the limit. */
  lemma {:induction false} LateStampOverflows(limit: nat, skew: int, length: int)
    requires limit >= 1 && length >= 0 && skew >= 0 && length + skew > DAY
    ensures ClocksWithin(Overflow(limit, length), skew)
    ensures OrdersWithin(Run(Settings(limit), EMPTY, Overflow(limit, length)).orders, 0, 0, length) == limit + 1
  {
    var s := Run(Settings(limit), EMPTY, Full(limit));
    FullClocks(limit, skew);
    FullIsReady(limit, limit);
    RunAppend(Settings(limit), EMPTY, Full(limit), Block(limit, DAY + 1, length));
    NoneRecent(s.orders);
    BlockAddsOrder(limit, s, limit, DAY + 1, length);
    FilterAll(InWindow(0, 0, length), s.orders);
    CountSnoc(InWindow(0, 0, length), s.orders, Sent(limit, length));
  }

  lemma {:induction false} NoneRecent(orders: seq<Order>)
    requires forall o :: o in orders ==> o.createdAt == 0
    ensures DailyOrders(orders, 0, DAY + 1) == 0
  {
    FilterNone(Recent(0, 1), orders);
  }

  /** No fund ever has more than the limit of orders in a closed window of this length, over any run with these clocks. */
  ghost predicate LimitHolds(limit: nat, skew: int, length: int) {
    forall cfg: Config, steps: seq<Step>, fund: nat, from: int, to: int ::
      cfg.maxDailyOrders == limit && ClocksWithin(steps, skew) && to - from <= length ==>
        OrdersWithin(Run(cfg, EMPTY, steps).orders, fund, from, to) <= limit
  }

  /**
   * Main result on the gate. Over all runs whose order rows are stamped at most `skew` before their checks, the limit
   * holds in every closed window of a given length if and only if length plus skew fit into a day: for the 24-hour
   * window only when no row is stamped before its check.
   */
  lemma {:induction false} LimitHoldsIff(limit: nat, skew: int, length: int)
    requires limit >= 1 && length >= 0 && skew >= 0
    ensures LimitHolds(limit, skew, length) <==> length + skew <= DAY
  {
    if length + skew <= DAY {
      forall cfg: Config, steps: seq<Step>, fund: nat, from: int, to: int
        | cfg.maxDailyOrders == limit && ClocksWithin(steps, skew) && to - from <= length
        ensures OrdersWithin(Run(cfg, EMPTY, steps).orders, fund, from, to) <= limit
      {
        RunsStayWithinLimit(cfg, steps, skew, fund, from, to);
      }
    } else {
      LateStampOverflows(limit, skew, length);
      assert OrdersWithin(Run(Settings(limit), EMPTY, Overflow(limit, length)).orders, 0, 0, length) > limit;
    }
  }
}
