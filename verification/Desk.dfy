/** The services and the mock broker running together: the portfolio cap and the position cache. */
module Desk {
  import opened Sums
  import opened Arithmetic
  import opened Domain
  import opened Tables
  import opened Risk
  import opened Steps
  import opened Invariants
  import opened Orders
  import opened Broker

  datatype Desk = Desk(db: State, account: Account)

  /** Approvals go through Trade, so that the broker sees them. */
  type ServiceCall = step: Step | !step.Approve? witness NewMember

  datatype DeskStep =
    | Trade(decision: nat, now: int, stamp: int, session: Session)
    | Reprice(ticker: string, price: int)
    | Resync(fund: nat)
    | Service(call: ServiceCall)

  /** What the mock broker answers while decision d is executed. */
  function EnvOf(desk: Desk, d: nat, now: int, stamp: int, session: Session): Env {
    var known := d < |desk.db.decisions| && desk.db.decisions[d].market < |desk.db.markets|;
    var quote := if known then Some(desk.account.QuoteOf(desk.db.markets[desk.db.decisions[d].market].ticker)) else None;
    Env(now, stamp, quote, session, Some(desk.account.Balance()), true)
  }

  function RequestOf(o: Order): Request { Request(o.ticker, o.side, o.quantity, o.orderType, o.price) }

  predicate Traded(cfg: Config, desk: Desk, step: DeskStep)
    requires step.Trade?
  {
    ExecuteDecision(cfg, desk.db, step.decision, EnvOf(desk, step.decision, step.now, step.stamp, step.session)).error.None?
  }

  function DeskApply(cfg: Config, desk: Desk, step: DeskStep): Desk {
    match step
    case Trade(d, now, stamp, session) =>
      var attempt := ExecuteDecision(cfg, desk.db, d, EnvOf(desk, d, now, stamp, session));
      if attempt.error.None? && attempt.db.orders != [] then
        var order := attempt.db.orders[|attempt.db.orders| - 1];
        Desk(attempt.db, Placed(desk.account, RequestOf(order)).account)
      else Desk(attempt.db, desk.account)
    case Reprice(ticker, price) => desk.(account := desk.account.(prices := desk.account.prices[ticker := price]))
    case Resync(fund) => desk.(db := Or(SyncPositions(desk.db, fund, Some(desk.account.Balance())), desk.db))
    case Service(call) => desk.(db := Apply(cfg, desk.db, call))
  }

  function DeskRun(cfg: Config, desk: Desk, steps: seq<DeskStep>): Desk
    decreases |steps|
  {
    if steps == [] then desk else DeskRun(cfg, DeskApply(cfg, desk, steps[0]), steps[1..])
  }

  // ------------------------------------------------------------------ the database side

  ghost predicate DbWell(cfg: Config, s: State) { Consistent(s) && Accountable(cfg, s) }

  lemma {:induction false} ServiceKeepsDb(cfg: Config, s: State, step: Step)
    requires DbWell(cfg, s)
    ensures DbWell(cfg, Apply(cfg, s, step))
  {
    StepConsistent(cfg, s, step);
    assert [step][1..] == [];
    RunAccountable(cfg, s, [step]);
    assert Run(cfg, s, [step]) == Run(cfg, Apply(cfg, s, step), []);
  }

  /** The service call behind a desk step, if there is one. */
  function CallOf(desk: Desk, step: DeskStep): Option<Step> {
    match step
    case Trade(d, now, stamp, session) => Some(Approve(d, EnvOf(desk, d, now, stamp, session)))
    case Reprice(_, _) => None
    case Resync(fund) => Some(Sync(fund, Some(desk.account.Balance())))
    case Service(call) => Some(call)
  }

  lemma {:induction false} DeskDb(cfg: Config, desk: Desk, step: DeskStep)
    ensures DeskApply(cfg, desk, step).db
      == match CallOf(desk, step) { case None => desk.db case Some(call) => Apply(cfg, desk.db, call) }
  {
  }

  lemma {:induction false} DeskKeepsDb(cfg: Config, desk: Desk, step: DeskStep)
    requires DbWell(cfg, desk.db)
    ensures DbWell(cfg, DeskApply(cfg, desk, step).db)
  {
    DeskDb(cfg, desk, step);
    var call := CallOf(desk, step);
    if call.Some? {
      ServiceKeepsDb(cfg, desk.db, call.value);
    }
  }

  /** The order an accepted trade hands to the broker. */
  lemma {:induction false} TradeEffect(cfg: Config, desk: Desk, step: DeskStep)
    requires step.Trade? && Traded(cfg, desk, step) && DbWell(cfg, desk.db)
    ensures step.decision < |desk.db.decisions| && desk.db.decisions[step.decision].market < |desk.db.markets|
    ensures var dec := desk.db.decisions[step.decision];
      var mk := desk.db.markets[dec.market];
      && dec.status == Pending && Backed(cfg, dec, mk)
      && ExecutionPrice(dec, Some(desk.account.QuoteOf(mk.ticker))).Some?
    ensures var dec := desk.db.decisions[step.decision];
      var mk := desk.db.markets[dec.market];
      var price := ExecutionPrice(dec, Some(desk.account.QuoteOf(mk.ticker))).value;
      && DeskApply(cfg, desk, step).account
         == Placed(desk.account, Request(mk.ticker, SideOf(dec.action), dec.quantity, Limit, Some(price))).account
      && Reasons(cfg, desk.db, ContextOf(mk, dec, price), step.now, step.session, Some(Some(desk.account.Balance()))) == []
      && DeskApply(cfg, desk, step).db.positions == desk.db.positions
  {
    hide Reasons, Consistent;
    var d := step.decision;
    assert DecisionWell(cfg, desk.db.decisions[d], desk.db.markets[desk.db.decisions[d].market]);
  }

  // ------------------------------------------------------------------ the broker's book

  /** Distinct long holdings at cost. */
  ghost predicate LongOnly(a: Account) { LongHoldings(a.holdings) }

  ghost predicate LongHoldings(holdings: seq<Holding>) {
    && DistinctTickers(holdings)
    && forall h :: h in holdings ==> h.quantity > 0 && h.avgPrice >= 0.0 && h.currentPrice == None
  }

  function Weight(value: real, equity: real): real
    requires equity != 0.0
  {
    value / equity
  }

  /** Cash is nonnegative, the book at cost is worth the starting capital, and every holding is within the cap. */
  ghost predicate Capped(a: Account, capital: real, cap: real) {
    && a.cash >= 0.0
    && Equity(a.Balance()) == capital
    && forall h :: h in a.holdings ==> capital > 0.0 && Weight(Value()(h), capital) <= cap
  }

  lemma {:induction false} AverageBack(cost: real, quantity: int)
    requires quantity > 0
    ensures Cost(Average(cost, quantity), quantity) == cost
    ensures cost >= 0.0 ==> Average(cost, quantity) >= 0.0
  {
  }

  lemma {:induction false} CostAtAverage(h: Holding)
    requires h.currentPrice == None
    ensures Value()(h) == Cost(h.avgPrice, h.quantity)
    ensures h.quantity >= 0 && h.avgPrice >= 0.0 ==> Value()(h) >= 0.0
  {
    if h.quantity >= 0 && h.avgPrice >= 0.0 {
      assert h.avgPrice * h.quantity as real >= 0.0;
    }
  }

  lemma {:induction false} ValueAtCost(a: Account, ticker: string)
    requires LongOnly(a)
    ensures ValueOf(a.holdings, ticker) == CostOf(a.holdings, ticker) >= 0.0
    ensures QuantityOf(a.holdings, ticker) >= 0
  {
    ValueIsFound(a.holdings, ticker);
    FindMeaning(a.holdings, ticker);
    if Holds(a.holdings, ticker) {
      CostAtAverage(Find(a.holdings, ticker).value);
    }
  }

  lemma {:induction false} EquityCoversCash(a: Account)
    requires LongOnly(a)
    ensures Equity(a.Balance()) >= a.cash
  {
    forall h | h in a.holdings ensures Value()(h) >= 0.0 {
      CostAtAverage(h);
    }
    SumRealNonNegative(Value(), a.holdings);
  }

  lemma {:induction false} ScaledPositive(x: int, y: int)
    requires x > 0 && y > 0
    ensures Scaled(x, y) > 0
  {
    LessScaled(0, x, y);
  }

  /** A fill that averages the cost moves cash into the book one for one. */
  lemma {:induction false} BuyKeepsEquity(a: Account, r: Request)
    requires LongOnly(a) && r.side == BuySide && r.quantity > 0 && FillPrice(a, r) > 0
    ensures Placed(a, r).error.None? && LongOnly(Placed(a, r).account)
    ensures Equity(Placed(a, r).account.Balance()) == Equity(a.Balance())
    ensures Placed(a, r).account.cash == a.cash - Scaled(FillPrice(a, r), r.quantity) as real
    ensures forall t: string ::
      ValueOf(Placed(a, r).account.holdings, t) == ValueOf(a.holdings, t) + if t == r.ticker then Scaled(FillPrice(a, r), r.quantity) as real else 0.0
  {
    var price, notional := FillPrice(a, r), Scaled(FillPrice(a, r), r.quantity) as real;
    var after := Placed(a, r).account;
    var cost, newQty := CostOf(a.holdings, r.ticker) + notional, QuantityOf(a.holdings, r.ticker) + r.quantity;
    ScaledPositive(price, r.quantity);
    ValueAtCost(a, r.ticker);
    assert FillPrice(a.(submitted := a.submitted + [r]), r) == price;
    var h := Holding(r.ticker, newQty, Average(cost, newQty), None);
    assert after.holdings == Put(a.holdings, h) && after.cash == a.cash - notional;
    AverageBack(cost, newQty);
    CostAtAverage(h);
    PutMeaning(a.holdings, h);
    PutValue(a.holdings, h);
    forall t: string
      ensures ValueOf(after.holdings, t) == ValueOf(a.holdings, t) + if t == r.ticker then notional else 0.0
    {
      ValueIsFound(after.holdings, t);
      ValueIsFound(a.holdings, t);
    }
  }

  /** One allowed BUY on a capped book: the equity test is never skipped, and the book stays capped. */
  lemma {:induction false} AllowedBuyStaysCapped(a: Account, r: Request, capital: real, cap: real)
    requires LongOnly(a) && Capped(a, capital, cap)
    requires r.side == BuySide && r.quantity > 0 && FillPrice(a, r) > 0
    requires Scaled(FillPrice(a, r), r.quantity) as real <= a.cash
    requires Equity(a.Balance()) > 0.0 ==> !OverweightAfter(a.Balance(), r.ticker, Scaled(FillPrice(a, r), r.quantity), cap)
    ensures Equity(a.Balance()) > 0.0
    ensures Placed(a, r).error.None?
    ensures LongOnly(Placed(a, r).account) && Capped(Placed(a, r).account, capital, cap)
  {
    hide Scaled, Cost, Average, Put;
    var after := Placed(a, r).account;
    ScaledPositive(FillPrice(a, r), r.quantity);
    EquityCoversCash(a);
    BuyKeepsEquity(a, r);
    forall h | h in after.holdings ensures Weight(Value()(h), capital) <= cap {
      var i :| 0 <= i < |after.holdings| && after.holdings[i] == h;
      FindAt(after.holdings, i);
      ValueIsFound(after.holdings, h.ticker);
      if h.ticker != r.ticker {
        BoughtKeepsOthers(a, r, h);
      }
    }
  }

  lemma {:induction false} BoughtKeepsOthers(a: Account, r: Request, h: Holding)
    requires LongOnly(a) && r.side == BuySide && Placed(a, r).error.None?
    requires h in Placed(a, r).account.holdings && h.ticker != r.ticker
    ensures h in a.holdings
  {
    var cost, newQty := CostOf(a.holdings, r.ticker) + Scaled(FillPrice(a, r), r.quantity) as real,
                        QuantityOf(a.holdings, r.ticker) + r.quantity;
    assert FillPrice(a.(submitted := a.submitted + [r]), r) == FillPrice(a, r);
    PutMeaning(a.holdings, Holding(r.ticker, newQty, Average(cost, newQty), None));
  }

  // ------------------------------------------------------------------ BUY-only runs

  predicate BuysOnly(desk: Desk, step: DeskStep) {
    step.Trade? && step.decision < |desk.db.decisions| ==> desk.db.decisions[step.decision].action != Sell
  }

  predicate BuyOnlyRun(cfg: Config, desk: Desk, steps: seq<DeskStep>)
    decreases |steps|
  {
    steps == [] || (BuysOnly(desk, steps[0]) && BuyOnlyRun(cfg, DeskApply(cfg, desk, steps[0]), steps[1..]))
  }

  ghost predicate BookWell(cfg: Config, desk: Desk, capital: real) {
    DbWell(cfg, desk.db) && LongOnly(desk.account) && Capped(desk.account, capital, cfg.maxWeight)
  }

  lemma {:induction false} TradeStaysCapped(cfg: Config, desk: Desk, step: DeskStep, capital: real)
    requires BookWell(cfg, desk, capital) && step.Trade? && Traded(cfg, desk, step) && BuysOnly(desk, step)
    ensures Equity(desk.account.Balance()) > 0.0
    ensures var a := DeskApply(cfg, desk, step).account;
      LongOnly(a) && Capped(a, capital, cfg.maxWeight) && Equity(a.Balance()) == Equity(desk.account.Balance())
  {
    TradeEffect(cfg, desk, step);
    var dec := desk.db.decisions[step.decision];
    var mk := desk.db.markets[dec.market];
    var price := ExecutionPrice(dec, Some(desk.account.QuoteOf(mk.ticker))).value;
    var ctx := ContextOf(mk, dec, price);
    AllowedParts(cfg, desk.db, ctx, step.now, step.session, Some(Some(desk.account.Balance())));
    NotionalIsScaled(ctx);
    AllowedBuyStaysCapped(desk.account, Request(mk.ticker, SideOf(dec.action), dec.quantity, Limit, Some(price)),
                          capital, cfg.maxWeight);
  }

  lemma {:induction false} DeskStepStaysCapped(cfg: Config, desk: Desk, step: DeskStep, capital: real)
    requires BookWell(cfg, desk, capital) && BuysOnly(desk, step)
    ensures BookWell(cfg, DeskApply(cfg, desk, step), capital)
  {
    DeskKeepsDb(cfg, desk, step);
    if step.Trade? && Traded(cfg, desk, step) {
      TradeStaysCapped(cfg, desk, step, capital);
    } else if step.Trade? {
      assert DeskApply(cfg, desk, step).account == desk.account;
    }
  }

  lemma {:induction false} DeskRunStaysCapped(cfg: Config, desk: Desk, steps: seq<DeskStep>, capital: real)
    requires BookWell(cfg, desk, capital) && BuyOnlyRun(cfg, desk, steps)
    ensures BookWell(cfg, DeskRun(cfg, desk, steps), capital)
    decreases |steps|
  {
    if steps != [] {
      DeskStepStaysCapped(cfg, desk, steps[0], capital);
      DeskRunStaysCapped(cfg, DeskApply(cfg, desk, steps[0]), steps[1..], capital);
    }
  }

  /**
   * Main result on the portfolio. Starting without holdings, over any run of services, price changes, syncs and
   * approvals that only ever approves BUYs: cash never goes negative, equity at cost stays exactly the starting cash,
   * no holding outweighs the cap, and no approved order got past the weight test because equity was not positive.
   */
  lemma {:induction false} BuyOnlyRunsRespectTheCap(cfg: Config, account: Account, steps: seq<DeskStep>, next: DeskStep)
    requires account.holdings == [] && account.cash >= 0.0
    requires BuyOnlyRun(cfg, Desk(EMPTY, account), steps)
    ensures var desk := DeskRun(cfg, Desk(EMPTY, account), steps);
      && desk.account.cash >= 0.0
      && Equity(desk.account.Balance()) == account.cash
      && (forall h :: h in desk.account.holdings ==>
            h.quantity > 0 && account.cash > 0.0 && Weight(Value()(h), account.cash) <= cfg.maxWeight)
      && (next.Trade? && Traded(cfg, desk, next) && BuysOnly(desk, next) ==> Equity(desk.account.Balance()) > 0.0)
  {
    assert Consistent(EMPTY) && Accountable(cfg, EMPTY);
    var desk := DeskRun(cfg, Desk(EMPTY, account), steps);
    DeskRunStaysCapped(cfg, Desk(EMPTY, account), steps, account.cash);
    if next.Trade? && Traded(cfg, desk, next) && BuysOnly(desk, next) {
      TradeStaysCapped(cfg, desk, next, account.cash);
    }
  }

  // ------------------------------------------------------------------ every run

  lemma {:induction false} PutKeepsLong(holdings: seq<Holding>, h: Holding)
    requires LongHoldings(holdings) && h.quantity > 0 && h.avgPrice >= 0.0 && h.currentPrice == None
    ensures LongHoldings(Put(holdings, h))
  {
    PutMeaning(holdings, h);
  }

  lemma {:induction false} DropKeepsLong(holdings: seq<Holding>, ticker: string)
    requires LongHoldings(holdings)
    ensures LongHoldings(Drop(holdings, ticker))
  {
    DropMeaning(holdings, ticker);
  }

  lemma {:induction false} SellKeepsLongOnly(a: Account, r: Request)
    requires LongOnly(a) && r.side == SellSide && r.quantity > 0
    ensures LongOnly(Placed(a, r).account)
  {
    hide Scaled, FillPrice, Put, Drop;
    FindMeaning(a.holdings, r.ticker);
    var newQty := Clamped(QuantityOf(a.holdings, r.ticker) - r.quantity);
    DropKeepsLong(a.holdings, r.ticker);
    if newQty > 0 {
      assert Find(a.holdings, r.ticker).value in a.holdings;
      PutKeepsLong(a.holdings, Holding(r.ticker, newQty, AverageOf(a.holdings, r.ticker), None));
    }
  }

  lemma {:induction false} TradeKeepsLongOnly(cfg: Config, desk: Desk, step: DeskStep)
    requires DbWell(cfg, desk.db) && LongOnly(desk.account) && step.Trade? && Traded(cfg, desk, step)
    ensures LongOnly(DeskApply(cfg, desk, step).account)
  {
    TradeEffect(cfg, desk, step);
    var dec := desk.db.decisions[step.decision];
    var mk := desk.db.markets[dec.market];
    var price := ExecutionPrice(dec, Some(desk.account.QuoteOf(mk.ticker))).value;
    var r := Request(mk.ticker, SideOf(dec.action), dec.quantity, Limit, Some(price));
    if dec.action == Buy {
      BuyKeepsEquity(desk.account, r);
    } else {
      SellKeepsLongOnly(desk.account, r);
    }
  }

  /** Whatever is bought and sold, the broker's holdings stay distinct, positive and at a nonnegative cost. */
  lemma {:induction false} DeskRunLongOnly(cfg: Config, desk: Desk, steps: seq<DeskStep>)
    requires DbWell(cfg, desk.db) && LongOnly(desk.account)
    ensures DbWell(cfg, DeskRun(cfg, desk, steps).db) && LongOnly(DeskRun(cfg, desk, steps).account)
    decreases |steps|
  {
    if steps != [] {
      DeskKeepsDb(cfg, desk, steps[0]);
      if steps[0].Trade? && Traded(cfg, desk, steps[0]) {
        TradeKeepsLongOnly(cfg, desk, steps[0]);
      } else if steps[0].Trade? {
        assert DeskApply(cfg, desk, steps[0]).account == desk.account;
      }
      DeskRunLongOnly(cfg, DeskApply(cfg, desk, steps[0]), steps[1..]);
    }
  }
}
