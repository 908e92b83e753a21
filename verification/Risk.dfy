/** The risk gate every order passes (risk.py). */
module Risk {
  import opened Sums
  import opened Domain
  import opened Tables

  const DAY: int := 86_400_000_000   // microseconds

  datatype RiskContext = RiskContext(fund: nat, ticker: string, side: OrderSide, quantity: int, price: int,
                                     orderType: OrderType) {
    function Notional(): int { price * quantity }
  }

  datatype Reason =
    | KillSwitch
    | NoQuantity
    | OverOrderCap
    | OutsideHours
    | NoMarketOrders
    | TooManyOrders
    | OverHeld
    | BalanceUnknown
    | OverCash
    | OverWeight

  /** Non-refused orders of a fund created at or after `since`. */
  function Recent(fund: nat, since: int): Order -> bool {
    (o: Order) => o.fund == fund && o.createdAt >= since && o.status != Refused
  }

  function DailyOrders(orders: seq<Order>, fund: nat, now: int): nat {
    CountWhere(Recent(fund, now - DAY), orders)
  }

  function HeldQuantity(positions: map<(nat, string), Position>, fund: nat, ticker: string): int {
    if (fund, ticker) in positions then positions[(fund, ticker)].quantity else 0
  }

  /** `current_price or avg_price`: a missing or zero current price falls back to the average. */
  function PriceOf(h: Holding): real {
    if h.currentPrice.Some? && h.currentPrice.value != 0.0 then h.currentPrice.value else h.avgPrice
  }

  function Value(): Holding -> real { (h: Holding) => PriceOf(h) * h.quantity as real }

  function Equity(b: Snapshot): real { b.cash + SumReal(Value(), b.holdings) }

  /** The value of the first holding of the ticker, zero if there is none. */
  function ValueOf(holdings: seq<Holding>, ticker: string): real {
    if holdings == [] then 0.0
    else if holdings[0].ticker == ticker then Value()(holdings[0])
    else ValueOf(holdings[1..], ticker)
  }

  predicate OverweightAfter(b: Snapshot, ticker: string, notional: int, cap: real)
    requires Equity(b) > 0.0
  {
    (ValueOf(b.holdings, ticker) + notional as real) / Equity(b) > cap
  }

  function BuyReasons(cfg: Config, ctx: RiskContext, balance: Option<Snapshot>): seq<Reason> {
    match balance
    case None => [BalanceUnknown]
    case Some(b) =>
      (if b.cash < ctx.Notional() as real then [OverCash] else [])
      + (if Equity(b) > 0.0 && OverweightAfter(b, ctx.ticker, ctx.Notional(), cfg.maxWeight) then [OverWeight] else [])
  }

  function HourReasons(cfg: Config, ctx: RiskContext, session: Session): seq<Reason> {
    if !cfg.enforceHours then []
    else if !session.isOpen then [OutsideHours]
    else if ctx.orderType == AtMarket && !session.marketOrderAllowed then [NoMarketOrders]
    else []
  }

  function When(blocked: bool, reason: Reason): seq<Reason> { if blocked then [reason] else [] }

  function SideReasons(cfg: Config, s: State, ctx: RiskContext, broker: Option<Option<Snapshot>>): seq<Reason> {
    match ctx.side
    case SellSide => When(ctx.quantity > HeldQuantity(s.positions, ctx.fund, ctx.ticker), OverHeld)
    case BuySide => if broker.None? then [] else BuyReasons(cfg, ctx, broker.value)
  }

  function LimitReasons(cfg: Config, ctx: RiskContext, session: Session): seq<Reason> {
    When(cfg.killSwitch, KillSwitch)
    + When(ctx.quantity <= 0, NoQuantity)
    + When(ctx.Notional() > cfg.maxOrderAmount, OverOrderCap)
    + HourReasons(cfg, ctx, session)
  }

  /**
   * Every reason to block the order, in the order the checks run; the order is allowed iff there is none. Without a
   * broker the balance is not looked at; with one, the answer may be unknown.
   */
  function Reasons(cfg: Config, s: State, ctx: RiskContext, now: int, session: Session, broker: Option<Option<Snapshot>>)
    : seq<Reason>
  {
    LimitReasons(cfg, ctx, session)
    + When(DailyOrders(s.orders, ctx.fund, now) >= cfg.maxDailyOrders, TooManyOrders)
    + SideReasons(cfg, s, ctx, broker)
  }

  method CheckOrder(cfg: Config, s: State, ctx: RiskContext, now: int, session: Session, broker: Option<Option<Snapshot>>)
    returns (reasons: seq<Reason>)
    ensures reasons == Reasons(cfg, s, ctx, now, session, broker)
  {
    reasons := CheckLimits(cfg, ctx, session);
    var daily := DailyOrders(s.orders, ctx.fund, now);
    if daily >= cfg.maxDailyOrders {
      reasons := reasons + [TooManyOrders];
    }
    assert reasons == LimitReasons(cfg, ctx, session) + When(daily >= cfg.maxDailyOrders, TooManyOrders);
    if ctx.side == SellSide {
      var held := HeldQuantity(s.positions, ctx.fund, ctx.ticker);
      if ctx.quantity > held {
        reasons := reasons + [OverHeld];
      }
    }
    if broker.Some? && ctx.side == BuySide {
      var more := CheckBuy(cfg, ctx, broker.value);
      reasons := reasons + more;
    }
  }

  /** The checks on the order and the session alone. */
  method CheckLimits(cfg: Config, ctx: RiskContext, session: Session) returns (reasons: seq<Reason>)
    ensures reasons == LimitReasons(cfg, ctx, session)
  {
    reasons := [];
    if cfg.killSwitch {
      reasons := reasons + [KillSwitch];
    }
    if ctx.quantity <= 0 {
      reasons := reasons + [NoQuantity];
    }
    if ctx.Notional() > cfg.maxOrderAmount {
      reasons := reasons + [OverOrderCap];
    }
    if cfg.enforceHours {
      if !session.isOpen {
        reasons := reasons + [OutsideHours];
      } else if ctx.orderType == AtMarket && !session.marketOrderAllowed {
        reasons := reasons + [NoMarketOrders];
      }
    }
  }

  /** The checks that need the broker's balance; not knowing it blocks the order. */
  method CheckBuy(cfg: Config, ctx: RiskContext, balance: Option<Snapshot>) returns (reasons: seq<Reason>)
    ensures reasons == BuyReasons(cfg, ctx, balance)
  {
    reasons := [];
    match balance {
      case None => reasons := reasons + [BalanceUnknown];
      case Some(b) =>
        if b.cash < ctx.Notional() as real {
          reasons := reasons + [OverCash];
        }
        if Equity(b) > 0.0 {
          if OverweightAfter(b, ctx.ticker, ctx.Notional(), cfg.maxWeight) {
            reasons := reasons + [OverWeight];
          }
        }
    }
  }

  // ------------------------------------------------------------------ the gate in plain terms

  /** The rows that count: this fund's, not refused, stamped within the day before now. */
  ghost function CountedRows(orders: seq<Order>, fund: nat, now: int): set<nat> {
    set i: nat | i < |orders| && orders[i].fund == fund && orders[i].status != Refused && orders[i].createdAt >= now - 86_400_000_000
  }

  lemma {:induction false} DailyOrdersAre(orders: seq<Order>, fund: nat, now: int)
    ensures DailyOrders(orders, fund, now) == |CountedRows(orders, fund, now)|
  {
    var p := Recent(fund, now - DAY);
    CountIsCardinality(p, orders);
    assert Places(p, orders) == CountedRows(orders, fund, now);
  }

  /** A holding counts at its current price when that is known and not zero, else at its average. */
  lemma {:induction false} PricesAre(h: Holding)
    ensures h.currentPrice.Some? && h.currentPrice.value != 0.0 ==> Value()(h) == h.currentPrice.value * h.quantity as real
    ensures h.currentPrice.None? || h.currentPrice.value == 0.0 ==> Value()(h) == h.avgPrice * h.quantity as real
  {
  }

  ghost predicate FirstOf(holdings: seq<Holding>, ticker: string, i: nat)
    requires i < |holdings|
  {
    holdings[i].ticker == ticker && forall j :: 0 <= j < i ==> holdings[j].ticker != ticker
  }

  /** The existing value is that of the first holding of the ticker. */
  lemma {:induction false} ExistingValueIs(holdings: seq<Holding>, ticker: string)
    ensures (forall h :: h in holdings ==> h.ticker != ticker) ==> ValueOf(holdings, ticker) == 0.0
    ensures forall i :: 0 <= i < |holdings| && FirstOf(holdings, ticker, i) ==> ValueOf(holdings, ticker) == Value()(holdings[i])
  {
    if holdings != [] {
      ExistingValueIs(holdings[1..], ticker);
      forall i | 0 <= i < |holdings| && FirstOf(holdings, ticker, i)
        ensures ValueOf(holdings, ticker) == Value()(holdings[i])
      {
        if i > 0 {
          assert holdings[0].ticker != ticker && holdings[1..][i - 1] == holdings[i];
          forall j | 0 <= j < i - 1 ensures holdings[1..][j].ticker != ticker {
            assert holdings[1..][j] == holdings[j + 1];
          }
        }
      }
    }
  }

  /** The trading-hours test in plain terms. */
  lemma {:induction false} HoursAre(cfg: Config, ctx: RiskContext, session: Session)
    ensures HourReasons(cfg, ctx, session) == []
      <==> (cfg.enforceHours ==> session.isOpen && (ctx.orderType == AtMarket ==> session.marketOrderAllowed))
  {
  }

  /**
   * Exactly when an order is allowed: the kill switch is off, the quantity positive, the amount within the single-order
   * cap, the session open and, for a market order, taking market orders whenever hours are enforced; fewer than the limit
   * of the fund's rows that were not refused are stamped within the day; a SELL asks for no more than is held; and a BUY,
   * when there is a broker, fits a known balance's cash and, when equity is positive, leaves the ticker within its weight.
   */
  lemma {:induction false} AllowedMeans(cfg: Config, s: State, ctx: RiskContext, now: int, session: Session,
                                        broker: Option<Option<Snapshot>>)
    ensures Reasons(cfg, s, ctx, now, session, broker) == [] <==>
      && !cfg.killSwitch
      && ctx.quantity > 0
      && ctx.price * ctx.quantity <= cfg.maxOrderAmount
      && (cfg.enforceHours ==> session.isOpen && (ctx.orderType == AtMarket ==> session.marketOrderAllowed))
      && |CountedRows(s.orders, ctx.fund, now)| < cfg.maxDailyOrders
      && (ctx.side == SellSide ==>
            ctx.quantity <= if (ctx.fund, ctx.ticker) in s.positions then s.positions[(ctx.fund, ctx.ticker)].quantity else 0)
      && (ctx.side == BuySide && broker.Some? ==>
            && broker.value.Some?
            && (ctx.price * ctx.quantity) as real <= broker.value.value.cash
            && var equity := broker.value.value.cash + SumReal(Value(), broker.value.value.holdings);
               equity > 0.0 ==>
                 (ValueOf(broker.value.value.holdings, ctx.ticker) + (ctx.price * ctx.quantity) as real) / equity <= cfg.maxWeight)
  {
    DailyOrdersAre(s.orders, ctx.fund, now);
    AllowedParts(cfg, s, ctx, now, session, broker);
    HoursAre(cfg, ctx, session);
  }

  lemma {:induction false} AllowedParts(cfg: Config, s: State, ctx: RiskContext, now: int, session: Session,
                                        broker: Option<Option<Snapshot>>)
    ensures Reasons(cfg, s, ctx, now, session, broker) == [] <==>
      && !cfg.killSwitch
      && ctx.quantity > 0
      && ctx.Notional() <= cfg.maxOrderAmount
      && HourReasons(cfg, ctx, session) == []
      && DailyOrders(s.orders, ctx.fund, now) < cfg.maxDailyOrders
      && (ctx.side == SellSide ==> ctx.quantity <= HeldQuantity(s.positions, ctx.fund, ctx.ticker))
      && (ctx.side == BuySide && broker.Some? ==>
            && broker.value.Some?
            && ctx.Notional() as real <= broker.value.value.cash
            && (Equity(broker.value.value) > 0.0 ==>
                  !OverweightAfter(broker.value.value, ctx.ticker, ctx.Notional(), cfg.maxWeight)))
  {
  }

  /** The order in which the checks run. */
  ghost function Turn(r: Reason): nat {
    match r
    case KillSwitch => 0
    case NoQuantity => 1
    case OverOrderCap => 2
    case OutsideHours => 3
    case NoMarketOrders => 4
    case TooManyOrders => 5
    case OverHeld => 6
    case BalanceUnknown => 7
    case OverCash => 8
    case OverWeight => 9
  }

  /** The limit a reason stands for is broken. */
  ghost predicate Broken(r: Reason, cfg: Config, s: State, ctx: RiskContext, now: int, session: Session,
                         broker: Option<Option<Snapshot>>)
  {
    var buying := ctx.side == BuySide && broker.Some?;
    match r
    case KillSwitch => cfg.killSwitch
    case NoQuantity => ctx.quantity <= 0
    case OverOrderCap => ctx.price * ctx.quantity > cfg.maxOrderAmount
    case OutsideHours => cfg.enforceHours && !session.isOpen
    case NoMarketOrders => cfg.enforceHours && session.isOpen && ctx.orderType == AtMarket && !session.marketOrderAllowed
    case TooManyOrders => |CountedRows(s.orders, ctx.fund, now)| >= cfg.maxDailyOrders
    case OverHeld =>
      ctx.side == SellSide
      && ctx.quantity > if (ctx.fund, ctx.ticker) in s.positions then s.positions[(ctx.fund, ctx.ticker)].quantity else 0
    case BalanceUnknown => buying && broker.value.None?
    case OverCash => buying && broker.value.Some? && broker.value.value.cash < (ctx.price * ctx.quantity) as real
    case OverWeight =>
      buying && broker.value.Some?
      && var equity := broker.value.value.cash + SumReal(Value(), broker.value.value.holdings);
         && equity > 0.0
         && (ValueOf(broker.value.value.holdings, ctx.ticker) + (ctx.price * ctx.quantity) as real) / equity > cfg.maxWeight
  }

  ghost predicate InTurn(reasons: seq<Reason>, from: nat, to: nat) {
    && (forall r :: r in reasons ==> from <= Turn(r) <= to)
    && (forall i, j :: 0 <= i < j < |reasons| ==> Turn(reasons[i]) < Turn(reasons[j]))
  }

  lemma {:induction false} TurnsAppend(a: seq<Reason>, b: seq<Reason>, from: nat, x: nat, y: nat, to: nat)
    requires InTurn(a, from, x) && InTurn(b, y, to) && from <= x < y <= to
    ensures InTurn(a + b, from, to)
  {
    forall i | 0 <= i < |a| ensures Turn(a[i]) <= x {
      assert a[i] in a;
    }
    forall j | 0 <= j < |b| ensures Turn(b[j]) >= y {
      assert b[j] in b;
    }
  }

  lemma {:induction false} WhenIs(blocked: bool, reason: Reason)
    ensures InTurn(When(blocked, reason), Turn(reason), Turn(reason))
    ensures forall r :: r in When(blocked, reason) <==> blocked && r == reason
  {
  }

  lemma {:induction false} LimitsAre(cfg: Config, s: State, ctx: RiskContext, now: int, session: Session,
                                     broker: Option<Option<Snapshot>>)
    ensures InTurn(LimitReasons(cfg, ctx, session), 0, 4)
    ensures forall r ::
      r in LimitReasons(cfg, ctx, session) <==> Turn(r) <= 4 && Broken(r, cfg, s, ctx, now, session, broker)
  {
    hide When, InTurn, CountedRows, Value, ValueOf, SumReal;
    var a, b := When(cfg.killSwitch, KillSwitch), When(ctx.quantity <= 0, NoQuantity);
    var c, d := When(ctx.Notional() > cfg.maxOrderAmount, OverOrderCap), HourReasons(cfg, ctx, session);
    WhenIs(cfg.killSwitch, KillSwitch);
    WhenIs(ctx.quantity <= 0, NoQuantity);
    WhenIs(ctx.Notional() > cfg.maxOrderAmount, OverOrderCap);
    HoursInTurn(cfg, ctx, session);
    TurnsAppend(a, b, 0, 0, 1, 1);
    TurnsAppend(a + b, c, 0, 1, 2, 2);
    TurnsAppend(a + b + c, d, 0, 2, 3, 4);
    forall r ensures r in a + b + c + d <==> Turn(r) <= 4 && Broken(r, cfg, s, ctx, now, session, broker) {
    }
  }

  lemma {:induction false} HoursInTurn(cfg: Config, ctx: RiskContext, session: Session)
    ensures InTurn(HourReasons(cfg, ctx, session), 3, 4)
  {
  }

  lemma {:induction false} SidesAre(cfg: Config, s: State, ctx: RiskContext, now: int, session: Session,
                                    broker: Option<Option<Snapshot>>)
    ensures InTurn(SideReasons(cfg, s, ctx, broker), 6, 9)
    ensures forall r ::
      r in SideReasons(cfg, s, ctx, broker) <==> Turn(r) >= 6 && Broken(r, cfg, s, ctx, now, session, broker)
  {
    hide CountedRows, Value, ValueOf, SumReal;
    forall r ensures r in SideReasons(cfg, s, ctx, broker) <==> Turn(r) >= 6 && Broken(r, cfg, s, ctx, now, session, broker) {
    }
  }

  /** The gate reports every limit that is broken and no other, each once, in the order in which they are checked. */
  lemma {:induction false} ReasonsAre(cfg: Config, s: State, ctx: RiskContext, now: int, session: Session,
                                      broker: Option<Option<Snapshot>>)
    ensures forall r :: r in Reasons(cfg, s, ctx, now, session, broker) <==> Broken(r, cfg, s, ctx, now, session, broker)
    ensures InTurn(Reasons(cfg, s, ctx, now, session, broker), 0, 9)
  {
    hide LimitReasons, SideReasons;
    var limits := LimitReasons(cfg, ctx, session);
    var daily := When(DailyOrders(s.orders, ctx.fund, now) >= cfg.maxDailyOrders, TooManyOrders);
    DailyOrdersAre(s.orders, ctx.fund, now);
    LimitsAre(cfg, s, ctx, now, session, broker);
    SidesAre(cfg, s, ctx, now, session, broker);
    TurnsAppend(limits, daily, 0, 4, 5, 5);
    TurnsAppend(limits + daily, SideReasons(cfg, s, ctx, broker), 0, 5, 6, 9);
    forall r ensures r in daily <==> Turn(r) == 5 && Broken(r, cfg, s, ctx, now, session, broker) {
    }
  }
}
