/**
 * What each service call does to the database, as a function: the new state, or the error that leaves the
 * database as it was. The methods of class Database are proved to compute these functions.
 */
module Steps {
  import opened Sums
  import opened Arithmetic
  import opened Domain
  import opened Tally
  import opened Tables
  import opened Parimutuel
  import opened Risk
  import Consensus
  import Verdict

  // ------------------------------------------------------------------ members and markets

  function CreateMember(cfg: Config, s: State): State {
    s.(members := s.members + [Member(true)],
       ledger := s.ledger + [Entry(|s.members|, None, Grant, cfg.initialPoints)])
  }

  function SetActive(s: State, m: nat, active: bool): Result<State> {
    if m >= |s.members| then Err(NotFound) else Ok(s.(members := s.members[m := Member(active)]))
  }

  /** The request is validated before the fund is looked up. */
  function CreateMarket(cfg: Config, s: State, fundExists: bool, fund: nat, ticker: string, closesAt: int, resolveAt: int,
                        notional: int, buyPct: Option<int>, sellPct: Option<int>): Result<State>
  {
    if resolveAt <= closesAt || notional <= 0 then Err(BadValue)
    else if buyPct.Some? && sellPct.Some? && sellPct.value >= buyPct.value then Err(BadValue)
    else if !fundExists then Err(NotFound)
    else
      var buy := if buyPct.Some? then buyPct.value else cfg.defaultBuyPct;
      var sell := if sellPct.Some? then sellPct.value else cfg.defaultSellPct;
      Ok(s.(markets := s.markets
        + [Market(fund, ticker, closesAt, resolveAt, buy, sell, notional, Open, None, None, None, [])]))
  }

  // ------------------------------------------------------------------ allocations

  function PositiveLot(): Lot -> bool { (l: Lot) => l.amount > 0 }

  function LotAmount(): Lot -> int { (l: Lot) => l.amount }

  function Cleaned(lots: seq<Lot>): seq<Lot> { Filter(PositiveLot(), lots) }

  predicate BelowMinimum(cfg: Config, lots: seq<Lot>) {
    exists i :: 0 <= i < |lots| && lots[i].amount < cfg.minStake
  }

  function BetOf(m: nat): Lot -> Bet { (l: Lot) => Bet(m, l.outcome, l.amount, None) }

  function NotBy(m: nat): Bet -> bool { (b: Bet) => b.member != m }

  function Previous(bets: seq<Bet>, m: nat): int { Sum(StakeBy(m), bets) }

  function MaxAllowed(cfg: Config, balance: int): int { HalfEven(Times(balance as real, cfg.maxStakeRatio)) }

  /** Whether an allocation is turned down, given what the member could spend if the old one were refunded. */
  function AllocationError(cfg: Config, status: MarketStatus, closesAt: int, now: int, lots: seq<Lot>, available: int)
    : Option<Error>
  {
    var cleaned := Cleaned(lots);
    var total := Sum(LotAmount(), cleaned);
    if status != Open then Some(Conflict)
    else if closesAt <= now then Some(Conflict)
    else if cleaned == [] then Some(RuleBroken)
    else if BelowMinimum(cfg, cleaned) then Some(RuleBroken)
    else if total > available then Some(InsufficientPoints)
    else if total > MaxAllowed(cfg, available) then Some(RuleBroken)
    else None
  }

  function AllocationEntries(k: nat, m: nat, previous: int, total: int): seq<Entry> {
    (if previous > 0 then [Entry(m, Some(k), BetRefund, previous)] else []) + [Entry(m, Some(k), BetLock, -total)]
  }

  function ReplacedBets(bets: seq<Bet>, m: nat, cleaned: seq<Lot>): seq<Bet> {
    Filter(NotBy(m), bets) + Map(BetOf(m), cleaned)
  }

  function PlaceAllocation(cfg: Config, s: State, k: nat, m: nat, lots: seq<Lot>, now: int): Result<State> {
    if k >= |s.markets| || m >= |s.members| then Err(NotFound)
    else
      var mk := s.markets[k];
      var previous := Previous(mk.bets, m);
      match AllocationError(cfg, mk.status, mk.closesAt, now, lots, Balance(s.ledger, m) + previous)
      case Some(e) => Err(e)
      case None =>
        var cleaned := Cleaned(lots);
        Ok(s.(markets := s.markets[k := mk.(bets := ReplacedBets(mk.bets, m, cleaned))],
              ledger := s.ledger + AllocationEntries(k, m, previous, Sum(LotAmount(), cleaned))))
  }

  // ------------------------------------------------------------------ closing and deciding

  function CloseMarket(s: State, k: nat, quote: Option<int>): Result<State> {
    if k >= |s.markets| then Err(NotFound)
    else if s.markets[k].status != Open then Err(Conflict)
    else if quote.None? then Err(BrokerFailure)
    else Ok(s.(markets := s.markets[k := s.markets[k].(reference := quote, status := Closed)]))
  }

  predicate HasDecision(decisions: seq<Decision>, k: nat) {
    exists d :: 0 <= d < |decisions| && decisions[d].market == k
  }

  function IsActive(): Member -> bool { (m: Member) => m.active }

  function ActiveCount(members: seq<Member>): nat { CountWhere(IsActive(), members) }

  predicate QuorumMissed(cfg: Config, participants: nat, active: nat) {
    active > 0 && participants as real / active as real < cfg.quorum
  }

  /** Decimal floor division truncates towards zero. */
  function Truncated(n: int, d: int): int
    requires d != 0
  {
    if (n >= 0) == (d > 0) then Magnitude(n) / Magnitude(d) else -(Magnitude(n) / Magnitude(d))
  }

  function Magnitude(n: int): nat { if n >= 0 then n else -n }

  datatype Plan = Plan(skip: bool, quantity: int, limit: Option<int>)

  /** Skipped on participation or on a leader below the execution threshold. */
  predicate Unconvincing(cfg: Config, c: Consensus.Consensus, active: nat) {
    || c.total <= 0
    || QuorumMissed(cfg, c.participants, active)
    || c.LeadingProbability() as real / Consensus.UNIT as real < cfg.minProbability
  }

  function Sizing(s: State, mk: Market, action: Outcome, quote: Option<int>): Result<Plan> {
    match quote
    case None => Err(BrokerFailure)
    case Some(price) =>
      if action == Buy then
        if price == 0 then Err(BadValue)
        else
          var q := Truncated(mk.notional, price);
          Ok(Plan(q <= 0, q, Some(price)))
      else
        var q := HeldQuantity(s.positions, mk.fund, mk.ticker);
        Ok(Plan(q <= 0, q, Some(price)))
  }

  function LeadingAction(c: Consensus.Consensus): Outcome {
    match c.LeadingOutcome()
    case None => Hold
    case Some(o) => o
  }

  function MakePlan(cfg: Config, s: State, mk: Market, c: Consensus.Consensus, quote: Option<int>): Result<Plan> {
    if Unconvincing(cfg, c, ActiveCount(s.members)) || LeadingAction(c) == Hold then Ok(Plan(true, 0, None))
    else Sizing(s, mk, LeadingAction(c), quote)
  }

  function DecisionOf(k: nat, c: Consensus.Consensus, plan: Plan): Decision {
    Decision(k, LeadingAction(c), c.total, c.participants, if plan.skip then 0 else plan.quantity,
             if plan.skip then None else plan.limit, Limit, if plan.skip then Skipped else Pending)
  }

  function BuildDecision(cfg: Config, s: State, k: nat, quote: Option<int>): Result<State> {
    if k >= |s.markets| then Err(NotFound)
    else if s.markets[k].status != Closed then Err(Conflict)
    else if HasDecision(s.decisions, k) then Err(Conflict)
    else
      var mk := s.markets[k];
      var c := Consensus.Compute(Rows(mk.bets));
      match MakePlan(cfg, s, mk, c, quote)
      case Err(e) => Err(e)
      case Ok(plan) =>
        Ok(s.(decisions := s.decisions + [DecisionOf(k, c, plan)],
              markets := s.markets[k := mk.(status := Decided)]))
  }

  // ------------------------------------------------------------------ approving and rejecting

  function RejectDecision(s: State, d: nat): Result<State> {
    if d >= |s.decisions| then Err(NotFound)
    else if s.decisions[d].status != Pending then Err(Conflict)
    else Ok(s.(decisions := s.decisions[d := s.decisions[d].(status := Rejected)]))
  }

  /**
   * What the world answers while one order is executed: `now` is the clock the risk gate reads, `stamp` the
   * creation time the database gives the order row (the start of the transaction on PostgreSQL).
   */
  datatype Env = Env(now: int, stamp: int, quote: Option<int>, session: Session, balance: Option<Snapshot>, accepts: bool)

  datatype Attempt = Attempt(db: State, error: Option<Error>)

  function SideOf(action: Outcome): OrderSide { if action == Buy then BuySide else SellSide }

  /** `limit_price or quote`: a missing or zero limit falls back to the quote. */
  function ExecutionPrice(d: Decision, quote: Option<int>): Option<int> {
    if d.limitPrice.Some? && d.limitPrice.value != 0 then d.limitPrice else quote
  }

  function ContextOf(mk: Market, d: Decision, price: int): RiskContext {
    RiskContext(mk.fund, mk.ticker, SideOf(d.action), d.quantity, price, d.orderType)
  }

  function OrderOf(d: nat, dec: Decision, mk: Market, price: int, stamp: int, status: OrderStatus): Order {
    Order(d, dec.market, mk.fund, mk.ticker, SideOf(dec.action), dec.orderType, dec.quantity,
          if dec.orderType == Limit then Some(price) else None, stamp, status)
  }

  function Refusal(s: State, d: nat, order: Order): State
    requires d < |s.decisions|
  {
    s.(orders := s.orders + [order], decisions := s.decisions[d := s.decisions[d].(status := Failed)])
  }

  function Acceptance(s: State, d: nat, order: Order): State
    requires d < |s.decisions| && s.decisions[d].market < |s.markets|
  {
    var k := s.decisions[d].market;
    s.(orders := s.orders + [order],
       decisions := s.decisions[d := s.decisions[d].(status := Done)],
       markets := s.markets[k := s.markets[k].(status := Executed)])
  }

  function ExecuteDecision(cfg: Config, s: State, d: nat, env: Env): Attempt {
    if d >= |s.decisions| then Attempt(s, Some(NotFound))
    else if s.decisions[d].status != Pending || s.decisions[d].action == Hold then Attempt(s, Some(Conflict))
    else if s.decisions[d].market >= |s.markets| then Attempt(s, Some(NotFound))
    else
      var dec := s.decisions[d];
      var mk := s.markets[dec.market];
      match ExecutionPrice(dec, env.quote)
      case None => Attempt(s, Some(BrokerFailure))
      case Some(price) =>
        if Reasons(cfg, s, ContextOf(mk, dec, price), env.now, env.session, Some(env.balance)) != [] then
          Attempt(Refusal(s, d, OrderOf(d, dec, mk, price, env.stamp, Refused)), Some(RiskLimit))
        else if !env.accepts then
          Attempt(Refusal(s, d, OrderOf(d, dec, mk, price, env.stamp, Refused)), Some(BrokerFailure))
        else
          Attempt(Acceptance(s, d, OrderOf(d, dec, mk, price, env.stamp, Submitted)), None)
  }

  // ------------------------------------------------------------------ resolving, settling, cancelling

  function ResolveMarket(s: State, k: nat, quote: Option<int>): Result<State> {
    if k >= |s.markets| then Err(NotFound)
    else
      var mk := s.markets[k];
      if mk.status !in {Closed, Decided, MarketStatus.Executed} then Err(Conflict)
      else if mk.reference.None? then Err(Conflict)
      else if quote.None? then Err(BrokerFailure)
      else
        match Verdict.Resolve(mk.reference.value, quote.value, mk.buyPct, mk.sellPct)
        case Err(e) => Err(e)
        case Ok(v) => Ok(s.(markets := s.markets[k := mk.(resolution := quote, winner := Some(v.0), status := Resolved)]))
  }

  /** Payouts are recorded only when positive; cancellation refunds unconditionally. */
  predicate Worth(kind: EntryKind, amount: int) { kind == Payout ==> amount > 0 }

  /** The entries a settlement or cancellation appends: one per member that does not already hold one. */
  function NewEntries(ledger: seq<Entry>, k: nat, kind: EntryKind, credits: seq<Credit>): seq<Entry> {
    if credits == [] then []
    else
      var n := |credits| - 1;
      var c := credits[n];
      NewEntries(ledger, k, kind, credits[..n])
      + if Worth(kind, c.amount) && !HasEntry(ledger, c.member, k, kind) then [Entry(c.member, Some(k), kind, c.amount)] else []
  }

  function RowPayout(payouts: seq<Credit>, totals: seq<Credit>): Bet -> Bet {
    (b: Bet) => b.(payout := Some(Apportioned(Get(payouts, b.member), b.stake, Get(totals, b.member))))
  }

  function Apportioned(payout: int, stake: int, total: int): int {
    if total > 0 then HalfEven((payout * stake) as real / total as real) else 0
  }

  function StakeTotals(bets: seq<Bet>): seq<Credit> { Accrue(StakeAmount(), Rows(bets)) }

  function SettleMarket(cfg: Config, s: State, k: nat): Result<State> {
    if k >= |s.markets| then Err(NotFound)
    else
      var mk := s.markets[k];
      if mk.status != Resolved || mk.winner.None? then Err(Conflict)
      else
        match Settle(cfg.rnd, Rows(mk.bets), mk.winner.value, cfg.rakeBps)
        case Err(e) => Err(e)
        case Ok(payouts) =>
          Ok(s.(ledger := s.ledger + NewEntries(s.ledger, k, Payout, payouts),
                markets := s.markets[k := mk.(bets := Map(RowPayout(payouts, StakeTotals(mk.bets)), mk.bets),
                                              status := Settled)]))
  }

  function CancelMarket(s: State, k: nat): Result<State> {
    if k >= |s.markets| then Err(NotFound)
    else
      var mk := s.markets[k];
      if Terminal(mk.status) then Err(Conflict)
      else
        Ok(s.(ledger := s.ledger + NewEntries(s.ledger, k, CancelRefund, StakeTotals(mk.bets)),
              markets := s.markets[k := mk.(status := Cancelled)]))
  }

  // ------------------------------------------------------------------ positions

  function Tickers(holdings: seq<Holding>): set<string> { set h | h in holdings :: h.ticker }

  function Overwritten(positions: map<(nat, string), Position>, fund: nat, holdings: seq<Holding>)
    : map<(nat, string), Position>
  {
    if holdings == [] then positions
    else
      var h := holdings[|holdings| - 1];
      Overwritten(positions, fund, holdings[..|holdings| - 1])[(fund, h.ticker) := Position(h.quantity, h.avgPrice)]
  }

  function Synced(positions: map<(nat, string), Position>, fund: nat, holdings: seq<Holding>)
    : map<(nat, string), Position>
  {
    var written := Overwritten(positions, fund, holdings);
    var seen := Tickers(holdings);
    map key | key in written ::
      if key.0 == fund && key in positions && key.1 !in seen then written[key].(quantity := 0) else written[key]
  }

  /** Two new rows for one ticker, which the unique constraint on fund and ticker turns away. */
  predicate Clashes(positions: map<(nat, string), Position>, fund: nat, holdings: seq<Holding>) {
    if holdings == [] then false
    else
      var n := |holdings| - 1;
      || Clashes(positions, fund, holdings[..n])
      || (holdings[n].ticker in Tickers(holdings[..n]) && (fund, holdings[n].ticker) !in positions)
  }

  function SyncPositions(s: State, fund: nat, snapshot: Option<Snapshot>): Result<State> {
    match snapshot
    case None => Err(BrokerFailure)
    case Some(b) =>
      if Clashes(s.positions, fund, b.holdings) then Err(IntegrityFailure)
      else Ok(s.(positions := Synced(s.positions, fund, b.holdings)))
  }

  // ------------------------------------------------------------------ the scheduler

  /** What happens to one market during a tick: the quotes it gets, and whether anything else raises. */
  datatype Feed = Feed(closing: Option<int>, deciding: Option<int>, resolving: Option<int>, faultClosing: bool,
                       faultResolving: bool)

  function ClosePair(cfg: Config, feeds: nat -> Feed): (State, nat) -> Result<State> {
    (s: State, k: nat) =>
      if feeds(k).faultClosing then Err(BrokerFailure)
      else
        match CloseMarket(s, k, feeds(k).closing)
        case Err(e) => Err(e)
        case Ok(t) => BuildDecision(cfg, t, k, feeds(k).deciding)
  }

  function ResolvePair(cfg: Config, feeds: nat -> Feed): (State, nat) -> Result<State> {
    (s: State, k: nat) =>
      if feeds(k).faultResolving then Err(BrokerFailure)
      else
        match ResolveMarket(s, k, feeds(k).resolving)
        case Err(e) => Err(e)
        case Ok(t) => SettleMarket(cfg, t, k)
  }

  /** One session: an exception rolls the whole session back to its beginning and the loop goes on. */
  function Phase(pair: (State, nat) -> Result<State>, begun: State, current: State, due: seq<nat>): State
    decreases |due|
  {
    if due == [] then current
    else
      match pair(current, due[0])
      case Ok(next) => Phase(pair, begun, next, due[1..])
      case Err(_) => Phase(pair, begun, begun, due[1..])
  }

  predicate ClosingDue(mk: Market, now: int) { mk.status == Open && mk.closesAt <= now }

  predicate ResolvingDue(mk: Market, now: int) {
    mk.status in {Closed, Decided, MarketStatus.Executed} && mk.resolveAt <= now
  }

  function DueToClose(markets: seq<Market>, now: int): seq<nat> {
    if markets == [] then []
    else
      var n := |markets| - 1;
      DueToClose(markets[..n], now) + if ClosingDue(markets[n], now) then [n] else []
  }

  function DueToResolve(markets: seq<Market>, now: int): seq<nat> {
    if markets == [] then []
    else
      var n := |markets| - 1;
      DueToResolve(markets[..n], now) + if ResolvingDue(markets[n], now) then [n] else []
  }

  function Tick(cfg: Config, s: State, now: int, feeds: nat -> Feed): State {
    var closed := Phase(ClosePair(cfg, feeds), s, s, DueToClose(s.markets, now));
    Phase(ResolvePair(cfg, feeds), closed, closed, DueToResolve(closed.markets, now))
  }

  // ------------------------------------------------------------------ runs

  datatype Step =
    | NewMember
    | Activate(member: nat, active: bool)
    | NewMarket(fundExists: bool, fund: nat, ticker: string, closesAt: int, resolveAt: int, notional: int,
                buyPct: Option<int>, sellPct: Option<int>)
    | Allocate(market: nat, member: nat, lots: Allocation, now: int)
    | Close(market: nat, quote: Option<int>)
    | Decide(market: nat, quote: Option<int>)
    | Approve(decision: nat, env: Env)
    | Reject(decision: nat)
    | Resolve(market: nat, quote: Option<int>)
    | SettleUp(market: nat)
    | Cancel(market: nat)
    | Sync(fund: nat, snapshot: Option<Snapshot>)
    | Scheduled(now: int, feeds: nat -> Feed)

  function Or(r: Result<State>, s: State): State {
    match r
    case Ok(t) => t
    case Err(_) => s
  }

  function Apply(cfg: Config, s: State, step: Step): State {
    match step
    case NewMember => CreateMember(cfg, s)
    case Activate(m, a) => Or(SetActive(s, m, a), s)
    case NewMarket(known, fund, ticker, c, r, n, b, l) => Or(CreateMarket(cfg, s, known, fund, ticker, c, r, n, b, l), s)
    case Allocate(k, m, lots, now) => Or(PlaceAllocation(cfg, s, k, m, lots, now), s)
    case Close(k, q) => Or(CloseMarket(s, k, q), s)
    case Decide(k, q) => Or(BuildDecision(cfg, s, k, q), s)
    case Approve(d, env) => ExecuteDecision(cfg, s, d, env).db
    case Reject(d) => Or(RejectDecision(s, d), s)
    case Resolve(k, q) => Or(ResolveMarket(s, k, q), s)
    case SettleUp(k) => Or(SettleMarket(cfg, s, k), s)
    case Cancel(k) => Or(CancelMarket(s, k), s)
    case Sync(f, b) => Or(SyncPositions(s, f, b), s)
    case Scheduled(now, feeds) => Tick(cfg, s, now, feeds)
  }

  function Run(cfg: Config, s: State, steps: seq<Step>): State
    decreases |steps|
  {
    if steps == [] then s else Run(cfg, Apply(cfg, s, steps[0]), steps[1..])
  }

  /** Approval is given only while the decision's market is neither settled nor cancelled. */
  predicate Guarded(s: State, step: Step) {
    step.Approve? && step.decision < |s.decisions| && s.decisions[step.decision].market < |s.markets|
    ==> !Terminal(s.markets[s.decisions[step.decision].market].status)
  }

  predicate GuardedRun(cfg: Config, s: State, steps: seq<Step>)
    decreases |steps|
  {
    steps == [] || (Guarded(s, steps[0]) && GuardedRun(cfg, Apply(cfg, s, steps[0]), steps[1..]))
  }
}
