/** The rows the services read and write, the settings, and what a broker answers. */
module Tables {
  import opened Sums
  import opened Domain

  /** Settings, fixed during a run. Money is in cents of a point; prices and notionals in 0.0001 KRW. */
  datatype Config = Config(
    rnd: real -> real,
    rakeBps: int,
    initialPoints: nat,
    minStake: int,
    maxStakeRatio: real,
    defaultBuyPct: int,
    defaultSellPct: int,
    quorum: real,
    minProbability: real,
    maxOrderAmount: int,
    maxDailyOrders: int,
    maxWeight: real,
    killSwitch: bool,
    enforceHours: bool)

  datatype Member = Member(active: bool)

  datatype Entry = Entry(member: nat, market: Option<nat>, kind: EntryKind, amount: int)

  datatype Bet = Bet(member: nat, outcome: Outcome, stake: int, payout: Option<int>)

  datatype Market = Market(
    fund: nat,
    ticker: string,
    closesAt: int,
    resolveAt: int,
    buyPct: int,
    sellPct: int,
    notional: int,
    status: MarketStatus,
    reference: Option<int>,
    resolution: Option<int>,
    winner: Option<Outcome>,
    bets: seq<Bet>)

  datatype Decision = Decision(
    market: nat,
    action: Outcome,
    totalStake: int,
    participants: nat,
    quantity: int,
    limitPrice: Option<int>,
    orderType: OrderType,
    status: DecisionStatus)

  datatype Order = Order(
    decision: nat,
    market: nat,
    fund: nat,
    ticker: string,
    side: OrderSide,
    orderType: OrderType,
    quantity: int,
    price: Option<int>,
    createdAt: int,
    status: OrderStatus)

  datatype Position = Position(quantity: int, avgPrice: real)

  /** The database: row ids are indexes, and no row is ever deleted except replaced bets. */
  datatype State = State(
    members: seq<Member>,
    markets: seq<Market>,
    ledger: seq<Entry>,
    decisions: seq<Decision>,
    orders: seq<Order>,
    positions: map<(nat, string), Position>)

  const EMPTY := State([], [], [], [], [], map[])

  datatype Lot = Lot(outcome: Outcome, amount: int)

  predicate DistinctOutcomes(lots: seq<Lot>) {
    forall i, j :: 0 <= i < j < |lots| ==> lots[i].outcome != lots[j].outcome
  }

  /** The submitted dictionary from outcomes to amounts. */
  type Allocation = lots: seq<Lot> | DistinctOutcomes(lots) witness []

  datatype Holding = Holding(ticker: string, quantity: int, avgPrice: real, currentPrice: Option<real>)

  datatype Snapshot = Snapshot(cash: real, holdings: seq<Holding>)

  datatype Session = Session(isOpen: bool, marketOrderAllowed: bool)

  // ------------------------------------------------------------------ reads

  function AsStake(): Bet -> Stake { (b: Bet) => Stake(b.member, b.outcome, b.stake) }

  function Rows(bets: seq<Bet>): seq<Stake> { Map(AsStake(), bets) }

  function BetStake(): Bet -> int { (b: Bet) => b.stake }

  function StakeBy(m: nat): Bet -> int { (b: Bet) => if b.member == m then b.stake else 0 }

  function Amount(): Entry -> int { (e: Entry) => e.amount }

  function OfMember(m: nat): Entry -> int { (e: Entry) => if e.member == m then e.amount else 0 }

  function OfCell(m: nat, k: nat): Entry -> int {
    (e: Entry) => if e.member == m && e.market == Some(k) then e.amount else 0
  }

  function GrantAmount(): Entry -> int { (e: Entry) => if e.kind == Grant then e.amount else 0 }

  function Balance(ledger: seq<Entry>, m: nat): int { Sum(OfMember(m), ledger) }

  function Cell(ledger: seq<Entry>, m: nat, k: nat): int { Sum(OfCell(m, k), ledger) }

  function Granted(ledger: seq<Entry>): int { Sum(GrantAmount(), ledger) }

  predicate HasEntry(ledger: seq<Entry>, m: nat, k: nat, kind: EntryKind) {
    exists i :: 0 <= i < |ledger| && Matches(ledger[i], m, k, kind)
  }

  predicate Matches(e: Entry, m: nat, k: nat, kind: EntryKind) {
    e.member == m && e.market == Some(k) && e.kind == kind
  }

  predicate Terminal(s: MarketStatus) { s == Settled || s == Cancelled }
}
