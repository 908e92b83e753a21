/** The values shared by the services: outcomes, statuses, ledger entry kinds, stakes and errors. */
module Domain {
  datatype Option<+T> = None | Some(value: T)

  datatype Result<+T> = Ok(value: T) | Err(error: Error)

  datatype Error =
    | BadValue           // ValueError and arithmetic failures
    | NotFound
    | Conflict
    | RuleBroken         // the plain DomainError
    | InsufficientPoints
    | RiskLimit
    | BrokerFailure
    | IntegrityFailure   // a unique constraint of the database

  datatype Outcome = Buy | Sell | Hold

  /** The order in which every loop and every tie-break visits the outcomes. */
  const ALL_OUTCOMES: seq<Outcome> := [Buy, Sell, Hold]

  /** `max` over ALL_OUTCOMES by a key: the first outcome that leads, given how the keys compare. */
  function FirstLeading(buyLeads: bool, sellBeatsHold: bool): Outcome {
    if buyLeads then Buy else if sellBeatsHold then Sell else Hold
  }

  datatype MarketStatus = Open | Closed | Decided | Executed | Resolved | Settled | Cancelled

  datatype DecisionStatus = Pending | Rejected | Done | Skipped | Failed

  datatype OrderStatus = Created | Submitted | Refused

  datatype OrderSide = BuySide | SellSide

  datatype OrderType = Limit | AtMarket

  datatype EntryKind = Grant | BetLock | BetRefund | CancelRefund | Payout

  /** One line of settlement input. Amounts are whole cents. */
  datatype Stake = Stake(member: nat, outcome: Outcome, amount: int)

  /** Decimal.quantize with ROUND_HALF_EVEN, the context default, to a whole unit. */
  function HalfEven(x: real): (n: int)
    ensures -0.5 <= n as real - x <= 0.5
    ensures n as real - x == 0.5 || n as real - x == -0.5 ==> n % 2 == 0
  {
    var f := x.Floor;
    var rest := x - f as real;
    if rest < 0.5 then f
    else if rest > 0.5 then f + 1
    else if f % 2 == 0 then f else f + 1
  }

  /** Decimal.quantize with ROUND_HALF_UP: halves move away from zero. */
  function HalfUp(x: real): (n: int)
    ensures -0.5 <= n as real - x <= 0.5
    ensures x >= 0.0 ==> n as real - x > -0.5
    ensures x < 0.0 ==> n as real - x < 0.5
  {
    if x >= 0.0 then (x + 0.5).Floor else -((0.5 - x).Floor)
  }
}
