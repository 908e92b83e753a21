/**
 * The service calls in terms of the rows they read and write: exactly when each goes through, which error it gives
 * otherwise, and what it leaves behind. (Deciding, approving and rejecting are in Orders, ticks in Scheduler.)
 */
module CallLaws {
  import opened Sums
  import opened Arithmetic
  import opened Domain
  import opened Tally
  import opened Tables
  import opened Parimutuel
  import opened Risk
  import opened Steps
  import opened LedgerLaws
  import opened Invariants
  import opened Conservation
  import opened Positions
  import Verdict

  // ------------------------------------------------------------------ allocations

  /** What a submission would lock: its positive amounts. */
  function Wanted(): Lot -> int { (l: Lot) => if l.amount > 0 then l.amount else 0 }

  /** The member's balance with the current stakes on the market given back. */
  ghost function Spendable(s: State, k: nat, m: nat): int
    requires k < |s.markets|
  {
    Balance(s.ledger, m) + Sum(StakeBy(m), s.markets[k].bets)
  }

  lemma {:induction false} CleanedIs(cfg: Config, lots: seq<Lot>)
    ensures Cleaned(lots) == [] <==> forall l :: l in lots ==> l.amount <= 0
    ensures BelowMinimum(cfg, Cleaned(lots)) <==> exists l :: l in lots && 0 < l.amount < cfg.minStake
    ensures Sum(LotAmount(), Cleaned(lots)) == Sum(Wanted(), lots)
  {
    var cleaned := Cleaned(lots);
    FilterMembers(PositiveLot(), lots);
    SumFilter(LotAmount(), PositiveLot(), Wanted(), lots);
    if cleaned != [] {
      assert cleaned[0] in cleaned;
    }
    if BelowMinimum(cfg, cleaned) {
      var i :| 0 <= i < |cleaned| && cleaned[i].amount < cfg.minStake;
      assert cleaned[i] in cleaned;
    }
    if l :| l in lots && 0 < l.amount < cfg.minStake {
      assert l in cleaned;
    }
  }

  /** The six rules of a submission, in the order in which they are checked. */
  ghost predicate Unknown(s: State, k: nat, m: nat) { k >= |s.markets| || m >= |s.members| }

  ghost predicate TooLate(mk: Market, now: int) { mk.status != Open || mk.closesAt <= now }

  ghost predicate Empty(lots: seq<Lot>) { forall l :: l in lots ==> l.amount <= 0 }

  ghost predicate TooSmall(lots: seq<Lot>, least: int) { exists l :: l in lots && 0 < l.amount < least }

  /** More than the given share of the points, rounded half even to a cent. */
  ghost predicate TooLarge(total: int, points: int, ratio: real) { total > HalfEven(Times(points as real, ratio)) }

  lemma {:induction false} SameShare(cfg: Config, total: int, points: int)
    ensures TooLarge(total, points, cfg.maxStakeRatio) <==> total > MaxAllowed(cfg, points)
  {
  }

  /**
   * Exactly which submissions are accepted, and the error of the first rule a submission breaks: the ids are known; the
   * market is OPEN and its closing time still to come; something is positive; every positive amount reaches the minimum;
   * the positive amounts are within balance plus current stakes; and within maxStakeRatio of that, rounded half even.
   */
  lemma {:induction false} AllocationAcceptedIff(cfg: Config, s: State, k: nat, m: nat, lots: seq<Lot>, now: int)
    ensures var r := PlaceAllocation(cfg, s, k, m, lots, now);
      if Unknown(s, k, m) then r == Err(NotFound)
      else if TooLate(s.markets[k], now) then r == Err(Conflict)
      else if Empty(lots) || TooSmall(lots, cfg.minStake) then r == Err(RuleBroken)
      else if Sum(Wanted(), lots) > Spendable(s, k, m) then r == Err(InsufficientPoints)
      else if TooLarge(Sum(Wanted(), lots), Spendable(s, k, m), cfg.maxStakeRatio) then r == Err(RuleBroken)
      else r.Ok?
  {
    hide Cleaned, BelowMinimum, Balance;
    CleanedIs(cfg, lots);
    if !Unknown(s, k, m) {
      assert Balance(s.ledger, m) + Previous(s.markets[k].bets, m) == Spendable(s, k, m);
      SameShare(cfg, Sum(Wanted(), lots), Spendable(s, k, m));
      hide MaxAllowed, TooLarge;
    }
  }

  /**
   * What an accepted submission writes: a refund of the current stakes if there are any and a lock of the new total, and
   * on the market everybody else's rows as they were followed by one row per positive amount, in the order submitted.
   */
  lemma {:induction false} AllocationWrites(cfg: Config, s: State, k: nat, m: nat, lots: seq<Lot>, now: int)
    requires PlaceAllocation(cfg, s, k, m, lots, now).Ok?
    ensures k < |s.markets|
    ensures var t := PlaceAllocation(cfg, s, k, m, lots, now).value;
      var mk, refund := s.markets[k], Sum(StakeBy(m), s.markets[k].bets);
      && t == s.(markets := s.markets[k := mk.(bets := t.markets[k].bets)], ledger := t.ledger)
      && t.ledger == s.ledger + (if refund > 0 then [Entry(m, Some(k), BetRefund, refund)] else [])
                              + [Entry(m, Some(k), BetLock, -Sum(Wanted(), lots))]
      && (forall b :: b in t.markets[k].bets <==>
            || (b in mk.bets && b.member != m)
            || exists l :: l in lots && l.amount > 0 && b == Bet(m, l.outcome, l.amount, None))
  {
    hide AllocationError;
    CleanedIs(cfg, lots);
    var mk := s.markets[k];
    ReplacedRows(mk.bets, m, lots);
    var refund := if Previous(mk.bets, m) > 0 then [Entry(m, Some(k), BetRefund, Previous(mk.bets, m))] else [];
    assert s.ledger + (refund + [Entry(m, Some(k), BetLock, -Sum(Wanted(), lots))])
      == s.ledger + refund + [Entry(m, Some(k), BetLock, -Sum(Wanted(), lots))];
  }

  lemma {:induction false} ReplacedRows(bets: seq<Bet>, m: nat, lots: seq<Lot>)
    ensures forall b :: b in ReplacedBets(bets, m, Cleaned(lots)) <==>
      || (b in bets && b.member != m)
      || exists l :: l in lots && l.amount > 0 && b == Bet(m, l.outcome, l.amount, None)
  {
    var cleaned := Cleaned(lots);
    FilterMembers(NotBy(m), bets);
    FilterMembers(PositiveLot(), lots);
    forall b
      ensures b in Map(BetOf(m), cleaned)
        <==> exists l :: l in lots && l.amount > 0 && b == Bet(m, l.outcome, l.amount, None)
    {
      if b in Map(BetOf(m), cleaned) {
        var i :| 0 <= i < |cleaned| && Map(BetOf(m), cleaned)[i] == b;
        assert cleaned[i] in cleaned;
      }
      if l :| l in lots && l.amount > 0 && b == Bet(m, l.outcome, l.amount, None) {
        assert l in cleaned;
        var i :| 0 <= i < |cleaned| && cleaned[i] == l;
        assert Map(BetOf(m), cleaned)[i] == b;
      }
    }
  }

  // ------------------------------------------------------------------ members and markets

  lemma {:induction false} MemberCreated(cfg: Config, s: State)
    ensures var t := CreateMember(cfg, s);
      && t.members == s.members + [Member(true)]
      && t.ledger == s.ledger + [Entry(|s.members|, None, Grant, cfg.initialPoints)]
      && t == s.(members := t.members, ledger := t.ledger)
  {
  }

  /** A member's activity flag is set; nothing else changes, and only an unknown member is an error. */
  lemma {:induction false} ActivitySet(s: State, m: nat, active: bool)
    ensures var r := SetActive(s, m, active);
      if m >= |s.members| then r == Err(NotFound)
      else
        && r.Ok? && r.value == s.(members := r.value.members) && |r.value.members| == |s.members|
        && forall i :: 0 <= i < |s.members| ==> r.value.members[i].active == if i == m then active else s.members[i].active
  {
  }

  /** Which market requests are turned down, and the row of the others: OPEN, without bets, prices or winner. */
  lemma {:induction false} MarketCreatedIff(cfg: Config, s: State, known: bool, fund: nat, ticker: string, closesAt: int,
                                            resolveAt: int, notional: int, buyPct: Option<int>, sellPct: Option<int>)
    ensures var r := CreateMarket(cfg, s, known, fund, ticker, closesAt, resolveAt, notional, buyPct, sellPct);
      if resolveAt <= closesAt || notional <= 0 || (buyPct.Some? && sellPct.Some? && buyPct.value <= sellPct.value)
      then r == Err(BadValue)
      else if !known then r == Err(NotFound)
      else
        && r.Ok? && r.value == s.(markets := r.value.markets)
        && |r.value.markets| == |s.markets| + 1 && r.value.markets[..|s.markets|] == s.markets
        && var mk := r.value.markets[|s.markets|];
        && mk.fund == fund && mk.ticker == ticker && mk.closesAt == closesAt && mk.resolveAt == resolveAt
        && mk.notional == notional && mk.status == Open && mk.bets == []
        && mk.reference == None && mk.resolution == None && mk.winner == None
        && (buyPct == None ==> mk.buyPct == cfg.defaultBuyPct) && (buyPct.Some? ==> mk.buyPct == buyPct.value)
        && (sellPct == None ==> mk.sellPct == cfg.defaultSellPct) && (sellPct.Some? ==> mk.sellPct == sellPct.value)
  {
  }

  // ------------------------------------------------------------------ closing, resolving, settling, cancelling

  /** Only an OPEN market can be closed, whatever its closing time; the quote becomes its reference price. */
  lemma {:induction false} ClosedIff(s: State, k: nat, quote: Option<int>)
    ensures var r := CloseMarket(s, k, quote);
      if k >= |s.markets| then r == Err(NotFound)
      else if s.markets[k].status != Open then r == Err(Conflict)
      else if quote == None then r == Err(BrokerFailure)
      else r == Ok(s.(markets := s.markets[k := s.markets[k].(status := Closed, reference := Some(quote.value))]))
  {
  }

  ghost predicate Resolvable(mk: Market) {
    mk.status != Open && mk.status != Resolved && mk.status != Settled && mk.status != Cancelled && mk.reference.Some?
  }

  /**
   * Only a CLOSED, DECIDED or EXECUTED market with a positive reference price can be resolved. The percentage return on
   * the reference price, rounded half up at four places, decides: BUY from the BUY threshold, else SELL up to the SELL
   * threshold, else HOLD.
   */
  lemma {:induction false} ResolvedIff(s: State, k: nat, quote: Option<int>)
    ensures var r := ResolveMarket(s, k, quote);
      if k >= |s.markets| then r == Err(NotFound)
      else if !Resolvable(s.markets[k]) then r == Err(Conflict)
      else if quote == None then r == Err(BrokerFailure)
      else if s.markets[k].reference.value <= 0 then r == Err(BadValue)
      else
        var mk := s.markets[k];
        var units := HalfUp((quote.value - mk.reference.value) as real * 1000000.0 / mk.reference.value as real);
        var winner := if units >= 100 * mk.buyPct then Buy else if units <= 100 * mk.sellPct then Sell else Hold;
        r == Ok(s.(markets := s.markets[k := mk.(status := Resolved, resolution := quote, winner := Some(winner))]))
  {
    hide HalfUp;
    if k < |s.markets| && Resolvable(s.markets[k]) && quote.Some? {
      var mk := s.markets[k];
      ResolveErrors(mk.reference.value, quote.value, mk.buyPct, mk.sellPct);
      Verdict.VerdictIs(mk.reference.value, quote.value, mk.buyPct, mk.sellPct);
    }
  }

  lemma {:induction false} ResolveErrors(reference: int, resolution: int, buyPct: int, sellPct: int)
    ensures reference <= 0 ==> Verdict.Resolve(reference, resolution, buyPct, sellPct) == Err(BadValue)
  {
  }

  /** What a member's balance gains when credits are recorded that the member does not hold yet. */
  lemma {:induction false} CreditsGain(ledger: seq<Entry>, k: nat, kind: EntryKind, credits: seq<Credit>, m: nat)
    requires DistinctMembers(credits)
    ensures Balance(ledger + NewEntries(ledger, k, kind, credits), m) == Balance(ledger, m)
      + if HasEntry(ledger, m, k, kind) || (kind == Payout && Get(credits, m) <= 0) then 0 else Get(credits, m)
  {
    NewEntriesSums(ledger, k, kind, credits, m);
    SumAppend(OfMember(m), ledger, NewEntries(ledger, k, kind, credits));
    if !Has(credits, m) {
      GetAbsent(credits, m);
    }
  }

  /** What settling still owes a member who is to be paid an amount. */
  ghost function Due(s: State, k: nat, m: nat, amount: int): int {
    if HasEntry(s.ledger, m, k, Payout) || amount <= 0 then 0 else amount
  }

  /**
   * Only a RESOLVED market can be settled. Every member who holds no PAYOUT for it yet is credited what settlement pays,
   * nobody else is, and of the tables only the ledger and this market's row change.
   */
  lemma {:induction false} SettledIff(cfg: Config, s: State, k: nat)
    requires Consistent(s)
    ensures var r := SettleMarket(cfg, s, k);
      if k >= |s.markets| then r == Err(NotFound)
      else if s.markets[k].status != Resolved then r == Err(Conflict)
      else if cfg.rakeBps < 0 || cfg.rakeBps >= 10_000 then r == Err(BadValue)
      else
        && r.Ok? && s.markets[k].winner.Some? && k < |r.value.markets| && s.ledger <= r.value.ledger
        && r.value == s.(ledger := r.value.ledger,
                         markets := s.markets[k := s.markets[k].(status := Settled, bets := r.value.markets[k].bets)])
        && (forall m: nat ::
              Balance(r.value.ledger, m) == Balance(s.ledger, m) + Due(s, k, m, Get(Paid(cfg, s.markets[k]), m)))
  {
    if k < |s.markets| && s.markets[k].status == Resolved && 0 <= cfg.rakeBps < 10_000 {
      var mk := s.markets[k];
      assert MarketWell(mk, |s.members|);
      SettledBalances(cfg, s, k);
    } else if k < |s.markets| && s.markets[k].status == Resolved {
      assert MarketWell(s.markets[k], |s.members|);
    }
  }

  lemma {:induction false} SettledBalances(cfg: Config, s: State, k: nat)
    requires k < |s.markets| && SettleMarket(cfg, s, k).Ok? && BetsWell(s.markets[k].bets, |s.members|)
    ensures s.markets[k].winner.Some?
    ensures forall m: nat ::
      Balance(SettleMarket(cfg, s, k).value.ledger, m)
      == Balance(s.ledger, m) + Due(s, k, m, Get(Paid(cfg, s.markets[k]), m))
  {
    hide HasEntry, Balance, Payouts;
    var mk := s.markets[k];
    PayoutKeys(cfg.rnd, mk.bets, mk.winner.value, cfg.rakeBps, |s.members|);
    forall m: nat
      ensures Balance(SettleMarket(cfg, s, k).value.ledger, m) == Balance(s.ledger, m) + Due(s, k, m, Get(Paid(cfg, mk), m))
    {
      CreditsGain(s.ledger, k, Payout, Paid(cfg, mk), m);
    }
  }

  /**
   * Any market that is neither SETTLED nor CANCELLED can be cancelled. Every member who holds no CANCEL_REFUND for it yet
   * gets back exactly the stakes on it, and the market's row only changes its status.
   */
  lemma {:induction false} CancelledIff(s: State, k: nat)
    requires Consistent(s)
    ensures var r := CancelMarket(s, k);
      if k >= |s.markets| then r == Err(NotFound)
      else if s.markets[k].status == Settled || s.markets[k].status == Cancelled then r == Err(Conflict)
      else
        && r.Ok? && s.ledger <= r.value.ledger
        && r.value == s.(ledger := r.value.ledger, markets := s.markets[k := s.markets[k].(status := Cancelled)])
        && (forall m: nat :: Balance(r.value.ledger, m) == Balance(s.ledger, m)
              + if HasEntry(s.ledger, m, k, CancelRefund) then 0 else Sum(StakeBy(m), s.markets[k].bets))
  {
    hide HasEntry, Balance;
    if k < |s.markets| && !Terminal(s.markets[k].status) {
      var mk := s.markets[k];
      assert MarketWell(mk, |s.members|);
      PayoutKeys(Exact(), mk.bets, Buy, 0, |s.members|);
      RefundsAreStakes(mk.bets);
      forall m: nat
        ensures Balance(s.ledger + NewEntries(s.ledger, k, CancelRefund, StakeTotals(mk.bets)), m) == Balance(s.ledger, m)
          + if HasEntry(s.ledger, m, k, CancelRefund) then 0 else Sum(StakeBy(m), mk.bets)
      {
        CreditsGain(s.ledger, k, CancelRefund, StakeTotals(mk.bets), m);
      }
    }
  }

  // ------------------------------------------------------------------ positions

  /** One ticker is reported twice and has no row yet. */
  ghost predicate Twice(positions: map<(nat, string), Position>, fund: nat, holdings: seq<Holding>, i: nat, j: nat)
    requires i < j < |holdings|
  {
    holdings[i].ticker == holdings[j].ticker && (fund, holdings[i].ticker) !in positions
  }

  lemma {:induction false} ClashesIff(positions: map<(nat, string), Position>, fund: nat, holdings: seq<Holding>)
    ensures Clashes(positions, fund, holdings) <==>
      exists i, j :: 0 <= i < j < |holdings| && Twice(positions, fund, holdings, i, j)
  {
    if holdings != [] {
      var n := |holdings| - 1;
      ClashesIff(positions, fund, holdings[..n]);
      forall i, j | 0 <= i < j < n
        ensures Twice(positions, fund, holdings[..n], i, j) <==> Twice(positions, fund, holdings, i, j)
      {
      }
      if holdings[n].ticker in Tickers(holdings[..n]) {
        var h :| h in holdings[..n] && h.ticker == holdings[n].ticker;
        var i :| 0 <= i < n && holdings[..n][i] == h;
        assert Twice(positions, fund, holdings, i, n) <==> (fund, holdings[n].ticker) !in positions;
      }
      if i, j :| 0 <= i < j < |holdings| && Twice(positions, fund, holdings, i, j) {
        if j == n {
          assert holdings[..n][i] in holdings[..n];
        } else {
          assert Twice(positions, fund, holdings[..n], i, j);
        }
      }
    }
  }

  /** The last holding of a ticker in the order in which the broker reports them. */
  ghost predicate LastOf(holdings: seq<Holding>, i: nat) {
    i < |holdings| && forall j :: i < j < |holdings| ==> holdings[j].ticker != holdings[i].ticker
  }

  lemma {:induction false} LastWritten(positions: map<(nat, string), Position>, fund: nat, holdings: seq<Holding>, i: nat)
    requires LastOf(holdings, i)
    ensures (fund, holdings[i].ticker) in Overwritten(positions, fund, holdings)
    ensures Overwritten(positions, fund, holdings)[(fund, holdings[i].ticker)]
         == Position(holdings[i].quantity, holdings[i].avgPrice)
  {
    var n := |holdings| - 1;
    if i < n {
      LastWritten(positions, fund, holdings[..n], i);
    }
  }

  /**
   * The position cache after a sync, row by row: what the broker reports for the fund is written, the last report of a
   * ticker counting; what it no longer reports keeps its average at quantity zero; other funds are untouched.
   */
  lemma {:induction false} SyncedRows(positions: map<(nat, string), Position>, fund: nat, holdings: seq<Holding>)
    ensures var after := Synced(positions, fund, holdings);
      && (forall i: nat :: LastOf(holdings, i) ==>
            && (fund, holdings[i].ticker) in after
            && after[(fund, holdings[i].ticker)] == Position(holdings[i].quantity, holdings[i].avgPrice))
      && (forall key :: key in positions && key.0 == fund && key.1 !in Tickers(holdings) ==>
            key in after && after[key] == Position(0, positions[key].avgPrice))
      && (forall key: (nat, string) :: key.0 != fund ==>
            (key in after <==> key in positions) && (key in positions ==> after[key] == positions[key]))
      && (forall key :: key in after ==> key in positions || (key.0 == fund && key.1 in Tickers(holdings)))
  {
    OverwrittenMeaning(positions, fund, holdings);
    forall i: nat | LastOf(holdings, i)
      ensures (fund, holdings[i].ticker) in Overwritten(positions, fund, holdings)
      ensures Overwritten(positions, fund, holdings)[(fund, holdings[i].ticker)]
           == Position(holdings[i].quantity, holdings[i].avgPrice)
      ensures holdings[i].ticker in Tickers(holdings)
    {
      LastWritten(positions, fund, holdings, i);
      assert holdings[i] in holdings;
    }
  }
}
