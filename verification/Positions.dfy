/** The local position cache agrees with the broker after a sync, and a SELL sized from it sells out exactly. */
module Positions {
  import opened Arithmetic
  import opened Domain
  import opened Tables
  import opened Risk
  import opened Steps
  import opened Invariants
  import opened Orders
  import opened Broker
  import opened Desk
  import Consensus

  // ------------------------------------------------------------------ sync

  lemma {:induction false} OverwrittenMeaning(positions: map<(nat, string), Position>, fund: nat, holdings: seq<Holding>)
    ensures var w := Overwritten(positions, fund, holdings);
      && (forall key :: key in w <==> key in positions || (key.0 == fund && key.1 in Tickers(holdings)))
      && (forall key :: key in positions && (key.0 != fund || key.1 !in Tickers(holdings)) ==> w[key] == positions[key])
      && (forall key :: key in w && key.0 == fund && key.1 in Tickers(holdings) ==>
            exists h :: h in holdings && h.ticker == key.1 && w[key] == Position(h.quantity, h.avgPrice))
  {
    if holdings != [] {
      var n := |holdings| - 1;
      var front, last := holdings[..n], holdings[n];
      assert holdings == front + [last];
      OverwrittenMeaning(positions, fund, front);
      assert Tickers(holdings) == Tickers(front) + {last.ticker};
      var w := Overwritten(positions, fund, holdings);
      forall key | key in w && key.0 == fund && key.1 in Tickers(holdings)
        ensures exists h :: h in holdings && h.ticker == key.1 && w[key] == Position(h.quantity, h.avgPrice)
      {
        if key.1 == last.ticker {
          assert last in holdings && key == (fund, last.ticker);
        } else {
          var before := Overwritten(positions, fund, front);
          var h :| h in front && h.ticker == key.1 && before[key] == Position(h.quantity, h.avgPrice);
          assert h in holdings;
        }
      }
    }
  }

  /**
   * After a sync on holdings with distinct tickers the cache of that fund reads exactly as the broker for every ticker,
   * zero for those it does not hold; other funds keep what they had.
   */
  lemma {:induction false} SyncAgrees(positions: map<(nat, string), Position>, fund: nat, holdings: seq<Holding>)
    requires DistinctTickers(holdings)
    ensures forall t: string :: HeldQuantity(Synced(positions, fund, holdings), fund, t) == QuantityOf(holdings, t)
    ensures forall f: nat, t: string :: f != fund ==>
      HeldQuantity(Synced(positions, fund, holdings), f, t) == HeldQuantity(positions, f, t)
  {
    OverwrittenMeaning(positions, fund, holdings);
    forall t: string
      ensures HeldQuantity(Synced(positions, fund, holdings), fund, t) == QuantityOf(holdings, t)
    {
      FindMeaning(holdings, t);
      var w := Overwritten(positions, fund, holdings);
      if t in Tickers(holdings) {
        var h :| h in holdings && h.ticker == t && w[(fund, t)] == Position(h.quantity, h.avgPrice);
        var i :| 0 <= i < |holdings| && holdings[i] == h;
        FindAt(holdings, i);
      } else {
        assert !Holds(holdings, t) by {
          forall i | 0 <= i < |holdings| ensures holdings[i].ticker != t {
            assert holdings[i] in holdings;
          }
        }
      }
    }
  }

  lemma {:induction false} DistinctNeverClash(positions: map<(nat, string), Position>, fund: nat, holdings: seq<Holding>)
    requires DistinctTickers(holdings)
    ensures !Clashes(positions, fund, holdings)
  {
    if holdings != [] {
      var n := |holdings| - 1;
      DistinctNeverClash(positions, fund, holdings[..n]);
      forall h | h in holdings[..n] ensures h.ticker != holdings[n].ticker {
        var i :| 0 <= i < n && holdings[..n][i] == h;
      }
    }
  }

  // ------------------------------------------------------------------ sells sized from the cache

  /** Every SELL decided since the first `since` decisions asks for exactly what the cache holds. */
  ghost predicate SellsWhole(s: State, since: nat) {
    forall d: nat :: since <= d < |s.decisions| && s.decisions[d].status != Skipped && s.decisions[d].action == Sell ==>
      && s.decisions[d].market < |s.markets|
      && s.decisions[d].quantity
         == HeldQuantity(s.positions, s.markets[s.decisions[d].market].fund, s.markets[s.decisions[d].market].ticker)
  }

  lemma {:induction false} DecideSellsWhole(cfg: Config, s: State, k: nat, quote: Option<int>, since: nat)
    requires Consistent(s) && SellsWhole(s, since) && BuildDecision(cfg, s, k, quote).Ok?
    ensures SellsWhole(BuildDecision(cfg, s, k, quote).value, since)
  {
    var t := BuildDecision(cfg, s, k, quote).value;
    var mk := s.markets[k];
    assert MarketWell(mk, |s.members|);
    DecidedQuantity(cfg, s, k, quote);
    var n := |s.decisions|;
    forall d: nat
      | since <= d < |t.decisions| && t.decisions[d].status != Skipped && t.decisions[d].action == Sell
      ensures t.decisions[d].market < |t.markets|
      ensures t.decisions[d].quantity
        == HeldQuantity(t.positions, t.markets[t.decisions[d].market].fund, t.markets[t.decisions[d].market].ticker)
    {
      if d < n {
        assert t.decisions[d] == s.decisions[d];
      }
    }
  }

  lemma {:induction false} DecidedQuantity(cfg: Config, s: State, k: nat, quote: Option<int>)
    requires BuildDecision(cfg, s, k, quote).Ok? && s.markets[k].notional > 0
    ensures var t := BuildDecision(cfg, s, k, quote).value;
      var n := |s.decisions|;
      && |t.decisions| == n + 1 && t.decisions[..n] == s.decisions && t.positions == s.positions
      && t.markets == s.markets[k := s.markets[k].(status := Decided)] && t.decisions[n].market == k
      && (t.decisions[n].status != Skipped && t.decisions[n].action == Sell ==>
            t.decisions[n].quantity == HeldQuantity(s.positions, s.markets[k].fund, s.markets[k].ticker))
  {
    PlanMeans(cfg, s, s.markets[k], Consensus.Compute(Rows(s.markets[k].bets)), quote);
  }

  lemma {:induction false} PositionsKept(cfg: Config, s: State, step: Step)
    requires Single(step) && !step.Sync?
    ensures Apply(cfg, s, step).positions == s.positions
    ensures !step.Decide? && !step.Approve? && !step.Reject? ==> Apply(cfg, s, step).decisions == s.decisions
  {
  }

  lemma {:induction false} SingleSellsWhole(cfg: Config, s: State, step: Step, since: nat)
    requires Consistent(s) && SellsWhole(s, since) && Single(step) && !step.Sync? && !step.Approve?
    ensures SellsWhole(Apply(cfg, s, step), since)
  {
    PositionsKept(cfg, s, step);
    SingleConsistent(cfg, s, step);
    match step {
      case Decide(k, q) =>
        if BuildDecision(cfg, s, k, q).Ok? { DecideSellsWhole(cfg, s, k, q, since); }
      case Reject(d) => RejectSellsWhole(s, d, since);
      case _ => WholeFrame(s, Apply(cfg, s, step), since);
    }
  }

  lemma {:induction false} RejectSellsWhole(s: State, d: nat, since: nat)
    requires SellsWhole(s, since)
    ensures SellsWhole(Or(RejectDecision(s, d), s), since)
  {
  }

  lemma {:induction false} WholeFrame(s: State, t: State, since: nat)
    requires SellsWhole(s, since) && MarketsEvolve(s, t) && t.decisions == s.decisions && t.positions == s.positions
    ensures SellsWhole(t, since)
  {
    forall d: nat
      | since <= d < |t.decisions| && t.decisions[d].status != Skipped && t.decisions[d].action == Sell
      ensures t.decisions[d].market < |t.markets|
      ensures t.decisions[d].quantity
        == HeldQuantity(t.positions, t.markets[t.decisions[d].market].fund, t.markets[t.decisions[d].market].ticker)
    {
      assert MarketEvolves(s.markets[s.decisions[d].market], t.markets[s.decisions[d].market]);
    }
  }

  lemma {:induction false} SinglesSellWhole(cfg: Config, s: State, steps: seq<Step>, since: nat)
    requires Consistent(s) && SellsWhole(s, since) && forall step :: step in steps ==> Automatic(step)
    ensures SellsWhole(Run(cfg, s, steps), since) && Run(cfg, s, steps).positions == s.positions
    decreases |steps|
  {
    if steps != [] {
      assert steps[0] in steps;
      PositionsKept(cfg, s, steps[0]);
      SingleConsistent(cfg, s, steps[0]);
      SingleSellsWhole(cfg, s, steps[0], since);
      SinglesSellWhole(cfg, Apply(cfg, s, steps[0]), steps[1..], since);
    }
  }

  /** No trade and no further sync. */
  predicate Idle(step: DeskStep) { step.Reprice? || (step.Service? && !step.call.Sync?) }

  lemma {:induction false} IdleStep(cfg: Config, desk: Desk, step: DeskStep, since: nat)
    requires DbWell(cfg, desk.db) && SellsWhole(desk.db, since) && Idle(step)
    ensures var after := DeskApply(cfg, desk, step);
      && SellsWhole(after.db, since) && after.db.positions == desk.db.positions
      && after.account.holdings == desk.account.holdings && after.account.cash == desk.account.cash
  {
    match step {
      case Reprice(_, _) =>
      case Service(call) =>
        if call.Scheduled? {
          var automatic := TickIsRun(cfg, desk.db, call.now, call.feeds);
          SinglesSellWhole(cfg, desk.db, automatic, since);
        } else {
          PositionsKept(cfg, desk.db, call);
          SingleSellsWhole(cfg, desk.db, call, since);
        }
    }
  }

  lemma {:induction false} IdleRun(cfg: Config, desk: Desk, steps: seq<DeskStep>, since: nat)
    requires DbWell(cfg, desk.db) && SellsWhole(desk.db, since) && forall step :: step in steps ==> Idle(step)
    ensures var after := DeskRun(cfg, desk, steps);
      && DbWell(cfg, after.db) && SellsWhole(after.db, since) && after.db.positions == desk.db.positions
      && after.account.holdings == desk.account.holdings && after.account.cash == desk.account.cash
    decreases |steps|
  {
    if steps != [] {
      assert steps[0] in steps;
      IdleStep(cfg, desk, steps[0], since);
      DeskKeepsDb(cfg, desk, steps[0]);
      IdleRun(cfg, DeskApply(cfg, desk, steps[0]), steps[1..], since);
    }
  }

  /** Selling exactly what is held drops the holding, and the clamp at zero does not bite. */
  lemma {:induction false} SellOut(a: Account, r: Request)
    requires LongOnly(a) && r.side == SellSide && r.quantity == QuantityOf(a.holdings, r.ticker)
    ensures var after := Placed(a, r).account;
      && after.holdings == Drop(a.holdings, r.ticker)
      && QuantityOf(after.holdings, r.ticker) == QuantityOf(a.holdings, r.ticker) - r.quantity
      && after.cash == a.cash + Scaled(FillPrice(a, r), r.quantity) as real
  {
    DropMeaning(a.holdings, r.ticker);
    assert FillPrice(a.(submitted := a.submitted + [r]), r) == FillPrice(a, r);
  }

  lemma {:induction false} ResyncEffect(cfg: Config, desk: Desk, fund: nat)
    requires LongOnly(desk.account)
    ensures var synced := DeskApply(cfg, desk, Resync(fund));
      && synced.account == desk.account && synced.db == desk.db.(positions := synced.db.positions)
      && forall t: string :: HeldQuantity(synced.db.positions, fund, t) == QuantityOf(desk.account.holdings, t)
  {
    SyncAgrees(desk.db.positions, fund, desk.account.holdings);
    DistinctNeverClash(desk.db.positions, fund, desk.account.holdings);
  }

  /** The database and the broker right before the sale. */
  lemma {:induction false} SellSetup(cfg: Config, desk: Desk, fund: nat, idle: seq<DeskStep>)
    requires DbWell(cfg, desk.db) && LongOnly(desk.account)
    requires forall step :: step in idle ==> Idle(step)
    ensures var before := DeskRun(cfg, DeskApply(cfg, desk, Resync(fund)), idle);
      && DbWell(cfg, before.db) && SellsWhole(before.db, |desk.db.decisions|)
      && before.account.holdings == desk.account.holdings
      && forall t: string :: HeldQuantity(before.db.positions, fund, t) == QuantityOf(desk.account.holdings, t)
  {
    var synced := DeskApply(cfg, desk, Resync(fund));
    ResyncEffect(cfg, desk, fund);
    DeskKeepsDb(cfg, desk, Resync(fund));
    assert SellsWhole(synced.db, |desk.db.decisions|);
    IdleRun(cfg, synced, idle, |desk.db.decisions|);
  }

  lemma {:induction false} WholeSale(cfg: Config, desk: Desk, sell: DeskStep, fund: nat, since: nat)
    requires DbWell(cfg, desk.db) && LongOnly(desk.account) && SellsWhole(desk.db, since)
    requires forall t: string :: HeldQuantity(desk.db.positions, fund, t) == QuantityOf(desk.account.holdings, t)
    requires sell.Trade? && since <= sell.decision < |desk.db.decisions| && Traded(cfg, desk, sell)
    requires desk.db.decisions[sell.decision].action == Sell
    requires desk.db.decisions[sell.decision].market < |desk.db.markets|
    requires desk.db.markets[desk.db.decisions[sell.decision].market].fund == fund
    ensures var after, dec := DeskApply(cfg, desk, sell), desk.db.decisions[sell.decision];
      var ticker := desk.db.markets[dec.market].ticker;
      && dec.quantity == QuantityOf(desk.account.holdings, ticker) > 0
      && QuantityOf(after.account.holdings, ticker) == 0
      && (forall h :: h in after.account.holdings <==> h in desk.account.holdings && h.ticker != ticker)
  {
    TradeEffect(cfg, desk, sell);
    var dec := desk.db.decisions[sell.decision];
    var mk := desk.db.markets[dec.market];
    var price := ExecutionPrice(dec, Some(desk.account.QuoteOf(mk.ticker))).value;
    SellOut(desk.account, Request(mk.ticker, SideOf(dec.action), dec.quantity, Limit, Some(price)));
    DropMeaning(desk.account.holdings, mk.ticker);
  }

  /**
   * Sync, decide, sell, after any run of services, trades, price changes and syncs from a broker without holdings.
   * Whatever services run and however prices move between a sync of the fund and an approved SELL of it, as long as
   * nothing is traded or synced in between and the decision was built after the sync: the trade sells exactly what the
   * broker held at the sync and takes the ticker out of the book, and every other holding stays.
   */
  lemma {:induction false} SellsExactlyTheHolding(cfg: Config, account: Account, steps: seq<DeskStep>, fund: nat,
                                                  idle: seq<DeskStep>, sell: DeskStep)
    requires account.holdings == []
    requires forall step :: step in idle ==> Idle(step)
    requires sell.Trade?
    requires var desk := DeskRun(cfg, Desk(EMPTY, account), steps);
      var before := DeskRun(cfg, DeskApply(cfg, desk, Resync(fund)), idle);
      && |desk.db.decisions| <= sell.decision < |before.db.decisions| && Traded(cfg, before, sell)
      && before.db.decisions[sell.decision].action == Sell
      && before.db.decisions[sell.decision].market < |before.db.markets|
      && before.db.markets[before.db.decisions[sell.decision].market].fund == fund
    ensures var desk := DeskRun(cfg, Desk(EMPTY, account), steps);
      var before := DeskRun(cfg, DeskApply(cfg, desk, Resync(fund)), idle);
      var after, dec := DeskApply(cfg, before, sell), before.db.decisions[sell.decision];
      var ticker := before.db.markets[dec.market].ticker;
      && before.account.holdings == desk.account.holdings
      && dec.quantity == QuantityOf(desk.account.holdings, ticker) > 0
      && QuantityOf(after.account.holdings, ticker) == 0
      && (forall h :: h in after.account.holdings <==> h in desk.account.holdings && h.ticker != ticker)
  {
    assert Consistent(EMPTY) && Accountable(cfg, EMPTY);
    DeskRunLongOnly(cfg, Desk(EMPTY, account), steps);
    var desk := DeskRun(cfg, Desk(EMPTY, account), steps);
    SellSetup(cfg, desk, fund, idle);
    WholeSale(cfg, DeskRun(cfg, DeskApply(cfg, desk, Resync(fund)), idle), sell, fund, |desk.db.decisions|);
  }
}
