/**
 * The services as they update the database in place. Every method computes the function of the same name in Steps,
 * so the laws proved about those functions and about runs of them are laws about these methods.
 */
module Services {
  import opened Sums
  import opened Domain
  import opened Tally
  import opened Tables
  import opened Parimutuel
  import opened Risk
  import Consensus
  import Verdict
  import Steps
  import Scoring
  import Brier

  /** The outcome of a service call that either changes the database or raises and leaves it alone. */
  ghost predicate Did(answer: Result<State>, before: State, after: State, error: Option<Error>) {
    match answer
    case Ok(t) => after == t && error == None
    case Err(e) => after == before && error == Some(e)
  }

  datatype SkipReason = NobodyBet | QuorumMissed | BelowThreshold | CannotAfford | NothingHeld | HoldConsensus

  lemma {:induction false} MapSnoc<A, B>(f: A -> B, xs: seq<A>, i: nat)
    requires i < |xs|
    ensures Map(f, xs[..i + 1]) == Map(f, xs[..i]) + [f(xs[i])]
  {
    assert xs[..i + 1][..i] == xs[..i];
  }

  lemma {:induction false} AccrueStep(f: Stake -> int, rows: seq<Stake>, i: nat)
    requires i < |rows|
    ensures Accrue(f, rows[..i + 1]) == Add(Accrue(f, rows[..i]), rows[i].member, f(rows[i]))
  {
    assert rows[..i + 1][..i] == rows[..i];
  }

  /** The part of NewEntries contributed by one more credit. */
  lemma {:induction false} NewEntriesStep(ledger: seq<Entry>, k: nat, kind: EntryKind, credits: seq<Credit>, i: nat)
    requires i < |credits|
    ensures Steps.NewEntries(ledger, k, kind, credits[..i + 1]) == Steps.NewEntries(ledger, k, kind, credits[..i])
      + if Steps.Worth(kind, credits[i].amount) && !HasEntry(ledger, credits[i].member, k, kind)
        then [Entry(credits[i].member, Some(k), kind, credits[i].amount)] else []
  {
    assert credits[..i + 1][..i] == credits[..i];
  }

  function PlayedIn(markets: seq<Market>, m: nat): seq<Market> { Filter(Scoring.Counts(m), markets) }

  /** The running counts of a member over the markets seen so far. */
  ghost predicate Counted(markets: seq<Market>, m: nat, settled: nat, hits: nat, total: int) {
    var played := PlayedIn(markets, m);
    settled == |played| && hits == CountWhere(Scoring.Hit(m), played) && total == Sum(Scoring.Points(m), played)
  }

  /** What one more market adds to a member's results. */
  lemma {:induction false} PlayedSnoc(markets: seq<Market>, market: Market, m: nat)
    ensures var before, after := PlayedIn(markets, m), PlayedIn(markets + [market], m);
      if Scoring.Counts(m)(market)
      then
        && |after| == |before| + 1
        && CountWhere(Scoring.Hit(m), after) == CountWhere(Scoring.Hit(m), before) + (if Scoring.Hit(m)(market) then 1 else 0)
        && Sum(Scoring.Points(m), after) == Sum(Scoring.Points(m), before) + Scoring.Points(m)(market)
      else after == before
  {
    FilterSnoc(Scoring.Counts(m), markets, market);
    FilterSnoc(Scoring.Hit(m), PlayedIn(markets, m), market);
    SumSnoc(Scoring.Points(m), PlayedIn(markets, m), market);
  }

  class Database {
    var members: seq<Member>
    var markets: seq<Market>
    var ledger: seq<Entry>
    var decisions: seq<Decision>
    var orders: seq<Order>
    var positions: map<(nat, string), Position>

    ghost function View(): State
      reads this
    {
      State(members, markets, ledger, decisions, orders, positions)
    }

    constructor ()
      ensures View() == EMPTY
    {
      members, markets, ledger, decisions, orders, positions := [], [], [], [], [], map[];
    }

    /** What `db.rollback()` leaves: the rows as the session found them. */
    method Restore(begun: State)
      modifies this
      ensures View() == begun
    {
      members, markets, ledger := begun.members, begun.markets, begun.ledger;
      decisions, orders, positions := begun.decisions, begun.orders, begun.positions;
    }

    method Current() returns (s: State)
      ensures s == View()
    {
      s := State(members, markets, ledger, decisions, orders, positions);
    }

    // ---------------------------------------------------------------- ledger

    method Record(member: nat, market: Option<nat>, kind: EntryKind, amount: int)
      modifies this`ledger
      ensures ledger == old(ledger) + [Entry(member, market, kind, amount)]
    {
      ledger := ledger + [Entry(member, market, kind, amount)];
    }

    method GetBalance(member: nat) returns (total: int)
      ensures total == Balance(ledger, member)
    {
      total := Balance(ledger, member);
    }

    /** Every requested member gets a balance, zero without entries. */
    method GetBalances(ids: seq<nat>) returns (balances: map<nat, int>)
      ensures forall m: nat :: m in balances <==> m in ids
      ensures forall m: nat :: m in ids ==> balances[m] == Balance(ledger, m)
    {
      balances := map[];
      for i := 0 to |ids|
        invariant forall m: nat :: m in balances <==> m in ids[..i]
        invariant forall m: nat :: m in balances ==> balances[m] == 0
      {
        balances := balances[ids[i] := 0];
        assert ids[..i + 1] == ids[..i] + [ids[i]];
      }
      assert ids[..|ids|] == ids;
      for i := 0 to |ledger|
        invariant forall m: nat :: m in balances <==> m in ids
        invariant forall m: nat :: m in ids ==> balances[m] == Balance(ledger[..i], m)
      {
        var e := ledger[i];
        assert ledger[..i + 1] == ledger[..i] + [e];
        forall m: nat ensures Balance(ledger[..i + 1], m) == Balance(ledger[..i], m) + OfMember(m)(e) {
          SumSnoc(OfMember(m), ledger[..i], e);
        }
        if e.member in balances {
          balances := balances[e.member := balances[e.member] + e.amount];
        }
      }
      assert ledger[..|ledger|] == ledger;
    }

    // ---------------------------------------------------------------- members and markets

    method CreateMember(cfg: Config)
      modifies this
      ensures View() == Steps.CreateMember(cfg, old(View()))
    {
      members := members + [Member(true)];
      Record(|members| - 1, None, Grant, cfg.initialPoints);
    }

    method SetActive(m: nat, active: bool) returns (error: Option<Error>)
      modifies this`members
      ensures Did(Steps.SetActive(old(View()), m, active), old(View()), View(), error)
    {
      if m >= |members| {
        return Some(NotFound);
      }
      members := members[m := Member(active)];
      error := None;
    }

    method CreateMarket(cfg: Config, fundExists: bool, fund: nat, ticker: string, closesAt: int, resolveAt: int,
                        notional: int, buyPct: Option<int>, sellPct: Option<int>) returns (error: Option<Error>)
      modifies this`markets
      ensures Did(Steps.CreateMarket(cfg, old(View()), fundExists, fund, ticker, closesAt, resolveAt, notional, buyPct, sellPct),
                  old(View()), View(), error)
    {
      if resolveAt <= closesAt || notional <= 0 {
        return Some(BadValue);
      }
      if buyPct.Some? && sellPct.Some? && sellPct.value >= buyPct.value {
        return Some(BadValue);
      }
      if !fundExists {
        return Some(NotFound);
      }
      var buy := if buyPct.Some? then buyPct.value else cfg.defaultBuyPct;
      var sell := if sellPct.Some? then sellPct.value else cfg.defaultSellPct;
      markets := markets + [Market(fund, ticker, closesAt, resolveAt, buy, sell, notional, Open, None, None, None, [])];
      error := None;
    }

    // ---------------------------------------------------------------- allocations

    method CleanAllocation(cfg: Config, lots: seq<Lot>) returns (cleaned: seq<Lot>, below: bool)
      ensures cleaned == Steps.Cleaned(lots)
      ensures below == Steps.BelowMinimum(cfg, cleaned)
    {
      cleaned := [];
      for i := 0 to |lots|
        invariant cleaned == Steps.Cleaned(lots[..i])
      {
        assert lots[..i + 1] == lots[..i] + [lots[i]];
        FilterSnoc(Steps.PositiveLot(), lots[..i], lots[i]);
        if lots[i].amount > 0 {
          cleaned := cleaned + [lots[i]];
        }
      }
      assert lots[..|lots|] == lots;
      below := false;
      for i := 0 to |cleaned|
        invariant below == Steps.BelowMinimum(cfg, cleaned[..i])
      {
        assert cleaned[..i + 1] == cleaned[..i] + [cleaned[i]];
        if cleaned[i].amount < cfg.minStake {
          assert cleaned[..i + 1][i].amount < cfg.minStake;
          below := true;
        } else if below {
          var j :| 0 <= j < i && cleaned[..i][j].amount < cfg.minStake;
          assert cleaned[..i + 1][j].amount < cfg.minStake;
        }
      }
      assert cleaned[..|cleaned|] == cleaned;
    }

    /** Drop the member's bets on the market and add the new ones. */
    method ReplaceBets(k: nat, m: nat, cleaned: seq<Lot>)
      requires k < |markets|
      modifies this`markets
      ensures markets == old(markets)[k := old(markets)[k].(bets := Steps.ReplacedBets(old(markets)[k].bets, m, cleaned))]
    {
      var existing := markets[k].bets;
      var kept := [];
      for i := 0 to |existing|
        invariant kept == Filter(Steps.NotBy(m), existing[..i]) && markets == old(markets)
      {
        assert existing[..i + 1] == existing[..i] + [existing[i]];
        FilterSnoc(Steps.NotBy(m), existing[..i], existing[i]);
        if existing[i].member != m {
          kept := kept + [existing[i]];
        }
      }
      assert existing[..|existing|] == existing;
      var placed := [];
      for i := 0 to |cleaned|
        invariant placed == Map(Steps.BetOf(m), cleaned[..i]) && markets == old(markets)
      {
        MapSnoc(Steps.BetOf(m), cleaned, i);
        placed := placed + [Bet(m, cleaned[i].outcome, cleaned[i].amount, None)];
      }
      assert cleaned[..|cleaned|] == cleaned;
      markets := markets[k := markets[k].(bets := kept + placed)];
    }

    method PlaceAllocation(cfg: Config, k: nat, m: nat, lots: seq<Lot>, now: int) returns (error: Option<Error>)
      modifies this`markets, this`ledger
      ensures Did(Steps.PlaceAllocation(cfg, old(View()), k, m, lots, now), old(View()), View(), error)
    {
      if k >= |markets| || m >= |members| {
        return Some(NotFound);
      }
      var market := markets[k];
      if market.status != Open {
        return Some(Conflict);
      }
      if market.closesAt <= now {
        return Some(Conflict);
      }
      var cleaned, below := CleanAllocation(cfg, lots);
      if cleaned == [] {
        return Some(RuleBroken);
      }
      if below {
        return Some(RuleBroken);
      }
      var newTotal := Sum(Steps.LotAmount(), cleaned);
      var previousTotal := Steps.Previous(market.bets, m);
      var balance := GetBalance(m);
      balance := balance + previousTotal;
      if newTotal > balance {
        return Some(InsufficientPoints);
      }
      if newTotal > Steps.MaxAllowed(cfg, balance) {
        return Some(RuleBroken);
      }
      ghost var before := ledger;
      if previousTotal > 0 {
        Record(m, Some(k), BetRefund, previousTotal);
      }
      ReplaceBets(k, m, cleaned);
      Record(m, Some(k), BetLock, -newTotal);
      assert ledger == before + Steps.AllocationEntries(k, m, previousTotal, newTotal);
      error := None;
    }

    // ---------------------------------------------------------------- closing and deciding

    method CloseMarket(k: nat, quote: Option<int>) returns (error: Option<Error>)
      modifies this`markets
      ensures Did(Steps.CloseMarket(old(View()), k, quote), old(View()), View(), error)
    {
      if k >= |markets| {
        return Some(NotFound);
      }
      if markets[k].status != Open {
        return Some(Conflict);
      }
      if quote.None? {
        return Some(BrokerFailure);
      }
      markets := markets[k := markets[k].(reference := quote, status := Closed)];
      error := None;
    }

    /** Quorum and threshold: the reasons to skip that do not need a price. */
    method Participation(cfg: Config, c: Consensus.Consensus) returns (reasons: seq<SkipReason>)
      ensures reasons != [] <==> Steps.Unconvincing(cfg, c, Steps.ActiveCount(members))
    {
      reasons := [];
      var active := Steps.ActiveCount(members);
      if c.total <= 0 {
        reasons := reasons + [NobodyBet];
      } else if active > 0 {
        if c.participants as real / active as real < cfg.quorum {
          reasons := reasons + [SkipReason.QuorumMissed];
        }
      }
      if reasons == [] && c.LeadingProbability() as real / Consensus.UNIT as real < cfg.minProbability {
        reasons := reasons + [BelowThreshold];
      }
    }

    method BuildDecision(cfg: Config, k: nat, quote: Option<int>) returns (error: Option<Error>)
      modifies this`markets, this`decisions
      ensures Did(Steps.BuildDecision(cfg, old(View()), k, quote), old(View()), View(), error)
    {
      if k >= |markets| {
        return Some(NotFound);
      }
      var market := markets[k];
      if market.status != Closed || Steps.HasDecision(decisions, k) {
        return Some(Conflict);
      }
      var c := Consensus.ComputeConsensus(Rows(market.bets));
      var leading := c.LeadingOutcome();
      var action := if leading.Some? then leading.value else Hold;
      var reasons := Participation(cfg, c);
      var quantity := 0;
      var limitPrice: Option<int> := None;
      if reasons == [] && action != Hold {
        if quote.None? {
          return Some(BrokerFailure);
        }
        limitPrice := quote;
        if action == Buy {
          if quote.value == 0 {
            return Some(BadValue);
          }
          quantity := Steps.Truncated(market.notional, quote.value);
          if quantity <= 0 {
            reasons := reasons + [CannotAfford];
          }
        } else {
          quantity := HeldQuantity(positions, market.fund, market.ticker);
          if quantity <= 0 {
            reasons := reasons + [NothingHeld];
          }
        }
      }
      if action == Hold && reasons == [] {
        reasons := reasons + [HoldConsensus];
      }
      var status := if reasons != [] then Skipped else Pending;
      decisions := decisions + [Decision(k, action, c.total, c.participants, if reasons == [] then quantity else 0,
                                         if reasons == [] then limitPrice else None, Limit, status)];
      markets := markets[k := market.(status := Decided)];
      error := None;
    }

    // ---------------------------------------------------------------- approving and rejecting

    method RejectDecision(d: nat) returns (error: Option<Error>)
      modifies this`decisions
      ensures Did(Steps.RejectDecision(old(View()), d), old(View()), View(), error)
    {
      if d >= |decisions| {
        return Some(NotFound);
      }
      if decisions[d].status != Pending {
        return Some(Conflict);
      }
      decisions := decisions[d := decisions[d].(status := Rejected)];
      error := None;
    }

    /** The order row and the decision it concludes; only an accepted order moves its market. */
    method Conclude(d: nat, order: Order, failure: Option<Error>)
      requires d < |decisions| && decisions[d].market < |markets|
      modifies this`decisions, this`orders, this`markets
      ensures View() == if failure.Some? then Steps.Refusal(old(View()), d, order.(status := Refused))
                        else Steps.Acceptance(old(View()), d, order.(status := Submitted))
    {
      var k := decisions[d].market;
      if failure.Some? {
        orders := orders + [order.(status := Refused)];
        decisions := decisions[d := decisions[d].(status := Failed)];
      } else {
        orders := orders + [order.(status := Submitted)];
        decisions := decisions[d := decisions[d].(status := Done)];
        markets := markets[k := markets[k].(status := MarketStatus.Executed)];
      }
    }

    /** Leaves a refused order and a failed decision behind when the gate or the broker says no. */
    method ExecuteDecision(cfg: Config, d: nat, env: Steps.Env) returns (error: Option<Error>)
      modifies this`decisions, this`orders, this`markets
      ensures View() == Steps.ExecuteDecision(cfg, old(View()), d, env).db
      ensures error == Steps.ExecuteDecision(cfg, old(View()), d, env).error
    {
      if d >= |decisions| {
        return Some(NotFound);
      }
      var decision := decisions[d];
      if decision.status != Pending || decision.action == Hold {
        return Some(Conflict);
      }
      if decision.market >= |markets| {
        return Some(NotFound);
      }
      var market := markets[decision.market];
      var price;
      if decision.limitPrice.Some? && decision.limitPrice.value != 0 {
        price := decision.limitPrice.value;
      } else if env.quote.None? {
        return Some(BrokerFailure);
      } else {
        price := env.quote.value;
      }
      var s := Current();
      var reasons := CheckOrder(cfg, s, Steps.ContextOf(market, decision, price), env.now, env.session, Some(env.balance));
      var order := Steps.OrderOf(d, decision, market, price, env.stamp, Created);
      error := if reasons != [] then Some(RiskLimit) else if !env.accepts then Some(BrokerFailure) else None;
      Conclude(d, order, error);
    }

    /** Positions the broker no longer reports drop to zero. */
    method ZeroUnseen(existing: set<(nat, string)>, seen: set<string>)
      requires existing <= positions.Keys
      modifies this`positions
      ensures positions.Keys == old(positions).Keys
      ensures forall key :: key in positions ==>
        positions[key]
        == if key in existing && key.1 !in seen then old(positions)[key].(quantity := 0) else old(positions)[key]
    {
      var left := existing;
      while left != {}
        invariant left <= existing && positions.Keys == old(positions).Keys
        invariant forall key :: key in positions ==>
          positions[key] == if key in existing - left && key.1 !in seen then old(positions)[key].(quantity := 0)
                            else old(positions)[key]
        decreases left
      {
        var key :| key in left;
        if key.1 !in seen {
          positions := positions[key := positions[key].(quantity := 0)];
        }
        left := left - {key};
      }
    }

    /** Overwrite what the broker holds, then zero what it no longer reports; the flush fails on two new rows of one key. */
    method SyncPositions(fund: nat, snapshot: Option<Snapshot>) returns (error: Option<Error>)
      modifies this`positions
      ensures Did(Steps.SyncPositions(old(View()), fund, snapshot), old(View()), View(), error)
    {
      if snapshot.None? {
        return Some(BrokerFailure);
      }
      var holdings := snapshot.value.holdings;
      var stored := positions;
      var existing := set key | key in positions && key.0 == fund;
      var seen: set<string> := {};
      var clash := false;
      for i := 0 to |holdings|
        invariant positions == Steps.Overwritten(stored, fund, holdings[..i])
        invariant seen == Steps.Tickers(holdings[..i])
        invariant clash == Steps.Clashes(stored, fund, holdings[..i])
      {
        var h := holdings[i];
        assert holdings[..i + 1][..i] == holdings[..i] && holdings[..i + 1] == holdings[..i] + [h];
        if h.ticker in seen && (fund, h.ticker) !in existing {
          clash := true;
        }
        seen := seen + {h.ticker};
        positions := positions[(fund, h.ticker) := Position(h.quantity, h.avgPrice)];
      }
      assert holdings[..|holdings|] == holdings;
      KeysKept(stored, fund, holdings);
      ZeroUnseen(existing, seen);
      if clash {
        positions := stored;
        return Some(IntegrityFailure);
      }
      assert positions == Steps.Synced(stored, fund, holdings);
      error := None;
    }

    // ---------------------------------------------------------------- resolving, settling, cancelling

    method ResolveMarket(k: nat, quote: Option<int>) returns (error: Option<Error>)
      modifies this`markets
      ensures Did(Steps.ResolveMarket(old(View()), k, quote), old(View()), View(), error)
    {
      if k >= |markets| {
        return Some(NotFound);
      }
      var market := markets[k];
      if market.status !in {Closed, Decided, MarketStatus.Executed} || market.reference.None? {
        return Some(Conflict);
      }
      if quote.None? {
        return Some(BrokerFailure);
      }
      var verdict := Verdict.Resolve(market.reference.value, quote.value, market.buyPct, market.sellPct);
      match verdict {
        case Err(e) => return Some(e);
        case Ok(v) =>
          markets := markets[k := market.(resolution := quote, winner := Some(v.0), status := Resolved)];
      }
      error := None;
    }

    /**
     * Record a credit per member that holds none of the kind yet. The session does not autoflush, so the lookup sees
     * the rows stored before this call, not the ones it has just added.
     */
    method RecordCredits(k: nat, kind: EntryKind, credits: seq<Credit>)
      modifies this`ledger
      ensures ledger == old(ledger) + Steps.NewEntries(old(ledger), k, kind, credits)
    {
      var stored := ledger;
      for i := 0 to |credits|
        invariant ledger == stored + Steps.NewEntries(stored, k, kind, credits[..i])
      {
        NewEntriesStep(stored, k, kind, credits, i);
        var c := credits[i];
        if kind == Payout && c.amount <= 0 {
          continue;
        }
        if HasEntry(stored, c.member, k, kind) {
          continue;
        }
        Record(c.member, Some(k), kind, c.amount);
      }
      assert credits[..|credits|] == credits;
    }

    method TotalByMember(bets: seq<Bet>) returns (totals: seq<Credit>)
      ensures totals == Steps.StakeTotals(bets)
    {
      totals := [];
      var rows := Rows(bets);
      for i := 0 to |bets|
        invariant totals == Accrue(StakeAmount(), rows[..i])
      {
        AccrueStep(StakeAmount(), rows, i);
        totals := Add(totals, bets[i].member, bets[i].stake);
      }
      assert rows[..|bets|] == rows;
    }

    method SettleMarket(cfg: Config, k: nat) returns (error: Option<Error>)
      modifies this`markets, this`ledger
      ensures Did(Steps.SettleMarket(cfg, old(View()), k), old(View()), View(), error)
    {
      if k >= |markets| {
        return Some(NotFound);
      }
      var market := markets[k];
      if market.status != Resolved || market.winner.None? {
        return Some(Conflict);
      }
      var settled := SettleParimutuel(cfg.rnd, Rows(market.bets), market.winner.value, cfg.rakeBps);
      if settled.Err? {
        return Some(settled.error);
      }
      var payouts := settled.value;
      RecordCredits(k, Payout, payouts);
      var totals := TotalByMember(market.bets);
      var bets := [];
      ghost var paid := View();
      for i := 0 to |market.bets|
        invariant bets == Map(Steps.RowPayout(payouts, totals), market.bets[..i]) && View() == paid
      {
        MapSnoc(Steps.RowPayout(payouts, totals), market.bets, i);
        var b := market.bets[i];
        var memberTotal := Get(totals, b.member);
        var memberPayout := Get(payouts, b.member);
        bets := bets + [b.(payout := Some(Steps.Apportioned(memberPayout, b.stake, memberTotal)))];
      }
      assert market.bets[..|market.bets|] == market.bets;
      markets := markets[k := market.(bets := bets, status := Settled)];
      error := None;
    }

    method CancelMarket(k: nat) returns (error: Option<Error>)
      modifies this`markets, this`ledger
      ensures Did(Steps.CancelMarket(old(View()), k), old(View()), View(), error)
    {
      if k >= |markets| {
        return Some(NotFound);
      }
      var market := markets[k];
      if market.status == Settled || market.status == Cancelled {
        return Some(Conflict);
      }
      var refunds := TotalByMember(market.bets);
      RecordCredits(k, CancelRefund, refunds);
      markets := markets[k := market.(status := Cancelled)];
      error := None;
    }

    // ---------------------------------------------------------------- the scheduler

    /** Two sessions, each committed once at its end; an exception rolls back everything the session did so far. */
    method Tick(cfg: Config, now: int, feeds: nat -> Steps.Feed)
      modifies this
      ensures View() == Steps.Tick(cfg, old(View()), now, feeds)
    {
      var begun := Current();
      var due := Steps.DueToClose(markets, now);
      ghost var closing := Steps.ClosePair(cfg, feeds);
      for i := 0 to |due|
        invariant Steps.Phase(closing, begun, begun, due) == Steps.Phase(closing, begun, View(), due[i..])
      {
        var k := due[i];
        assert due[i..][0] == k && due[i..][1..] == due[i + 1..];
        var error := CloseMarket(k, feeds(k).closing);
        if error.None? {
          error := BuildDecision(cfg, k, feeds(k).deciding);
        }
        if error.Some? || feeds(k).faultClosing {
          Restore(begun);
        }
      }
      begun := Current();
      due := Steps.DueToResolve(markets, now);
      ghost var resolving := Steps.ResolvePair(cfg, feeds);
      for i := 0 to |due|
        invariant Steps.Phase(resolving, begun, begun, due) == Steps.Phase(resolving, begun, View(), due[i..])
      {
        var k := due[i];
        assert due[i..][0] == k && due[i..][1..] == due[i + 1..];
        var error := ResolveMarket(k, feeds(k).resolving);
        if error.None? {
          error := SettleMarket(cfg, k);
        }
        if error.Some? || feeds(k).faultResolving {
          Restore(begun);
        }
      }
    }

    // ---------------------------------------------------------------- the leaderboard

    method NetProfits(ids: seq<nat>) returns (profits: map<nat, int>)
      ensures forall m: nat :: m in ids ==> m in profits && profits[m] == Scoring.NetProfit(ledger, m)
    {
      profits := map m: nat | m in ids :: 0;
      for i := 0 to |ledger|
        invariant forall m: nat :: m in profits <==> m in ids
        invariant forall m: nat :: m in ids ==> profits[m] == Scoring.NetProfit(ledger[..i], m)
      {
        var e := ledger[i];
        assert ledger[..i + 1] == ledger[..i] + [e];
        forall m: nat ensures Scoring.NetProfit(ledger[..i + 1], m) == Scoring.NetProfit(ledger[..i], m) + Scoring.ProfitOf(m)(e) {
          SumSnoc(Scoring.ProfitOf(m), ledger[..i], e);
        }
        if e.kind in {BetLock, BetRefund, CancelRefund, Payout} && e.member in profits {
          profits := profits[e.member := profits[e.member] + e.amount];
        }
      }
      assert ledger[..|ledger|] == ledger;
    }

    method MarketResult(market: Market, m: nat) returns (played: bool, hit: bool, score: int)
      ensures played == Scoring.Counts(m)(market)
      ensures played ==> hit == Scoring.Hit(m)(market) && score == Scoring.Points(m)(market)
    {
      played, hit, score := false, false, 0;
      var rows := Scoring.StakesBy(market, m);
      if market.status != Settled || rows == [] || market.winner.None? {
        return;
      }
      played := true;
      var dist := Brier.MemberAllocation(rows);
      hit := Scoring.TopOf(dist) == market.winner.value;
      score := Brier.BrierScore(dist, market.winner.value);
    }

    /** One more market in the running counts of a member. */
    method CountMarket(seen: seq<Market>, market: Market, m: nat, settled: nat, hits: nat, total: int)
      returns (settled': nat, hits': nat, total': int)
      requires Counted(seen, m, settled, hits, total)
      ensures Counted(seen + [market], m, settled', hits', total')
    {
      hide Brier.Square;
      settled', hits', total' := settled, hits, total;
      PlayedSnoc(seen, market, m);
      var played, hit, score := MarketResult(market, m);
      if !played {
        return;
      }
      settled' := settled + 1;
      if hit {
        hits' := hits + 1;
      }
      total' := total + score;
    }

    /** Markets played, hits and the Brier total of one member. */
    method Results(m: nat) returns (settled: nat, hits: nat, total: int)
      ensures Counted(markets, m, settled, hits, total)
    {
      settled, hits, total := 0, 0, 0;
      for i := 0 to |markets|
        invariant Counted(markets[..i], m, settled, hits, total)
      {
        settled, hits, total := CountMarket(markets[..i], markets[i], m, settled, hits, total);
        assert markets[..i + 1] == markets[..i] + [markets[i]];
      }
      assert markets[..|markets|] == markets;
    }

    method Leaderboard() returns (scores: seq<Scoring.MemberScore>)
      ensures scores == Scoring.Leaderboard(View())
    {
      var ids := Scoring.ActiveIds(members);
      var balances := GetBalances(ids);
      var profits := NetProfits(ids);
      scores := [];
      for i := 0 to |ids|
        invariant scores == Map(Scoring.ScoreOf(View()), ids[..i])
      {
        MapSnoc(Scoring.ScoreOf(View()), ids, i);
        var m := ids[i];
        assert m in ids;
        var settled, hits, total := Results(m);
        scores := scores + [Scoring.MemberScore(m, balances[m], profits[m], settled, hits,
          if settled > 0 then HalfEven((hits * 10_000) as real / settled as real) else 0,
          if settled > 0 then Some(HalfEven(total as real / settled as real)) else None)];
      }
      assert ids[..|ids|] == ids;
      scores := Scoring.Ranked(scores);
    }
  }

  lemma {:induction false} KeysKept(positions: map<(nat, string), Position>, fund: nat, holdings: seq<Holding>)
    ensures forall key :: key in positions ==> key in Steps.Overwritten(positions, fund, holdings)
  {
    if holdings != [] {
      KeysKept(positions, fund, holdings[..|holdings| - 1]);
    }
  }
}
