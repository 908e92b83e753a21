/** From votes to orders: what a pending decision and an order certify in every reachable state. */
module Orders {
  import opened Sums
  import opened Arithmetic
  import opened Domain
  import opened Tables
  import opened Parimutuel
  import opened Risk
  import opened Steps
  import opened Invariants
  import Consensus

  /** BUY sizing: as many whole shares as the notional pays for. */
  predicate Affordable(quantity: int, price: int, notional: int) {
    price > 0 && Scaled(quantity, price) <= notional < Scaled(quantity + 1, price)
  }

  /** What a decision that was not skipped rests on. */
  ghost predicate Backed(cfg: Config, d: Decision, mk: Market) {
    var rows := Rows(mk.bets);
    var c := Consensus.Compute(rows);
    && Pool(rows) > 0 && d.totalStake == Pool(rows) && d.participants == c.participants
    && d.action != Hold && c.LeadingOutcome() == Some(d.action)
    && c.LeadingProbability() as real / Consensus.UNIT as real >= cfg.minProbability
    && d.quantity > 0 && d.limitPrice.Some? && d.orderType == Limit
    && (d.action == Buy ==> Affordable(d.quantity, d.limitPrice.value, mk.notional))
  }

  ghost predicate DecisionWell(cfg: Config, d: Decision, mk: Market) {
    if d.status == Skipped then d.quantity == 0 && d.limitPrice == None else Backed(cfg, d, mk)
  }

  /** An order repeats its decision and its market; an accepted one respects the single-order cap. */
  ghost predicate Carries(cfg: Config, o: Order, d: Decision, mk: Market) {
    && o.market == d.market && o.fund == mk.fund && o.ticker == mk.ticker
    && o.side == SideOf(d.action) && o.quantity == d.quantity && o.orderType == d.orderType
    && o.price.Some? && d.limitPrice.Some? && (d.limitPrice.value != 0 ==> o.price == d.limitPrice)
    && (o.status == Submitted <==> d.status == Done)
    && (o.status == Refused <==> d.status == Failed)
    && o.status != Created
    && (o.status == Submitted ==> Scaled(o.price.value, o.quantity) <= cfg.maxOrderAmount)
  }

  ghost predicate DecisionsBacked(cfg: Config, s: State) {
    forall d :: 0 <= d < |s.decisions| ==>
      s.decisions[d].market < |s.markets| && DecisionWell(cfg, s.decisions[d], s.markets[s.decisions[d].market])
  }

  ghost predicate OrderWell(cfg: Config, s: State, o: Order) {
    && o.decision < |s.decisions| && s.decisions[o.decision].market < |s.markets|
    && s.decisions[o.decision].status != Skipped
    && Carries(cfg, o, s.decisions[o.decision], s.markets[s.decisions[o.decision].market])
  }

  /** Every order carries its decision, and no decision has two orders. */
  ghost predicate OrdersWell(cfg: Config, s: State) {
    && (forall i :: 0 <= i < |s.orders| ==> OrderWell(cfg, s, s.orders[i]))
    && (forall i, j :: 0 <= i < j < |s.orders| ==> s.orders[i].decision != s.orders[j].decision)
  }

  ghost predicate Ordered(orders: seq<Order>, d: nat) {
    exists i :: 0 <= i < |orders| && orders[i].decision == d
  }

  /** Only decisions that were executed or failed have led to an order, and each of those has. */
  ghost predicate OutcomesOrdered(s: State) {
    forall d: nat :: d < |s.decisions| ==>
      (Ordered(s.orders, d) <==> s.decisions[d].status == Done || s.decisions[d].status == Failed)
  }

  ghost predicate Accountable(cfg: Config, s: State) {
    DecisionsBacked(cfg, s) && OrdersWell(cfg, s) && OutcomesOrdered(s)
  }

  // ------------------------------------------------------------------ building a decision

  lemma {:induction false} SizeIsAffordable(notional: int, price: int)
    requires notional > 0 && price != 0
    ensures Truncated(notional, price) > 0 ==> Affordable(Truncated(notional, price), price, notional)
    ensures Truncated(notional, price) <= 0 <==> price < 0 || notional < price
  {
    if price > 0 {
      var q := notional / price;
      assert q * price <= notional < (q + 1) * price;
      if notional >= price {
        FloorAtLeast(notional, 1, price);
      } else {
        FloorBelow(notional, 1, price);
      }
    } else {
      assert notional / -price >= 0;
    }
  }

  /** A plan that is not skipped passed the participation test, the threshold and the sizing. */
  lemma {:induction false} PlanMeans(cfg: Config, s: State, mk: Market, c: Consensus.Consensus, quote: Option<int>)
    requires MakePlan(cfg, s, mk, c, quote).Ok? && mk.notional > 0
    ensures var plan := MakePlan(cfg, s, mk, c, quote).value;
      && (!plan.skip ==>
            && c.total > 0 && !QuorumMissed(cfg, c.participants, ActiveCount(s.members))
            && c.LeadingProbability() as real / Consensus.UNIT as real >= cfg.minProbability
            && LeadingAction(c) != Hold && plan.quantity > 0 && plan.limit.Some? && plan.limit == quote
            && (LeadingAction(c) == Buy ==> Affordable(plan.quantity, plan.limit.value, mk.notional))
            && (LeadingAction(c) == Sell ==> plan.quantity == HeldQuantity(s.positions, mk.fund, mk.ticker)))
  {
    if quote.Some? && quote.value != 0 {
      SizeIsAffordable(mk.notional, quote.value);
    }
  }

  // ------------------------------------------------------------------ when a decision is carried

  ghost function ActiveMembers(members: seq<Member>): set<nat> { set m: nat | m < |members| && members[m].active }

  ghost function Stakers(bets: seq<Bet>): set<nat> { set b | b in bets && b.stake > 0 :: b.member }

  lemma {:induction false} ActiveCountIs(members: seq<Member>)
    ensures ActiveCount(members) == |ActiveMembers(members)|
  {
    CountIsCardinality(IsActive(), members);
    assert Places(IsActive(), members) == ActiveMembers(members);
  }

  lemma {:induction false} ParticipantsAre(bets: seq<Bet>)
    ensures Consensus.Members(Rows(bets)) == Stakers(bets)
  {
    forall m: nat | m in Consensus.Members(Rows(bets)) ensures m in Stakers(bets) {
      var r :| r in Rows(bets) && r.amount > 0 && r.member == m;
      var i :| 0 <= i < |bets| && Rows(bets)[i] == r;
      assert bets[i] in bets;
    }
    forall m: nat | m in Stakers(bets) ensures m in Consensus.Members(Rows(bets)) {
      var b :| b in bets && b.stake > 0 && b.member == m;
      var i :| 0 <= i < |bets| && bets[i] == b;
      assert Rows(bets)[i] in Rows(bets);
    }
  }

  lemma {:induction false} RatioIs(part: nat, whole: nat, least: real)
    requires whole > 0
    ensures part as real / whole as real < least <==> part as real < least * whole as real
  {
    var x := part as real / whole as real;
    assert x * whole as real == part as real;
    CancelReal(x, least, whole as real);
    CancelReal(least, x, whole as real);
  }

  /**
   * What carries the leading outcome of market k: somebody staked; the members with a stake are at least the quorum's
   * share of the active ones, if there are any; the leader's published probability reaches the threshold; and the
   * leader is not HOLD.
   */
  ghost predicate Carried(cfg: Config, members: seq<Member>, bets: seq<Bet>) {
    var c := Consensus.Compute(Rows(bets));
    && (exists b :: b in bets && b.stake > 0)
    && (|ActiveMembers(members)| == 0 || |Stakers(bets)| as real >= cfg.quorum * |ActiveMembers(members)| as real)
    && c.LeadingProbability() as real >= cfg.minProbability * 10000.0
    && c.LeadingOutcome() != Some(Hold)
  }

  lemma {:induction false} CarriedIs(cfg: Config, members: seq<Member>, bets: seq<Bet>)
    ensures var c := Consensus.Compute(Rows(bets));
      Carried(cfg, members, bets) <==> !Unconvincing(cfg, c, ActiveCount(members)) && LeadingAction(c) != Hold
  {
    hide Consensus.Published;
    var c := Consensus.Compute(Rows(bets));
    ActiveCountIs(members);
    ParticipantsAre(bets);
    SomebodyStaked(bets);
    Consensus.LeadingIs(c);
    var active := |ActiveMembers(members)|;
    if active > 0 {
      RatioIs(|Stakers(bets)|, active, cfg.quorum);
    }
    ThresholdIs(c.LeadingProbability(), cfg.minProbability);
  }

  lemma {:induction false} ThresholdIs(p: int, least: real)
    ensures p as real / Consensus.UNIT as real < least <==> p as real < least * 10000.0
  {
  }

  lemma {:induction false} PoolIsPositive(rows: seq<Stake>)
    ensures Pool(rows) > 0 <==> exists r :: r in rows && r.amount > 0
  {
    FilterMembers(Positive(), rows);
    SumNonNegative(StakeAmount(), Staked(rows));
    if r :| r in rows && r.amount > 0 {
      assert r in Staked(rows);
    }
    if Staked(rows) != [] {
      assert Staked(rows)[0] in Staked(rows);
    }
  }

  lemma {:induction false} StakedRows(bets: seq<Bet>)
    ensures (exists r :: r in Rows(bets) && r.amount > 0) <==> exists b :: b in bets && b.stake > 0
  {
    if b :| b in bets && b.stake > 0 {
      var i :| 0 <= i < |bets| && bets[i] == b;
      assert Rows(bets)[i] in Rows(bets);
    }
    if r :| r in Rows(bets) && r.amount > 0 {
      var i :| 0 <= i < |bets| && Rows(bets)[i] == r;
      assert bets[i] in bets;
    }
  }

  lemma {:induction false} SomebodyStaked(bets: seq<Bet>)
    ensures Consensus.Compute(Rows(bets)).total > 0 <==> exists b :: b in bets && b.stake > 0
  {
    hide Pool, Rows, Consensus.Published;
    Consensus.StakedIsPool(Rows(bets));
    PoolIsPositive(Rows(bets));
    StakedRows(bets);
  }

  ghost function HeldOf(s: State, mk: Market): int {
    if (mk.fund, mk.ticker) in s.positions then s.positions[(mk.fund, mk.ticker)].quantity else 0
  }

  /** A decision is built exactly for a CLOSED market without one, and then only a missing or zero price can stop it. */
  lemma {:induction false} BuiltIff(cfg: Config, s: State, k: nat, quote: Option<int>)
    ensures BuildDecision(cfg, s, k, quote).Ok? <==>
      && k < |s.markets| && s.markets[k].status == Closed
      && (forall d :: 0 <= d < |s.decisions| ==> s.decisions[d].market != k)
      && (Carried(cfg, s.members, s.markets[k].bets) ==>
            && quote.Some?
            && (Consensus.Compute(Rows(s.markets[k].bets)).LeadingOutcome() == Some(Buy) ==> quote.value != 0))
    ensures k >= |s.markets| ==> BuildDecision(cfg, s, k, quote) == Err(NotFound)
    ensures k < |s.markets| && s.markets[k].status != Closed ==> BuildDecision(cfg, s, k, quote) == Err(Conflict)
  {
    hide Consensus.Compute, Carried, Unconvincing;
    if k < |s.markets| {
      CarriedIs(cfg, s.members, s.markets[k].bets);
    }
  }

  /** A BUY needs a positive price within the notional, a SELL something to sell. */
  ghost predicate Fits(s: State, mk: Market, action: Outcome, quote: Option<int>) {
    && quote.Some?
    && (action == Buy ==> 0 < quote.value <= mk.notional)
    && (action == Sell ==> HeldOf(s, mk) > 0)
  }

  lemma {:induction false} SizeIs(notional: int, price: int)
    requires notional > 0 && price != 0
    ensures Truncated(notional, price) > 0 <==> 0 < price <= notional
    ensures price > 0 ==> Truncated(notional, price) == notional / price
  {
    SizeIsAffordable(notional, price);
  }

  lemma {:induction false} PlanIs(cfg: Config, s: State, mk: Market, quote: Option<int>)
    requires MakePlan(cfg, s, mk, Consensus.Compute(Rows(mk.bets)), quote).Ok? && mk.notional > 0
    ensures var c := Consensus.Compute(Rows(mk.bets));
      var plan := MakePlan(cfg, s, mk, c, quote).value;
      && (!plan.skip <==> Carried(cfg, s.members, mk.bets) && Fits(s, mk, LeadingAction(c), quote))
      && (!plan.skip ==>
            && plan.limit == quote
            && plan.quantity == if LeadingAction(c) == Buy then mk.notional / quote.value else HeldOf(s, mk))
  {
    hide Consensus.Compute, Carried, Unconvincing, Truncated;
    CarriedIs(cfg, s.members, mk.bets);
    if quote.Some? && quote.value != 0 {
      SizeIs(mk.notional, quote.value);
    }
  }

  /**
   * The decision that is built. It waits for approval exactly when the votes carry it and its size is positive: a BUY at
   * a price within the notional, for as many shares as the notional pays for, or a SELL of something held, for all of
   * it; both at the quoted price. Otherwise it is skipped, without size or price.
   */
  lemma {:induction false} PendingIff(cfg: Config, s: State, k: nat, quote: Option<int>)
    requires BuildDecision(cfg, s, k, quote).Ok? && s.markets[k].notional > 0
    ensures var t := BuildDecision(cfg, s, k, quote).value;
      var mk, n := s.markets[k], |s.decisions|;
      var leader := Consensus.Compute(Rows(mk.bets)).LeadingOutcome();
      && t == s.(decisions := t.decisions, markets := s.markets[k := mk.(status := Decided)])
      && |t.decisions| == n + 1 && t.decisions[..n] == s.decisions
      && var d := t.decisions[n];
      && d.market == k && d.orderType == Limit && d.totalStake == Pool(Rows(mk.bets)) && d.participants == |Stakers(mk.bets)|
      && d.action == (if leader.Some? then leader.value else Hold)
      && d.status in {Pending, Skipped}
      && (d.status == Pending <==> Carried(cfg, s.members, mk.bets) && Fits(s, mk, d.action, quote))
      && (d.status == Pending ==>
            && d.limitPrice == quote
            && d.quantity == if d.action == Buy then mk.notional / quote.value else HeldOf(s, mk))
      && (d.status == Skipped ==> d.quantity == 0 && d.limitPrice == None)
  {
    hide Consensus.Compute, Carried, Fits, MakePlan, Pool, Stakers;
    PlanIs(cfg, s, s.markets[k], quote);
    ComputeTotals(s.markets[k].bets);
  }

  lemma {:induction false} ComputeTotals(bets: seq<Bet>)
    ensures Consensus.Compute(Rows(bets)).total == Pool(Rows(bets))
    ensures Consensus.Compute(Rows(bets)).participants == |Stakers(bets)|
  {
    Consensus.StakedIsPool(Rows(bets));
    ParticipantsAre(bets);
  }

  lemma {:induction false} DecisionBuilt(cfg: Config, s: State, k: nat, quote: Option<int>)
    requires BuildDecision(cfg, s, k, quote).Ok? && s.markets[k].notional > 0
    ensures var t := BuildDecision(cfg, s, k, quote).value;
      && |t.decisions| == |s.decisions| + 1 && t.decisions[..|s.decisions|] == s.decisions && t.orders == s.orders
      && t.decisions[|s.decisions|].market == k
      && t.decisions[|s.decisions|].status in {Pending, Skipped}
      && DecisionWell(cfg, t.decisions[|s.decisions|], s.markets[k])
  {
    var mk := s.markets[k];
    var c := Consensus.Compute(Rows(mk.bets));
    PlanMeans(cfg, s, mk, c, quote);
    Consensus.StakedIsPool(Rows(mk.bets));
  }

  // ------------------------------------------------------------------ preservation

  /** Markets may only evolve as Invariants allows. */
  ghost predicate MarketsEvolve(s: State, t: State) {
    |s.markets| <= |t.markets| && forall k :: 0 <= k < |s.markets| ==> MarketEvolves(s.markets[k], t.markets[k])
  }

  lemma {:induction false} StillWell(cfg: Config, d: Decision, a: Market, b: Market)
    requires DecisionWell(cfg, d, a) && MarketEvolves(a, b) && a.status != Open
    ensures DecisionWell(cfg, d, b)
  {
  }

  lemma {:induction false} DecisionsStillBacked(cfg: Config, s: State, t: State)
    requires Consistent(s) && DecisionsBacked(cfg, s) && MarketsEvolve(s, t) && |t.decisions| == |s.decisions|
    requires forall d :: 0 <= d < |s.decisions| ==>
      && t.decisions[d] == s.decisions[d].(status := t.decisions[d].status)
      && (t.decisions[d].status == Skipped <==> s.decisions[d].status == Skipped)
    ensures DecisionsBacked(cfg, t)
  {
    forall d | 0 <= d < |t.decisions|
      ensures t.decisions[d].market < |t.markets| && DecisionWell(cfg, t.decisions[d], t.markets[t.decisions[d].market])
    {
      var k := s.decisions[d].market;
      StillWell(cfg, s.decisions[d], s.markets[k], t.markets[k]);
    }
  }

  /** Calls that leave decisions and orders alone. */
  lemma {:induction false} Unconcerned(cfg: Config, s: State, t: State)
    requires Consistent(s) && Accountable(cfg, s) && MarketsEvolve(s, t)
    requires t.decisions == s.decisions && t.orders == s.orders
    ensures Accountable(cfg, t)
  {
    DecisionsStillBacked(cfg, s, t);
    forall i | 0 <= i < |t.orders| ensures OrderWell(cfg, t, t.orders[i]) {
      assert OrderWell(cfg, s, s.orders[i]);
    }
  }

  lemma {:induction false} DecisionAdded(cfg: Config, s: State, t: State, dec: Decision)
    requires Consistent(s) && Accountable(cfg, s) && MarketsEvolve(s, t) && t.orders == s.orders
    requires t.decisions == s.decisions + [dec] && dec.status in {Pending, Skipped}
    requires dec.market < |s.markets| && DecisionWell(cfg, dec, t.markets[dec.market])
    ensures Accountable(cfg, t)
  {
    var before := t.(decisions := s.decisions);
    DecisionsStillBacked(cfg, s, before);
    forall i | 0 <= i < |t.orders| ensures OrderWell(cfg, t, t.orders[i]) {
      assert OrderWell(cfg, s, s.orders[i]);
    }
    forall d: nat | d < |t.decisions|
      ensures Ordered(t.orders, d) <==> t.decisions[d].status == Done || t.decisions[d].status == Failed
    {
      if d == |s.decisions| {
        forall i | 0 <= i < |t.orders| ensures t.orders[i].decision != d {
          assert OrderWell(cfg, s, s.orders[i]);
        }
      }
    }
  }

  lemma {:induction false} DecideAccountable(cfg: Config, s: State, k: nat, quote: Option<int>)
    requires Consistent(s) && Accountable(cfg, s) && BuildDecision(cfg, s, k, quote).Ok?
    ensures Accountable(cfg, BuildDecision(cfg, s, k, quote).value)
  {
    var t := BuildDecision(cfg, s, k, quote).value;
    DecideConsistent(cfg, s, k, quote);
    var mk := s.markets[k];
    assert MarketWell(mk, |s.members|);
    DecisionBuilt(cfg, s, k, quote);
    BuiltEffect(cfg, s, k, quote);
    var dec := t.decisions[|s.decisions|];
    assert t.decisions == s.decisions + [dec];
    DecisionAdded(cfg, s, t, dec);
  }

  lemma {:induction false} BuiltEffect(cfg: Config, s: State, k: nat, quote: Option<int>)
    requires BuildDecision(cfg, s, k, quote).Ok?
    ensures var t := BuildDecision(cfg, s, k, quote).value;
      && k < |s.markets| && |t.markets| == |s.markets| && t.markets[k] == s.markets[k].(status := Decided)
  {
  }

  lemma {:induction false} RejectAccountable(cfg: Config, s: State, d: nat)
    requires Consistent(s) && Accountable(cfg, s) && RejectDecision(s, d).Ok?
    ensures Accountable(cfg, RejectDecision(s, d).value)
  {
    var t := RejectDecision(s, d).value;
    DecisionsStillBacked(cfg, s, t);
    forall i | 0 <= i < |t.orders| ensures OrderWell(cfg, t, t.orders[i]) {
      assert OrderWell(cfg, s, s.orders[i]);
    }
    assert OutcomesOrdered(t) by {
      forall e: nat | e < |t.decisions|
        ensures Ordered(t.orders, e) <==> t.decisions[e].status == Done || t.decisions[e].status == Failed
      {
        assert Ordered(s.orders, e) <==> s.decisions[e].status == Done || s.decisions[e].status == Failed;
      }
    }
  }

  /** An approval that gets as far as an order: the row it adds and the decision it concludes. */
  ghost predicate Concluded(cfg: Config, s: State, d: nat, t: State, o: Order) {
    && d < |s.decisions| && s.decisions[d].market < |s.markets| && s.decisions[d].status == Pending
    && t.orders == s.orders + [o] && o.decision == d && o.status in {Submitted, Refused}
    && t.decisions == s.decisions[d := s.decisions[d].(status := if o.status == Submitted then Done else Failed)]
    && Carries(cfg, o, t.decisions[d], s.markets[s.decisions[d].market])
  }

  lemma {:induction false} ApprovalConcludes(cfg: Config, s: State, d: nat, env: Env)
    requires DecisionsBacked(cfg, s)
    ensures var t := ExecuteDecision(cfg, s, d, env).db;
      t == s || (|t.orders| == |s.orders| + 1 && Concluded(cfg, s, d, t, t.orders[|s.orders|]))
  {
    if d < |s.decisions| && s.decisions[d].status == Pending {
      var dec := s.decisions[d];
      assert DecisionWell(cfg, dec, s.markets[dec.market]);
      ApprovalCases(cfg, s, d, env);
    }
  }

  lemma {:induction false} ApprovalCases(cfg: Config, s: State, d: nat, env: Env)
    requires d < |s.decisions| && s.decisions[d].market < |s.markets| && s.decisions[d].status == Pending
    requires s.decisions[d].limitPrice.Some? && s.decisions[d].orderType == Limit
    ensures var t := ExecuteDecision(cfg, s, d, env).db;
      t == s || (|t.orders| == |s.orders| + 1 && Concluded(cfg, s, d, t, t.orders[|s.orders|]))
  {
    var dec := s.decisions[d];
    var mk := s.markets[dec.market];
    var price := ExecutionPrice(dec, env.quote);
    if dec.action != Hold && price.Some? {
      var ctx := ContextOf(mk, dec, price.value);
      AllowedParts(cfg, s, ctx, env.now, env.session, Some(env.balance));
      NotionalIsScaled(ctx);
    }
  }

  lemma {:induction false} NotionalIsScaled(ctx: RiskContext)
    ensures ctx.Notional() == Scaled(ctx.price, ctx.quantity)
  {
  }

  lemma {:induction false} OrdersStillWell(cfg: Config, s: State, d: nat, t: State, o: Order)
    requires OrdersWell(cfg, s) && !Ordered(s.orders, d) && MarketsEvolve(s, t) && Concluded(cfg, s, d, t, o)
    requires s.decisions[d].status != Skipped
    ensures OrdersWell(cfg, t)
  {
    forall i | 0 <= i < |t.orders| ensures OrderWell(cfg, t, t.orders[i]) {
      var k := s.decisions[d].market;
      assert MarketEvolves(s.markets[k], t.markets[k]);
      if i < |s.orders| {
        assert OrderWell(cfg, s, s.orders[i]) && s.orders[i].decision != d;
      }
    }
  }

  lemma {:induction false} OutcomesStillOrdered(cfg: Config, s: State, d: nat, t: State, o: Order)
    requires OutcomesOrdered(s) && Concluded(cfg, s, d, t, o)
    ensures OutcomesOrdered(t)
  {
    var n := |s.orders|;
    forall e: nat | e < |t.decisions|
      ensures Ordered(t.orders, e) <==> t.decisions[e].status == Done || t.decisions[e].status == Failed
    {
      assert t.orders[n].decision == d;
      assert Ordered(s.orders, e) <==> s.decisions[e].status == Done || s.decisions[e].status == Failed;
      if Ordered(s.orders, e) {
        var i :| 0 <= i < n && s.orders[i].decision == e;
        assert t.orders[i].decision == e;
      }
    }
  }

  lemma {:induction false} OrderAdded(cfg: Config, s: State, d: nat, t: State, o: Order)
    requires Consistent(s) && Accountable(cfg, s) && MarketsEvolve(s, t) && Concluded(cfg, s, d, t, o)
    ensures Accountable(cfg, t)
  {
    DecisionsStillBacked(cfg, s, t);
    assert !Ordered(s.orders, d);
    OrdersStillWell(cfg, s, d, t, o);
    OutcomesStillOrdered(cfg, s, d, t, o);
  }

  lemma {:induction false} ApproveAccountable(cfg: Config, s: State, d: nat, env: Env)
    requires Consistent(s) && Accountable(cfg, s)
    ensures Accountable(cfg, ExecuteDecision(cfg, s, d, env).db)
  {
    var t := ExecuteDecision(cfg, s, d, env).db;
    ExecuteConsistent(cfg, s, d, env);
    ApprovalConcludes(cfg, s, d, env);
    if t != s {
      OrderAdded(cfg, s, d, t, t.orders[|s.orders|]);
    }
  }

  lemma {:induction false} OthersUnconcerned(cfg: Config, s: State, step: Step)
    requires Single(step) && !step.Decide? && !step.Approve? && !step.Reject?
    ensures Apply(cfg, s, step).decisions == s.decisions && Apply(cfg, s, step).orders == s.orders
  {
  }

  lemma {:induction false} SingleAccountable(cfg: Config, s: State, step: Step)
    requires Consistent(s) && Accountable(cfg, s) && Single(step)
    ensures Accountable(cfg, Apply(cfg, s, step))
  {
    SingleConsistent(cfg, s, step);
    match step {
      case Decide(k, q) =>
        if BuildDecision(cfg, s, k, q).Ok? { DecideAccountable(cfg, s, k, q); }
      case Approve(d, env) => ApproveAccountable(cfg, s, d, env);
      case Reject(d) =>
        if RejectDecision(s, d).Ok? { RejectAccountable(cfg, s, d); }
      case _ =>
        OthersUnconcerned(cfg, s, step);
        Unconcerned(cfg, s, Apply(cfg, s, step));
    }
  }

  lemma {:induction false} SinglesAccountable(cfg: Config, s: State, steps: seq<Step>)
    requires Consistent(s) && Accountable(cfg, s) && forall step :: step in steps ==> Single(step)
    ensures Accountable(cfg, Run(cfg, s, steps))
    decreases |steps|
  {
    if steps != [] {
      assert steps[0] in steps;
      SingleConsistent(cfg, s, steps[0]);
      SingleAccountable(cfg, s, steps[0]);
      SinglesAccountable(cfg, Apply(cfg, s, steps[0]), steps[1..]);
    }
  }

  lemma {:induction false} StepAccountable(cfg: Config, s: State, step: Step)
    requires Consistent(s) && Accountable(cfg, s)
    ensures Accountable(cfg, Apply(cfg, s, step))
  {
    if step.Scheduled? {
      var automatic := TickIsRun(cfg, s, step.now, step.feeds);
      SinglesAccountable(cfg, s, automatic);
    } else {
      SingleAccountable(cfg, s, step);
    }
  }

  lemma {:induction false} RunAccountable(cfg: Config, s: State, steps: seq<Step>)
    requires Consistent(s) && Accountable(cfg, s)
    ensures Accountable(cfg, Run(cfg, s, steps))
    decreases |steps|
  {
    if steps != [] {
      var t := Apply(cfg, s, steps[0]);
      StepConsistent(cfg, s, steps[0]);
      StepAccountable(cfg, s, steps[0]);
      RunAccountable(cfg, t, steps[1..]);
    }
  }

  // ------------------------------------------------------------------ results

  /** With a threshold above one half, a decision that was not skipped carries a strict majority of all stake. */
  lemma {:induction false} BackedByMajority(cfg: Config, d: Decision, mk: Market)
    requires Backed(cfg, d, mk) && cfg.minProbability > 0.5
    ensures 2 * WinningPool(Rows(mk.bets), d.action) > Pool(Rows(mk.bets))
    ensures forall o :: o != d.action ==> WinningPool(Rows(mk.bets), o) < WinningPool(Rows(mk.bets), d.action)
  {
    Consensus.AboveHalfIsMajority(Rows(mk.bets), d.action);
  }

  /**
   * From vote to order, in every reachable state: each order belongs to exactly one decision and each decision to at
   * most one order; the order repeats the decision's action, size and price; an accepted order respects the
   * single-order cap; a BUY buys as many whole shares as the notional affords; and with a threshold above one half the
   * action held a strict majority of all stake, so no tie-break was involved.
   */
  lemma {:induction false} OrdersFollowVotes(cfg: Config, steps: seq<Step>)
    ensures var s := Run(cfg, EMPTY, steps);
      && (forall i, j :: 0 <= i < j < |s.orders| ==> s.orders[i].decision != s.orders[j].decision)
      && (forall i :: 0 <= i < |s.orders| ==> s.orders[i].decision < |s.decisions|)
      && (forall i :: 0 <= i < |s.orders| ==>
            var o, d := s.orders[i], s.decisions[s.orders[i].decision];
            && d.market < |s.markets|
            && Carries(cfg, o, d, s.markets[d.market])
            && Backed(cfg, d, s.markets[d.market])
            && (cfg.minProbability > 0.5 ==>
                  2 * WinningPool(Rows(s.markets[d.market].bets), d.action) > Pool(Rows(s.markets[d.market].bets))))
      && (forall d: nat :: d < |s.decisions| ==>
            (Ordered(s.orders, d) <==> s.decisions[d].status == Done || s.decisions[d].status == Failed))
      && (forall d: nat :: d < |s.decisions| && s.decisions[d].status == Pending ==>
            s.decisions[d].market < |s.markets| && Backed(cfg, s.decisions[d], s.markets[s.decisions[d].market]))
  {
    assert Consistent(EMPTY) && Accountable(cfg, EMPTY);
    RunAccountable(cfg, EMPTY, steps);
    var s := Run(cfg, EMPTY, steps);
    forall i | 0 <= i < |s.orders|
      ensures s.orders[i].decision < |s.decisions|
      ensures var o, d := s.orders[i], s.decisions[s.orders[i].decision];
        && d.market < |s.markets| && Carries(cfg, o, d, s.markets[d.market]) && Backed(cfg, d, s.markets[d.market])
        && (cfg.minProbability > 0.5 ==>
              2 * WinningPool(Rows(s.markets[d.market].bets), d.action) > Pool(Rows(s.markets[d.market].bets)))
    {
      assert OrderWell(cfg, s, s.orders[i]);
      var d := s.decisions[s.orders[i].decision];
      assert DecisionWell(cfg, d, s.markets[d.market]);
      if cfg.minProbability > 0.5 {
        BackedByMajority(cfg, d, s.markets[d.market]);
      }
    }
  }

  // ------------------------------------------------------------------ approvals

  /** The limit price if there is one and it is not zero, else the quote. */
  ghost function PriceOfOrder(dec: Decision, env: Env): Option<int> {
    if dec.limitPrice == None || dec.limitPrice == Some(0) then env.quote else dec.limitPrice
  }

  /** Every limit an approved order of this decision at price p has to respect. */
  ghost predicate Passes(cfg: Config, s: State, dec: Decision, mk: Market, p: int, env: Env) {
    && !cfg.killSwitch && dec.quantity > 0 && p * dec.quantity <= cfg.maxOrderAmount
    && (cfg.enforceHours ==> env.session.isOpen && (dec.orderType == AtMarket ==> env.session.marketOrderAllowed))
    && |CountedRows(s.orders, mk.fund, env.now)| < cfg.maxDailyOrders
    && (dec.action != Buy ==> dec.quantity <= HeldOf(s, mk))
    && (dec.action == Buy ==>
          && env.balance.Some? && (p * dec.quantity) as real <= env.balance.value.cash
          && var equity := env.balance.value.cash + SumReal(Value(), env.balance.value.holdings);
             equity > 0.0 ==> (ValueOf(env.balance.value.holdings, mk.ticker) + (p * dec.quantity) as real) / equity <= cfg.maxWeight)
  }

  lemma {:induction false} PassesIs(cfg: Config, s: State, dec: Decision, mk: Market, p: int, env: Env)
    ensures Passes(cfg, s, dec, mk, p, env)
      <==> Reasons(cfg, s, ContextOf(mk, dec, p), env.now, env.session, Some(env.balance)) == []
  {
    hide Reasons;
    AllowedMeans(cfg, s, ContextOf(mk, dec, p), env.now, env.session, Some(env.balance));
  }

  /** The order row of decision d. */
  ghost function RowOf(d: nat, dec: Decision, mk: Market, p: int, env: Env, status: OrderStatus): Order {
    Order(d, dec.market, mk.fund, mk.ticker, if dec.action == Buy then BuySide else SellSide, dec.orderType, dec.quantity,
          if dec.orderType == Limit then Some(p) else None, env.stamp, status)
  }

  /**
   * Every approval, in plain terms. It is accepted exactly when the decision is pending and not a HOLD, a price is known,
   * every limit is respected and the broker takes the order; then the order row is SUBMITTED, the decision executed and
   * the market EXECUTED. If a limit or the broker says no, the row is REJECTED and the decision failed. Any other error
   * changes nothing.
   */
  lemma {:induction false} AcceptedIff(cfg: Config, s: State, d: nat, env: Env)
    requires d < |s.decisions| && s.decisions[d].market < |s.markets|
    ensures var dec, mk := s.decisions[d], s.markets[s.decisions[d].market];
      var price, a := PriceOfOrder(dec, env), ExecuteDecision(cfg, s, d, env);
      && (dec.status != Pending || dec.action == Hold ==> a == Attempt(s, Some(Conflict)))
      && (dec.status == Pending && dec.action != Hold && price == None ==> a == Attempt(s, Some(BrokerFailure)))
      && (dec.status == Pending && dec.action != Hold && price.Some? ==>
            var p := price.value;
            if Passes(cfg, s, dec, mk, p, env) && env.accepts then
              a == Attempt(s.(orders := s.orders + [RowOf(d, dec, mk, p, env, Submitted)],
                              decisions := s.decisions[d := dec.(status := Done)],
                              markets := s.markets[dec.market := mk.(status := MarketStatus.Executed)]), None)
            else
              a == Attempt(s.(orders := s.orders + [RowOf(d, dec, mk, p, env, Refused)],
                              decisions := s.decisions[d := dec.(status := Failed)]),
                           Some(if Passes(cfg, s, dec, mk, p, env) then BrokerFailure else RiskLimit)))
  {
    hide Reasons, Passes;
    var dec, mk := s.decisions[d], s.markets[s.decisions[d].market];
    if PriceOfOrder(dec, env).Some? {
      PassesIs(cfg, s, dec, mk, PriceOfOrder(dec, env).value, env);
    }
  }

  lemma {:induction false} UnknownDecision(cfg: Config, s: State, d: nat, env: Env)
    ensures d >= |s.decisions| ==> ExecuteDecision(cfg, s, d, env) == Attempt(s, Some(NotFound))
    ensures d < |s.decisions| && s.decisions[d].market >= |s.markets| ==>
      ExecuteDecision(cfg, s, d, env)
      == Attempt(s, Some(if s.decisions[d].status != Pending || s.decisions[d].action == Hold then Conflict else NotFound))
  {
  }

  // ------------------------------------------------------------------ rejecting

  /** A pending decision becomes rejected and nothing else changes; any other cannot be rejected. */
  lemma {:induction false} RejectedIff(s: State, d: nat)
    ensures RejectDecision(s, d)
      == if d >= |s.decisions| then Err(NotFound)
         else if s.decisions[d].status != Pending then Err(Conflict)
         else Ok(s.(decisions := s.decisions[d := s.decisions[d].(status := Rejected)]))
  {
  }

  /** Decisions that are no longer pending never change again. */
  ghost predicate ConcludedStay(s: State, t: State) {
    && |s.decisions| <= |t.decisions|
    && forall d :: 0 <= d < |s.decisions| && s.decisions[d].status != Pending ==> t.decisions[d] == s.decisions[d]
  }

  lemma {:induction false} ExecuteKeepsConcluded(cfg: Config, s: State, d: nat, env: Env)
    ensures ConcludedStay(s, ExecuteDecision(cfg, s, d, env).db)
  {
    hide Reasons;
  }

  lemma {:induction false} DecideKeepsConcluded(cfg: Config, s: State, k: nat, quote: Option<int>)
    ensures ConcludedStay(s, Or(BuildDecision(cfg, s, k, quote), s))
  {
    hide MakePlan, Consensus.Compute;
  }

  lemma {:induction false} SingleKeepsConcluded(cfg: Config, s: State, step: Step)
    requires Single(step)
    ensures ConcludedStay(s, Apply(cfg, s, step))
  {
    match step {
      case Decide(k, q) => DecideKeepsConcluded(cfg, s, k, q);
      case Approve(d, env) => ExecuteKeepsConcluded(cfg, s, d, env);
      case Reject(d) =>
      case _ => OthersUnconcerned(cfg, s, step);
    }
  }

  lemma {:induction false} SinglesKeepConcluded(cfg: Config, s: State, steps: seq<Step>)
    requires forall step :: step in steps ==> Single(step)
    ensures ConcludedStay(s, Run(cfg, s, steps))
    decreases |steps|
  {
    hide Apply;
    if steps != [] {
      assert steps[0] in steps;
      SingleKeepsConcluded(cfg, s, steps[0]);
      SinglesKeepConcluded(cfg, Apply(cfg, s, steps[0]), steps[1..]);
    }
  }

  lemma {:induction false} RunKeepsConcluded(cfg: Config, s: State, steps: seq<Step>)
    ensures ConcludedStay(s, Run(cfg, s, steps))
    decreases |steps|
  {
    hide Tick;
    if steps != [] {
      if steps[0].Scheduled? {
        var automatic := TickIsRun(cfg, s, steps[0].now, steps[0].feeds);
        SinglesKeepConcluded(cfg, s, automatic);
      } else {
        SingleKeepsConcluded(cfg, s, steps[0]);
      }
      RunKeepsConcluded(cfg, Apply(cfg, s, steps[0]), steps[1..]);
    }
  }

  /** After a decision has been rejected in a reachable state, it stays rejected and no run ever holds an order for it. */
  lemma {:induction false} RejectedNeverOrdered(cfg: Config, steps: seq<Step>, d: nat, more: seq<Step>)
    requires RejectDecision(Run(cfg, EMPTY, steps), d).Ok?
    ensures var t := Run(cfg, RejectDecision(Run(cfg, EMPTY, steps), d).value, more);
      && d < |t.decisions| && t.decisions[d].status == Rejected
      && forall i :: 0 <= i < |t.orders| ==> t.orders[i].decision != d
  {
    hide Run, Accountable, Consistent;
    var s := Run(cfg, EMPTY, steps);
    var r := RejectDecision(s, d).value;
    EmptyIsAccountable(cfg);
    RunConsistent(cfg, EMPTY, steps);
    RunAccountable(cfg, EMPTY, steps);
    RejectConsistent(s, d);
    RejectAccountable(cfg, s, d);
    RunAccountable(cfg, r, more);
    RunKeepsConcluded(cfg, r, more);
    NotOrdered(cfg, Run(cfg, r, more), d);
  }

  lemma {:induction false} EmptyIsAccountable(cfg: Config)
    ensures Consistent(EMPTY) && Accountable(cfg, EMPTY)
  {
  }

  lemma {:induction false} NotOrdered(cfg: Config, s: State, d: nat)
    requires Accountable(cfg, s) && d < |s.decisions| && s.decisions[d].status == Rejected
    ensures forall i :: 0 <= i < |s.orders| ==> s.orders[i].decision != d
  {
    assert !Ordered(s.orders, d);
  }
}
