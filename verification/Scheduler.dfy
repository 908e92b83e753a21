/**
 * What one scheduler tick commits, whatever fails (scheduler.py). A failure rolls back the whole session, so each
 * phase commits exactly the due markets after the last one that fails.
 */
module Scheduler {
  import opened Domain
  import opened Tables
  import opened Parimutuel
  import opened Steps
  import opened Invariants
  import opened Conservation
  import Consensus

  type Pair = (State, nat) -> Result<State>

  /** a and b agree on everything that advancing market k looks at. */
  ghost predicate SameView(a: State, b: State, k: nat) {
    && |a.markets| == |b.markets| && a.members == b.members && a.positions == b.positions
    && (k < |a.markets| ==> a.markets[k] == b.markets[k])
    && (HasDecision(a.decisions, k) <==> HasDecision(b.decisions, k))
  }

  /** Going from s to t touched no market but k and placed no order. */
  ghost predicate OnlyTouches(s: State, t: State, k: nat) {
    && t.orders == s.orders
    && forall j: nat :: j != k ==> SameView(s, t, j)
  }

  ghost predicate SameAnswer(x: Result<State>, y: Result<State>, k: nat) {
    && x.Ok? == y.Ok?
    && (x.Ok? ==> k < |x.value.markets| && k < |y.value.markets| && x.value.markets[k] == y.value.markets[k])
  }

  /** Two calls that read and write only their own market. */
  ghost predicate Local(pair: Pair) {
    && (forall s: State, k: nat :: pair(s, k).Ok? ==> OnlyTouches(s, pair(s, k).value, k))
    && (forall a: State, b: State, k: nat :: SameView(a, b, k) ==> SameAnswer(pair(a, k), pair(b, k), k))
  }

  ghost predicate Distinct(ks: seq<nat>) {
    forall i, j :: 0 <= i < j < |ks| ==> ks[i] != ks[j]
  }

  /** The due markets after the last one that fails; failing is judged in the state the session began with. */
  function Survivors(pair: Pair, begun: State, due: seq<nat>): seq<nat> {
    if due == [] then []
    else
      var n := |due| - 1;
      if pair(begun, due[n]).Ok? then Survivors(pair, begun, due[..n]) + [due[n]] else []
  }

  /** Processing the given markets in order, all of them, without any rollback. */
  function Process(pair: Pair, s: State, ks: seq<nat>): Result<State> {
    if ks == [] then Ok(s)
    else
      var n := |ks| - 1;
      match Process(pair, s, ks[..n])
      case Err(e) => Err(e)
      case Ok(t) => pair(t, ks[n])
  }

  // ------------------------------------------------------------------ one phase

  lemma {:induction false} LocalAt(pair: Pair, s: State, t: State, k: nat)
    requires Local(pair) && SameView(s, t, k)
    ensures SameAnswer(pair(s, k), pair(t, k), k)
    ensures pair(t, k).Ok? ==> OnlyTouches(t, pair(t, k).value, k)
  {
  }

  lemma {:induction false} ProcessIsLocal(pair: Pair, s: State, ks: seq<nat>)
    requires Local(pair) && Distinct(ks) && forall k :: k in ks ==> pair(s, k).Ok?
    ensures Process(pair, s, ks).Ok?
    ensures var t := Process(pair, s, ks).value;
      && t.orders == s.orders && |t.markets| == |s.markets|
      && (forall j: nat :: j !in ks ==> SameView(s, t, j))
      && (forall k :: k in ks ==>
            k < |t.markets| && k < |pair(s, k).value.markets| && t.markets[k] == pair(s, k).value.markets[k])
  {
    if ks == [] {
      assert SameView(s, s, 0);
    } else {
      var n := |ks| - 1;
      var front, last := ks[..n], ks[n];
      assert ks == front + [last] && last !in front;
      ProcessIsLocal(pair, s, front);
      var middle := Process(pair, s, front).value;
      LocalAt(pair, s, middle, last);
      assert pair(s, last).Ok?;
      var t := pair(middle, last).value;
      assert SameView(middle, t, last + 1);
      forall j: nat | j !in ks ensures SameView(s, t, j) {
        assert SameView(s, middle, j) && SameView(middle, t, j);
      }
      forall k | k in front
        ensures k < |t.markets| && k < |pair(s, k).value.markets| && t.markets[k] == pair(s, k).value.markets[k]
      {
        assert SameView(middle, t, k);
      }
    }
  }

  lemma {:induction false} PhaseSnoc(pair: Pair, begun: State, current: State, due: seq<nat>, k: nat)
    ensures Phase(pair, begun, current, due + [k])
         == match pair(Phase(pair, begun, current, due), k) { case Ok(next) => next case Err(_) => begun }
    decreases |due|
  {
    if due == [] {
      assert ([] + [k])[1..] == [];
    } else {
      assert (due + [k])[0] == due[0] && (due + [k])[1..] == due[1..] + [k];
      match pair(current, due[0]) {
        case Ok(next) => PhaseSnoc(pair, begun, next, due[1..], k);
        case Err(_) => PhaseSnoc(pair, begun, begun, due[1..], k);
      }
    }
  }

  /** The survivors are the longest end of the due list without a failing market. */
  lemma {:induction false} SurvivorsAreSuffix(pair: Pair, begun: State, due: seq<nat>)
    ensures var kept := Survivors(pair, begun, due);
      && |kept| <= |due| && kept == due[|due| - |kept|..]
      && (|kept| < |due| ==> pair(begun, due[|due| - |kept| - 1]).Err?)
  {
    if due != [] {
      var n := |due| - 1;
      var rest := Survivors(pair, begun, due[..n]);
      SurvivorsAreSuffix(pair, begun, due[..n]);
      if pair(begun, due[n]).Ok? {
        var cut := n - |rest|;
        assert rest == due[..n][cut..] == due[cut..n];
        assert due[cut..] == due[cut..n] + [due[n]];
      }
    }
  }

  lemma {:induction false} SurvivorsSucceed(pair: Pair, begun: State, due: seq<nat>)
    ensures forall k :: k in Survivors(pair, begun, due) ==> pair(begun, k).Ok?
  {
    if due != [] {
      SurvivorsSucceed(pair, begun, due[..|due| - 1]);
    }
  }

  lemma {:induction false} SurvivorsAreDue(pair: Pair, begun: State, due: seq<nat>)
    requires Distinct(due)
    ensures var kept := Survivors(pair, begun, due);
      && Distinct(kept)
      && (forall k :: k in kept ==> k in due && pair(begun, k).Ok?)
  {
    SurvivorsAreSuffix(pair, begun, due);
    SurvivorsSucceed(pair, begun, due);
  }

  /** A phase commits exactly the effect of processing the due markets after the last failing one. */
  lemma {:induction false} PhaseCommits(pair: Pair, begun: State, due: seq<nat>)
    requires Local(pair) && Distinct(due)
    ensures Process(pair, begun, Survivors(pair, begun, due)) == Ok(Phase(pair, begun, begun, due))
  {
    if due != [] {
      var n := |due| - 1;
      var front, k := due[..n], due[n];
      assert due == front + [k] && k !in front;
      PhaseCommits(pair, begun, front);
      PhaseSnoc(pair, begun, begun, front, k);
      SurvivorsAreDue(pair, begun, front);
      var kept := Survivors(pair, begun, front);
      ProcessIsLocal(pair, begun, kept);
      LocalAt(pair, begun, Phase(pair, begun, begun, front), k);
      assert (kept + [k])[..|kept|] == kept;
    }
  }

  // ------------------------------------------------------------------ the two phases

  lemma {:induction false} DecisionAppended(decisions: seq<Decision>, dec: Decision)
    ensures forall j: nat :: HasDecision(decisions + [dec], j) <==> HasDecision(decisions, j) || dec.market == j
  {
    forall j: nat ensures HasDecision(decisions + [dec], j) <==> HasDecision(decisions, j) || dec.market == j {
      assert (decisions + [dec])[|decisions|] == dec;
      if HasDecision(decisions, j) {
        var d :| 0 <= d < |decisions| && decisions[d].market == j;
        assert (decisions + [dec])[d].market == j;
      }
    }
  }

  /** What a decision does, and what its success depends on. */
  lemma {:induction false} DecideIsLocal(cfg: Config, s: State, t: State, k: nat, quote: Option<int>)
    requires SameView(s, t, k)
    ensures SameAnswer(BuildDecision(cfg, s, k, quote), BuildDecision(cfg, t, k, quote), k)
    ensures BuildDecision(cfg, s, k, quote).Ok? ==> OnlyTouches(s, BuildDecision(cfg, s, k, quote).value, k)
    ensures BuildDecision(cfg, s, k, quote).Ok? ==>
      && k < |s.markets|
      && BuildDecision(cfg, s, k, quote).value.markets[k] == s.markets[k].(status := Decided)
      && HasDecision(BuildDecision(cfg, s, k, quote).value.decisions, k)
  {
    if BuildDecision(cfg, s, k, quote).Ok? {
      var u := BuildDecision(cfg, s, k, quote).value;
      DecisionAppended(s.decisions, u.decisions[|s.decisions|]);
    }
  }

  lemma {:induction false} ClosePairIsLocal(cfg: Config, feeds: nat -> Feed)
    ensures Local(ClosePair(cfg, feeds))
  {
    var pair := ClosePair(cfg, feeds);
    forall s: State, t: State, k: nat | SameView(s, t, k)
      ensures SameAnswer(pair(s, k), pair(t, k), k)
      ensures pair(s, k).Ok? ==> OnlyTouches(s, pair(s, k).value, k)
    {
      var a, b := CloseMarket(s, k, feeds(k).closing), CloseMarket(t, k, feeds(k).closing);
      if a.Ok? {
        assert SameView(a.value, b.value, k);
        DecideIsLocal(cfg, a.value, b.value, k, feeds(k).deciding);
        if pair(s, k).Ok? {
          forall j: nat | j != k ensures SameView(s, pair(s, k).value, j) {
            assert SameView(s, a.value, j) && SameView(a.value, pair(s, k).value, j);
          }
        }
      }
    }
    forall s: State, k: nat | pair(s, k).Ok? ensures OnlyTouches(s, pair(s, k).value, k) {
      assert SameView(s, s, k);
    }
  }

  /** Settling writes the same rows whatever the ledger says. */
  lemma {:induction false} SettleIsLocal(cfg: Config, s: State, t: State, k: nat)
    requires SameView(s, t, k)
    ensures SameAnswer(SettleMarket(cfg, s, k), SettleMarket(cfg, t, k), k)
    ensures SettleMarket(cfg, s, k).Ok? ==> OnlyTouches(s, SettleMarket(cfg, s, k).value, k)
  {
  }

  lemma {:induction false} ResolvePairIsLocal(cfg: Config, feeds: nat -> Feed)
    ensures Local(ResolvePair(cfg, feeds))
  {
    var pair := ResolvePair(cfg, feeds);
    forall s: State, t: State, k: nat | SameView(s, t, k)
      ensures SameAnswer(pair(s, k), pair(t, k), k)
      ensures pair(s, k).Ok? ==> OnlyTouches(s, pair(s, k).value, k)
    {
      var a, b := ResolveMarket(s, k, feeds(k).resolving), ResolveMarket(t, k, feeds(k).resolving);
      if a.Ok? {
        assert SameView(a.value, b.value, k);
        SettleIsLocal(cfg, a.value, b.value, k);
        if pair(s, k).Ok? {
          forall j: nat | j != k ensures SameView(s, pair(s, k).value, j) {
            assert SameView(s, a.value, j) && SameView(a.value, pair(s, k).value, j);
          }
        }
      }
    }
    forall s: State, k: nat | pair(s, k).Ok? ensures OnlyTouches(s, pair(s, k).value, k) {
      assert SameView(s, s, k);
    }
  }

  lemma {:induction false} DueMeaning(markets: seq<Market>, now: int)
    ensures Distinct(DueToClose(markets, now)) && Distinct(DueToResolve(markets, now))
    ensures forall k: nat :: k in DueToClose(markets, now) <==> k < |markets| && ClosingDue(markets[k], now)
    ensures forall k: nat :: k in DueToResolve(markets, now) <==> k < |markets| && ResolvingDue(markets[k], now)
  {
    if markets != [] {
      var n := |markets| - 1;
      assert markets == markets[..n] + [markets[n]];
      DueMeaning(markets[..n], now);
      assert n !in DueToClose(markets[..n], now) && n !in DueToResolve(markets[..n], now);
    }
  }

  /**
   * What is due, with the statuses and times spelled out: to be closed, the OPEN markets whose closing time has come; to
   * be resolved, the CLOSED, DECIDED and EXECUTED ones whose resolution time has come; each once, in the order of their ids.
   */
  lemma {:induction false} DueIs(markets: seq<Market>, now: int)
    ensures forall k: nat :: k in DueToClose(markets, now) <==>
      k < |markets| && markets[k].status == Open && markets[k].closesAt <= now
    ensures forall k: nat :: k in DueToResolve(markets, now) <==>
      && k < |markets| && markets[k].resolveAt <= now
      && (markets[k].status == MarketStatus.Closed || markets[k].status == Decided || markets[k].status == MarketStatus.Executed)
    ensures Increasing(DueToClose(markets, now)) && Increasing(DueToResolve(markets, now))
  {
    DueMeaning(markets, now);
    DueInOrder(markets, now);
  }

  ghost predicate Increasing(ks: seq<nat>) { forall i, j :: 0 <= i < j < |ks| ==> ks[i] < ks[j] }

  lemma {:induction false} DueInOrder(markets: seq<Market>, now: int)
    ensures Increasing(DueToClose(markets, now)) && Increasing(DueToResolve(markets, now))
  {
    if markets != [] {
      var n := |markets| - 1;
      DueInOrder(markets[..n], now);
      DueMeaning(markets[..n], now);
      forall i | 0 <= i < |DueToClose(markets[..n], now)| ensures DueToClose(markets[..n], now)[i] < n {
        assert DueToClose(markets[..n], now)[i] in DueToClose(markets[..n], now);
      }
      forall i | 0 <= i < |DueToResolve(markets[..n], now)| ensures DueToResolve(markets[..n], now)[i] < n {
        assert DueToResolve(markets[..n], now)[i] in DueToResolve(markets[..n], now);
      }
    }
  }

  // ------------------------------------------------------------------ a tick

  /** The state after the first session, and the markets each session commits. */
  function AfterClosing(cfg: Config, s: State, now: int, feeds: nat -> Feed): State {
    Phase(ClosePair(cfg, feeds), s, s, DueToClose(s.markets, now))
  }

  function Closed(cfg: Config, s: State, now: int, feeds: nat -> Feed): seq<nat> {
    Survivors(ClosePair(cfg, feeds), s, DueToClose(s.markets, now))
  }

  function Settling(cfg: Config, s: State, now: int, feeds: nat -> Feed): seq<nat> {
    var t := AfterClosing(cfg, s, now, feeds);
    Survivors(ResolvePair(cfg, feeds), t, DueToResolve(t.markets, now))
  }

  lemma {:induction false} ClosePairEffect(cfg: Config, feeds: nat -> Feed, s: State, k: nat)
    requires ClosePair(cfg, feeds)(s, k).Ok?
    ensures var t := ClosePair(cfg, feeds)(s, k).value;
      && k < |s.markets| && |t.markets| == |s.markets| && HasDecision(t.decisions, k)
      && t.markets[k] == s.markets[k].(reference := feeds(k).closing, status := Decided)
  {
    var a := CloseMarket(s, k, feeds(k).closing).value;
    assert SameView(a, a, k);
    DecideIsLocal(cfg, a, a, k, feeds(k).deciding);
    assert SameView(a, ClosePair(cfg, feeds)(s, k).value, k + 1);
  }

  lemma {:induction false} ResolvePairEffect(cfg: Config, feeds: nat -> Feed, s: State, k: nat)
    requires ResolvePair(cfg, feeds)(s, k).Ok?
    ensures var t := ResolvePair(cfg, feeds)(s, k).value;
      && k < |s.markets| && |t.markets| == |s.markets|
      && t.markets[k].status == Settled && t.markets[k].resolution == feeds(k).resolving && t.markets[k].winner.Some?
  {
    var a := ResolveMarket(s, k, feeds(k).resolving).value;
    assert a.markets[k].resolution == feeds(k).resolving;
    SettleEffect(cfg, a, k);
  }

  lemma {:induction false} SettleEffect(cfg: Config, s: State, k: nat)
    requires SettleMarket(cfg, s, k).Ok?
    ensures var t := SettleMarket(cfg, s, k).value;
      && k < |s.markets| == |t.markets|
      && t.markets[k].status == Settled && t.markets[k].resolution == s.markets[k].resolution
      && t.markets[k].winner == s.markets[k].winner && t.markets[k].winner.Some?
  {
  }

  /**
   * Whatever fails in a tick: no order is placed; every market is untouched, or was closed and decided, or was
   * resolved and settled (possibly after being closed and decided in the same tick); none is left half-advanced; and
   * the advanced markets are exactly the due ones after the last failing one of their phase.
   */
  lemma {:induction false} TickAdvancesWholly(cfg: Config, s: State, now: int, feeds: nat -> Feed)
    ensures var middle, t := AfterClosing(cfg, s, now, feeds), Tick(cfg, s, now, feeds);
      && t.orders == s.orders && |t.markets| == |middle.markets| == |s.markets|
      && (forall k: nat :: k < |s.markets| ==>
            middle.markets[k] == if k in Closed(cfg, s, now, feeds)
                                 then s.markets[k].(reference := feeds(k).closing, status := Decided)
                                 else s.markets[k])
      && (forall k: nat :: k in Closed(cfg, s, now, feeds) ==> HasDecision(middle.decisions, k))
      && (forall k: nat :: k < |s.markets| ==>
            if k in Settling(cfg, s, now, feeds)
            then t.markets[k].status == Settled && t.markets[k].resolution == feeds(k).resolving
            else t.markets[k] == middle.markets[k])
  {
    var closing, resolving := ClosePair(cfg, feeds), ResolvePair(cfg, feeds);
    var middle, t := AfterClosing(cfg, s, now, feeds), Tick(cfg, s, now, feeds);
    ClosePairIsLocal(cfg, feeds);
    DueMeaning(s.markets, now);
    PhaseOutcome(closing, s, DueToClose(s.markets, now));
    ResolvePairIsLocal(cfg, feeds);
    DueMeaning(middle.markets, now);
    PhaseOutcome(resolving, middle, DueToResolve(middle.markets, now));
    forall k: nat | k < |s.markets|
      ensures middle.markets[k] == if k in Closed(cfg, s, now, feeds)
                                   then s.markets[k].(reference := feeds(k).closing, status := Decided)
                                   else s.markets[k]
    {
      if k in Closed(cfg, s, now, feeds) {
        ClosePairEffect(cfg, feeds, s, k);
      } else {
        assert SameView(s, middle, k);
      }
    }
    forall k: nat | k in Closed(cfg, s, now, feeds) ensures HasDecision(middle.decisions, k) {
      ClosedHasDecision(cfg, s, feeds, Closed(cfg, s, now, feeds), k);
    }
    forall k: nat | k < |s.markets|
      ensures if k in Settling(cfg, s, now, feeds)
              then t.markets[k].status == Settled && t.markets[k].resolution == feeds(k).resolving
              else t.markets[k] == middle.markets[k]
    {
      if k in Settling(cfg, s, now, feeds) {
        ResolvePairEffect(cfg, feeds, middle, k);
      } else {
        assert SameView(middle, t, k);
      }
    }
  }

  /** One phase in terms of its survivors. */
  lemma {:induction false} PhaseOutcome(pair: Pair, begun: State, due: seq<nat>)
    requires Local(pair) && Distinct(due)
    ensures var t, kept := Phase(pair, begun, begun, due), Survivors(pair, begun, due);
      && Process(pair, begun, kept) == Ok(t)
      && t.orders == begun.orders && |t.markets| == |begun.markets|
      && (forall k :: k in kept ==> pair(begun, k).Ok?)
      && (forall j: nat :: j !in kept ==> SameView(begun, t, j))
      && (forall k :: k in kept ==>
            k < |t.markets| && k < |pair(begun, k).value.markets| && t.markets[k] == pair(begun, k).value.markets[k])
  {
    PhaseCommits(pair, begun, due);
    SurvivorsAreDue(pair, begun, due);
    ProcessIsLocal(pair, begun, Survivors(pair, begun, due));
  }

  lemma {:induction false} ClosedHasDecision(cfg: Config, s: State, feeds: nat -> Feed, ks: seq<nat>, k: nat)
    requires Process(ClosePair(cfg, feeds), s, ks).Ok? && k in ks
    ensures HasDecision(Process(ClosePair(cfg, feeds), s, ks).value.decisions, k)
  {
    var n := |ks| - 1;
    assert ks == ks[..n] + [ks[n]];
    var middle := Process(ClosePair(cfg, feeds), s, ks[..n]).value;
    ClosePairEffect(cfg, feeds, middle, ks[n]);
    if k != ks[n] {
      ClosedHasDecision(cfg, s, feeds, ks[..n], k);
      ClosePairIsLocal(cfg, feeds);
      assert SameView(middle, middle, ks[n]);
      LocalAt(ClosePair(cfg, feeds), middle, middle, ks[n]);
      assert SameView(middle, ClosePair(cfg, feeds)(middle, ks[n]).value, k);
    }
  }

  /**
   * Whatever the feeds say, a tick leaves alone every market whose time has not come: an OPEN one before its closing time,
   * a CLOSED, DECIDED or EXECUTED one before its resolution time, and every RESOLVED, SETTLED or CANCELLED one. A market
   * closed in this tick goes on to be settled only if its resolution time has come as well.
   */
  lemma {:induction false} TickLeavesUndueAlone(cfg: Config, s: State, now: int, feeds: nat -> Feed, k: nat)
    requires k < |s.markets|
    ensures var mk, t := s.markets[k], Tick(cfg, s, now, feeds);
      && k < |t.markets|
      && (mk.status == Open && now < mk.closesAt ==> t.markets[k] == mk)
      && (mk.status == Open && now < mk.resolveAt ==> t.markets[k].status in {Open, Decided})
      && (mk.status in {MarketStatus.Closed, Decided, MarketStatus.Executed} && now < mk.resolveAt ==> t.markets[k] == mk)
      && (mk.status in {Resolved, Settled, Cancelled} ==> t.markets[k] == mk)
  {
    var middle := AfterClosing(cfg, s, now, feeds);
    TickAdvancesWholly(cfg, s, now, feeds);
    DueIs(s.markets, now);
    DueIs(middle.markets, now);
    DueMeaning(s.markets, now);
    DueMeaning(middle.markets, now);
    SurvivorsAreDue(ClosePair(cfg, feeds), s, DueToClose(s.markets, now));
    SurvivorsAreDue(ResolvePair(cfg, feeds), middle, DueToResolve(middle.markets, now));
  }

  // ------------------------------------------------------------------ when nothing fails

  /** Closing and deciding a due market fails exactly when the feeds do or no plan can be made. */
  lemma {:induction false} ClosePairSucceedsIff(cfg: Config, feeds: nat -> Feed, s: State, k: nat, now: int)
    requires Consistent(s) && k < |s.markets| && ClosingDue(s.markets[k], now)
    ensures ClosePair(cfg, feeds)(s, k).Ok? <==>
      && !feeds(k).faultClosing && feeds(k).closing.Some?
      && MakePlan(cfg, s, s.markets[k], Consensus.Compute(Rows(s.markets[k].bets)), feeds(k).deciding).Ok?
  {
    assert !HasDecision(s.decisions, k);
    if feeds(k).closing.Some? {
      var closed := CloseMarket(s, k, feeds(k).closing).value;
      assert closed.markets[k].bets == s.markets[k].bets;
      SamePlan(cfg, s, closed, s.markets[k], closed.markets[k], feeds(k).deciding);
    }
  }

  lemma {:induction false} SamePlan(cfg: Config, s: State, t: State, a: Market, b: Market, quote: Option<int>)
    requires s.members == t.members && s.positions == t.positions
    requires a.bets == b.bets && a.fund == b.fund && a.ticker == b.ticker && a.notional == b.notional
    ensures MakePlan(cfg, s, a, Consensus.Compute(Rows(a.bets)), quote)
         == MakePlan(cfg, t, b, Consensus.Compute(Rows(b.bets)), quote)
  {
  }

  /** Resolving and settling a due market fails exactly when the feed does or there is no positive reference price. */
  lemma {:induction false} ResolvePairSucceedsIff(cfg: Config, feeds: nat -> Feed, s: State, k: nat, now: int)
    requires k < |s.markets| && ResolvingDue(s.markets[k], now)
    ensures ResolvePair(cfg, feeds)(s, k).Ok? <==>
      && !feeds(k).faultResolving && feeds(k).resolving.Some? && ValidRake(cfg.rakeBps)
      && s.markets[k].reference.Some? && s.markets[k].reference.value > 0
  {
    var r := ResolveMarket(s, k, feeds(k).resolving);
    if r.Ok? {
      assert r.value.markets[k].status == Resolved && r.value.markets[k].winner.Some?;
      assert SettleMarket(cfg, r.value, k).Ok? <==> ValidRake(cfg.rakeBps);
    }
  }

  lemma {:induction false} AllSurvive(pair: Pair, begun: State, due: seq<nat>)
    requires forall k :: k in due ==> pair(begun, k).Ok?
    ensures Survivors(pair, begun, due) == due
  {
    if due != [] {
      var n := |due| - 1;
      assert due == due[..n] + [due[n]];
      AllSurvive(pair, begun, due[..n]);
    }
  }

  predicate ClosesWell(f: Feed) { !f.faultClosing && f.closing.Some? && f.deciding.Some? && f.deciding.value > 0 }

  predicate ResolvesWell(f: Feed) { !f.faultResolving && f.resolving.Some? }

  /** Due to be resolved in this tick, possibly after being closed in it. */
  predicate EndsNow(mk: Market, now: int) { mk.resolveAt <= now && (ClosingDue(mk, now) || ResolvingDue(mk, now)) }

  /** The price a resolution in this tick compares with. */
  function ReferenceThen(mk: Market, now: int, f: Feed): Option<int> { if ClosingDue(mk, now) then f.closing else mk.reference }

  /** When nothing fails, every market due to close ends decided or further, every market due to resolve ends settled. */
  lemma {:induction false} HealthyTickAdvancesAll(cfg: Config, s: State, now: int, feeds: nat -> Feed)
    requires Consistent(s) && ValidRake(cfg.rakeBps)
    requires forall k: nat :: k < |s.markets| && ClosingDue(s.markets[k], now) ==> ClosesWell(feeds(k))
    requires forall k: nat :: k < |s.markets| && EndsNow(s.markets[k], now) ==>
      && ResolvesWell(feeds(k))
      && ReferenceThen(s.markets[k], now, feeds(k)).Some? && ReferenceThen(s.markets[k], now, feeds(k)).value > 0
    ensures var t := Tick(cfg, s, now, feeds);
      && |t.markets| == |s.markets|
      && (forall k: nat :: k < |s.markets| && ClosingDue(s.markets[k], now) ==>
            t.markets[k].status == if s.markets[k].resolveAt <= now then Settled else Decided)
      && (forall k: nat :: k < |s.markets| && ResolvingDue(s.markets[k], now) ==> t.markets[k].status == Settled)
      && (forall k: nat :: k < |s.markets| && !ClosingDue(s.markets[k], now) && !ResolvingDue(s.markets[k], now) ==>
            t.markets[k] == s.markets[k])
  {
    var middle := AfterClosing(cfg, s, now, feeds);
    DueMeaning(s.markets, now);
    DueMeaning(middle.markets, now);
    TickAdvancesWholly(cfg, s, now, feeds);
    forall k | k in DueToClose(s.markets, now) ensures ClosePair(cfg, feeds)(s, k).Ok? {
      assert ClosesWell(feeds(k));
      ClosePairSucceedsIff(cfg, feeds, s, k, now);
    }
    AllSurvive(ClosePair(cfg, feeds), s, DueToClose(s.markets, now));
    forall k | k in DueToResolve(middle.markets, now) ensures ResolvePair(cfg, feeds)(middle, k).Ok? {
      assert EndsNow(s.markets[k], now) && ResolvesWell(feeds(k));
      ResolvePairSucceedsIff(cfg, feeds, middle, k, now);
    }
    AllSurvive(ResolvePair(cfg, feeds), middle, DueToResolve(middle.markets, now));
  }

  // ------------------------------------------------------------------ no isolation between markets

  /** A due market is committed exactly when neither it nor any market after it in its session fails. */
  lemma {:induction false} CommittedIff(pair: Pair, begun: State, due: seq<nat>, i: nat)
    requires Distinct(due) && i < |due|
    ensures due[i] in Survivors(pair, begun, due) <==> forall j :: i <= j < |due| ==> pair(begun, due[j]).Ok?
  {
    SurvivorsAreSuffix(pair, begun, due);
    SurvivorsSucceed(pair, begun, due);
    var kept := Survivors(pair, begun, due);
    var cut := |due| - |kept|;
    forall j | cut <= j < |due| ensures due[j] in kept {
      assert kept[j - cut] == due[j];
    }
    if i < cut {
      forall j | 0 <= j < |kept| ensures kept[j] != due[i] {
        assert kept[j] == due[cut + j];
      }
    }
  }

  function Opening(): Step { NewMarket(true, 0, "005930", 10, 20, 1000, None, None) }

  /** Quotes for everybody, and an exception while the second market is closed. */
  function SecondFails(): nat -> Feed { (k: nat) => Feed(Some(100), Some(100), Some(100), k == 1, false) }

  function Opened(cfg: Config): Market {
    Market(0, "005930", 10, 20, cfg.defaultBuyPct, cfg.defaultSellPct, 1000, Open, None, None, None, [])
  }

  lemma {:induction false} TwoOpened(cfg: Config)
    ensures Consistent(Run(cfg, EMPTY, [Opening(), Opening()]))
    ensures Run(cfg, EMPTY, [Opening(), Opening()]).markets == [Opened(cfg), Opened(cfg)]
  {
    RunTwo(cfg, EMPTY, Opening(), Opening());
    assert Consistent(EMPTY);
    RunConsistent(cfg, EMPTY, [Opening(), Opening()]);
  }

  lemma {:induction false} FirstWouldClose(cfg: Config, s: State)
    requires Consistent(s) && s.markets == [Opened(cfg), Opened(cfg)]
    ensures ClosePair(cfg, SecondFails())(s, 0).Ok?
  {
    hide MakePlan, ClosePair, Consensus.Compute, Consistent;
    ClosePairSucceedsIff(cfg, SecondFails(), s, 0, 10);
    PlanWithQuote(cfg, s, s.markets[0], Consensus.Compute(Rows(s.markets[0].bets)), 100);
  }

  lemma {:induction false} PlanWithQuote(cfg: Config, s: State, mk: Market, c: Consensus.Consensus, price: int)
    requires price != 0
    ensures MakePlan(cfg, s, mk, c, Some(price)).Ok?
  {
  }

  /** A failure in the last place of the due list leaves nothing of the session. */
  lemma {:induction false} LastFailureUndoesAll(pair: Pair, begun: State, due: seq<nat>)
    requires due != [] && pair(begun, due[|due| - 1]).Err? && Local(pair) && Distinct(due)
    ensures Phase(pair, begun, begun, due) == begun
  {
    PhaseCommits(pair, begun, due);
  }

  /** Two markets are due; the first could be closed and decided, the second fails, and the tick changes nothing at all. */
  lemma {:induction false} HealthyMarketIsUndone(cfg: Config)
    ensures var s := Run(cfg, EMPTY, [Opening(), Opening()]);
      && DueToClose(s.markets, 10) == [0, 1]
      && ClosePair(cfg, SecondFails())(s, 0).Ok?
      && Tick(cfg, s, 10, SecondFails()) == s
  {
    var s := Run(cfg, EMPTY, [Opening(), Opening()]);
    TwoOpened(cfg);
    TwoDue(Opened(cfg), 10);
    FirstWouldClose(cfg, s);
    ClosePairIsLocal(cfg, SecondFails());
    LastFailureUndoesAll(ClosePair(cfg, SecondFails()), s, [0, 1]);
  }

  lemma {:induction false} TwoDue(mk: Market, now: int)
    requires ClosingDue(mk, now)
    ensures DueToClose([mk, mk], now) == [0, 1] && DueToResolve([mk, mk], now) == []
  {
    assert [mk, mk][..1] == [mk] && [mk][..0] == [];
    assert DueToClose([mk], now) == [0] && DueToResolve([mk], now) == [];
  }

  /** Under any failure pattern a tick keeps the books balanced. */
  lemma {:induction false} TickConserves(cfg: Config, s: State, now: int, feeds: nat -> Feed)
    requires Sound(cfg, s) && Reliable(cfg, Granted(s.ledger))
    ensures Sound(cfg, Tick(cfg, s, now, feeds)) && Conserved(cfg, Tick(cfg, s, now, feeds))
  {
    var steps := TickIsRun(cfg, s, now, feeds);
    AutomaticGrantsNothing(cfg, s, steps);
    AutomaticRunSound(cfg, s, steps);
    SoundIsConserved(cfg, Tick(cfg, s, now, feeds));
  }

  lemma {:induction false} AutomaticGrantsNothing(cfg: Config, s: State, steps: seq<Step>)
    requires Consistent(s) && forall step :: step in steps ==> Automatic(step)
    ensures Granted(Run(cfg, s, steps).ledger) == Granted(s.ledger)
    decreases |steps|
  {
    if steps != [] {
      assert steps[0] in steps;
      StepConsistent(cfg, s, steps[0]);
      AutomaticGrant(cfg, s, steps[0]);
      AutomaticGrantsNothing(cfg, Apply(cfg, s, steps[0]), steps[1..]);
    }
  }

  lemma {:induction false} AutomaticGrant(cfg: Config, s: State, step: Step)
    requires Consistent(s) && Automatic(step)
    ensures Granted(Apply(cfg, s, step).ledger) == Granted(s.ledger)
  {
    match step {
      case SettleUp(k) =>
        if SettleMarket(cfg, s, k).Ok? {
          var mk := s.markets[k];
          assert MarketWell(mk, |s.members|);
          PayoutKeys(cfg.rnd, mk.bets, mk.winner.value, cfg.rakeBps, |s.members|);
          CreditsElsewhere(s.ledger, k, Payout, Paid(cfg, mk));
        }
      case Close(_, _) =>
      case Decide(k, q) =>
        if BuildDecision(cfg, s, k, q).Ok? { DecideEffect(cfg, s, k, q); }
      case Resolve(_, _) =>
    }
  }
}
