/** What holds in every reachable state, whatever is approved when: the unguarded invariants. */
module Invariants {
  import opened Sums
  import opened Domain
  import opened Tally
  import opened Tables
  import opened Parimutuel
  import opened Steps
  import opened LedgerLaws
  import SettlementLaws
  import Verdict

  ghost predicate EntryWell(e: Entry, members: nat, markets: nat) {
    && e.member < members
    && (e.kind == Grant <==> e.market == None)
    && (e.market.Some? ==> e.market.value < markets)
    && (e.kind != BetLock ==> e.amount >= 0)
  }

  ghost predicate LedgerWell(ledger: seq<Entry>, members: nat, markets: nat) {
    forall e :: e in ledger ==> EntryWell(e, members, markets)
  }

  ghost predicate BetsWell(bets: seq<Bet>, members: nat) {
    && PositiveStakes(bets)
    && (forall b :: b in bets ==> b.member < members)
    && (forall i, j :: 0 <= i < j < |bets| ==> bets[i].member != bets[j].member || bets[i].outcome != bets[j].outcome)
  }

  ghost predicate MarketWell(mk: Market, members: nat) {
    && BetsWell(mk.bets, members)
    && mk.notional > 0
    && (mk.status == Open ==> mk.reference == None)
    && (mk.status != Open && mk.status != Cancelled ==> mk.reference.Some?)
    && (mk.status == Resolved || mk.status == Settled ==> mk.winner.Some?)
    && VerdictStands(mk)
  }

  /** A winner is always the verdict on the recorded prices under the market's own thresholds. */
  ghost predicate VerdictStands(mk: Market) {
    mk.winner.Some? ==>
      && mk.reference.Some? && mk.resolution.Some?
      && Verdict.Resolve(mk.reference.value, mk.resolution.value, mk.buyPct, mk.sellPct).Ok?
      && mk.winner.value == Verdict.Resolve(mk.reference.value, mk.resolution.value, mk.buyPct, mk.sellPct).value.0
  }

  ghost predicate MarketsWell(markets: seq<Market>, members: nat) {
    forall k :: 0 <= k < |markets| ==> MarketWell(markets[k], members)
  }

  ghost predicate NonNegative(ledger: seq<Entry>) {
    forall m: nat :: Balance(ledger, m) >= 0
  }

  predicate CreditKind(kind: EntryKind) { kind == Payout || kind == CancelRefund }

  /** At most one PAYOUT and one CANCEL_REFUND per member and market. */
  ghost predicate CreditedOnce(ledger: seq<Entry>) {
    forall i, j :: 0 <= i < j < |ledger| && CreditKind(ledger[i].kind) && ledger[i].kind == ledger[j].kind ==>
      ledger[i].member != ledger[j].member || ledger[i].market != ledger[j].market
  }

  /** At most one decision per market, and only for markets that have left OPEN. */
  ghost predicate DecisionsWell(decisions: seq<Decision>, markets: seq<Market>) {
    && (forall d :: 0 <= d < |decisions| ==>
          && decisions[d].market < |markets|
          && markets[decisions[d].market].status != Open && markets[decisions[d].market].reference.Some?)
    && (forall i, j :: 0 <= i < j < |decisions| ==> decisions[i].market != decisions[j].market)
  }

  ghost predicate Consistent(s: State) {
    && LedgerWell(s.ledger, |s.members|, |s.markets|)
    && MarketsWell(s.markets, |s.members|)
    && NonNegative(s.ledger)
    && CreditedOnce(s.ledger)
    && DecisionsWell(s.decisions, s.markets)
  }

  /** Stakes are frozen once a market has left OPEN, the reference price once it is set. */
  ghost predicate MarketEvolves(a: Market, b: Market) {
    && a.fund == b.fund && a.ticker == b.ticker && a.closesAt == b.closesAt && a.resolveAt == b.resolveAt
    && a.buyPct == b.buyPct && a.sellPct == b.sellPct && a.notional == b.notional
    && (a.status != Open ==> b.status != Open && Rows(b.bets) == Rows(a.bets))
    && (a.reference.Some? ==> b.reference == a.reference)
  }

  /** The ledger only grows; no market, decision or order disappears. */
  ghost predicate Evolves(s: State, t: State) {
    && s.ledger <= t.ledger
    && s.orders <= t.orders
    && |s.members| <= |t.members|
    && |s.markets| <= |t.markets|
    && |s.decisions| <= |t.decisions|
    && (forall k :: 0 <= k < |s.markets| ==> MarketEvolves(s.markets[k], t.markets[k]))
    && (forall d :: 0 <= d < |s.decisions| ==> s.decisions[d].market == t.decisions[d].market)
  }

  lemma {:induction false} EvolvesTransitive(s: State, t: State, u: State)
    requires Evolves(s, t) && Evolves(t, u)
    ensures Evolves(s, u)
  {
    forall k | 0 <= k < |s.markets| ensures MarketEvolves(s.markets[k], u.markets[k]) {
      assert MarketEvolves(s.markets[k], t.markets[k]) && MarketEvolves(t.markets[k], u.markets[k]);
    }
  }

  // ------------------------------------------------------------------ pieces

  lemma {:induction false} LedgerGrows(ledger: seq<Entry>, es: seq<Entry>, members: nat, markets: nat)
    requires LedgerWell(ledger, members, markets)
    requires forall e :: e in es ==> EntryWell(e, members, markets)
    requires forall m: nat :: Balance(ledger, m) + Balance(es, m) >= 0
    ensures LedgerWell(ledger + es, members, markets)
    ensures NonNegative(ledger + es)
  {
    forall m: nat ensures Balance(ledger + es, m) >= 0 {
      assert Balance(ledger, m) + Balance(es, m) >= 0;
      SumAppend(OfMember(m), ledger, es);
    }
  }

  lemma {:induction false} CreditsBalance(es: seq<Entry>)
    requires forall e :: e in es ==> e.amount >= 0
    ensures forall m: nat :: Balance(es, m) >= 0
  {
    forall m: nat ensures Balance(es, m) >= 0 {
      SumNonNegative(OfMember(m), es);
    }
  }

  lemma {:induction false} OnceWithoutCredits(ledger: seq<Entry>, es: seq<Entry>)
    requires CreditedOnce(ledger) && forall e :: e in es ==> !CreditKind(e.kind)
    ensures CreditedOnce(ledger + es)
  {
    var l := ledger + es;
    forall j | |ledger| <= j < |l| ensures !CreditKind(l[j].kind) {
      assert es[j - |ledger|] in es;
    }
  }

  lemma {:induction false} OnceWithCredits(ledger: seq<Entry>, k: nat, kind: EntryKind, credits: seq<Credit>)
    requires CreditedOnce(ledger) && DistinctMembers(credits)
    ensures CreditedOnce(ledger + NewEntries(ledger, k, kind, credits))
  {
    var es := NewEntries(ledger, k, kind, credits);
    var l := ledger + es;
    NewEntriesShape(ledger, k, kind, credits);
    forall i, j | 0 <= i < j < |l| && CreditKind(l[i].kind) && l[i].kind == l[j].kind
      ensures l[i].member != l[j].member || l[i].market != l[j].market
    {
      if j >= |ledger| {
        assert l[j] == es[j - |ledger|] && l[j] in es;
        if i < |ledger| {
          assert !HasEntry(ledger, l[j].member, k, kind);
          assert !Matches(ledger[i], l[j].member, k, kind);
        } else {
          assert l[i] == es[i - |ledger|] && l[i] in es;
        }
      }
    }
  }

  /** Appending the credits of a settlement or a cancellation to a consistent ledger. */
  lemma {:induction false} CreditsKeepLedger(ledger: seq<Entry>, k: nat, kind: EntryKind, credits: seq<Credit>,
                                             members: nat, markets: nat)
    requires LedgerWell(ledger, members, markets) && NonNegative(ledger) && CreditedOnce(ledger)
    requires CreditKind(kind) && k < markets && DistinctMembers(credits)
    requires forall c :: c in credits ==> c.member < members && (kind == CancelRefund ==> c.amount >= 0)
    ensures var l := ledger + NewEntries(ledger, k, kind, credits);
      LedgerWell(l, members, markets) && NonNegative(l) && CreditedOnce(l)
  {
    var es := NewEntries(ledger, k, kind, credits);
    NewEntriesShape(ledger, k, kind, credits);
    forall e | e in es ensures EntryWell(e, members, markets) {
      var i :| 0 <= i < |credits| && credits[i] == Credit(e.member, e.amount);
      assert credits[i] in credits;
    }
    CreditsBalance(es);
    LedgerGrows(ledger, es, members, markets);
    OnceWithCredits(ledger, k, kind, credits);
  }

  lemma {:induction false} MoreRoom(ledger: seq<Entry>, members: nat, markets: nat, members': nat, markets': nat)
    requires LedgerWell(ledger, members, markets) && members <= members' && markets <= markets'
    ensures LedgerWell(ledger, members', markets')
  {
  }

  /** One market changes, nothing else: enough that it stays well formed and evolves. */
  lemma {:induction false} MarketStep(s: State, k: nat, mk: Market)
    requires Consistent(s) && k < |s.markets|
    requires MarketWell(mk, |s.members|) && MarketEvolves(s.markets[k], mk)
    ensures var t := s.(markets := s.markets[k := mk]);
      Consistent(t) && Evolves(s, t)
  {
    var t := s.(markets := s.markets[k := mk]);
    forall d | 0 <= d < |t.decisions|
      ensures t.markets[t.decisions[d].market].status != Open && t.markets[t.decisions[d].market].reference.Some?
    {
      assert s.markets[s.decisions[d].market].status != Open && s.markets[s.decisions[d].market].reference.Some?;
    }
  }

  // ------------------------------------------------------------------ each service call

  lemma {:induction false} CreateMemberConsistent(cfg: Config, s: State)
    requires Consistent(s)
    ensures Consistent(CreateMember(cfg, s)) && Evolves(s, CreateMember(cfg, s))
  {
    var t := CreateMember(cfg, s);
    var es := [Entry(|s.members|, None, Grant, cfg.initialPoints)];
    CreditsBalance(es);
    MoreRoom(s.ledger, |s.members|, |s.markets|, |t.members|, |t.markets|);
    LedgerGrows(s.ledger, es, |t.members|, |t.markets|);
    OnceWithoutCredits(s.ledger, es);
  }

  lemma {:induction false} CreateMarketConsistent(s: State, mk: Market)
    requires Consistent(s) && mk.status == Open && mk.bets == [] && mk.reference == None && mk.winner == None && mk.notional > 0
    ensures var t := s.(markets := s.markets + [mk]);
      Consistent(t) && Evolves(s, t)
  {
    MoreRoom(s.ledger, |s.members|, |s.markets|, |s.members|, |s.markets| + 1);
  }

  lemma {:induction false} CleanedMeaning(lots: seq<Lot>)
    requires DistinctOutcomes(lots)
    ensures DistinctOutcomes(Cleaned(lots)) && forall l :: l in Cleaned(lots) ==> l.amount > 0 && l in lots
    ensures Sum(LotAmount(), Cleaned(lots)) >= 0
  {
    FilterMembers(PositiveLot(), lots);
    CleanedDistinct(lots);
    SumNonNegative(LotAmount(), Cleaned(lots));
  }

  lemma {:induction false} CleanedDistinct(lots: seq<Lot>)
    requires DistinctOutcomes(lots)
    ensures DistinctOutcomes(Cleaned(lots))
  {
    if lots != [] {
      var n := |lots| - 1;
      CleanedDistinct(lots[..n]);
      FilterMembers(PositiveLot(), lots[..n]);
      forall l | l in Cleaned(lots[..n]) ensures l.outcome != lots[n].outcome {
        var i :| 0 <= i < n && lots[..n][i] == l;
        assert lots[i].outcome != lots[n].outcome;
      }
    }
  }

  lemma {:induction false} KeptDistinct(bets: seq<Bet>, m: nat, members: nat)
    requires BetsWell(bets, members)
    ensures BetsWell(Filter(NotBy(m), bets), members)
  {
    FilterMembers(NotBy(m), bets);
    if bets != [] {
      var n := |bets| - 1;
      KeptDistinct(bets[..n], m, members);
      FilterMembers(NotBy(m), bets[..n]);
      forall b | b in Filter(NotBy(m), bets[..n]) ensures b.member != bets[n].member || b.outcome != bets[n].outcome {
        var i :| 0 <= i < n && bets[..n][i] == b;
        assert bets[i].member != bets[n].member || bets[i].outcome != bets[n].outcome;
      }
    }
  }

  lemma {:induction false} ReplacedBetsWell(bets: seq<Bet>, m: nat, lots: seq<Lot>, members: nat)
    requires BetsWell(bets, members) && m < members && DistinctOutcomes(lots)
    ensures BetsWell(ReplacedBets(bets, m, Cleaned(lots)), members)
  {
    var kept, placed := Filter(NotBy(m), bets), Map(BetOf(m), Cleaned(lots));
    KeptDistinct(bets, m, members);
    FilterMembers(NotBy(m), bets);
    CleanedMeaning(lots);
    forall b | b in placed ensures b.member == m && b.stake > 0 {
      var i :| 0 <= i < |placed| && placed[i] == b;
      assert Cleaned(lots)[i] in Cleaned(lots);
    }
    var all := kept + placed;
    forall i, j | 0 <= i < j < |all| ensures all[i].member != all[j].member || all[i].outcome != all[j].outcome {
      if i >= |kept| {
        assert all[i] == placed[i - |kept|] && all[j] == placed[j - |kept|];
        assert Cleaned(lots)[i - |kept|].outcome != Cleaned(lots)[j - |kept|].outcome;
      } else if j >= |kept| {
        assert all[i] in kept && all[j] in placed;
      }
    }
  }

  lemma {:induction false} AllocationBalance(k: nat, m: nat, previous: int, total: int, q: nat)
    requires previous >= 0
    ensures Balance(AllocationEntries(k, m, previous, total), q) == if q == m then previous - total else 0
    ensures forall j: nat ::
      Cell(AllocationEntries(k, m, previous, total), q, j) == if q == m && j == k then previous - total else 0
    ensures Sum(Amount(), AllocationEntries(k, m, previous, total)) == previous - total
    ensures Granted(AllocationEntries(k, m, previous, total)) == 0
  {
    var refund := if previous > 0 then [Entry(m, Some(k), BetRefund, previous)] else [];
    var lock := Entry(m, Some(k), BetLock, -total);
    assert previous > 0 ==> refund == [] + [refund[0]];
    EntrySum(OfMember(q), refund, lock);
    EntrySum(Amount(), refund, lock);
    EntrySum(GrantAmount(), refund, lock);
    forall j: nat ensures Cell(refund + [lock], q, j) == if q == m && j == k then previous - total else 0 {
      EntrySum(OfCell(q, j), refund, lock);
    }
  }

  lemma {:induction false} EntrySum(f: Entry -> int, es: seq<Entry>, e: Entry)
    requires |es| <= 1
    ensures Sum(f, es + [e]) == (if es == [] then 0 else f(es[0])) + f(e)
  {
    SumSnoc(f, es, e);
    if es != [] {
      assert es == [] + [es[0]];
      SumSnoc(f, [], es[0]);
    }
  }

  lemma {:induction false} AllocateConsistent(cfg: Config, s: State, k: nat, m: nat, lots: seq<Lot>, now: int)
    requires Consistent(s) && DistinctOutcomes(lots) && PlaceAllocation(cfg, s, k, m, lots, now).Ok?
    ensures Consistent(PlaceAllocation(cfg, s, k, m, lots, now).value)
    ensures Evolves(s, PlaceAllocation(cfg, s, k, m, lots, now).value)
  {
    var t := PlaceAllocation(cfg, s, k, m, lots, now).value;
    var mk := s.markets[k];
    var previous, total := Previous(mk.bets, m), Sum(LotAmount(), Cleaned(lots));
    var es := AllocationEntries(k, m, previous, total);
    assert MarketWell(mk, |s.members|);
    StakesNonNegative(mk.bets, m);
    ReplacedBetsWell(mk.bets, m, lots, |s.members|);
    var next := mk.(bets := ReplacedBets(mk.bets, m, Cleaned(lots)));
    assert MarketWell(next, |s.members|);
    MarketStep(s, k, next);
    forall q: nat ensures Balance(s.ledger, q) + Balance(es, q) >= 0 {
      AllocationBalance(k, m, previous, total, q);
    }
    LedgerGrows(s.ledger, es, |s.members|, |s.markets|);
    OnceWithoutCredits(s.ledger, es);
  }

  lemma {:induction false} CloseConsistent(s: State, k: nat, quote: Option<int>)
    requires Consistent(s) && CloseMarket(s, k, quote).Ok?
    ensures Consistent(CloseMarket(s, k, quote).value) && Evolves(s, CloseMarket(s, k, quote).value)
  {
    assert MarketWell(s.markets[k], |s.members|);
    MarketStep(s, k, s.markets[k].(reference := quote, status := Closed));
  }

  lemma {:induction false} DecideConsistent(cfg: Config, s: State, k: nat, quote: Option<int>)
    requires Consistent(s) && BuildDecision(cfg, s, k, quote).Ok?
    ensures Consistent(BuildDecision(cfg, s, k, quote).value) && Evolves(s, BuildDecision(cfg, s, k, quote).value)
  {
    var t := BuildDecision(cfg, s, k, quote).value;
    var mk := s.markets[k];
    assert MarketWell(mk, |s.members|);
    MarketStep(s, k, mk.(status := Decided));
    var n := |s.decisions|;
    assert t.decisions[..n] == s.decisions && t.decisions[n].market == k;
    forall i | 0 <= i < n ensures t.decisions[i].market != k {
      assert !HasDecision(s.decisions, k);
    }
  }

  lemma {:induction false} RejectConsistent(s: State, d: nat)
    requires Consistent(s) && RejectDecision(s, d).Ok?
    ensures Consistent(RejectDecision(s, d).value) && Evolves(s, RejectDecision(s, d).value)
  {
  }

  /** What an approval does: an accepted order marks its market, decisions keep their markets, nothing else moves. */
  lemma {:induction false} ExecuteEffect(cfg: Config, s: State, d: nat, env: Env)
    ensures var a := ExecuteDecision(cfg, s, d, env);
      && a.db.ledger == s.ledger && a.db.members == s.members && s.orders <= a.db.orders
      && |a.db.decisions| == |s.decisions|
      && (forall e :: 0 <= e < |s.decisions| ==> a.db.decisions[e].market == s.decisions[e].market)
      && (a.error.Some? ==> a.db.markets == s.markets)
      && (a.error.None? ==>
            && d < |s.decisions| && s.decisions[d].market < |s.markets|
            && a.db.markets == s.markets[s.decisions[d].market := s.markets[s.decisions[d].market].(status := MarketStatus.Executed)])
  {
  }

  lemma {:induction false} SameMarketsConsistent(s: State, t: State)
    requires Consistent(s) && t.ledger == s.ledger && t.members == s.members && t.markets == s.markets && s.orders <= t.orders
    requires |t.decisions| == |s.decisions|
    requires forall e :: 0 <= e < |s.decisions| ==> t.decisions[e].market == s.decisions[e].market
    ensures Consistent(t) && Evolves(s, t)
  {
  }

  lemma {:induction false} ExecuteConsistent(cfg: Config, s: State, d: nat, env: Env)
    requires Consistent(s)
    ensures Consistent(ExecuteDecision(cfg, s, d, env).db) && Evolves(s, ExecuteDecision(cfg, s, d, env).db)
  {
    ExecuteEffect(cfg, s, d, env);
    var a := ExecuteDecision(cfg, s, d, env);
    if a.error.None? {
      ExecutedConsistent(s, s.decisions[d].market, a.db);
    } else {
      SameMarketsConsistent(s, a.db);
    }
  }

  lemma {:induction false} ExecutedConsistent(s: State, k: nat, t: State)
    requires Consistent(s) && k < |s.markets| && s.markets[k].reference.Some?
    requires t.ledger == s.ledger && t.members == s.members && s.orders <= t.orders
    requires t.markets == s.markets[k := s.markets[k].(status := MarketStatus.Executed)]
    requires |t.decisions| == |s.decisions|
    requires forall e :: 0 <= e < |s.decisions| ==> t.decisions[e].market == s.decisions[e].market
    ensures Consistent(t) && Evolves(s, t)
  {
    assert MarketWell(s.markets[k], |s.members|);
    MarketStep(s, k, t.markets[k]);
    var middle := s.(markets := t.markets);
    SameMarketsConsistent(middle, t);
    EvolvesTransitive(s, middle, t);
  }

  lemma {:induction false} ResolveConsistent(s: State, k: nat, quote: Option<int>)
    requires Consistent(s) && ResolveMarket(s, k, quote).Ok?
    ensures Consistent(ResolveMarket(s, k, quote).value) && Evolves(s, ResolveMarket(s, k, quote).value)
  {
    var t := ResolveMarket(s, k, quote).value;
    assert MarketWell(s.markets[k], |s.members|);
    MarketStep(s, k, t.markets[k]);
    assert t == s.(markets := s.markets[k := t.markets[k]]);
  }

  /** Payout keys and refund keys are members who bet on the market. */
  lemma {:induction false} PayoutKeys(rnd: real -> real, bets: seq<Bet>, w: Outcome, bps: int, members: nat)
    requires BetsWell(bets, members)
    ensures DistinctMembers(Payouts(rnd, Rows(bets), w, bps)) && DistinctMembers(StakeTotals(bets))
    ensures forall c :: c in Payouts(rnd, Rows(bets), w, bps) ==> c.member < members
    ensures forall c :: c in StakeTotals(bets) ==> c.member < members && c.amount >= 0
  {
    var rows := Rows(bets);
    var p, totals := Payouts(rnd, rows, w, bps), StakeTotals(bets);
    RowsKeepStakes(bets);
    AccrueMeaning(StakeAmount(), rows);
    if WinningPool(rows, w) > 0 {
      SettlementLaws.PayoutsWithWinner(rnd, rows, w, bps);
    }
    FilterMembers(Winning(w), rows);
    forall c | c in p ensures c.member < members {
      var i :| 0 <= i < |p| && p[i] == c;
      assert Has(p, c.member);
      if WinningPool(rows, w) > 0 {
        AppearingIsMember(bets, Winners(rows, w), c.member, members);
      } else {
        AppearingIsMember(bets, rows, c.member, members);
      }
    }
    forall c | c in totals ensures c.member < members && c.amount >= 0 {
      var i :| 0 <= i < |totals| && totals[i] == c;
      assert Has(totals, c.member);
      AppearingIsMember(bets, rows, c.member, members);
      GetAt(totals, i);
      StakesNonNegative(bets, c.member);
    }
  }

  lemma {:induction false} AppearingIsMember(bets: seq<Bet>, rows: seq<Stake>, m: nat, members: nat)
    requires BetsWell(bets, members) && Appears(rows, m) && forall r :: r in rows ==> r in Rows(bets)
    ensures m < members
  {
    var i :| 0 <= i < |rows| && rows[i].member == m;
    assert rows[i] in Rows(bets);
    var j :| 0 <= j < |bets| && Rows(bets)[j] == rows[i];
    assert bets[j] in bets;
  }

  lemma {:induction false} PayoutRowsWell(f: Bet -> Bet, bets: seq<Bet>, members: nat)
    requires BetsWell(bets, members)
    requires forall b :: f(b).member == b.member && f(b).outcome == b.outcome && f(b).stake == b.stake
    ensures BetsWell(Map(f, bets), members) && Rows(Map(f, bets)) == Rows(bets)
  {
    PayoutsKeepRows(f, bets);
    var next := Map(f, bets);
    forall b | b in next ensures b.member < members && b.stake > 0 {
      var i :| 0 <= i < |next| && next[i] == b;
      assert bets[i] in bets;
    }
  }

  lemma {:induction false} SettleConsistent(cfg: Config, s: State, k: nat)
    requires Consistent(s) && SettleMarket(cfg, s, k).Ok?
    ensures Consistent(SettleMarket(cfg, s, k).value) && Evolves(s, SettleMarket(cfg, s, k).value)
  {
    var t := SettleMarket(cfg, s, k).value;
    var mk := s.markets[k];
    var p := Payouts(cfg.rnd, Rows(mk.bets), mk.winner.value, cfg.rakeBps);
    assert MarketWell(mk, |s.members|);
    PayoutKeys(cfg.rnd, mk.bets, mk.winner.value, cfg.rakeBps, |s.members|);
    CreditsKeepLedger(s.ledger, k, Payout, p, |s.members|, |s.markets|);
    PayoutRowsWell(RowPayout(p, StakeTotals(mk.bets)), mk.bets, |s.members|);
    MarketStep(s, k, t.markets[k]);
  }

  lemma {:induction false} CancelConsistent(s: State, k: nat)
    requires Consistent(s) && CancelMarket(s, k).Ok?
    ensures Consistent(CancelMarket(s, k).value) && Evolves(s, CancelMarket(s, k).value)
  {
    var t := CancelMarket(s, k).value;
    var mk := s.markets[k];
    assert MarketWell(mk, |s.members|);
    PayoutKeys(Exact(), mk.bets, Buy, 0, |s.members|);
    CreditsKeepLedger(s.ledger, k, CancelRefund, StakeTotals(mk.bets), |s.members|, |s.markets|);
    MarketStep(s, k, t.markets[k]);
  }

  // ------------------------------------------------------------------ runs

  /** Anything but a scheduler tick. */
  predicate Single(step: Step) { !step.Scheduled? }

  /** Calls that write the ledger. */
  predicate Paying(step: Step) { step.NewMember? || step.Allocate? || step.SettleUp? || step.Cancel? }

  lemma {:induction false} PayingConsistent(cfg: Config, s: State, step: Step)
    requires Consistent(s) && Paying(step)
    ensures Consistent(Apply(cfg, s, step)) && Evolves(s, Apply(cfg, s, step))
  {
    match step {
      case NewMember => CreateMemberConsistent(cfg, s);
      case Allocate(k, m, lots, now) =>
        if PlaceAllocation(cfg, s, k, m, lots, now).Ok? { AllocateConsistent(cfg, s, k, m, lots, now); }
      case SettleUp(k) =>
        if SettleMarket(cfg, s, k).Ok? { SettleConsistent(cfg, s, k); }
      case Cancel(k) =>
        if CancelMarket(s, k).Ok? { CancelConsistent(s, k); }
    }
  }

  lemma {:induction false} NewMarketConsistent(cfg: Config, s: State, step: Step)
    requires Consistent(s) && step.NewMarket?
    ensures Consistent(Apply(cfg, s, step)) && Evolves(s, Apply(cfg, s, step))
  {
    var answer := CreateMarket(cfg, s, step.fundExists, step.fund, step.ticker, step.closesAt, step.resolveAt, step.notional, step.buyPct,
                               step.sellPct);
    if answer.Ok? {
      CreateMarketConsistent(s, answer.value.markets[|s.markets|]);
    }
  }

  lemma {:induction false} SingleConsistent(cfg: Config, s: State, step: Step)
    requires Consistent(s) && Single(step)
    ensures Consistent(Apply(cfg, s, step)) && Evolves(s, Apply(cfg, s, step))
  {
    match step {
      case Activate(m, a) =>
      case NewMarket(_, _, _, _, _, _, _, _) => NewMarketConsistent(cfg, s, step);
      case Close(k, q) =>
        if CloseMarket(s, k, q).Ok? { CloseConsistent(s, k, q); }
      case Decide(k, q) =>
        if BuildDecision(cfg, s, k, q).Ok? { DecideConsistent(cfg, s, k, q); }
      case Approve(d, env) => ExecuteConsistent(cfg, s, d, env);
      case Reject(d) =>
        if RejectDecision(s, d).Ok? { RejectConsistent(s, d); }
      case Resolve(k, q) =>
        if ResolveMarket(s, k, q).Ok? { ResolveConsistent(s, k, q); }
      case Sync(f, b) =>
      case _ => PayingConsistent(cfg, s, step);
    }
  }

  lemma {:induction false} SinglesConsistent(cfg: Config, s: State, steps: seq<Step>)
    requires Consistent(s) && forall step :: step in steps ==> Single(step)
    ensures Consistent(Run(cfg, s, steps)) && Evolves(s, Run(cfg, s, steps))
    decreases |steps|
  {
    if steps != [] {
      assert steps[0] in steps;
      var t := Apply(cfg, s, steps[0]);
      SingleConsistent(cfg, s, steps[0]);
      SinglesConsistent(cfg, t, steps[1..]);
      EvolvesTransitive(s, t, Run(cfg, s, steps));
    }
  }

  // ------------------------------------------------------------------ a tick is a run

  lemma {:induction false} RunAppend(cfg: Config, s: State, xs: seq<Step>, ys: seq<Step>)
    ensures Run(cfg, s, xs + ys) == Run(cfg, Run(cfg, s, xs), ys)
    decreases |xs|
  {
    if xs == [] {
      assert xs + ys == ys;
    } else {
      assert (xs + ys)[0] == xs[0] && (xs + ys)[1..] == xs[1..] + ys;
      RunAppend(cfg, Apply(cfg, s, xs[0]), xs[1..], ys);
    }
  }

  lemma {:induction false} RunTwo(cfg: Config, s: State, a: Step, b: Step)
    ensures Run(cfg, s, [a, b]) == Apply(cfg, Apply(cfg, s, a), b)
  {
    assert [a, b][1..] == [b];
    var t := Apply(cfg, s, a);
    assert [b][1..] == [];
    assert Run(cfg, t, [b]) == Run(cfg, Apply(cfg, t, b), []);
  }

  /** The steps the scheduler is made of: it never approves, so it never places an order. */
  predicate Automatic(step: Step) { step.Close? || step.Decide? || step.Resolve? || step.SettleUp? }

  /** The two service calls a phase makes for market k. */
  function Closing(feeds: nat -> Feed): nat -> seq<Step> {
    (k: nat) => [Close(k, feeds(k).closing), Decide(k, feeds(k).deciding)]
  }

  function Resolving(feeds: nat -> Feed): nat -> seq<Step> {
    (k: nat) => [Resolve(k, feeds(k).resolving), SettleUp(k)]
  }

  /** A successful pair is the run of its two calls. */
  ghost predicate PairIsRun(cfg: Config, pair: (State, nat) -> Result<State>, calls: nat -> seq<Step>) {
    && (forall s: State, k: nat :: pair(s, k).Ok? ==> pair(s, k).value == Run(cfg, s, calls(k)))
    && (forall k: nat :: forall step :: step in calls(k) ==> Automatic(step))
  }

  lemma {:induction false} ClosePairIsRun(cfg: Config, feeds: nat -> Feed)
    ensures PairIsRun(cfg, ClosePair(cfg, feeds), Closing(feeds))
  {
    hide CloseMarket, BuildDecision;
    forall s: State, k: nat | ClosePair(cfg, feeds)(s, k).Ok?
      ensures ClosePair(cfg, feeds)(s, k).value == Run(cfg, s, Closing(feeds)(k))
    {
      RunTwo(cfg, s, Close(k, feeds(k).closing), Decide(k, feeds(k).deciding));
    }
  }

  lemma {:induction false} ResolvePairIsRun(cfg: Config, feeds: nat -> Feed)
    ensures PairIsRun(cfg, ResolvePair(cfg, feeds), Resolving(feeds))
  {
    hide ResolveMarket, SettleMarket;
    forall s: State, k: nat | ResolvePair(cfg, feeds)(s, k).Ok?
      ensures ResolvePair(cfg, feeds)(s, k).value == Run(cfg, s, Resolving(feeds)(k))
    {
      RunTwo(cfg, s, Resolve(k, feeds(k).resolving), SettleUp(k));
    }
  }

  lemma {:induction false} PhaseIsRun(cfg: Config, pair: (State, nat) -> Result<State>, calls: nat -> seq<Step>,
                                      begun: State, done: seq<Step>, due: seq<nat>) returns (steps: seq<Step>)
    requires PairIsRun(cfg, pair, calls) && forall step :: step in done ==> Automatic(step)
    ensures Phase(pair, begun, Run(cfg, begun, done), due) == Run(cfg, begun, steps)
    ensures forall step :: step in steps ==> Automatic(step)
    decreases |due|
  {
    if due == [] {
      return done;
    }
    var current := Run(cfg, begun, done);
    match pair(current, due[0]) {
      case Ok(next) =>
        RunAppend(cfg, begun, done, calls(due[0]));
        steps := PhaseIsRun(cfg, pair, calls, begun, done + calls(due[0]), due[1..]);
      case Err(_) =>
        steps := PhaseIsRun(cfg, pair, calls, begun, [], due[1..]);
    }
  }

  /** Whatever fails, a tick amounts to a run of closings, decisions, resolutions and settlements. */
  lemma {:induction false} TickIsRun(cfg: Config, s: State, now: int, feeds: nat -> Feed) returns (steps: seq<Step>)
    ensures Tick(cfg, s, now, feeds) == Run(cfg, s, steps)
    ensures forall step :: step in steps ==> Automatic(step)
  {
    ClosePairIsRun(cfg, feeds);
    ResolvePairIsRun(cfg, feeds);
    var first := PhaseIsRun(cfg, ClosePair(cfg, feeds), Closing(feeds), s, [], DueToClose(s.markets, now));
    var closed := Run(cfg, s, first);
    var second := PhaseIsRun(cfg, ResolvePair(cfg, feeds), Resolving(feeds), closed, [], DueToResolve(closed.markets, now));
    RunAppend(cfg, s, first, second);
    steps := first + second;
  }

  lemma {:induction false} StepConsistent(cfg: Config, s: State, step: Step)
    requires Consistent(s)
    ensures Consistent(Apply(cfg, s, step)) && Evolves(s, Apply(cfg, s, step))
  {
    if step.Scheduled? {
      var steps := TickIsRun(cfg, s, step.now, step.feeds);
      SinglesConsistent(cfg, s, steps);
    } else {
      SingleConsistent(cfg, s, step);
    }
  }

  /** From a consistent state every run, guarded or not, stays consistent and only evolves. */
  lemma {:induction false} RunConsistent(cfg: Config, s: State, steps: seq<Step>)
    requires Consistent(s)
    ensures Consistent(Run(cfg, s, steps)) && Evolves(s, Run(cfg, s, steps))
    decreases |steps|
  {
    if steps != [] {
      var t := Apply(cfg, s, steps[0]);
      StepConsistent(cfg, s, steps[0]);
      RunConsistent(cfg, t, steps[1..]);
      EvolvesTransitive(s, t, Run(cfg, s, steps));
    }
  }

  /**
   * In every reachable state: balances are never negative, each member holds at most one payout and one refund per
   * market, each market has at most one decision, and a recorded winner is the verdict on the recorded prices; and
   * whatever happens next, the ledger keeps its prefix, stakes of markets that left OPEN keep their rows, and a
   * reference price once set stays.
   */
  lemma {:induction false} ReachableStates(cfg: Config, steps: seq<Step>, more: seq<Step>)
    ensures var s, t := Run(cfg, EMPTY, steps), Run(cfg, EMPTY, steps + more);
      && (forall m: nat :: Balance(s.ledger, m) >= 0)
      && CreditedOnce(s.ledger)
      && (forall i, j :: 0 <= i < j < |s.decisions| ==> s.decisions[i].market != s.decisions[j].market)
      && (forall k :: 0 <= k < |s.markets| ==> VerdictStands(s.markets[k]))
      && s.ledger <= t.ledger
      && (forall k :: 0 <= k < |s.markets| ==> k < |t.markets| && MarketEvolves(s.markets[k], t.markets[k]))
  {
    assert Consistent(EMPTY);
    RunConsistent(cfg, EMPTY, steps);
    RunAppend(cfg, EMPTY, steps, more);
    RunConsistent(cfg, Run(cfg, EMPTY, steps), more);
    var s := Run(cfg, EMPTY, steps);
    forall k | 0 <= k < |s.markets| ensures VerdictStands(s.markets[k]) {
      assert MarketWell(s.markets[k], |s.members|);
    }
  }
}
