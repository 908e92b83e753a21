/** Settling again after an interrupted settlement: nobody is paid twice and nobody is left out. */
module Retry {
  import opened Sums
  import opened Domain
  import opened Tally
  import opened Tables
  import opened Parimutuel
  import opened Steps
  import opened LedgerLaws
  import opened Invariants
  import opened Conservation
  import SettlementLaws

  function IsPayout(m: nat, k: nat): Entry -> bool { (e: Entry) => Matches(e, m, k, Payout) }

  /** How many PAYOUT entries member m holds for market k, and what they add up to. */
  function PayoutCount(ledger: seq<Entry>, m: nat, k: nat): nat { CountWhere(IsPayout(m, k), ledger) }

  function PayoutAmount(m: nat, k: nat): Entry -> int {
    (e: Entry) => if Matches(e, m, k, Payout) then e.amount else 0
  }

  function PaidOut(ledger: seq<Entry>, m: nat, k: nat): int { Sum(PayoutAmount(m, k), ledger) }

  function NotPayout(k: nat): Entry -> bool { (e: Entry) => !(e.market == Some(k) && e.kind == Payout) }

  /** The ledger as it would be had no payout of market k been recorded yet. */
  function WithoutPayouts(ledger: seq<Entry>, k: nat): seq<Entry> { Filter(NotPayout(k), ledger) }

  /** Whatever PAYOUT entries market k already has are right: their member is due exactly their amount. */
  ghost predicate PartlyPaid(ledger: seq<Entry>, k: nat, payouts: seq<Credit>) {
    forall e :: e in ledger && e.market == Some(k) && e.kind == Payout ==>
      Has(payouts, e.member) && e.amount == Get(payouts, e.member) > 0
  }

  /** What member m is owed: the entry of the payout dictionary when it is positive. */
  function Owed(payouts: seq<Credit>, m: nat): int {
    if Has(payouts, m) && Get(payouts, m) > 0 then Get(payouts, m) else 0
  }

  lemma {:induction false} PaidOnce(ledger: seq<Entry>, m: nat, k: nat, payouts: seq<Credit>)
    requires CreditedOnce(ledger) && PartlyPaid(ledger, k, payouts)
    ensures PayoutCount(ledger, m, k) == if HasEntry(ledger, m, k, Payout) then 1 else 0
    ensures PaidOut(ledger, m, k) == if HasEntry(ledger, m, k, Payout) then Owed(payouts, m) else 0
    ensures HasEntry(ledger, m, k, Payout) ==> Owed(payouts, m) > 0
  {
    if ledger != [] {
      var n := |ledger| - 1;
      var rest, e := ledger[..n], ledger[n];
      assert ledger == rest + [e] && e in ledger;
      assert CreditedOnce(rest) && PartlyPaid(rest, k, payouts);
      PaidOnce(rest, m, k, payouts);
      HasEntryAppend(rest, [e], m, k, Payout);
      FilterSnoc(IsPayout(m, k), rest, e);
      SumSnoc(PayoutAmount(m, k), rest, e);
      if Matches(e, m, k, Payout) {
        assert Matches([e][0], m, k, Payout);
        forall i | 0 <= i < |rest| ensures !Matches(rest[i], m, k, Payout) {
          assert ledger[i] == rest[i] && ledger[n] == e;
        }
      }
    }
  }

  /** A member's balance splits into the payouts of market k and everything else. */
  lemma {:induction false} BalanceSplit(ledger: seq<Entry>, m: nat, k: nat)
    ensures Balance(ledger, m) == Balance(WithoutPayouts(ledger, k), m) + PaidOut(ledger, m, k)
    ensures !HasEntry(WithoutPayouts(ledger, k), m, k, Payout)
  {
    SumFilter(OfMember(m), NotPayout(k), OtherAmount(m, k), ledger);
    SumAdd(OtherAmount(m, k), PayoutAmount(m, k), OfMember(m), ledger);
    var kept := WithoutPayouts(ledger, k);
    FilterMembers(NotPayout(k), ledger);
    forall i | 0 <= i < |kept| ensures !Matches(kept[i], m, k, Payout) {
      assert kept[i] in kept;
    }
  }

  function OtherAmount(m: nat, k: nat): Entry -> int {
    (e: Entry) => if e.member == m && !(e.market == Some(k) && e.kind == Payout) then e.amount else 0
  }

  /** After appending the missing payouts everyone holds exactly one entry of the right amount. */
  lemma {:induction false} CompletedPayouts(ledger: seq<Entry>, k: nat, payouts: seq<Credit>, m: nat)
    requires CreditedOnce(ledger) && DistinctMembers(payouts) && PartlyPaid(ledger, k, payouts)
    ensures var done := ledger + NewEntries(ledger, k, Payout, payouts);
      && PayoutCount(done, m, k) == (if Owed(payouts, m) > 0 then 1 else 0)
      && PaidOut(done, m, k) == Owed(payouts, m)
      && Balance(done, m) == Balance(WithoutPayouts(ledger, k), m) + Owed(payouts, m)
  {
    var es := NewEntries(ledger, k, Payout, payouts);
    var done := ledger + es;
    NewEntriesShape(ledger, k, Payout, payouts);
    OnceWithCredits(ledger, k, Payout, payouts);
    forall e | e in es ensures Has(payouts, e.member) && e.amount == Get(payouts, e.member) > 0 {
      var i :| 0 <= i < |payouts| && payouts[i] == Credit(e.member, e.amount);
      GetAt(payouts, i);
    }
    assert PartlyPaid(done, k, payouts);
    PaidOnce(ledger, m, k, payouts);
    PaidOnce(done, m, k, payouts);
    NewEntriesSums(ledger, k, Payout, payouts, m);
    SumAppend(OfMember(m), ledger, es);
    BalanceSplit(ledger, m, k);
    BalanceSplit(done, m, k);
    HasEntryAppend(ledger, es, m, k, Payout);
    FreshIsRecorded(ledger, k, payouts, m);
  }

  lemma {:induction false} FreshIsRecorded(ledger: seq<Entry>, k: nat, payouts: seq<Credit>, m: nat)
    requires DistinctMembers(payouts)
    ensures Fresh(ledger, k, Payout, payouts, m) > 0 ==> HasEntry(NewEntries(ledger, k, Payout, payouts), m, k, Payout)
  {
    var es := NewEntries(ledger, k, Payout, payouts);
    NewEntriesShape(ledger, k, Payout, payouts);
    NewEntriesSums(ledger, k, Payout, payouts, m);
    if !HasEntry(es, m, k, Payout) {
      forall e | e in es ensures OfMember(m)(e) == 0 {
        var i :| 0 <= i < |es| && es[i] == e;
        assert !Matches(es[i], m, k, Payout);
      }
      SumZero(OfMember(m), es);
    }
  }

  /**
   * From a resolved market where any subset of the payees already holds its correct PAYOUT entry, settling ends with
   * exactly one PAYOUT of the right amount for everyone owed something and none for anyone else, with the same
   * market rows and the same balances as one uninterrupted settlement.
   */
  lemma {:induction false} RetryCompletes(cfg: Config, s: State, k: nat)
    requires Consistent(s) && k < |s.markets| && s.markets[k].status == Resolved && ValidRake(cfg.rakeBps)
    requires s.markets[k].winner.Some? && PartlyPaid(s.ledger, k, Paid(cfg, s.markets[k]))
    ensures var unpaid := s.(ledger := WithoutPayouts(s.ledger, k));
      && SettleMarket(cfg, s, k).Ok? && SettleMarket(cfg, unpaid, k).Ok?
      && var t, once, owed := SettleMarket(cfg, s, k).value, SettleMarket(cfg, unpaid, k).value, Paid(cfg, s.markets[k]);
      && t.markets == once.markets
      && (forall m: nat :: Balance(t.ledger, m) == Balance(once.ledger, m))
      && (forall m: nat :: PayoutCount(t.ledger, m, k) == if Owed(owed, m) > 0 then 1 else 0)
      && (forall m: nat :: PaidOut(t.ledger, m, k) == Owed(owed, m))
  {
    var mk := s.markets[k];
    var payouts := Paid(cfg, mk);
    var kept := WithoutPayouts(s.ledger, k);
    assert MarketWell(mk, |s.members|);
    PayoutKeys(cfg.rnd, mk.bets, mk.winner.value, cfg.rakeBps, |s.members|);
    KeptOnce(s.ledger, k);
    FilterMembers(NotPayout(k), s.ledger);
    forall m: nat
      ensures Balance(SettleMarket(cfg, s, k).value.ledger, m)
           == Balance(SettleMarket(cfg, s.(ledger := kept), k).value.ledger, m)
      ensures PayoutCount(SettleMarket(cfg, s, k).value.ledger, m, k) == if Owed(payouts, m) > 0 then 1 else 0
      ensures PaidOut(SettleMarket(cfg, s, k).value.ledger, m, k) == Owed(payouts, m)
    {
      CompletedPayouts(s.ledger, k, payouts, m);
      CompletedPayouts(kept, k, payouts, m);
      FilterAll(NotPayout(k), kept);
    }
  }

  lemma {:induction false} KeptOnce(ledger: seq<Entry>, k: nat)
    requires CreditedOnce(ledger)
    ensures CreditedOnce(WithoutPayouts(ledger, k))
  {
    if ledger != [] {
      var n := |ledger| - 1;
      var rest, e := ledger[..n], ledger[n];
      assert CreditedOnce(rest);
      KeptOnce(rest, k);
      FilterMembers(NotPayout(k), rest);
      var kept := WithoutPayouts(rest, k);
      forall i | 0 <= i < |kept| && CreditKind(kept[i].kind) && kept[i].kind == e.kind
        ensures kept[i].member != e.member || kept[i].market != e.market
      {
        assert kept[i] in rest;
        var j :| 0 <= j < n && rest[j] == kept[i];
        assert ledger[j] == kept[i] && ledger[n] == e;
      }
    }
  }

  // ------------------------------------------------------------------ row order

  lemma {:induction false} MapPermutation<A, B>(f: A -> B, xs: seq<A>, ys: seq<A>)
    requires multiset(xs) == multiset(ys)
    ensures multiset(Map(f, xs)) == multiset(Map(f, ys))
    decreases |xs|
  {
    if xs == [] {
      assert |multiset(ys)| == 0;
    } else {
      var n := |xs| - 1;
      var j, rest := Without(xs, ys);
      MapPermutation(f, xs[..n], rest);
      MapAround(f, ys, j);
    }
  }

  lemma {:induction false} MapAround<A, B>(f: A -> B, ys: seq<A>, j: nat)
    requires j < |ys|
    ensures multiset(Map(f, ys)) == multiset(Map(f, ys[..j] + ys[j + 1..])) + multiset{f(ys[j])}
  {
    var front, back := Map(f, ys[..j]), Map(f, ys[j + 1..]);
    assert Map(f, ys) == front + [f(ys[j])] + back;
    assert Map(f, ys[..j] + ys[j + 1..]) == front + back;
  }

  lemma {:induction false} CreditsDecideBalances(ledger: seq<Entry>, k: nat, kind: EntryKind, p: seq<Credit>, q: seq<Credit>, m: nat)
    requires DistinctMembers(p) && DistinctMembers(q)
    requires Get(p, m) == Get(q, m) && (Has(p, m) <==> Has(q, m))
    ensures Balance(ledger + NewEntries(ledger, k, kind, p), m) == Balance(ledger + NewEntries(ledger, k, kind, q), m)
  {
    NewEntriesSums(ledger, k, kind, p, m);
    NewEntriesSums(ledger, k, kind, q, m);
    SumAppend(OfMember(m), ledger, NewEntries(ledger, k, kind, p));
    SumAppend(OfMember(m), ledger, NewEntries(ledger, k, kind, q));
  }

  function Reordered(s: State, k: nat, bets: seq<Bet>): State
    requires k < |s.markets|
  {
    s.(markets := s.markets[k := s.markets[k].(bets := bets)])
  }

  /** The order in which the unordered query returns the bets changes no balance when a market is settled. */
  lemma {:induction false} SettlingIgnoresRowOrder(cfg: Config, s: State, k: nat, bets: seq<Bet>, m: nat)
    requires k < |s.markets| && multiset(bets) == multiset(s.markets[k].bets) && SettleMarket(cfg, s, k).Ok?
    ensures SettleMarket(cfg, Reordered(s, k, bets), k).Ok?
    ensures Balance(SettleMarket(cfg, Reordered(s, k, bets), k).value.ledger, m)
         == Balance(SettleMarket(cfg, s, k).value.ledger, m)
  {
    var mk := s.markets[k];
    var w := mk.winner.value;
    MapPermutation(AsStake(), bets, mk.bets);
    SettlementLaws.SettlementIgnoresRowOrder(cfg.rnd, Rows(bets), Rows(mk.bets), w, cfg.rakeBps);
    DistinctPayouts(cfg.rnd, Rows(bets), w, cfg.rakeBps);
    DistinctPayouts(cfg.rnd, Rows(mk.bets), w, cfg.rakeBps);
    CreditsDecideBalances(s.ledger, k, Payout, Payouts(cfg.rnd, Rows(bets), w, cfg.rakeBps), Paid(cfg, mk), m);
  }

  /** Nor when it is cancelled. */
  lemma {:induction false} CancellingIgnoresRowOrder(s: State, k: nat, bets: seq<Bet>, m: nat)
    requires k < |s.markets| && multiset(bets) == multiset(s.markets[k].bets) && CancelMarket(s, k).Ok?
    ensures CancelMarket(Reordered(s, k, bets), k).Ok?
    ensures Balance(CancelMarket(Reordered(s, k, bets), k).value.ledger, m) == Balance(CancelMarket(s, k).value.ledger, m)
  {
    var mk := s.markets[k];
    MapPermutation(AsStake(), bets, mk.bets);
    SettlementLaws.SameAccrual(StakeAmount(), Rows(bets), Rows(mk.bets));
    AccrueMeaning(StakeAmount(), Rows(bets));
    AccrueMeaning(StakeAmount(), Rows(mk.bets));
    CreditsDecideBalances(s.ledger, k, CancelRefund, StakeTotals(bets), StakeTotals(mk.bets), m);
  }

  lemma {:induction false} DistinctPayouts(rnd: real -> real, rows: seq<Stake>, w: Outcome, bps: int)
    ensures DistinctMembers(Payouts(rnd, rows, w, bps))
  {
    if WinningPool(rows, w) > 0 {
      SettlementLaws.PayoutsWithWinner(rnd, rows, w, bps);
    } else {
      AccrueMeaning(StakeAmount(), Staked(rows));
    }
  }
}
