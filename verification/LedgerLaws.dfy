/** How ledger sums and bet sums move when the services append entries and replace bets. */
module LedgerLaws {
  import opened Sums
  import opened Domain
  import opened Tally
  import opened Tables
  import opened Parimutuel
  import opened Steps
  import SettlementLaws

  // ------------------------------------------------------------------ totals over members

  /** The sum of the balances of members 0 .. n - 1. */
  function BalanceSum(ledger: seq<Entry>, n: nat): int {
    if n == 0 then 0 else BalanceSum(ledger, n - 1) + Balance(ledger, n - 1)
  }

  lemma {:induction false} BalanceSumSnoc(ledger: seq<Entry>, e: Entry, n: nat)
    ensures BalanceSum(ledger + [e], n) == BalanceSum(ledger, n) + if e.member < n then e.amount else 0
  {
    if n > 0 {
      BalanceSumSnoc(ledger, e, n - 1);
      SumSnoc(OfMember(n - 1), ledger, e);
    }
  }

  /** When every entry belongs to one of n members, the balances add up to the whole ledger. */
  lemma {:induction false} BalancesAddUp(ledger: seq<Entry>, n: nat)
    requires forall e :: e in ledger ==> e.member < n
    ensures BalanceSum(ledger, n) == Sum(Amount(), ledger)
  {
    if ledger == [] {
      BalanceSumEmpty(n);
    } else {
      var l := |ledger| - 1;
      assert ledger == ledger[..l] + [ledger[l]];
      BalancesAddUp(ledger[..l], n);
      BalanceSumSnoc(ledger[..l], ledger[l], n);
    }
  }

  lemma {:induction false} BalanceSumEmpty(n: nat)
    ensures BalanceSum([], n) == 0
  {
    if n > 0 {
      BalanceSumEmpty(n - 1);
    }
  }

  lemma {:induction false} BalanceBelowSum(ledger: seq<Entry>, n: nat, m: nat)
    requires forall q: nat :: q < n ==> Balance(ledger, q) >= 0
    ensures BalanceSum(ledger, n) >= 0
    ensures m < n ==> Balance(ledger, m) <= BalanceSum(ledger, n)
  {
    if n > 0 {
      BalanceBelowSum(ledger, n - 1, m);
    }
  }

  // ------------------------------------------------------------------ bets and rows

  lemma {:induction false} SumMapped<A, B>(g: B -> int, f: A -> B, h: A -> int, xs: seq<A>)
    requires forall x :: x in xs ==> h(x) == g(f(x))
    ensures Sum(g, Map(f, xs)) == Sum(h, xs)
  {
    if xs != [] {
      SumMapped(g, f, h, xs[..|xs| - 1]);
      SumSnoc(g, Map(f, xs[..|xs| - 1]), f(xs[|xs| - 1]));
    }
  }

  ghost predicate PositiveStakes(bets: seq<Bet>) {
    forall b :: b in bets ==> b.stake > 0
  }

  /** Reading bets as settlement rows keeps every member's stake and the pool. */
  lemma {:induction false} RowsKeepStakes(bets: seq<Bet>)
    ensures forall m: nat :: SettlementLaws.StakeOf(Rows(bets), m) == Sum(StakeBy(m), bets)
    ensures PositiveStakes(bets) ==> Staked(Rows(bets)) == Rows(bets) && Pool(Rows(bets)) == Sum(BetStake(), bets)
  {
    forall m: nat ensures SettlementLaws.StakeOf(Rows(bets), m) == Sum(StakeBy(m), bets) {
      SumMapped(Only(StakeAmount(), m), AsStake(), StakeBy(m), bets);
    }
    if PositiveStakes(bets) {
      SumMapped(StakeAmount(), AsStake(), BetStake(), bets);
      forall s | s in Rows(bets) ensures s.amount > 0 {
        var i :| 0 <= i < |bets| && Rows(bets)[i] == s;
        assert bets[i] in bets;
      }
      FilterAll(Positive(), Rows(bets));
    }
  }

  /** Writing payouts back does not touch the rows that settlement reads. */
  lemma {:induction false} PayoutsKeepRows(f: Bet -> Bet, bets: seq<Bet>)
    requires forall b :: b in bets ==> f(b).member == b.member && f(b).outcome == b.outcome && f(b).stake == b.stake
    ensures Rows(Map(f, bets)) == Rows(bets)
  {
    forall i | 0 <= i < |bets| ensures Rows(Map(f, bets))[i] == Rows(bets)[i] {
      assert bets[i] in bets;
    }
  }

  /** Replacing m's bets leaves everyone else's stakes alone and sets m's to the new total. */
  lemma {:induction false} ReplacedStakes(bets: seq<Bet>, m: nat, cleaned: seq<Lot>, q: nat)
    ensures Sum(StakeBy(q), ReplacedBets(bets, m, cleaned))
         == if q == m then Sum(LotAmount(), cleaned) else Sum(StakeBy(q), bets)
  {
    var kept, placed := Filter(NotBy(m), bets), Map(BetOf(m), cleaned);
    SumAppend(StakeBy(q), kept, placed);
    if q == m {
      FilterMembers(NotBy(m), bets);
      SumZero(StakeBy(m), kept);
      SumMapped(StakeBy(m), BetOf(m), LotAmount(), cleaned);
    } else {
      SumFilter(StakeBy(q), NotBy(m), StakeBy(q), bets);
      MapMembers(BetOf(m), cleaned);
      SumZero(StakeBy(q), placed);
    }
  }

  lemma {:induction false} ReplacedPool(bets: seq<Bet>, m: nat, cleaned: seq<Lot>)
    ensures Sum(BetStake(), ReplacedBets(bets, m, cleaned))
         == Sum(BetStake(), bets) - Previous(bets, m) + Sum(LotAmount(), cleaned)
  {
    var kept, placed := Filter(NotBy(m), bets), Map(BetOf(m), cleaned);
    SumAppend(BetStake(), kept, placed);
    SumMapped(BetStake(), BetOf(m), LotAmount(), cleaned);
    SumFilter(BetStake(), NotBy(m), OthersStake(m), bets);
    SumAdd(OthersStake(m), StakeBy(m), BetStake(), bets);
  }

  function OthersStake(m: nat): Bet -> int { (b: Bet) => if b.member != m then b.stake else 0 }

  lemma {:induction false} MapMembers<A, B>(f: A -> B, xs: seq<A>)
    ensures forall y :: y in Map(f, xs) ==> exists i :: 0 <= i < |xs| && y == f(xs[i])
  {
    forall y | y in Map(f, xs) ensures exists i :: 0 <= i < |xs| && y == f(xs[i]) {
      var i :| 0 <= i < |xs| && Map(f, xs)[i] == y;
    }
  }

  lemma {:induction false} StakesNonNegative(bets: seq<Bet>, m: nat)
    requires PositiveStakes(bets)
    ensures 0 <= Sum(StakeBy(m), bets) <= Sum(BetStake(), bets)
  {
    SumNonNegative(StakeBy(m), bets);
    SumLe(StakeBy(m), BetStake(), bets);
  }

  // ------------------------------------------------------------------ appended credits

  /** What member q is newly credited for market k, given the entries already there. */
  function Fresh(ledger: seq<Entry>, k: nat, kind: EntryKind, credits: seq<Credit>, q: nat): int {
    if Has(credits, q) && Worth(kind, Get(credits, q)) && !HasEntry(ledger, q, k, kind) then Get(credits, q) else 0
  }

  ghost predicate EntriesFor(es: seq<Entry>, ledger: seq<Entry>, k: nat, kind: EntryKind, credits: seq<Credit>) {
    && (forall e :: e in es ==>
          && e.kind == kind && e.market == Some(k)
          && (exists i :: 0 <= i < |credits| && credits[i] == Credit(e.member, e.amount))
          && Worth(kind, e.amount) && !HasEntry(ledger, e.member, k, kind))
    && (forall i, j :: 0 <= i < j < |es| ==> es[i].member != es[j].member)
  }

  lemma {:induction false} NewEntriesShape(ledger: seq<Entry>, k: nat, kind: EntryKind, credits: seq<Credit>)
    requires DistinctMembers(credits)
    ensures EntriesFor(NewEntries(ledger, k, kind, credits), ledger, k, kind, credits)
  {
    if credits != [] {
      var n := |credits| - 1;
      var c := credits[n];
      var rest := NewEntries(ledger, k, kind, credits[..n]);
      NewEntriesShape(ledger, k, kind, credits[..n]);
      assert EntriesFor(rest, ledger, k, kind, credits) by {
        forall e | e in rest ensures exists i :: 0 <= i < |credits| && credits[i] == Credit(e.member, e.amount) {
          var i :| 0 <= i < n && credits[..n][i] == Credit(e.member, e.amount);
          assert credits[i] == Credit(e.member, e.amount);
        }
      }
      forall e | e in rest ensures e.member != c.member {
        var i :| 0 <= i < n && credits[..n][i] == Credit(e.member, e.amount);
        assert credits[i].member != credits[n].member;
      }
      assert credits[n] == Credit(c.member, c.amount);
    }
  }

  lemma {:induction false} FreshSnoc(ledger: seq<Entry>, k: nat, kind: EntryKind, t: seq<Credit>, c: Credit, q: nat)
    requires DistinctMembers(t + [c])
    ensures Fresh(ledger, k, kind, t + [c], q) == Fresh(ledger, k, kind, t, q)
      + if c.member == q && Worth(kind, c.amount) && !HasEntry(ledger, q, k, kind) then c.amount else 0
  {
    hide HasEntry, Worth, Has, Get;
    SnocLookup(t, c, q);
  }

  lemma {:induction false} EntrySums(es: seq<Entry>, e: Entry, q: nat, k: nat)
    requires e.market == Some(k)
    ensures Balance(es + [e], q) == Balance(es, q) + if e.member == q then e.amount else 0
    ensures Cell(es + [e], q, k) == Cell(es, q, k) + if e.member == q then e.amount else 0
    ensures forall j: nat :: j != k ==> Cell(es + [e], q, j) == Cell(es, q, j)
  {
    SumSnoc(OfMember(q), es, e);
    SumSnoc(OfCell(q, k), es, e);
    forall j: nat | j != k ensures Cell(es + [e], q, j) == Cell(es, q, j) {
      SumSnoc(OfCell(q, j), es, e);
    }
  }

  /** Each member's balance and market cell grow by exactly what is freshly credited. */
  lemma {:induction false} NewEntriesSums(ledger: seq<Entry>, k: nat, kind: EntryKind, credits: seq<Credit>, q: nat)
    requires DistinctMembers(credits)
    ensures Balance(NewEntries(ledger, k, kind, credits), q) == Fresh(ledger, k, kind, credits, q)
    ensures Cell(NewEntries(ledger, k, kind, credits), q, k) == Fresh(ledger, k, kind, credits, q)
    ensures forall j: nat :: j != k ==> Cell(NewEntries(ledger, k, kind, credits), q, j) == 0
  {
    hide HasEntry, Worth, Balance, Cell, Fresh;
    if credits == [] {
      NothingSums(ledger, k, kind, q);
    } else {
      var n := |credits| - 1;
      var c := credits[n];
      assert credits == credits[..n] + [c];
      NewEntriesSums(ledger, k, kind, credits[..n], q);
      FreshSnoc(ledger, k, kind, credits[..n], c, q);
      if Worth(kind, c.amount) && !HasEntry(ledger, c.member, k, kind) {
        EntrySums(NewEntries(ledger, k, kind, credits[..n]), Entry(c.member, Some(k), kind, c.amount), q, k);
      } else {
        assert NewEntries(ledger, k, kind, credits) == NewEntries(ledger, k, kind, credits[..n]);
      }
    }
  }

  lemma {:induction false} NothingSums(ledger: seq<Entry>, k: nat, kind: EntryKind, q: nat)
    ensures Fresh(ledger, k, kind, [], q) == 0
    ensures Balance([], q) == 0 && forall j: nat :: Cell([], q, j) == 0
  {
    assert !Has([], q);
  }

  lemma {:induction false} SnocLookup(t: seq<Credit>, c: Credit, q: nat)
    requires DistinctMembers(t + [c])
    ensures Has(t + [c], q) <==> Has(t, q) || c.member == q
    ensures Get(t + [c], q) == if Has(t, q) then Get(t, q) else if c.member == q then c.amount else 0
    ensures Has(t, q) ==> c.member != q
  {
    var u := t + [c];
    assert u[|t|] == c;
    forall i | 0 <= i < |t| ensures u[i] == t[i] && t[i].member != c.member {
    }
    if Has(t, q) {
      var i :| 0 <= i < |t| && t[i].member == q;
      assert DistinctMembers(t);
      GetAt(u, i);
      GetAt(t, i);
    } else if c.member == q {
      GetAt(u, |t|);
    } else {
      assert !Has(u, q);
      GetAbsent(u, q);
    }
    if Has(u, q) {
      var i :| 0 <= i < |u| && u[i].member == q;
      assert i < |t| ==> t[i].member == q;
    }
  }

  /** With no earlier entry of the kind and no negative credit, the appended entries carry the whole dictionary. */
  lemma {:induction false} NewEntriesTotal(ledger: seq<Entry>, k: nat, kind: EntryKind, credits: seq<Credit>)
    requires forall m: nat :: !HasEntry(ledger, m, k, kind)
    requires forall c :: c in credits ==> c.amount >= 0
    ensures Sum(Amount(), NewEntries(ledger, k, kind, credits)) == Total(credits)
  {
    if credits != [] {
      var n := |credits| - 1;
      var c := credits[n];
      assert c in credits;
      NewEntriesTotal(ledger, k, kind, credits[..n]);
      var rest, e := NewEntries(ledger, k, kind, credits[..n]), Entry(c.member, Some(k), kind, c.amount);
      SumSnoc(Amount(), rest, e);
      assert NewEntries(ledger, k, kind, credits) == if Worth(kind, c.amount) then rest + [e] else rest;
    }
  }
}
