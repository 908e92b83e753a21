/**
 * Conservation of points over every run in which approvals are given only while the decision's market is neither
 * settled nor cancelled: with exact settlement for any amount of points, with settlement rounded by any 28-digit
 * rounding for grants up to POOL_LIMIT cents.
 */
module Conservation {
  import opened Sums
  import opened Domain
  import opened Tally
  import opened Tables
  import opened Parimutuel
  import opened Steps
  import opened LedgerLaws
  import opened Invariants
  import Arithmetic
  import SettlementLaws

  /** The payout dictionary of a market with a verdict. */
  function Paid(cfg: Config, mk: Market): seq<Credit>
    requires mk.winner.Some?
  {
    Payouts(cfg.rnd, Rows(mk.bets), mk.winner.value, cfg.rakeBps)
  }

  /** What the ledger should net for member m on a market: minus the stake, plus what came back. */
  function CellNet(cfg: Config, mk: Market, m: nat): int {
    if mk.status == Cancelled then 0
    else if mk.status == Settled && mk.winner.Some? then Get(Paid(cfg, mk), m) - Sum(StakeBy(m), mk.bets)
    else -Sum(StakeBy(m), mk.bets)
  }

  /** What a market keeps out of circulation: its pool while live, what settlement did not pay out, else nothing. */
  function Held(cfg: Config): Market -> int {
    (mk: Market) =>
      if mk.status == Cancelled then 0
      else if mk.status == Settled && mk.winner.Some? then Pool(Rows(mk.bets)) - Total(Paid(cfg, mk))
      else Pool(Rows(mk.bets))
  }

  function LiveStake(): Market -> int { (mk: Market) => if Terminal(mk.status) then 0 else Pool(Rows(mk.bets)) }

  /** The rake of a settled market: with a winner, its share of what was staked on other outcomes, down to a cent. */
  function RakeKept(cfg: Config): Market -> int {
    (mk: Market) =>
      if mk.status == Settled && mk.winner.Some? && WinningPool(Rows(mk.bets), mk.winner.value) > 0
      then (Pool(Rows(mk.bets)) - WinningPool(Rows(mk.bets), mk.winner.value)) * cfg.rakeBps / 10_000
      else 0
  }

  /** Balances, stakes in live markets and rake withheld add up to the initial grants. */
  ghost predicate Conserved(cfg: Config, s: State) {
    BalanceSum(s.ledger, |s.members|) + Sum(LiveStake(), s.markets) + Sum(RakeKept(cfg), s.markets) == Granted(s.ledger)
  }

  ghost predicate CellsNet(cfg: Config, ledger: seq<Entry>, markets: seq<Market>) {
    forall m: nat, k: nat :: k < |markets| ==> Cell(ledger, m, k) == CellNet(cfg, markets[k], m)
  }

  ghost predicate NoEarlyCredit(ledger: seq<Entry>, markets: seq<Market>) {
    forall m: nat, k: nat :: k < |markets| ==>
      && (markets[k].status != Settled ==> !HasEntry(ledger, m, k, Payout))
      && (markets[k].status != Cancelled ==> !HasEntry(ledger, m, k, CancelRefund))
  }

  ghost predicate PoolsCovered(ledger: seq<Entry>, markets: seq<Market>) {
    forall k :: 0 <= k < |markets| ==> Pool(Rows(markets[k].bets)) <= Granted(ledger)
  }

  ghost predicate Books(cfg: Config, s: State) {
    && CellsNet(cfg, s.ledger, s.markets)
    && NoEarlyCredit(s.ledger, s.markets)
    && Sum(Amount(), s.ledger) + Sum(Held(cfg), s.markets) == Granted(s.ledger)
    && PoolsCovered(s.ledger, s.markets)
    && (forall k :: 0 <= k < |s.markets| && s.markets[k].status == Settled ==> ValidRake(cfg.rakeBps))
  }

  ghost predicate Sound(cfg: Config, s: State) {
    Consistent(s) && Books(cfg, s)
  }

  /** Settlement computes exactly, or rounds to 28 digits on no more than POOL_LIMIT cents. */
  ghost predicate Reliable(cfg: Config, cents: int) {
    cfg.rnd == Exact() || (IsRounding(cfg.rnd) && cents <= POOL_LIMIT)
  }

  lemma {:induction false} ReliableRounds(cfg: Config, cents: int)
    requires Reliable(cfg, cents)
    ensures IsRounding(cfg.rnd)
  {
    SettlementLaws.ExactIsRounding();
  }

  // ------------------------------------------------------------------ pieces

  lemma {:induction false} HasEntryAppend(ledger: seq<Entry>, es: seq<Entry>, m: nat, k: nat, kind: EntryKind)
    ensures HasEntry(ledger + es, m, k, kind) <==> HasEntry(ledger, m, k, kind) || HasEntry(es, m, k, kind)
  {
    var l := ledger + es;
    if HasEntry(l, m, k, kind) {
      var i :| 0 <= i < |l| && Matches(l[i], m, k, kind);
      assert if i < |ledger| then Matches(ledger[i], m, k, kind) else Matches(es[i - |ledger|], m, k, kind);
    }
    if HasEntry(ledger, m, k, kind) {
      var i :| 0 <= i < |ledger| && Matches(ledger[i], m, k, kind);
      assert Matches(l[i], m, k, kind);
    }
    if HasEntry(es, m, k, kind) {
      var i :| 0 <= i < |es| && Matches(es[i], m, k, kind);
      assert Matches(l[|ledger| + i], m, k, kind);
    }
  }

  /** Entries that are no credits leave the credit discipline alone. */
  lemma {:induction false} NoEarlyCreditGrows(ledger: seq<Entry>, es: seq<Entry>, markets: seq<Market>)
    requires NoEarlyCredit(ledger, markets) && forall e :: e in es ==> !CreditKind(e.kind)
    ensures NoEarlyCredit(ledger + es, markets)
  {
    forall m: nat, k: nat, kind | CreditKind(kind)
      ensures HasEntry(ledger + es, m, k, kind) <==> HasEntry(ledger, m, k, kind)
    {
      HasEntryAppend(ledger, es, m, k, kind);
    }
  }

  lemma {:induction false} SumsAppend(ledger: seq<Entry>, es: seq<Entry>)
    ensures Sum(Amount(), ledger + es) == Sum(Amount(), ledger) + Sum(Amount(), es)
    ensures Granted(ledger + es) == Granted(ledger) + Granted(es)
    ensures forall m: nat, k: nat :: Cell(ledger + es, m, k) == Cell(ledger, m, k) + Cell(es, m, k)
  {
    SumAppend(Amount(), ledger, es);
    SumAppend(GrantAmount(), ledger, es);
    forall m: nat, k: nat ensures Cell(ledger + es, m, k) == Cell(ledger, m, k) + Cell(es, m, k) {
      SumAppend(OfCell(m, k), ledger, es);
    }
  }

  lemma {:induction false} GrantsGrow(s: State, t: State)
    requires Consistent(t) && s.ledger <= t.ledger
    ensures Granted(s.ledger) <= Granted(t.ledger)
  {
    var more := t.ledger[|s.ledger|..];
    assert t.ledger == s.ledger + more;
    SumAppend(GrantAmount(), s.ledger, more);
    forall e | e in more ensures GrantAmount()(e) >= 0 {
      assert e in t.ledger;
    }
    SumNonNegative(GrantAmount(), more);
  }

  /** A live market changes without touching its bets and stays live. */
  lemma {:induction false} LiveMarketStep(cfg: Config, s: State, k: nat, mk: Market)
    requires Books(cfg, s) && k < |s.markets|
    requires mk.bets == s.markets[k].bets && !Terminal(mk.status) && !Terminal(s.markets[k].status)
    ensures Books(cfg, s.(markets := s.markets[k := mk]))
  {
    var next := s.markets[k := mk];
    SumUpdate(Held(cfg), s.markets, k, mk);
    forall m: nat, j: nat | j < |next|
      ensures Cell(s.ledger, m, j) == CellNet(cfg, next[j], m)
      ensures next[j].status != Settled ==> !HasEntry(s.ledger, m, j, Payout)
      ensures next[j].status != Cancelled ==> !HasEntry(s.ledger, m, j, CancelRefund)
    {
      assert Cell(s.ledger, m, j) == CellNet(cfg, s.markets[j], m);
      assert s.markets[j].status != Settled ==> !HasEntry(s.ledger, m, j, Payout);
    }
    assert Pool(Rows(s.markets[k].bets)) <= Granted(s.ledger);
  }

  // ------------------------------------------------------------------ members and markets

  lemma {:induction false} GrantEntrySums(e: Entry)
    requires e.kind == Grant && e.market == None
    ensures Sum(Amount(), [e]) == Granted([e]) == e.amount
    ensures forall m: nat, k: nat :: Cell([e], m, k) == 0
  {
    assert [e] == [] + [e];
    SumSnoc(Amount(), [], e);
    SumSnoc(GrantAmount(), [], e);
    forall m: nat, k: nat ensures Cell([e], m, k) == 0 {
      SumZero(OfCell(m, k), [e]);
    }
  }

  /** Entries that touch no market and grant what they add. */
  lemma {:induction false} GrantKeepsBooks(cfg: Config, s: State, e: Entry)
    requires Books(cfg, s) && e.kind == Grant && e.market == None && e.amount >= 0
    ensures CellsNet(cfg, s.ledger + [e], s.markets)
    ensures Sum(Amount(), s.ledger + [e]) + Sum(Held(cfg), s.markets) == Granted(s.ledger + [e])
    ensures PoolsCovered(s.ledger + [e], s.markets)
  {
    GrantEntrySums(e);
    SumsAppend(s.ledger, [e]);
    forall m: nat, k: nat | k < |s.markets| ensures Cell(s.ledger + [e], m, k) == CellNet(cfg, s.markets[k], m) {
      assert Cell(s.ledger, m, k) == CellNet(cfg, s.markets[k], m);
    }
    forall k | 0 <= k < |s.markets| ensures Pool(Rows(s.markets[k].bets)) <= Granted(s.ledger + [e]) {
      assert Pool(Rows(s.markets[k].bets)) <= Granted(s.ledger);
    }
  }

  lemma {:induction false} CreateMemberSound(cfg: Config, s: State)
    requires Sound(cfg, s)
    ensures Sound(cfg, CreateMember(cfg, s))
  {
    var e := Entry(|s.members|, None, Grant, cfg.initialPoints);
    CreateMemberConsistent(cfg, s);
    GrantKeepsBooks(cfg, s, e);
    NoEarlyCreditGrows(s.ledger, [e], s.markets);
  }

  lemma {:induction false} UnknownMarketEmpty(s: State, m: nat, k: nat)
    requires Consistent(s) && k >= |s.markets|
    ensures Cell(s.ledger, m, k) == 0
    ensures forall kind :: !HasEntry(s.ledger, m, k, kind)
  {
    forall e | e in s.ledger ensures e.market != Some(k) {
      assert EntryWell(e, |s.members|, |s.markets|);
    }
    SumZero(OfCell(m, k), s.ledger);
    forall kind ensures !HasEntry(s.ledger, m, k, kind) {
      forall i | 0 <= i < |s.ledger| ensures !Matches(s.ledger[i], m, k, kind) {
        assert s.ledger[i] in s.ledger;
      }
    }
  }

  lemma {:induction false} CreateMarketSound(cfg: Config, s: State, mk: Market)
    requires Sound(cfg, s) && mk.status == Open && mk.bets == [] && mk.reference == None && mk.winner == None && mk.notional > 0
    ensures Sound(cfg, s.(markets := s.markets + [mk]))
  {
    CreateMarketConsistent(s, mk);
    SumSnoc(Held(cfg), s.markets, mk);
    RowsKeepStakes([]);
    GrantsNonNegative(s);
    forall m: nat ensures Cell(s.ledger, m, |s.markets|) == 0 {
      UnknownMarketEmpty(s, m, |s.markets|);
    }
    forall m: nat, kind ensures !HasEntry(s.ledger, m, |s.markets|, kind) {
      UnknownMarketEmpty(s, m, |s.markets|);
    }
    NewMarketBooks(cfg, s, mk);
  }

  lemma {:induction false} NewMarketBooks(cfg: Config, s: State, mk: Market)
    requires Books(cfg, s) && mk.status == Open && mk.bets == [] && Granted(s.ledger) >= 0
    requires Sum(Held(cfg), s.markets + [mk]) == Sum(Held(cfg), s.markets)
    requires forall m: nat :: Cell(s.ledger, m, |s.markets|) == 0
    requires forall m: nat, kind :: !HasEntry(s.ledger, m, |s.markets|, kind)
    requires Pool(Rows([])) == 0
    ensures Books(cfg, s.(markets := s.markets + [mk]))
  {
    var markets := s.markets + [mk];
    forall m: nat, k: nat | k < |markets|
      ensures Cell(s.ledger, m, k) == CellNet(cfg, markets[k], m)
    {
      if k < |s.markets| {
        assert Cell(s.ledger, m, k) == CellNet(cfg, s.markets[k], m);
      }
    }
    forall m: nat, k: nat | k < |markets|
      ensures markets[k].status != Settled ==> !HasEntry(s.ledger, m, k, Payout)
      ensures markets[k].status != Cancelled ==> !HasEntry(s.ledger, m, k, CancelRefund)
    {
      if k < |s.markets| {
        assert s.markets[k].status != Settled ==> !HasEntry(s.ledger, m, k, Payout);
      }
    }
  }

  lemma {:induction false} GrantsNonNegative(s: State)
    requires Consistent(s)
    ensures Granted(s.ledger) >= 0
  {
    forall e | e in s.ledger ensures GrantAmount()(e) >= 0 {
    }
    SumNonNegative(GrantAmount(), s.ledger);
  }

  // ------------------------------------------------------------------ allocations

  lemma {:induction false} HeldNonNegative(cfg: Config, s: State)
    requires Sound(cfg, s) && Reliable(cfg, Granted(s.ledger))
    ensures forall mk :: mk in s.markets ==> Held(cfg)(mk) == LiveStake()(mk) + RakeKept(cfg)(mk) >= 0
    ensures forall mk :: mk in s.markets && mk.status == Settled && mk.winner.Some? && Pool(Rows(mk.bets)) > 0 ==>
      Total(Paid(cfg, mk)) > 0
  {
    forall mk | mk in s.markets
      ensures Held(cfg)(mk) == LiveStake()(mk) + RakeKept(cfg)(mk) >= 0
      ensures mk.status == Settled && mk.winner.Some? && Pool(Rows(mk.bets)) > 0 ==> Total(Paid(cfg, mk)) > 0
    {
      var k :| 0 <= k < |s.markets| && s.markets[k] == mk;
      assert Pool(Rows(s.markets[k].bets)) <= Granted(s.ledger);
      HeldMarket(cfg, mk);
    }
  }

  lemma {:induction false} HeldMarket(cfg: Config, mk: Market)
    requires Reliable(cfg, Pool(Rows(mk.bets)))
    requires mk.status == Settled ==> ValidRake(cfg.rakeBps) && mk.winner.Some?
    ensures Held(cfg)(mk) == LiveStake()(mk) + RakeKept(cfg)(mk) >= 0
    ensures Held(cfg)(mk) <= Pool(Rows(mk.bets))
    ensures mk.status == Settled && Pool(Rows(mk.bets)) > 0 ==> Total(Paid(cfg, mk)) > 0
  {
    var rows := Rows(mk.bets);
    PoolsOrdered(rows, Buy, 0);
    if mk.status == Settled {
      var w := mk.winner.value;
      PoolsOrdered(rows, w, cfg.rakeBps);
      if WinningPool(rows, w) > 0 {
        if cfg.rnd == Exact() {
          SettlementLaws.ExactSettlement(rows, w, cfg.rakeBps);
        } else {
          SettlementLaws.RoundedSettlement(cfg.rnd, rows, w, cfg.rakeBps);
        }
      } else {
        SettlementLaws.PayoutsWithoutWinner(cfg.rnd, rows, w, cfg.rakeBps);
      }
    }
  }

  /** No member can spend more than the grants leave outside the market's own pool. */
  lemma {:induction false} BalanceOutsidePool(cfg: Config, s: State, k: nat, m: nat)
    requires Sound(cfg, s) && Reliable(cfg, Granted(s.ledger))
    requires k < |s.markets| && m < |s.members| && !Terminal(s.markets[k].status)
    ensures Balance(s.ledger, m) + Pool(Rows(s.markets[k].bets)) <= Granted(s.ledger)
  {
    BalancesAddUp(s.ledger, |s.members|);
    BalanceBelowSum(s.ledger, |s.members|, m);
    HeldNonNegative(cfg, s);
    SumNonNegative(Held(cfg), s.markets);
    assert s.markets[k] in s.markets;
  }

  lemma {:induction false} AllocateCells(cfg: Config, s: State, k: nat, m: nat, cleaned: seq<Lot>, next: Market)
    requires CellsNet(cfg, s.ledger, s.markets) && k < |s.markets| && s.markets[k].status == Open
    requires next == s.markets[k].(bets := ReplacedBets(s.markets[k].bets, m, cleaned))
    requires Previous(s.markets[k].bets, m) >= 0
    ensures CellsNet(cfg, s.ledger + AllocationEntries(k, m, Previous(s.markets[k].bets, m), Sum(LotAmount(), cleaned)),
                     s.markets[k := next])
  {
    var bets := s.markets[k].bets;
    var previous, total := Previous(bets, m), Sum(LotAmount(), cleaned);
    var es := AllocationEntries(k, m, previous, total);
    forall q: nat, j: nat | j < |s.markets| ensures Cell(s.ledger + es, q, j) == CellNet(cfg, s.markets[k := next][j], q) {
      assert Cell(s.ledger, q, j) == CellNet(cfg, s.markets[j], q);
      SumsAppend(s.ledger, es);
      AllocationBalance(k, m, previous, total, q);
      assert Cell(s.ledger + es, q, j) == Cell(s.ledger, q, j) + Cell(es, q, j);
      ReplacedStakes(bets, m, cleaned, q);
    }
  }

  lemma {:induction false} AllocateTotals(cfg: Config, s: State, k: nat, m: nat, cleaned: seq<Lot>, next: Market)
    requires k < |s.markets| && s.markets[k].status == Open && Previous(s.markets[k].bets, m) >= 0
    requires next == s.markets[k].(bets := ReplacedBets(s.markets[k].bets, m, cleaned))
    requires PositiveStakes(s.markets[k].bets) && PositiveStakes(next.bets)
    ensures var es := AllocationEntries(k, m, Previous(s.markets[k].bets, m), Sum(LotAmount(), cleaned));
      && Sum(Amount(), s.ledger + es) + Sum(Held(cfg), s.markets[k := next]) == Sum(Amount(), s.ledger) + Sum(Held(cfg), s.markets)
      && Granted(s.ledger + es) == Granted(s.ledger)
      && Pool(Rows(next.bets)) == Pool(Rows(s.markets[k].bets)) - Previous(s.markets[k].bets, m) + Sum(LotAmount(), cleaned)
  {
    var bets := s.markets[k].bets;
    var previous, total := Previous(bets, m), Sum(LotAmount(), cleaned);
    AllocationBalance(k, m, previous, total, m);
    SumsAppend(s.ledger, AllocationEntries(k, m, previous, total));
    RowsKeepStakes(bets);
    RowsKeepStakes(next.bets);
    ReplacedPool(bets, m, cleaned);
    SumUpdate(Held(cfg), s.markets, k, next);
  }

  lemma {:induction false} AllocateSound(cfg: Config, s: State, k: nat, m: nat, lots: seq<Lot>, now: int)
    requires Sound(cfg, s) && Reliable(cfg, Granted(s.ledger))
    requires DistinctOutcomes(lots) && PlaceAllocation(cfg, s, k, m, lots, now).Ok?
    ensures Sound(cfg, PlaceAllocation(cfg, s, k, m, lots, now).value)
  {
    var t := PlaceAllocation(cfg, s, k, m, lots, now).value;
    AllocateConsistent(cfg, s, k, m, lots, now);
    AllocateEffect(cfg, s, k, m, lots, now);
    AllocateBooks(cfg, s, k, m, Cleaned(lots), t);
  }

  lemma {:induction false} AllocateEffect(cfg: Config, s: State, k: nat, m: nat, lots: seq<Lot>, now: int)
    requires PlaceAllocation(cfg, s, k, m, lots, now).Ok?
    ensures Allocated(s, k, m, Cleaned(lots), PlaceAllocation(cfg, s, k, m, lots, now).value)
    ensures Sum(LotAmount(), Cleaned(lots)) <= Balance(s.ledger, m) + Previous(s.markets[k].bets, m)
  {
  }

  ghost predicate Allocated(s: State, k: nat, m: nat, cleaned: seq<Lot>, t: State) {
    && k < |s.markets| && m < |s.members| && s.markets[k].status == Open
    && t.members == s.members
    && t.markets == s.markets[k := s.markets[k].(bets := ReplacedBets(s.markets[k].bets, m, cleaned))]
    && t.ledger == s.ledger + AllocationEntries(k, m, Previous(s.markets[k].bets, m), Sum(LotAmount(), cleaned))
  }

  lemma {:induction false} AllocatedCredits(s: State, k: nat, m: nat, cleaned: seq<Lot>, t: State)
    requires NoEarlyCredit(s.ledger, s.markets) && Allocated(s, k, m, cleaned, t)
    ensures NoEarlyCredit(t.ledger, t.markets)
  {
    NoEarlyCreditGrows(s.ledger, AllocationEntries(k, m, Previous(s.markets[k].bets, m), Sum(LotAmount(), cleaned)), s.markets);
    SameStatuses(t.ledger, s.markets, t.markets);
  }

  lemma {:induction false} AllocatedSums(cfg: Config, s: State, k: nat, m: nat, cleaned: seq<Lot>, t: State, room: int)
    requires Books(cfg, s) && Allocated(s, k, m, cleaned, t)
    requires PositiveStakes(s.markets[k].bets) && PositiveStakes(t.markets[k].bets)
    requires Previous(s.markets[k].bets, m) >= 0
    requires Sum(LotAmount(), cleaned) <= room + Previous(s.markets[k].bets, m)
    requires room + Pool(Rows(s.markets[k].bets)) <= Granted(s.ledger)
    ensures CellsNet(cfg, t.ledger, t.markets) && PoolsCovered(t.ledger, t.markets)
    ensures Sum(Amount(), t.ledger) + Sum(Held(cfg), t.markets) == Granted(t.ledger)
  {
    AllocateCells(cfg, s, k, m, cleaned, t.markets[k]);
    AllocateTotals(cfg, s, k, m, cleaned, t.markets[k]);
    PoolsStillCovered(s.ledger, s.markets, k, t.markets[k], t.ledger);
  }

  lemma {:induction false} AllocateBooks(cfg: Config, s: State, k: nat, m: nat, cleaned: seq<Lot>, t: State)
    requires Sound(cfg, s) && Reliable(cfg, Granted(s.ledger))
    requires Allocated(s, k, m, cleaned, t) && MarketsWell(t.markets, |s.members|)
    requires Sum(LotAmount(), cleaned) <= Balance(s.ledger, m) + Previous(s.markets[k].bets, m)
    ensures Books(cfg, t)
  {
    assert MarketWell(s.markets[k], |s.members|) && MarketWell(t.markets[k], |s.members|);
    StakesNonNegative(s.markets[k].bets, m);
    BalanceOutsidePool(cfg, s, k, m);
    AllocatedSums(cfg, s, k, m, cleaned, t, Balance(s.ledger, m));
    AllocatedCredits(s, k, m, cleaned, t);
  }

  lemma {:induction false} PoolsStillCovered(ledger: seq<Entry>, markets: seq<Market>, k: nat, next: Market, after: seq<Entry>)
    requires PoolsCovered(ledger, markets) && k < |markets| && Granted(after) == Granted(ledger)
    requires Pool(Rows(next.bets)) <= Granted(ledger)
    ensures PoolsCovered(after, markets[k := next])
  {
    var all := markets[k := next];
    forall j | 0 <= j < |all| ensures Pool(Rows(all[j].bets)) <= Granted(after) {
      assert Pool(Rows(markets[j].bets)) <= Granted(ledger);
    }
  }

  lemma {:induction false} SameStatuses(ledger: seq<Entry>, before: seq<Market>, after: seq<Market>)
    requires NoEarlyCredit(ledger, before) && |after| == |before|
    requires forall j :: 0 <= j < |before| ==> after[j].status == before[j].status
    ensures NoEarlyCredit(ledger, after)
  {
    forall q: nat, j: nat | j < |after|
      ensures after[j].status != Settled ==> !HasEntry(ledger, q, j, Payout)
      ensures after[j].status != Cancelled ==> !HasEntry(ledger, q, j, CancelRefund)
    {
      assert before[j].status != Settled ==> !HasEntry(ledger, q, j, Payout);
    }
  }

  // ------------------------------------------------------------------ settling and cancelling

  lemma {:induction false} ShareNonNegative(rnd: real -> real, d: int, a: int, w: int)
    requires IsRounding(rnd) && d >= 0 && a >= 0 && w > 0
    ensures Share(rnd, d, a, w) >= 0
  {
    var r, q, y := ShareSteps(rnd, d, a, w);
    NonNegativeStep(d as real, a as real, w as real, r, q, y);
  }

  lemma {:induction false} NonNegativeStep(d: real, a: real, w: real, r: real, q: real, y: real)
    requires d >= 0.0 && a >= 0.0 && w > 0.0 && r == Quotient(a, w)
    requires Near(q, r) && (Arithmetic.Times(d, q) >= 0.0 ==> Near(y, Arithmetic.Times(d, q)))
    ensures y >= 0.0
  {
    RatioBack(a, w);
    assert q >= 0.0;
    SettlementLaws.TimesMonotone(d, 0.0, q);
  }

  lemma {:induction false} PayoutsNonNegative(rnd: real -> real, rows: seq<Stake>, w: Outcome, bps: int)
    requires IsRounding(rnd) && ValidRake(bps)
    ensures forall m: nat :: Get(Payouts(rnd, rows, w, bps), m) >= 0
    ensures forall c :: c in Payouts(rnd, rows, w, bps) ==> c.amount >= 0
  {
    var p := Payouts(rnd, rows, w, bps);
    PoolsOrdered(rows, w, bps);
    WinningPoolPositive(rows, w);
    FilterMembers(Positive(), rows);
    if WinningPool(rows, w) > 0 {
      var d, wp := Distributable(rows, w, bps), WinningPool(rows, w);
      SettlementLaws.PayoutsWithWinner(rnd, rows, w, bps);
      forall r | r in Winners(rows, w) ensures ShareOf(rnd, d, wp)(r) >= 0 {
        ShareNonNegative(rnd, d, r.amount, wp);
      }
      AccrueNonNegative(ShareOf(rnd, d, wp), Winners(rows, w));
      AccrueMeaning(ShareOf(rnd, d, wp), Winners(rows, w));
    } else {
      SettlementLaws.PayoutsWithoutWinner(rnd, rows, w, bps);
      AccrueNonNegative(StakeAmount(), Staked(rows));
      AccrueMeaning(StakeAmount(), Staked(rows));
    }
    forall c | c in p ensures c.amount >= 0 {
      var i :| 0 <= i < |p| && p[i] == c;
      GetAt(p, i);
    }
  }

  /** Appending credits touches only the credited market's cells and kinds. */
  lemma {:induction false} CreditsElsewhere(ledger: seq<Entry>, k: nat, kind: EntryKind, credits: seq<Credit>)
    requires DistinctMembers(credits) && CreditKind(kind)
    ensures var l := ledger + NewEntries(ledger, k, kind, credits);
      && (forall m: nat, j: nat :: j != k ==> Cell(l, m, j) == Cell(ledger, m, j))
      && (forall m: nat :: Cell(l, m, k) == Cell(ledger, m, k) + Fresh(ledger, k, kind, credits, m))
      && (forall m: nat, j: nat, other :: j != k || other != kind ==>
            (HasEntry(l, m, j, other) <==> HasEntry(ledger, m, j, other)))
      && Granted(l) == Granted(ledger)
      && Sum(Amount(), l) == Sum(Amount(), ledger) + Sum(Amount(), NewEntries(ledger, k, kind, credits))
  {
    var es := NewEntries(ledger, k, kind, credits);
    NewEntriesShape(ledger, k, kind, credits);
    SumsAppend(ledger, es);
    SumZero(GrantAmount(), es);
    var l := ledger + es;
    forall m: nat ensures Cell(l, m, k) == Cell(ledger, m, k) + Fresh(ledger, k, kind, credits, m) {
      NewEntriesSums(ledger, k, kind, credits, m);
    }
    forall m: nat, j: nat | j != k ensures Cell(l, m, j) == Cell(ledger, m, j) {
      NewEntriesSums(ledger, k, kind, credits, m);
    }
    forall m: nat, j: nat, other | j != k || other != kind
      ensures HasEntry(ledger + es, m, j, other) <==> HasEntry(ledger, m, j, other)
    {
      HasEntryAppend(ledger, es, m, j, other);
      forall i | 0 <= i < |es| ensures !Matches(es[i], m, j, other) {
        assert es[i] in es;
      }
    }
  }

  /** Moving market k to a terminal status together with the credits that go with it. */
  lemma {:induction false} TerminalStep(cfg: Config, s: State, k: nat, next: Market, kind: EntryKind, credits: seq<Credit>)
    requires Books(cfg, s) && k < |s.markets| && !Terminal(s.markets[k].status)
    requires Rows(next.bets) == Rows(s.markets[k].bets)
    requires (kind == Payout && next.status == Settled && ValidRake(cfg.rakeBps)) || (kind == CancelRefund && next.status == Cancelled)
    requires DistinctMembers(credits) && forall c :: c in credits ==> c.amount >= 0
    requires Held(cfg)(next) == Pool(Rows(s.markets[k].bets)) - Total(credits)
    requires forall m: nat :: CellNet(cfg, next, m) == Get(credits, m) - Sum(StakeBy(m), s.markets[k].bets)
    ensures Books(cfg, s.(markets := s.markets[k := next], ledger := s.ledger + NewEntries(s.ledger, k, kind, credits)))
  {
    hide NewEntries, Payouts, Consistent;
    var t := s.(markets := s.markets[k := next], ledger := s.ledger + NewEntries(s.ledger, k, kind, credits));
    CreditsElsewhere(s.ledger, k, kind, credits);
    forall m: nat ensures !HasEntry(s.ledger, m, k, kind) {
      assert s.markets[k].status != Settled && s.markets[k].status != Cancelled;
    }
    NewEntriesTotal(s.ledger, k, kind, credits);
    SumUpdate(Held(cfg), s.markets, k, next);
    forall m: nat, j: nat | j < |t.markets|
      ensures Cell(t.ledger, m, j) == CellNet(cfg, t.markets[j], m)
      ensures t.markets[j].status != Settled ==> !HasEntry(t.ledger, m, j, Payout)
      ensures t.markets[j].status != Cancelled ==> !HasEntry(t.ledger, m, j, CancelRefund)
    {
      assert Cell(s.ledger, m, j) == CellNet(cfg, s.markets[j], m);
      assert s.markets[j].status != Settled ==> !HasEntry(s.ledger, m, j, Payout);
      if j == k {
        WholeCredit(s.ledger, k, kind, credits, m);
      }
    }
    assert Pool(Rows(s.markets[k].bets)) <= Granted(s.ledger);
  }

  lemma {:induction false} WholeCredit(ledger: seq<Entry>, k: nat, kind: EntryKind, credits: seq<Credit>, m: nat)
    requires DistinctMembers(credits) && !HasEntry(ledger, m, k, kind) && forall c :: c in credits ==> c.amount >= 0
    ensures Fresh(ledger, k, kind, credits, m) == Get(credits, m)
  {
    if Has(credits, m) {
      var i :| 0 <= i < |credits| && credits[i].member == m;
      GetAt(credits, i);
      assert credits[i] in credits;
    } else {
      GetAbsent(credits, m);
    }
  }

  lemma {:induction false} SettleSound(cfg: Config, s: State, k: nat)
    requires Sound(cfg, s) && IsRounding(cfg.rnd) && SettleMarket(cfg, s, k).Ok?
    ensures Sound(cfg, SettleMarket(cfg, s, k).value)
  {
    var t := SettleMarket(cfg, s, k).value;
    SettleConsistent(cfg, s, k);
    var mk, next := s.markets[k], t.markets[k];
    var p := Paid(cfg, mk);
    assert MarketWell(mk, |s.members|);
    PayoutKeys(cfg.rnd, mk.bets, mk.winner.value, cfg.rakeBps, |s.members|);
    PayoutsNonNegative(cfg.rnd, Rows(mk.bets), mk.winner.value, cfg.rakeBps);
    PayoutRowsWell(RowPayout(p, StakeTotals(mk.bets)), mk.bets, |s.members|);
    assert Paid(cfg, next) == p;
    forall m: nat ensures CellNet(cfg, next, m) == Get(p, m) - Sum(StakeBy(m), mk.bets) {
      RowsKeepStakes(mk.bets);
      RowsKeepStakes(next.bets);
      assert SettlementLaws.StakeOf(Rows(mk.bets), m) == Sum(StakeBy(m), mk.bets);
      assert SettlementLaws.StakeOf(Rows(next.bets), m) == Sum(StakeBy(m), next.bets);
    }
    TerminalStep(cfg, s, k, next, Payout, p);
  }

  lemma {:induction false} RefundsAreStakes(bets: seq<Bet>)
    requires PositiveStakes(bets)
    ensures Total(StakeTotals(bets)) == Pool(Rows(bets))
    ensures forall m: nat :: Get(StakeTotals(bets), m) == Sum(StakeBy(m), bets)
  {
    RowsKeepStakes(bets);
    AccrueMeaning(StakeAmount(), Rows(bets));
    forall m: nat ensures Get(StakeTotals(bets), m) == Sum(StakeBy(m), bets) {
      assert SettlementLaws.StakeOf(Rows(bets), m) == Sum(StakeBy(m), bets);
    }
  }

  lemma {:induction false} CancelSound(cfg: Config, s: State, k: nat)
    requires Sound(cfg, s) && CancelMarket(s, k).Ok?
    ensures Sound(cfg, CancelMarket(s, k).value)
  {
    var t := CancelMarket(s, k).value;
    CancelConsistent(s, k);
    var mk, next := s.markets[k], t.markets[k];
    assert MarketWell(mk, |s.members|);
    PayoutKeys(cfg.rnd, mk.bets, Buy, 0, |s.members|);
    RefundsAreStakes(mk.bets);
    TerminalStep(cfg, s, k, next, CancelRefund, StakeTotals(mk.bets));
  }

  // ------------------------------------------------------------------ runs

  lemma {:induction false} CloseSound(cfg: Config, s: State, k: nat, quote: Option<int>)
    requires Sound(cfg, s) && CloseMarket(s, k, quote).Ok?
    ensures Books(cfg, CloseMarket(s, k, quote).value)
  {
    LiveMarketStep(cfg, s, k, CloseMarket(s, k, quote).value.markets[k]);
  }

  lemma {:induction false} DecideEffect(cfg: Config, s: State, k: nat, quote: Option<int>)
    requires BuildDecision(cfg, s, k, quote).Ok?
    ensures var t := BuildDecision(cfg, s, k, quote).value;
      && k < |s.markets| && s.markets[k].status == Closed
      && t.ledger == s.ledger && t.members == s.members
      && t.markets == s.markets[k := s.markets[k].(status := Decided)]
  {
  }

  lemma {:induction false} DecideSound(cfg: Config, s: State, k: nat, quote: Option<int>)
    requires Sound(cfg, s) && BuildDecision(cfg, s, k, quote).Ok?
    ensures Books(cfg, BuildDecision(cfg, s, k, quote).value)
  {
    DecideEffect(cfg, s, k, quote);
    DecidedBooks(cfg, s, k, BuildDecision(cfg, s, k, quote).value);
  }

  lemma {:induction false} DecidedBooks(cfg: Config, s: State, k: nat, t: State)
    requires Sound(cfg, s) && k < |s.markets| && s.markets[k].status == Closed
    requires t.ledger == s.ledger && t.markets == s.markets[k := s.markets[k].(status := Decided)]
    ensures Books(cfg, t)
  {
    LiveMarketStep(cfg, s, k, s.markets[k].(status := Decided));
    SameBooks(cfg, s.(markets := t.markets), t);
  }

  lemma {:induction false} ResolveSound(cfg: Config, s: State, k: nat, quote: Option<int>)
    requires Sound(cfg, s) && ResolveMarket(s, k, quote).Ok?
    ensures Books(cfg, ResolveMarket(s, k, quote).value)
  {
    LiveMarketStep(cfg, s, k, ResolveMarket(s, k, quote).value.markets[k]);
  }

  lemma {:induction false} SameBooks(cfg: Config, s: State, t: State)
    requires Books(cfg, s) && t.ledger == s.ledger && t.markets == s.markets
    ensures Books(cfg, t)
  {
  }

  lemma {:induction false} ApproveSound(cfg: Config, s: State, d: nat, env: Env)
    requires Sound(cfg, s) && Guarded(s, Approve(d, env))
    ensures Books(cfg, ExecuteDecision(cfg, s, d, env).db)
  {
    ExecuteEffect(cfg, s, d, env);
    var a := ExecuteDecision(cfg, s, d, env);
    if a.error.None? {
      var k := s.decisions[d].market;
      LiveMarketStep(cfg, s, k, s.markets[k].(status := MarketStatus.Executed));
      SameBooks(cfg, s.(markets := a.db.markets), a.db);
    } else {
      SameBooks(cfg, s, a.db);
    }
  }

  lemma {:induction false} PayingSound(cfg: Config, s: State, step: Step)
    requires Sound(cfg, s) && Reliable(cfg, Granted(s.ledger)) && Paying(step)
    ensures Sound(cfg, Apply(cfg, s, step))
  {
    match step {
      case NewMember => CreateMemberSound(cfg, s);
      case Allocate(k, m, lots, now) =>
        if PlaceAllocation(cfg, s, k, m, lots, now).Ok? { AllocateSound(cfg, s, k, m, lots, now); }
      case SettleUp(k) =>
        if SettleMarket(cfg, s, k).Ok? {
          ReliableRounds(cfg, Granted(s.ledger));
          SettleSound(cfg, s, k);
        }
      case Cancel(k) =>
        if CancelMarket(s, k).Ok? { CancelSound(cfg, s, k); }
    }
  }

  /** Calls on markets, decisions, members and positions that leave the ledger alone. */
  lemma {:induction false} ProgressBooks(cfg: Config, s: State, step: Step)
    requires Sound(cfg, s) && Single(step) && !Paying(step) && !step.NewMarket? && Guarded(s, step)
    ensures Books(cfg, Apply(cfg, s, step))
  {
    match step {
      case Close(k, q) =>
        if CloseMarket(s, k, q).Ok? { CloseSound(cfg, s, k, q); }
      case Decide(k, q) =>
        if BuildDecision(cfg, s, k, q).Ok? { DecideSound(cfg, s, k, q); }
      case Approve(d, env) => ApproveSound(cfg, s, d, env);
      case Resolve(k, q) =>
        if ResolveMarket(s, k, q).Ok? { ResolveSound(cfg, s, k, q); }
      case _ => SameBooks(cfg, s, Apply(cfg, s, step));
    }
  }

  lemma {:induction false} SingleSound(cfg: Config, s: State, step: Step)
    requires Sound(cfg, s) && Reliable(cfg, Granted(s.ledger))
    requires Single(step) && Guarded(s, step)
    ensures Sound(cfg, Apply(cfg, s, step))
  {
    if Paying(step) {
      PayingSound(cfg, s, step);
    } else if step.NewMarket? {
      NewMarketSound(cfg, s, step);
    } else {
      SingleConsistent(cfg, s, step);
      ProgressBooks(cfg, s, step);
    }
  }

  lemma {:induction false} NewMarketSound(cfg: Config, s: State, step: Step)
    requires Sound(cfg, s) && step.NewMarket?
    ensures Sound(cfg, Apply(cfg, s, step))
  {
    var answer := CreateMarket(cfg, s, step.fundExists, step.fund, step.ticker, step.closesAt, step.resolveAt, step.notional, step.buyPct,
                               step.sellPct);
    if answer.Ok? {
      CreateMarketSound(cfg, s, answer.value.markets[|s.markets|]);
    }
  }

  lemma {:induction false} AutomaticRunSound(cfg: Config, s: State, steps: seq<Step>)
    requires Sound(cfg, s) && Reliable(cfg, Granted(Run(cfg, s, steps).ledger))
    requires forall step :: step in steps ==> Automatic(step)
    ensures Sound(cfg, Run(cfg, s, steps))
    decreases |steps|
  {
    if steps != [] {
      assert steps[0] in steps;
      RunConsistent(cfg, s, steps);
      GrantsGrow(s, Run(cfg, s, steps));
      SingleSound(cfg, s, steps[0]);
      AutomaticRunSound(cfg, Apply(cfg, s, steps[0]), steps[1..]);
    }
  }

  lemma {:induction false} StepSound(cfg: Config, s: State, step: Step)
    requires Sound(cfg, s) && Guarded(s, step)
    requires Reliable(cfg, Granted(Apply(cfg, s, step).ledger))
    ensures Sound(cfg, Apply(cfg, s, step))
  {
    StepConsistent(cfg, s, step);
    GrantsGrow(s, Apply(cfg, s, step));
    if step.Scheduled? {
      var steps := TickIsRun(cfg, s, step.now, step.feeds);
      AutomaticRunSound(cfg, s, steps);
    } else {
      SingleSound(cfg, s, step);
    }
  }

  lemma {:induction false} GuardedRunSound(cfg: Config, s: State, steps: seq<Step>)
    requires Sound(cfg, s) && GuardedRun(cfg, s, steps)
    requires Reliable(cfg, Granted(Run(cfg, s, steps).ledger))
    ensures Sound(cfg, Run(cfg, s, steps))
    decreases |steps|
  {
    if steps != [] {
      var t := Apply(cfg, s, steps[0]);
      StepConsistent(cfg, s, steps[0]);
      RunConsistent(cfg, t, steps[1..]);
      GrantsGrow(t, Run(cfg, s, steps));
      StepSound(cfg, s, steps[0]);
      GuardedRunSound(cfg, t, steps[1..]);
    }
  }

  lemma {:induction false} SoundIsConserved(cfg: Config, s: State)
    requires Sound(cfg, s) && Reliable(cfg, Granted(s.ledger))
    ensures Conserved(cfg, s)
  {
    BalancesAddUp(s.ledger, |s.members|);
    HeldNonNegative(cfg, s);
    SumAdd(LiveStake(), RakeKept(cfg), Held(cfg), s.markets);
  }

  /**
   * Main result. After every guarded run, with any interleaving of the services and of scheduler ticks: balances
   * plus stakes in live markets plus the rake of settled markets equal the initial grants; and each member's
   * ledger nets, per market, minus the stake while it is live, payout minus stake once settled, zero once cancelled.
   */
  lemma {:induction false} GuardedRunsConserve(cfg: Config, steps: seq<Step>)
    requires GuardedRun(cfg, EMPTY, steps)
    requires Reliable(cfg, Granted(Run(cfg, EMPTY, steps).ledger))
    ensures var s := Run(cfg, EMPTY, steps);
      && Conserved(cfg, s)
      && (forall m: nat, k: nat :: k < |s.markets| ==> Cell(s.ledger, m, k) == CellNet(cfg, s.markets[k], m))
      && (forall m: nat, k: nat :: k < |s.markets| && HasEntry(s.ledger, m, k, Payout) ==> s.markets[k].status == Settled)
  {
    assert Sound(cfg, EMPTY);
    GuardedRunSound(cfg, EMPTY, steps);
    SoundIsConserved(cfg, Run(cfg, EMPTY, steps));
  }

  /**
   * The guard is exact: in a sound state, an approval that goes through keeps the books balanced if and only if the
   * market was neither settled nor cancelled, or nobody had staked on it.
   */
  lemma {:induction false} ApprovalConservesIff(cfg: Config, s: State, d: nat, env: Env)
    requires Sound(cfg, s) && Reliable(cfg, Granted(s.ledger))
    requires ExecuteDecision(cfg, s, d, env).error.None?
    ensures Conserved(cfg, ExecuteDecision(cfg, s, d, env).db)
      <==> !Terminal(s.markets[s.decisions[d].market].status) || Pool(Rows(s.markets[s.decisions[d].market].bets)) == 0
  {
    ExecuteEffect(cfg, s, d, env);
    var t := ExecuteDecision(cfg, s, d, env).db;
    var k := s.decisions[d].market;
    SoundIsConserved(cfg, s);
    if !Terminal(s.markets[k].status) {
      ApproveConserves(cfg, s, d, env);
    } else {
      RevivalBreaks(cfg, s, k);
      RevivedIsNotConserved(cfg, s, t, k);
    }
  }

  lemma {:induction false} ApproveConserves(cfg: Config, s: State, d: nat, env: Env)
    requires Sound(cfg, s) && Reliable(cfg, Granted(s.ledger))
    requires Guarded(s, Approve(d, env))
    ensures Conserved(cfg, ExecuteDecision(cfg, s, d, env).db)
  {
    ExecuteEffect(cfg, s, d, env);
    ExecuteConsistent(cfg, s, d, env);
    ApproveSound(cfg, s, d, env);
    SoundIsConserved(cfg, ExecuteDecision(cfg, s, d, env).db);
  }

  lemma {:induction false} RevivedIsNotConserved(cfg: Config, s: State, t: State, k: nat)
    requires Conserved(cfg, s) && t.ledger == s.ledger && t.members == s.members && k < |s.markets|
    requires t.markets == s.markets[k := s.markets[k].(status := MarketStatus.Executed)]
    ensures Conserved(cfg, t) <==>
      Sum(LiveStake(), t.markets) + Sum(RakeKept(cfg), t.markets) == Sum(LiveStake(), s.markets) + Sum(RakeKept(cfg), s.markets)
  {
  }

  /** Making a settled or cancelled market live again counts its pool a second time. */
  lemma {:induction false} RevivalBreaks(cfg: Config, s: State, k: nat)
    requires Sound(cfg, s) && Reliable(cfg, Granted(s.ledger))
    requires k < |s.markets| && Terminal(s.markets[k].status)
    ensures var next := s.markets[k := s.markets[k].(status := MarketStatus.Executed)];
      Sum(LiveStake(), next) + Sum(RakeKept(cfg), next) == Sum(LiveStake(), s.markets) + Sum(RakeKept(cfg), s.markets)
      <==> Pool(Rows(s.markets[k].bets)) == 0
  {
    var mk := s.markets[k];
    assert MarketWell(mk, |s.members|) && Pool(Rows(mk.bets)) <= Granted(s.ledger);
    HeldMarket(cfg, mk);
    HeldBelowPool(cfg, mk);
    RevivalSums(cfg, s.markets, k);
  }

  lemma {:induction false} RevivalSums(cfg: Config, markets: seq<Market>, k: nat)
    requires k < |markets| && Terminal(markets[k].status)
    requires Held(cfg)(markets[k]) == LiveStake()(markets[k]) + RakeKept(cfg)(markets[k])
    requires Held(cfg)(markets[k]) == Pool(Rows(markets[k].bets)) <==> Pool(Rows(markets[k].bets)) == 0
    ensures var next := markets[k := markets[k].(status := MarketStatus.Executed)];
      Sum(LiveStake(), next) + Sum(RakeKept(cfg), next) == Sum(LiveStake(), markets) + Sum(RakeKept(cfg), markets)
      <==> Pool(Rows(markets[k].bets)) == 0
  {
    var revived := markets[k].(status := MarketStatus.Executed);
    SumUpdate(LiveStake(), markets, k, revived);
    SumUpdate(RakeKept(cfg), markets, k, revived);
  }

  /** What a settled or cancelled market withholds is less than its pool, unless the pool is empty. */
  lemma {:induction false} HeldBelowPool(cfg: Config, mk: Market)
    requires Terminal(mk.status) && (mk.status == Settled ==> mk.winner.Some?)
    requires 0 <= Held(cfg)(mk) <= Pool(Rows(mk.bets))
    requires mk.status == Settled && Pool(Rows(mk.bets)) > 0 ==> Total(Paid(cfg, mk)) > 0
    ensures Held(cfg)(mk) == Pool(Rows(mk.bets)) <==> Pool(Rows(mk.bets)) == 0
  {
  }
}
