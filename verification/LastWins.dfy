/** Re-submitting an allocation: only the last accepted one counts. */
module LastWins {
  import opened Sums
  import opened Domain
  import opened Tables
  import opened Steps
  import opened LedgerLaws
  import opened Invariants
  import opened Conservation

  function By(m: nat): Bet -> bool { (b: Bet) => b.member == m }

  function Mine(s: State, m: nat, k: nat): seq<Bet>
    requires k < |s.markets|
  {
    Filter(By(m), s.markets[k].bets)
  }

  /** What m could spend on market k if the current allocation were refunded first. */
  function Available(s: State, m: nat, k: nat): int
    requires k < |s.markets|
  {
    Balance(s.ledger, m) + Previous(s.markets[k].bets, m)
  }

  /** Allocations by anyone, m's only on market k, and calls that move neither m's points nor market k. */
  predicate Quiet(step: Step, m: nat, k: nat) {
    || (step.Allocate? && (step.member == m ==> step.market == k))
    || step.NewMember? || step.NewMarket? || step.Activate? || step.Reject? || step.Sync?
  }

  predicate Accepted(cfg: Config, s: State, step: Step)
    requires step.Allocate?
  {
    PlaceAllocation(cfg, s, step.market, step.member, step.lots, step.now).Ok?
  }

  /** The last of m's allocations that the starting state s would accept. */
  function LastAccepted(cfg: Config, s: State, steps: seq<Step>, m: nat): Option<Step> {
    if steps == [] then None
    else
      var step := steps[|steps| - 1];
      if step.Allocate? && step.member == m && Accepted(cfg, s, step) then Some(step)
      else LastAccepted(cfg, s, steps[..|steps| - 1], m)
  }

  function After(cfg: Config, s: State, last: Option<Step>): State {
    match last
    case None => s
    case Some(step) => Apply(cfg, s, step)
  }

  /** s and t agree on everything a verdict on m's allocation to market k depends on. */
  ghost predicate Aligned(s: State, t: State, m: nat, k: nat) {
    && m < |s.members| && m < |t.members| && k < |s.markets| && k < |t.markets|
    && s.markets[k].status == t.markets[k].status && s.markets[k].closesAt == t.markets[k].closesAt
    && Available(s, m, k) == Available(t, m, k)
  }

  lemma {:induction false} SameVerdict(cfg: Config, s: State, t: State, step: Step)
    requires step.Allocate? && Aligned(s, t, step.member, step.market)
    ensures Accepted(cfg, s, step) == Accepted(cfg, t, step)
    ensures !Accepted(cfg, s, step) ==>
      PlaceAllocation(cfg, s, step.market, step.member, step.lots, step.now).error
      == PlaceAllocation(cfg, t, step.market, step.member, step.lots, step.now).error
  {
  }

  lemma {:induction false} FilterEmptyAppend<T>(p: T -> bool, xs: seq<T>, ys: seq<T>)
    requires forall x :: x in xs ==> !p(x)
    requires forall y :: y in ys ==> p(y)
    ensures Filter(p, xs + ys) == ys
  {
    FilterAppend(p, xs, ys);
    FilterNone(p, xs);
    FilterAll(p, ys);
  }

  lemma {:induction false} OthersFilter(bets: seq<Bet>, m: nat, q: nat)
    requires q != m
    ensures Filter(By(m), Filter(NotBy(q), bets)) == Filter(By(m), bets)
  {
    if bets != [] {
      var n := |bets| - 1;
      OthersFilter(bets[..n], m, q);
      if bets[n].member != q {
        FilterSnoc(By(m), Filter(NotBy(q), bets[..n]), bets[n]);
      }
    }
  }

  /** m's rows after someone's bets were replaced. */
  lemma {:induction false} MineReplaced(bets: seq<Bet>, q: nat, cleaned: seq<Lot>, m: nat)
    ensures Filter(By(m), ReplacedBets(bets, q, cleaned))
         == if q == m then Map(BetOf(m), cleaned) else Filter(By(m), bets)
  {
    var kept, placed := Filter(NotBy(q), bets), Map(BetOf(q), cleaned);
    FilterMembers(NotBy(q), bets);
    MapMembers(BetOf(q), cleaned);
    if q == m {
      FilterEmptyAppend(By(m), kept, placed);
    } else {
      FilterAppend(By(m), kept, placed);
      FilterNone(By(m), placed);
      OthersFilter(bets, m, q);
    }
  }

  /** What an accepted allocation by q on market j does to m's rows, balance and available points on k. */
  lemma {:induction false} AllocationEffect(s: State, j: nat, q: nat, cleaned: seq<Lot>, t: State, m: nat, k: nat)
    requires Allocated(s, j, q, cleaned, t) && k < |s.markets| && (q == m ==> j == k)
    requires Previous(s.markets[j].bets, q) >= 0
    ensures k < |t.markets| && t.markets[k].status == s.markets[k].status && t.markets[k].closesAt == s.markets[k].closesAt
    ensures Available(t, m, k) == Available(s, m, k)
    ensures q != m ==> Mine(t, m, k) == Mine(s, m, k) && Balance(t.ledger, m) == Balance(s.ledger, m)
    ensures q == m ==> Mine(t, m, k) == Map(BetOf(m), cleaned)
    ensures q == m ==> Balance(t.ledger, m) == Available(s, m, k) - Sum(LotAmount(), cleaned)
  {
    var bets := s.markets[j].bets;
    var previous, total := Previous(bets, q), Sum(LotAmount(), cleaned);
    var es := AllocationEntries(j, q, previous, total);
    AllocationBalance(j, q, previous, total, m);
    SumAppend(OfMember(m), s.ledger, es);
    MineReplaced(bets, q, cleaned, m);
    ReplacedStakes(bets, q, cleaned, m);
  }

  /** Any accepted allocation leaves the same rows and balance as the same allocation from an aligned state. */
  lemma {:induction false} SameOutcome(cfg: Config, s: State, t: State, step: Step)
    requires Consistent(s) && Consistent(t) && step.Allocate? && Aligned(s, t, step.member, step.market)
    requires Accepted(cfg, s, step)
    ensures Accepted(cfg, t, step)
    ensures var m, k := step.member, step.market;
      && k < |Apply(cfg, s, step).markets| && k < |Apply(cfg, t, step).markets|
      && Mine(Apply(cfg, s, step), m, k) == Mine(Apply(cfg, t, step), m, k)
      && Balance(Apply(cfg, s, step).ledger, m) == Balance(Apply(cfg, t, step).ledger, m)
  {
    SameVerdict(cfg, s, t, step);
    AcceptedEffect(cfg, s, step, step.member, step.market);
    AcceptedEffect(cfg, t, step, step.member, step.market);
  }

  lemma {:induction false} AcceptedEffect(cfg: Config, s: State, step: Step, m: nat, k: nat)
    requires Consistent(s) && step.Allocate? && Accepted(cfg, s, step)
    requires k < |s.markets| && (step.member == m ==> step.market == k)
    ensures var t := Apply(cfg, s, step);
      && k < |t.markets| && |t.members| == |s.members|
      && t.markets[k].status == s.markets[k].status && t.markets[k].closesAt == s.markets[k].closesAt
      && Available(t, m, k) == Available(s, m, k)
      && (step.member != m ==> Mine(t, m, k) == Mine(s, m, k) && Balance(t.ledger, m) == Balance(s.ledger, m))
      && (step.member == m ==> Mine(t, m, k) == Map(BetOf(m), Cleaned(step.lots)))
      && (step.member == m ==> Balance(t.ledger, m) == Available(s, m, k) - Sum(LotAmount(), Cleaned(step.lots)))
  {
    AllocateEffect(cfg, s, step.market, step.member, step.lots, step.now);
    var mk := s.markets[step.market];
    assert MarketWell(mk, |s.members|);
    StakesNonNegative(mk.bets, step.member);
    AllocationEffect(s, step.market, step.member, Cleaned(step.lots), Apply(cfg, s, step), m, k);
  }

  /** Steps that are no accepted allocation of m leave m's rows, balance and verdict inputs alone. */
  lemma {:induction false} QuietStep(cfg: Config, s: State, step: Step, m: nat, k: nat)
    requires Consistent(s) && Quiet(step, m, k) && m < |s.members| && k < |s.markets|
    requires !(step.Allocate? && step.member == m && Accepted(cfg, s, step))
    ensures var t := Apply(cfg, s, step);
      && Aligned(s, t, m, k)
      && Mine(t, m, k) == Mine(s, m, k) && Balance(t.ledger, m) == Balance(s.ledger, m)
  {
    match step {
      case Allocate(_, _, _, _) =>
        if Accepted(cfg, s, step) { AcceptedEffect(cfg, s, step, m, k); }
      case NewMember =>
        SumSnoc(OfMember(m), s.ledger, Entry(|s.members|, None, Grant, cfg.initialPoints));
      case NewMarket(_, _, _, _, _, _, _, _) =>
      case Activate(_, _) =>
      case Reject(_) =>
      case Sync(_, _) =>
    }
  }

  lemma {:induction false} RunSnoc(cfg: Config, s: State, front: seq<Step>, step: Step)
    ensures Run(cfg, s, front + [step]) == Apply(cfg, Run(cfg, s, front), step)
  {
    RunAppend(cfg, s, front, [step]);
    var before := Run(cfg, s, front);
    assert [step][1..] == [];
    assert Run(cfg, before, [step]) == Run(cfg, Apply(cfg, before, step), []) == Apply(cfg, before, step);
  }

  /**
   * Last submission wins. Over any sequence of quiet steps starting in s, m's rows on market k and m's balance end
   * as after only the last allocation that s itself accepts, and m's available points never change.
   */
  lemma {:induction false} LastSubmissionWins(cfg: Config, s: State, steps: seq<Step>, m: nat, k: nat)
    requires Consistent(s) && m < |s.members| && k < |s.markets|
    requires forall step :: step in steps ==> Quiet(step, m, k)
    ensures var t, only := Run(cfg, s, steps), After(cfg, s, LastAccepted(cfg, s, steps, m));
      && Aligned(s, t, m, k)
      && k < |only.markets| && Mine(t, m, k) == Mine(only, m, k)
      && Balance(t.ledger, m) == Balance(only.ledger, m)
    decreases |steps|
  {
    hide Consistent, PlaceAllocation, Apply;
    if steps != [] {
      var n := |steps| - 1;
      var front, step := steps[..n], steps[n];
      assert steps == front + [step] && step in steps;
      LastSubmissionWins(cfg, s, front, m, k);
      RunSnoc(cfg, s, front, step);
      var before := Run(cfg, s, front);
      RunConsistent(cfg, s, front);
      if step.Allocate? && step.member == m {
        SameVerdict(cfg, s, before, step);
        if Accepted(cfg, s, step) {
          SameOutcome(cfg, s, before, step);
          AcceptedEffect(cfg, before, step, m, k);
        } else {
          QuietStep(cfg, before, step, m, k);
        }
      } else {
        QuietStep(cfg, before, step, m, k);
      }
    }
  }

  /** Every verdict on m's allocations is the one the starting state would give, error included. */
  lemma {:induction false} VerdictsFromStart(cfg: Config, s: State, steps: seq<Step>, i: nat, m: nat, k: nat)
    requires Consistent(s) && m < |s.members| && k < |s.markets| && i < |steps|
    requires forall step :: step in steps ==> Quiet(step, m, k)
    requires steps[i].Allocate? && steps[i].member == m
    ensures var a := steps[i];
      var now, start := PlaceAllocation(cfg, Run(cfg, s, steps[..i]), a.market, m, a.lots, a.now),
                        PlaceAllocation(cfg, s, a.market, m, a.lots, a.now);
      now.Ok? == start.Ok? && (now.Err? ==> now.error == start.error)
  {
    assert steps[i] in steps;
    LastSubmissionWins(cfg, s, steps[..i], m, k);
    SameVerdict(cfg, s, Run(cfg, s, steps[..i]), steps[i]);
  }
}
