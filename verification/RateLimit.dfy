/**
 * The sliding-window order limit over whole runs. The gate counts rows stamped within a day before its own clock
 * reading; the row it lets through is stamped by the database, possibly a little earlier. How much earlier decides
 * exactly which windows stay within the limit.
 */
module RateLimit {
  import opened Sums
  import opened Domain
  import opened Tables
  import opened Risk
  import opened Steps
  import opened Invariants

  /** Non-refused orders of a fund stamped in the closed window from .. to. */
  function InWindow(fund: nat, from: int, to: int): Order -> bool {
    (o: Order) => o.fund == fund && o.status != Refused && from <= o.createdAt <= to
  }

  function OrdersWithin(orders: seq<Order>, fund: nat, from: int, to: int): nat {
    CountWhere(InWindow(fund, from, to), orders)
  }

  function Cap(limit: int): nat { if limit > 0 then limit else 0 }

  /** checks[i] is what the gate's clock read when order i was checked: fewer than the limit had been counted then. */
  ghost predicate Gated(orders: seq<Order>, checks: seq<int>, limit: int) {
    && |checks| == |orders|
    && forall i :: 0 <= i < |orders| && orders[i].status != Refused ==>
         DailyOrders(orders[..i], orders[i].fund, checks[i]) < limit
  }

  /** No row is stamped more than `skew` before its check. */
  ghost predicate StampedWithin(orders: seq<Order>, checks: seq<int>, skew: int) {
    && |checks| == |orders|
    && forall i :: 0 <= i < |orders| ==> checks[i] - skew <= orders[i].createdAt
  }

  lemma {:induction false} CountLe<T>(p: T -> bool, q: T -> bool, xs: seq<T>)
    requires forall x :: x in xs && p(x) ==> q(x)
    ensures CountWhere(p, xs) <= CountWhere(q, xs)
  {
    if xs != [] {
      CountLe(p, q, xs[..|xs| - 1]);
    }
  }

  lemma {:induction false} CountSnoc<T>(p: T -> bool, xs: seq<T>, x: T)
    ensures CountWhere(p, xs + [x]) == CountWhere(p, xs) + if p(x) then 1 else 0
  {
    FilterSnoc(p, xs, x);
  }

  /** Every window that together with the skew fits into a day holds at most the limit. */
  lemma {:induction false} WindowsStayWithinLimit(orders: seq<Order>, checks: seq<int>, limit: int, skew: int,
                                                  fund: nat, from: int, to: int)
    requires Gated(orders, checks, limit) && StampedWithin(orders, checks, skew)
    requires to - from + skew <= DAY
    ensures OrdersWithin(orders, fund, from, to) <= Cap(limit)
  {
    if orders != [] {
      var n := |orders| - 1;
      var front, o := orders[..n], orders[n];
      assert orders == front + [o];
      forall i | 0 <= i < n ensures front[..i] == orders[..i] {
      }
      WindowsStayWithinLimit(front, checks[..n], limit, skew, fund, from, to);
      CountSnoc(InWindow(fund, from, to), front, o);
      if InWindow(fund, from, to)(o) {
        CountLe(InWindow(fund, from, to), Recent(fund, checks[n] - DAY), front);
      }
    }
  }

  // ------------------------------------------------------------------ runs

  /** Every approval's row is stamped at most `skew` before the gate reads its clock. */
  ghost predicate ClocksWithin(steps: seq<Step>, skew: int) {
    forall step :: step in steps && step.Approve? ==> step.env.now - skew <= step.env.stamp
  }

  lemma {:induction false} GatedSnoc(orders: seq<Order>, checks: seq<int>, limit: int, skew: int, o: Order, check: int)
    requires Gated(orders, checks, limit) && StampedWithin(orders, checks, skew)
    requires o.status != Refused ==> DailyOrders(orders, o.fund, check) < limit
    requires check - skew <= o.createdAt
    ensures Gated(orders + [o], checks + [check], limit) && StampedWithin(orders + [o], checks + [check], skew)
  {
    var all := orders + [o];
    forall i | 0 <= i < |all| ensures all[..i] == if i < |orders| then orders[..i] else orders {
    }
  }

  /** What an approval adds: nothing, or one row that, unless refused, was below the limit when checked. */
  lemma {:induction false} ApprovalIsGated(cfg: Config, s: State, d: nat, env: Env)
    ensures var t := ExecuteDecision(cfg, s, d, env).db;
      || t.orders == s.orders
      || (|t.orders| == |s.orders| + 1 && t.orders == s.orders + [t.orders[|s.orders|]]
          && t.orders[|s.orders|].createdAt == env.stamp
          && (t.orders[|s.orders|].status != Refused ==>
                DailyOrders(s.orders, t.orders[|s.orders|].fund, env.now) < cfg.maxDailyOrders))
  {
    if d < |s.decisions| && s.decisions[d].market < |s.markets| {
      var dec, mk := s.decisions[d], s.markets[s.decisions[d].market];
      var price := ExecutionPrice(dec, env.quote);
      if price.Some? {
        AllowedParts(cfg, s, ContextOf(mk, dec, price.value), env.now, env.session, Some(env.balance));
      }
    }
  }

  lemma {:induction false} NoOrderPlaced(cfg: Config, s: State, step: Step)
    requires Single(step) && !step.Approve?
    ensures Apply(cfg, s, step).orders == s.orders
  {
  }

  lemma {:induction false} NoOrdersPlaced(cfg: Config, s: State, steps: seq<Step>)
    requires forall step :: step in steps ==> Automatic(step)
    ensures Run(cfg, s, steps).orders == s.orders
    decreases |steps|
  {
    if steps != [] {
      assert steps[0] in steps;
      NoOrderPlaced(cfg, s, steps[0]);
      NoOrdersPlaced(cfg, Apply(cfg, s, steps[0]), steps[1..]);
    }
  }

  lemma {:induction false} RunIsGated(cfg: Config, s: State, steps: seq<Step>, checks: seq<int>, skew: int)
    returns (later: seq<int>)
    requires Gated(s.orders, checks, cfg.maxDailyOrders) && StampedWithin(s.orders, checks, skew)
    requires ClocksWithin(steps, skew)
    ensures Gated(Run(cfg, s, steps).orders, later, cfg.maxDailyOrders)
    ensures StampedWithin(Run(cfg, s, steps).orders, later, skew)
    decreases |steps|
  {
    if steps == [] {
      return checks;
    }
    assert steps[0] in steps;
    var t := Apply(cfg, s, steps[0]);
    var next := checks;
    match steps[0] {
      case Approve(d, env) =>
        ApprovalIsGated(cfg, s, d, env);
        if t.orders != s.orders {
          GatedSnoc(s.orders, checks, cfg.maxDailyOrders, skew, t.orders[|s.orders|], env.now);
          next := checks + [env.now];
        }
      case Scheduled(now, feeds) =>
        var automatic := TickIsRun(cfg, s, now, feeds);
        NoOrdersPlaced(cfg, s, automatic);
      case _ => NoOrderPlaced(cfg, s, steps[0]);
    }
    later := RunIsGated(cfg, t, steps[1..], next, skew);
  }

  /**
   * Over any run, with any clock, monotone or not: if no order row is stamped more than `skew` before its check, no
   * closed window of a day minus `skew`, wherever placed, holds more than the limit of a fund's non-refused orders.
   */
  lemma {:induction false} RunsStayWithinLimit(cfg: Config, steps: seq<Step>, skew: int, fund: nat, from: int, to: int)
    requires ClocksWithin(steps, skew) && to - from + skew <= DAY
    ensures OrdersWithin(Run(cfg, EMPTY, steps).orders, fund, from, to) <= Cap(cfg.maxDailyOrders)
  {
    var checks := RunIsGated(cfg, EMPTY, steps, [], skew);
    WindowsStayWithinLimit(Run(cfg, EMPTY, steps).orders, checks, cfg.maxDailyOrders, skew, fund, from, to);
  }
}
