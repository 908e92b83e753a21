# Prediction-market engine: model and proofs

A Dafny model of the engine that lets members stake points on BUY / SELL / HOLD for a stock, turns the stakes into
consensus probabilities and an order, and later resolves the market and pays the winners. It covers the money
arithmetic, the append-only ledger, the market, decision and order state machine, the risk gate, the mock broker, the
scheduler and the leaderboard.

## How it is organised

- `Domain`, `Tables`: statuses, rows, settings, broker answers. Row ids are indexes. Points are whole cents
  (`Numeric(18, 2)`); prices and notionals are units of 0.0001 KRW; probabilities and returns are units of 0.0001.
- `Parimutuel`, `SettlementLaws`, `Consensus`, `Verdict`, `Brier`: the arithmetic of `consensus.py`. Loops over rows
  are methods proved to compute a function; the laws are about the function.
- `Steps`: what each service call does to the database, as a function that gives the new state or the error.
  `Services.Database` is the imperative form: a class whose methods update its tables in place, each proved to leave
  exactly the state and the error of its function. `Run` folds any sequence of calls and scheduler ticks.
- `CallLaws`: each call in terms of the rows it reads and writes: when it goes through, its errors, what it leaves behind.
- `Invariants` (every run), `Conservation` (guarded runs), `Revival` and `DoublePay` (why the guard is needed), `Retry`,
  `LastWins`, `Scheduler`, `Orders`, `RateLimit` and `Burst` (the limit and its exactness), `Scoring`, `ScoreLaws`,
  `Apportionment`: laws about runs and calls.
- `Broker`: the mock broker as a class, proved against an account value. `Desk` and `Positions`: services and broker
  running together.
- `Sums`, `Tally`, `Arithmetic`, `LedgerLaws`: the small lemmas the proofs are built from.

## Two layers of settlement

A row share is `quantise(distributable * (stake / winning_pool))`. Python rounds the quotient and the product to 28
significant digits before truncating to a cent. The model passes the rounding in as a function: the identity is the
exact layer; the 28-digit layer quantifies over every monotone rounding with relative error at most 5 * 10^-28, on
pools up to 10^13 cents. Everything else in settlement (sums, the rake) stays well below 28 digits there and is exact.
Conservation is proved for the exact layer without any bound and for the 28-digit layer up to that bound.

## Where the code and its promises part

- `execute_decision` looks at the decision's status only and sets the market to EXECUTED whatever it was.
  `docs/ARCHITECTURE.md:42` gives the intended order. A run is called guarded when approvals are given only while
  the market is neither settled nor cancelled, which is weaker than requiring DECIDED. `Conservation` proves
  conservation for guarded runs and that the guard is exact. Without it `Revival` gives a run that breaks the identity,
  and `DoublePay` one that pays both sides of a market and leaves members with more points than were ever granted.
- "The winners' principal is untouched" (`backend/app/services/consensus.py:105`) holds in the exact layer. Among the
  28-digit roundings there is one that costs a winner a cent exactly when nobody staked on another outcome and there are
  two winning members or more (`PrincipalSafeIff`); who loses under a given rounding is `PaidBelowStakeIff`, and
  `DroppedCent` is an example.
- The published leader need not carry the largest published probability. It does not exactly when the quantised shares
  add up to more than one and another outcome ties with it after quantising (`LeaderPublishedBelowIff`).
- The gate counts rows by `created_at`, which the database fills with its own `now()`; on PostgreSQL that is the start
  of the transaction, before the gate reads its clock. The 24-hour limit therefore holds over all runs if and only
  if no row is stamped before its check (`Burst.LimitHoldsIff`); otherwise it holds for windows shorter by the lag. No
  assumption on the clock being monotone is needed.
- `backend/app/services/market_hours.py:4` and `docs/ARCHITECTURE.md:101` say rejected orders use up the daily limit. The
  query in `risk.py` excludes them, and the model follows the query.
- One failing market rolls back the whole session of its phase, so the earlier markets of the phase are undone too:
  `CommittedIff` says which are kept, `HealthyMarketIsUndone` shows one that is not.

## Preconditions

Stakes and grants are whole cents, since nothing in the services quantises an allocation. Grants are not negative.
Settings do not change during a run. Each service call and each scheduler session runs without interleaving.
Nothing in the repository writes `is_active`; a step of a run may set it at any time.
`Env.now` is the clock the gate reads, `Env.stamp` the creation time the database gives the order row.

## Model

| member | source | states |
|---|---|---|
| `Parimutuel.SettleParimutuel` | backend/app/services/consensus.py:93-138 | The loops of the settlement compute the payout dictionary that all the laws below are about; a rake outside [0, 10000) is the only error. |
| `Parimutuel.RefundAll` | backend/app/services/consensus.py:117-122 | With no winner the loop credits every positive row to its member. |
| `Parimutuel.ShareOut` | backend/app/services/consensus.py:128-130 | The loop credits each winning row its share, rounding the quotient, then the product, then truncating to a cent. |
| `Parimutuel.PoolsOrdered` | backend/app/services/consensus.py:111-126 | The winning pool is within the pool, and the rake never exceeds the losing pool. |
| `Parimutuel.TopIsAhead` | backend/app/services/consensus.py:135 | The row that takes the remainder has the largest stake and, among equal stakes, the smallest member id. |
| `Parimutuel.ExactShare` | backend/app/services/consensus.py:129 | Without rounding a row share is exactly the floor of distributable * stake / winning pool, in cents. |
| `Parimutuel.RoundedShare` | backend/app/services/consensus.py:129 | With any monotone 28-digit rounding of quotient and product, for pools up to 10^13 cents, a row share is that floor or one cent less; the latter if and only if the exact share is a whole number of cents and the rounded product falls short of it. |
| `SettlementLaws.RoundedSettlement` | backend/app/services/consensus.py:124-138 | 28-digit layer: payouts add up to the pool minus the rake to the cent, the rake being rake_bps ten-thousandths of the other outcomes' stakes rounded down; 0 <= remainder <= one cent per winning row, exactly the winners are paid, and nobody drops more than one cent per row below stake. |
| `SettlementLaws.PaidBelowStakeIff` | backend/app/services/consensus.py:115-138 | Under any 28-digit rounding a member is paid less than the winning stake if and only if nobody staked on another outcome, the member is not the top staker, and the rounded product of one of the member's rows falls short of its stake. |
| `SettlementLaws.PrincipalSafeIff` | backend/app/services/consensus.py:103-138 | What a caller can check: no winner loses principal under any 28-digit rounding if and only if somebody staked on another outcome or there is only one winning member. |
| `SettlementLaws.PrincipalIsSafe` | backend/app/services/consensus.py:103-138 | As soon as the distributable amount exceeds the winning pool, 28-digit rounding costs no winner any principal. |
| `SettlementLaws.ExactSettlement` | backend/app/services/consensus.py:103-138 | Exact layer: payouts go exactly to the winners and add up to the pool minus rake_bps ten-thousandths of the other outcomes' stakes, rounded down; everyone but the top staker gets exactly the floor shares, the top staker less than one extra cent per winning row, and every winner at least the winning stake. |
| `SettlementLaws.PayoutsWithWinner` | backend/app/services/consensus.py:128-138 | The payout dictionary in closed form: each winner gets the sum of the shares of their rows, the top staker also a positive remainder. |
| `SettlementLaws.PayoutsWithoutWinner` | backend/app/services/consensus.py:117-122 | With nobody on the winning outcome every member gets exactly their stakes back and the whole pool is returned. |
| `SettlementLaws.RakeIs` | backend/app/services/consensus.py:125 | The rake is rake_bps ten-thousandths of the losing pool, rounded down to a cent. |
| `SettlementLaws.PoolsAreSums` | backend/app/services/consensus.py:111-115 | The pool is the sum of the positive stakes, the winning pool of those on the winning outcome. |
| `SettlementLaws.PayeesAre` | backend/app/services/consensus.py:108-130 | Who is paid, read off the rows: the stakers of the winning outcome if it has a positive stake, else everybody with one; settlement fails exactly for a rake outside [0, 10000). |
| `SettlementLaws.SmallerStakeNeverEarnsMore` | backend/app/services/consensus.py:128-136 | With one winning row per member, a strictly smaller winning stake never earns more, under any 28-digit rounding. |
| `SettlementLaws.SettlementIgnoresRowOrder` | backend/app/services/consensus.py:111-138 | Any permutation of the rows gives the same payout to every member, the same payees, the same total and the same rake. |
| `SettlementLaws.DroppedCent` | backend/app/services/consensus.py:128-136 | Three equal stakes of 100.00 with nobody against them pay 100.02, 99.99 and 99.99 under 28-digit rounding, 100.00 each exactly. |
| `Consensus.ComputeConsensus` | backend/app/services/consensus.py:57-90 | The loops compute the consensus that the laws below are about. |
| `Consensus.StakedIsPool` | backend/app/services/consensus.py:62-71 | Outcome totals are the winning pools of settlement and add up to its pool. |
| `Consensus.PublishedProbabilities` | backend/app/services/consensus.py:71-83 | On a non-empty pool the published probabilities sum to exactly 1 and lie in [0, 1]; non-leaders miss their true share by at most 0.00005, the leader by at most 0.0001; the drift is at most one unit; the leader is at most one unit below anyone; and halves round up. |
| `Consensus.LeaderPublishedBelowIff` | backend/app/services/consensus.py:71-83 | Some outcome is published above the leader if and only if the quantised shares add up to more than one and another outcome is quantised to the same share as the leader. |
| `Consensus.ConsensusIgnoresRowOrder` | backend/app/services/consensus.py:62-90 | Stakes in any order give the same probabilities, participants and leader. |
| `Consensus.AboveHalfIsMajority` | backend/app/services/consensus.py:40-50 | A published leading probability above one half certifies a strict majority of all stake, so no tie-break was involved. |
| `Consensus.LeaderIsFirstLargest` | backend/app/services/consensus.py:40-44 | The leader has the largest stake and every outcome before it in the order BUY, SELL, HOLD strictly less. |
| `Consensus.LeadingIs` | backend/app/services/consensus.py:40-50 | There is a leader exactly when something is staked; its probability is the published one, else zero. |
| `Consensus.NobodyStaked` | backend/app/services/consensus.py:68-70 | Without a positive stake all totals, probabilities and participants are zero. |
| `Verdict.VerdictMonotone` | backend/app/services/consensus.py:154-179 | A higher resolution price never lowers the verdict (SELL < HOLD < BUY), for any thresholds, crossed or not. |
| `Verdict.VerdictIs` | backend/app/services/consensus.py:154-179 | The verdict in numbers: BUY when the percentage return, rounded half up at four places, reaches the BUY threshold, else SELL when it is at most the SELL threshold, else HOLD; an error exactly without a positive reference. |
| `Verdict.AgreesAwayFromThresholds` | backend/app/services/consensus.py:170-179 | The verdict is that of the exact return whenever the exact return is more than half a unit away from both thresholds. |
| `Verdict.RoundingChangesVerdictIff` | backend/app/services/consensus.py:170-179 | For every pair of thresholds, rounding changes the verdict if and only if the exact return is in the half-unit strip below the BUY threshold or, when the thresholds are not crossed, in the one above the SELL threshold. |
| `Verdict.HalfAwayIsHalfUp` | backend/app/services/consensus.py:18-19 | The integer rounding used for returns and probabilities is ROUND_HALF_UP of the exact quotient. |
| `Verdict.ReachesIff` | backend/app/services/consensus.py:170-175 | Exactly which returns reach a threshold after half-up rounding at four places. |
| `Verdict.StaysBelowIff` | backend/app/services/consensus.py:170-177 | Exactly which returns stay at or below a threshold after rounding. |
| `Brier.BrierScore` | backend/app/services/consensus.py:141-151 | The loop computes the sum of squared misses, quantised half-up to six places. |
| `Brier.ScoreRange` | backend/app/services/consensus.py:141-151 | The score of a distribution lies in [0, 2], and before quantising it is 0 exactly on full certainty in the winner. |
| `Brier.ScoreIsRounded` | backend/app/services/consensus.py:141-151 | The score is within half a millionth of the sum over the outcomes of the squared distance to what happened, halves rounding up. |
| `Brier.StrictlyProper` | backend/app/services/consensus.py:141-151 | Under any true distribution the expected score is minimised only by reporting it; misreporting costs exactly the sum of squared differences. |
| `Brier.MemberAllocation` | backend/app/services/scoring.py:39-46 | The loop normalises a member's stakes per outcome by their total, all zero if nothing is staked. |
| `Brier.AllocationIsDistribution` | backend/app/services/scoring.py:39-46 | Positive stakes normalise to a probability distribution. |
| `Risk.CheckOrder` | backend/app/services/risk.py:73-141 | The branch-by-branch gate produces exactly the list of reasons, with a broker, with one whose balance is unknown, or without one. |
| `Risk.CheckLimits` | backend/app/services/risk.py:79-98 | The checks on the order and the session produce exactly their part of the list. |
| `Risk.CheckBuy` | backend/app/services/risk.py:111-139 | The cash and weight checks of a BUY; an unknown balance blocks. |
| `Risk.AllowedMeans` | backend/app/services/risk.py:73-141 | An order is allowed if and only if every limit is respected, each spelled out: kill switch, quantity, order cap, trading hours, the fund's non-rejected rows of the last day, holding, cash and weight. |
| `Risk.ReasonsAre` | backend/app/services/risk.py:73-141 | The gate reports exactly the limits that are broken, each once and in the order of the checks. |
| `Risk.DailyOrdersAre` | backend/app/services/risk.py:50-63 | The daily count is the number of rows of the fund, not rejected, created within the 24 hours before now. |
| `Risk.PricesAre` | backend/app/services/risk.py:122-124 | A holding is valued at its current price when that is known and not zero, else at its average. |
| `Risk.ExistingValueIs` | backend/app/services/risk.py:126-133 | The existing value of a ticker is that of its first holding, zero without one. |
| `LedgerLaws.BalancesAddUp` | backend/app/services/ledger_service.py:14-20 | A balance is the sum of the member's entries: the balances of all members add up to the whole ledger. |
| `Services.Database.GetBalances` | backend/app/services/ledger_service.py:23-34 | The dictionary loops give every requested member, and nobody else, their balance. |
| `Services.Database.Record` | backend/app/services/ledger_service.py:37-55 | Exactly one entry is appended. |
| `Services.Database.CreateMember` | backend/app/api/v1/members.py:33-48 | A new active member and one initial grant. |
| `Services.Database.CreateMarket` | backend/app/api/v1/markets.py:43-73 | A new OPEN market with default thresholds where none are given; an unknown fund, or values the request schema (backend/app/schemas/market.py:12-34) turns away, are errors without effect. |
| `Services.Database.CleanAllocation` | backend/app/services/market_service.py:73-80 | The positive amounts in order, and whether one of them is below the minimum. |
| `Services.Database.ReplaceBets` | backend/app/services/market_service.py:112-126 | The member's rows are replaced by the new ones, everybody else's stay. |
| `Services.Database.PlaceAllocation` | backend/app/services/market_service.py:55-137 | Either the error of the first violated rule with nothing changed, or the refund, the new rows and the lock. |
| `Services.Database.CloseMarket` | backend/app/services/market_service.py:143-159 | Either an error with nothing changed, or CLOSED with the quote as reference price. |
| `Services.Database.Participation` | backend/app/services/market_service.py:181-197 | There is a reason to skip if and only if nobody bet, the quorum is missed, or the leader is below the threshold. |
| `Services.Database.BuildDecision` | backend/app/services/market_service.py:165-245 | The step-by-step collection of skip reasons yields the decision of Steps.BuildDecision and marks the market DECIDED, or raises with nothing changed. |
| `Services.Database.RejectDecision` | backend/app/services/execution.py:36-43 | A pending decision becomes rejected, anything else is an error without effect. |
| `Services.Database.Conclude` | backend/app/services/execution.py:78-132 | Refusal leaves a rejected order and a failed decision; acceptance a submitted order, an executed decision and an EXECUTED market. |
| `Services.Database.ExecuteDecision` | backend/app/services/execution.py:46-136 | The whole new state and the error of an approval, for every branch. |
| `Services.Database.SyncPositions` | backend/app/services/execution.py:139-166 | The two loops overwrite what the broker reports and zero the rest of the fund; two new rows for one ticker violate the unique constraint and change nothing. |
| `Services.Database.ZeroUnseen` | backend/app/services/execution.py:161-163 | Exactly the existing positions that were not seen drop to zero. |
| `Services.Database.ResolveMarket` | backend/app/services/settlement.py:28-61 | Either an error with nothing changed, or RESOLVED with the verdict on the two prices. |
| `Services.Database.RecordCredits` | backend/app/services/settlement.py:85-102 | One entry for each credit worth recording whose member has none of the kind yet, and no other. |
| `Services.Database.TotalByMember` | backend/app/services/settlement.py:105-109 | The loop totals each member's stakes. |
| `Services.Database.SettleMarket` | backend/app/services/settlement.py:64-126 | Either an error with nothing changed, or the missing payouts, the apportioned rows and SETTLED. |
| `Services.Database.CancelMarket` | backend/app/services/settlement.py:129-155 | Either an error with nothing changed, or the missing refunds and CANCELLED. |
| `Services.Database.Tick` | backend/app/scheduler.py:27-61 | The two loops, with their rollback to the start of the session, leave the state of Steps.Tick. |
| `Services.Database.NetProfits` | backend/app/services/scoring.py:72-87 | The loop adds up everything but the initial grants per listed member. |
| `Services.Database.MarketResult` | backend/app/services/scoring.py:95-105 | Whether a market counts for a member, whether it was a hit, and its Brier score. |
| `Services.Database.CountMarket` | backend/app/services/scoring.py:95-105 | One more market moves the running counts of a member as the specification says. |
| `Services.Database.Results` | backend/app/services/scoring.py:90-105 | The loop counts markets played, hits and the Brier total. |
| `Services.Database.Leaderboard` | backend/app/services/scoring.py:49-129 | The nested loops and the sort produce the board that the laws below are about. |
| `CallLaws.AllocationAcceptedIff` | backend/app/services/market_service.py:68-101 | Exactly which submissions are accepted and which error the first broken rule gives: known ids; OPEN with the closing time still to come; something positive; every positive amount at least the minimum; the sum within balance plus current stakes, and within the ratio of that rounded half even. |
| `CallLaws.AllocationWrites` | backend/app/services/market_service.py:103-137 | An accepted submission appends a refund of the current stakes, if any, and a lock of the new sum, and leaves the other rows of the market plus one row per positive amount. |
| `CallLaws.MemberCreated` | backend/app/api/v1/members.py:33-48 | One active member and one grant of the initial points, in no market. |
| `CallLaws.MarketCreatedIff` | backend/app/api/v1/markets.py:43-73 | Exactly which market requests are turned down, and every field of the row of the others. |
| `CallLaws.ClosedIff` | backend/app/services/market_service.py:143-159 | Only an OPEN market is closed, and exactly then, given a quote, which becomes its reference price. |
| `CallLaws.ResolvedIff` | backend/app/services/settlement.py:28-61 | Only a CLOSED, DECIDED or EXECUTED market with a positive reference price is resolved; winner, resolution price and the error of every other case in numbers. |
| `CallLaws.SettledIff` | backend/app/services/settlement.py:64-126 | Only a RESOLVED market is settled: every member without a PAYOUT for it gains what settlement pays, nobody else gains anything. |
| `CallLaws.CancelledIff` | backend/app/services/settlement.py:129-155 | Any market neither SETTLED nor CANCELLED is cancelled: every member without a CANCEL_REFUND for it gains exactly their stakes. |
| `CallLaws.SyncedRows` | backend/app/services/execution.py:144-163 | Every position row after a sync: the last report of a ticker, quantity zero with the old average for what is no longer reported, other funds untouched. |
| `CallLaws.ClashesIff` | backend/app/services/execution.py:150-159 | A sync fails on the unique constraint exactly when a ticker without a row is reported twice. |
| `Invariants.ReachableStates` | backend/app/services/settlement.py:85-102 | In every state reachable by any interleaving of calls and ticks, guarded or not: no negative balance, at most one PAYOUT and one CANCEL_REFUND per member and market, at most one decision per market, winners are the verdict on the recorded prices; later the ledger only grows, stakes of markets that left OPEN and reference prices never change. |
| `Invariants.RunConsistent` | backend/app/services/market_service.py:68-175 | These invariants are inductive: every run from a state that has them keeps them. |
| `Invariants.AllocateConsistent` | backend/app/services/market_service.py:68-137 | An accepted allocation keeps balances nonnegative and at most one row per member and outcome. |
| `Invariants.SettleConsistent` | backend/app/services/settlement.py:75-122 | Settling keeps the ledger append-only, pays only members, nobody twice, and leaves the stakes alone. |
| `Invariants.CancelConsistent` | backend/app/services/settlement.py:134-153 | Cancelling does the same with refunds. |
| `Invariants.ExecuteConsistent` | backend/app/services/execution.py:53-132 | An approval, at whatever market status, keeps the unguarded invariants. |
| `Invariants.ExecuteEffect` | backend/app/services/execution.py:53-130 | An approval never touches the ledger, and only an accepted order changes its market, whatever status it had. |
| `Invariants.TickIsRun` | backend/app/scheduler.py:54-61 | Whatever fails, a tick amounts to a run of closings, decisions, resolutions and settlements; it never approves. |
| `Conservation.GuardedRunsConserve` | backend/app/services/settlement.py:85-122 | After every run with approvals only on markets neither settled nor cancelled: balances + stakes in live markets + rake withheld = initial grants; per member and market the ledger nets minus the stake while live, payout minus stake once settled, zero once cancelled. |
| `Conservation.StepSound` | backend/app/services/market_service.py:82-136 | The book-keeping behind conservation is kept by every single guarded step, ticks included. |
| `Conservation.AllocateSound` | backend/app/services/market_service.py:84-136 | Refund and re-lock keep the books. |
| `Conservation.SettleSound` | backend/app/services/settlement.py:75-121 | Settling under any 28-digit rounding keeps the books. |
| `Conservation.CancelSound` | backend/app/services/settlement.py:134-153 | Refunding keeps the books. |
| `Conservation.ApprovalConservesIff` | backend/app/services/execution.py:53-130 | An approval that goes through keeps points conserved if and only if the market was neither settled nor cancelled, or nobody had staked on it. |
| `Conservation.RefundsAreStakes` | backend/app/services/settlement.py:134-151 | Refunds are exactly the stakes and total the pool. |
| `Conservation.PayoutsNonNegative` | backend/app/services/settlement.py:85-87 | No payout is negative under any 28-digit rounding. |
| `Revival.ApprovingARefundedMarketBreaksConservation` | backend/app/services/execution.py:53-130 | A seven-step run: approving a decision after its market was cancelled makes the market live again and breaks conservation, so the guard is needed. |
| `DoublePay.BothSidesArePaid` | backend/app/services/execution.py:53-130 | A twelve-step unguarded run: a settled market is made live by approving its decision, resolved at another price and settled again; both sides are paid and balances exceed the grants. |
| `Retry.RetryCompletes` | backend/app/services/settlement.py:81-102 | From a RESOLVED market where any subset of payees already holds the right PAYOUT entry, settling ends with exactly one entry of the right amount for everyone owed something, none for others, and the rows and balances of one uninterrupted settlement. |
| `Retry.PaidOnce` | backend/app/services/ledger_service.py:58-70 | Under the once-only discipline a member holds at most one payout per market, of the amount due. |
| `Retry.SettlingIgnoresRowOrder` | backend/app/services/settlement.py:75-102 | Settling gives every member the same balance whatever order the query returns the bets in. |
| `Retry.CancellingIgnoresRowOrder` | backend/app/services/settlement.py:134-151 | So does cancelling. |
| `LastWins.LastSubmissionWins` | backend/app/services/market_service.py:63-137 | For any sequence of submissions by a member on a market, interleaved with anyone else's and with quiet calls, rows and balance end as after only the last one the starting state accepts. |
| `LastWins.VerdictsFromStart` | backend/app/services/market_service.py:68-101 | Every verdict in such a sequence, error included, is the one the starting state gives. |
| `LastWins.SameVerdict` | backend/app/services/market_service.py:68-101 | The verdict depends only on status, closing time and balance plus previous stake. |
| `LastWins.MineReplaced` | backend/app/services/market_service.py:112-126 | A submission replaces the member's own rows and nobody else's. |
| `Scheduler.PhaseCommits` | backend/app/scheduler.py:38-44 | Each session commits exactly the effect of processing the due markets after the last failing one. |
| `Scheduler.DueIs` | backend/app/scheduler.py:32-56 | Exactly the OPEN markets with closes_at <= now are due to close, exactly the CLOSED, DECIDED and EXECUTED ones with resolve_at <= now to resolve, each once in the order of ids. |
| `Scheduler.TickLeavesUndueAlone` | backend/app/scheduler.py:27-61 | Whatever fails, a tick leaves an OPEN market before its closing time, a CLOSED, DECIDED or EXECUTED one before its resolution time, and every RESOLVED, SETTLED or CANCELLED one exactly as it was. |
| `Scheduler.SurvivorsAreSuffix` | backend/app/db/session.py:36-47 | Those markets are the longest end of the due list without a failure: a failure also undoes the earlier, uncommitted ones. |
| `Scheduler.TickAdvancesWholly` | backend/app/scheduler.py:27-61 | Under any failure pattern a tick places no order and leaves each market untouched, or closed and decided, or resolved and settled; none is left half-advanced. |
| `Scheduler.CommittedIff` | backend/app/scheduler.py:38-44 | A due market is committed if and only if neither it nor any later market of its session fails. |
| `Scheduler.HealthyMarketIsUndone` | backend/app/scheduler.py:38-44 | A concrete tick: two markets are due, the first could be closed and decided, the second fails, and the tick changes nothing. |
| `Scheduler.ClosePairSucceedsIff` | backend/app/services/market_service.py:143-221 | Closing and deciding a due market fails exactly when a quote or the plan does. |
| `Scheduler.ResolvePairSucceedsIff` | backend/app/services/settlement.py:28-80 | Resolving and settling a due market fails exactly when the quote, the rake setting or a positive reference price is missing. |
| `Scheduler.HealthyTickAdvancesAll` | backend/app/scheduler.py:32-58 | With quotes for what each market has due, every market due to close ends DECIDED, or SETTLED if also due to resolve, every market due to resolve ends SETTLED, and all others stay as they were. |
| `Scheduler.TickConserves` | backend/app/scheduler.py:27-61 | Under any failure pattern a tick keeps points conserved. |
| `Orders.PendingIff` | backend/app/services/market_service.py:180-226 | The whole new decision row: it waits for approval if and only if somebody bet, the stakers are at least the quorum ratio of the active members, the leader reaches the threshold and is not HOLD, and the size is positive. |
| `Orders.BuiltIff` | backend/app/services/market_service.py:165-221 | A decision is built exactly for a CLOSED market without one, and then only a missing quote or a zero BUY price stops it. |
| `Orders.SizeIsAffordable` | backend/app/services/market_service.py:206-212 | A positive BUY size satisfies quantity * price <= notional < (quantity + 1) * price; it is not positive exactly when the price is negative or above the notional. |
| `Orders.BackedByMajority` | backend/app/services/market_service.py:193-203 | With a threshold above one half, a decision that was not skipped carries a strict majority of all stake. |
| `Orders.OrdersFollowVotes` | backend/app/services/execution.py:53-130 | In every reachable state: each order belongs to one decision and each decision to at most one order, exactly the executed and failed ones having one; the order repeats action, size and price, an accepted one is within the single-order cap, and the decision is backed by the votes. |
| `Orders.AcceptedIff` | backend/app/services/execution.py:53-130 | Every approval of a known decision: the exact condition of acceptance with each limit spelled out, the order row, the decision and market rows it leaves, and the error otherwise. |
| `Orders.RejectedIff` | backend/app/services/execution.py:36-43 | Exactly a pending decision can be rejected, and only its status changes. |
| `Orders.RejectedNeverOrdered` | backend/app/services/execution.py:36-61 | A decision rejected in a reachable state stays rejected, and no later run holds an order for it. |
| `RateLimit.RunsStayWithinLimit` | backend/app/services/risk.py:100-104 | Over any run and with any clock, if no order row is stamped more than a given lag before its check, no closed window of 24 hours less that lag, wherever placed, holds more than the limit of a fund's non-rejected orders. |
| `RateLimit.ApprovalIsGated` | backend/app/services/execution.py:76-100 | An approval adds at most one order row, and a row that is not rejected was below the limit when checked. |
| `Burst.LimitHoldsIff` | backend/app/services/risk.py:50-63 | Over all runs whose order rows are stamped at most a given lag before their checks, the limit holds in every closed window of a given length if and only if length plus lag fit into 24 hours. |
| `Burst.LateStampOverflows` | backend/app/db/base.py:20-23 | Otherwise a run from the empty database, with one market and one decision per order, puts one order more than the limit into a closed window of that length. |
| `Broker.MockBroker.PlaceOrder` | backend/app/brokers/mock.py:42-83 | The whole new account after a BUY or SELL, including the undefined average at quantity zero. |
| `Broker.MockBroker.SetPrice` | backend/app/brokers/mock.py:35-36 | Exactly one price changes: the quote of that ticker is the new price, every other quote stays. |
| `Broker.PutMeaning` | backend/app/brokers/mock.py:53-55 | Assigning a holding changes that ticker and no other. |
| `Broker.PutValue` | backend/app/brokers/mock.py:53-55 | What assigning a holding does to the book value. |
| `Broker.DropMeaning` | backend/app/brokers/mock.py:60-61 | Dropping a holding removes that ticker and no other. |
| `Broker.BuyFill` | backend/app/brokers/mock.py:42-56 | A BUY adds its quantity, pays price times quantity, and carries the cost over into the average; other tickers stay; at a resulting quantity of zero only the request is logged. |
| `Broker.SellFill` | backend/app/brokers/mock.py:57-69 | A SELL of less than is held leaves the rest at the same average, of as much or more drops the holding; cash comes in for the whole quantity; other tickers stay. |
| `Desk.BuyKeepsEquity` | backend/app/brokers/mock.py:47-56 | A BUY averages the cost so that equity at cost is unchanged and only the bought ticker gains value. |
| `Desk.AllowedBuyStaysCapped` | backend/app/services/risk.py:111-139 | A BUY that passed the gate had positive equity to be measured against and leaves every weight within the cap and cash nonnegative. |
| `Desk.BuyOnlyRunsRespectTheCap` | backend/app/services/risk.py:111-141 | Over every run of services, price changes, syncs and approvals of BUYs, from a broker without holdings: cash is never negative, equity at cost is the starting cash, every holding is within the weight cap, and no approved order skipped the weight test. |
| `Desk.TradeEffect` | backend/app/services/execution.py:66-111 | The order an accepted approval hands to the broker is the backed decision at its execution price. |
| `Desk.DeskRunLongOnly` | backend/app/brokers/mock.py:42-83 | Over every run of buys and sells the broker's holdings stay distinct, positive and at a nonnegative cost. |
| `Positions.SyncAgrees` | backend/app/services/execution.py:144-163 | After a sync on distinct tickers the local quantity equals the broker's for every ticker, zero if absent; other funds are untouched. |
| `Positions.SellOut` | backend/app/brokers/mock.py:57-69 | Selling exactly what is held removes the holding and the clamp at zero does not bite. |
| `Positions.SellsExactlyTheHolding` | backend/app/services/market_service.py:213-221 | After any run from a broker without holdings, a SELL decided after a sync and approved with no trade or sync in between sells exactly the broker's holding, takes it out of the book and leaves every other holding. |
| `Scoring.BoardAgreesWithLedger` | backend/app/services/scoring.py:71-87 | In every reachable state, on every row of the board, net profit is the balance minus the initial grant. |
| `Scoring.ProfitsSumToRake` | backend/app/services/scoring.py:71-87 | After a guarded run with all markets settled or cancelled and all members active, net profits sum to minus the total rake. |
| `Scoring.RankedIsStableSort` | backend/app/services/scoring.py:128 | The sort by net profit, then Brier score, loses nobody and keeps ties in order. |
| `Scoring.OnBoard` | backend/app/services/scoring.py:52-125 | A row is on the board if and only if it is the score of an active member. |
| `Scoring.TopIsLargestStake` | backend/app/services/scoring.py:100-104 | A hit means the winner is the outcome with the largest stake, ties going to the earlier outcome. |
| `Scoring.ScoresInRange` | backend/app/services/scoring.py:90-125 | Hits never exceed markets played, the hit rate is in [0, 1], and the Brier score is present exactly when something was played and lies in [0, 2]. |
| `ScoreLaws.RowFigures` | backend/app/services/scoring.py:71-125 | Every figure of a row from the tables: ledger sums, settled markets with a bet of the member, hits among them, hit rate and average score as rounded quotients, absent where nothing was played. |
| `ScoreLaws.MarketCounts` | backend/app/services/scoring.py:95-105 | On one market: it counts when settled with a winner and a bet of the member; it is a hit when the winner carries the largest of the member's stakes, ties to the earlier outcome; its score is the Brier score of the split of those stakes. |
| `ScoreLaws.BoardOrder` | backend/app/services/scoring.py:128 | Of any two rows the first has the larger net profit; or the same and the better score, no score being worst; or the same score too and the smaller id. |
| `Apportionment.RowsShowThePayout` | backend/app/services/settlement.py:111-119 | The payouts written back to a member's rows add up to the member's payout within half a cent per row, exactly for a single row. |
| `Apportionment.RowShowsItsShare` | backend/app/services/settlement.py:111-119 | Every row shows its own share of the member's payout, stake for stake, to half a cent, and changes in nothing else. |

## Left out

- HTTP routes, authentication, request schemas beyond the checks on creating a market, migrations, the frontend: plumbing
  around the calls modelled here.
- The KIS broker: a broker is a quote that may be missing, a balance that may be unknown and an order call that accepts or
  raises without effect; only the mock broker is modelled in full.
- `market_hours.py`: a fixed clock table. The session is an input of the gate.
- Concurrency: the code takes no row locks, and simultaneous requests are not part of this model.
- Persistence of refused orders: `execute_decision` raises after marking them and the route commits only on success, so
  the laws speak of the database as the service leaves it, before the caller commits or rolls back.
- 28-digit rounding outside settlement: quorum ratio, probabilities, average price, weight, return, Brier score and
  averages are exact rationals followed by the explicit quantise.
- Amounts with fractions of a cent, and the storage rounding they would meet.
- Memo, rationale, reason and payload texts, logging, `ticker_name`, timestamps other than those compared.
- The `funds` table: creating a market is told whether the fund exists.
- `filled_quantity` and later order states: nothing in the modelled code writes them.
- Ledger kinds RAKE and ADJUSTMENT: no modelled call records them.
- Services.Database.Tick: the steps a session makes for one market are modelled with the quotes they receive and one flag
  for any other exception; which statement raised is not kept, since the rollback is the same.
- Services.Database.Leaderboard: the sort is the specification function of a stable sort, not a sorting loop.
- Services.Database: rows are values in sequences, so object identity and the expiry of mapped objects after a rollback are
  not modelled; queries return rows in stored order, and settlement, consensus and balances are proved independent of it.
- Desk.BuyOnlyRunsRespectTheCap: weights are measured at average cost, as the mock broker reports no current price.
