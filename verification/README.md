# Fund ledger: verified model

A double-entry ledger for private funds. Money enters by capital calls, leaves by distributions and fees, and moves
between cash, holdings and partners' capital as transfers whose entries balance in the fund's base currency. The
project models the ledger's three layers over one set of tables and proves what they promise together:

- **Posting**: `post_transfer`, idempotent creation, reversals, calls, distributions and period closing, first as
  functions of the committed rows (`Posting`, `Operations`), then as a class that updates its tables in place and is
  proved equal to them (`Ledgers`), then as many transactions interleaved statement by statement (`Machine`).
- **Exact arithmetic**: the largest-remainder split (`Allocation`) and FX rounding (`Pricing`).
- **Reporting**: contributions, capital statements and net asset value as folds over entries (`Queries`,
  `Capital`, `Commitments`, `Statements`, `Unfunded`, `Snapshots`, `Reports`, `NavEffects`, `Reconciliation`).

`Acceptance` says exactly when a call, a distribution or a reversal is accepted, `Answers` what every operation answers
to every request, `Effects` what an accepted request writes down and how it moves each account in its own currency,
and `StatementEffects` how it moves every partner's statement.

## How it is built

Money is an integer number of 0.0001 units and an FX rate an integer number of 1e-10 units. An account's, a period's
and a transfer's id is its position in its table; accounts stand in primary-key order, periods in (fund, start date)
order, transfers in commit order. Every base-currency query of the source is one filtered sum, `Queries.BaseSum`,
over a set of accounts, of periods and of effective transfer types.

`Operations.Execute` runs one request alone. `Ledgers.Ledger.Serve` does the same imperatively, with savepoints and
rollback, and its contract equates the two. In `Machine`, a request is a process that runs a straight-line program
of statements (lock, read, insert, commit); a run is any schedule of arrivals, statements and server-side aborts.
`Locks` shows that locks are exclusive and waits acyclic. `Facts` says what each executed statement has established,
`Stability` that no other process's commit can undo it, and `Serializability` concludes that each commit is one
`Execute`. `Completeness` is the other direction: a request that meets nobody in a transaction answers and commits what
`Execute` does, whatever the outcome, so every serial run is the outcome of some interleaved one. `Safety`, `Races`,
`Progress`, `Reconciliation` and `Statements` draw the consequences for every run.

## Assumptions

- A fund's periods, commitments, accounts and FX rates do not change once it is open. `Chart.WorldOk` lists the table
  constraints that are relied on, and that `open_fund_accounts` has run for funds with commitments.
- A request hash identifies its canonical payload, so the payload stands for the hash.
- PostgreSQL, stated as step rules: a row lock, or a unique-key conflict with an unfinished transaction, waits for
  that transaction; after the wait the newest committed row is seen; an error rolls back the whole transaction;
  locks last until commit or rollback. Reads of rows that never change are merged into the statement that uses them.
- The clock is a parameter: `today` where the source calls `date.today()`.
- Requests in a run are the ones the operations make (`Commitments.Business`): calls, distributions, reversals,
  closes, and postings of type fee, investment or adjustment, with any legs that stay off general-partner accounts.
  The simple postings are proved to be of that kind. Overdraft safety needs none of this.

Two tempting claims are false of the code; each has its inputs and its exact condition here.

- A transfer that balances exactly is never refused for rounding. `ledger/pricing.py:76-89` absorbs the residual, so
  the balance check never fails, but absorbing can use up a leg, and the constraint on positive base amounts then
  refuses the transfer: `Pricing.AbsorptionCanEmptyALeg` and `Posting.TightTransferRefused` give an input,
  `Posting.ExactTransferPassesIff` says exactly when it happens.
- A statement's unfunded commitment lies between zero and the commitment. Only over all periods together is that so.
  A call and the reversal of another may fall in different open periods, so one period can show more called than
  committed, or less than nothing: `Crossings.UnfundedCanGoNegative`, `Crossings.UnfundedCanExceedCommitment` and
  `Crossings.ReversalInPlaceCanLeaveRange` give histories, `Unfunded.UnfundedInRangeIff` says exactly when a period is
  in range, and `Unfunded.StepKeepsRangeIff` which requests, judged beforehand, keep every period in range.

## Model

| member | source | states |
|---|---|---|
| Allocation.Allocate | operations/allocation.py:13-49 | the loop that hands out leftover quanta in remainder order computes the split that gives an extra quantum to exactly the items of rank below the leftover, and fails with the source's error otherwise |
| Allocation.SplitUnits | operations/allocation.py:41-46 | in-place increments over the sorted prefix give every item its floor plus one exactly when its rank is below the leftover |
| Allocation.SucceedsIff | operations/allocation.py:28-38 | succeeds exactly on nonempty, non-negative, not all zero weights and a total that is a whole number of quanta |
| Allocation.SharesSumToTotal | operations/allocation.py:22 | shares sum to the total exactly, negative totals included |
| Allocation.WithinOneQuantum | operations/allocation.py:23 | every share is strictly within one quantum of its exact pro-rata value |
| Allocation.WholeShareIsExact | operations/allocation.py:41-46 | a share whose exact value is a whole number of quanta gets no extra quantum |
| Allocation.LeftoverBounds | operations/allocation.py:43-45 | there are never more leftover quanta than keys with a nonzero remainder |
| Allocation.RankIsPosition | operations/allocation.py:44 | the k-th key in sorted order is the one that k keys precede by remainder, then text |
| Allocation.LeftoverGoesInOrder | operations/allocation.py:41-46 | of two keys with equal remainders, the one of the larger text gets an extra quantum only if the one of the smaller text does |
| Allocation.EqualWeightsSmallerText | operations/allocation.py:44 | of two equal weights, the one of the smaller text never gets less in magnitude |
| Sorting.StrLeIsLexicographic | operations/allocation.py:44 | the order of texts compares the first characters that differ, and a proper prefix comes first |
| Allocation.SharesKeepSign | operations/allocation.py:48-49 | no share goes against the sign of the total |
| Allocation.LargerWeightLargerShare | operations/allocation.py:41-49 | a strictly larger weight never gets a smaller share in magnitude |
| Allocation.LargestRemainderIsOptimal | operations/allocation.py:41-49 | no split of the total into whole quanta has a smaller sum of absolute deviations from the exact values |
| Allocation.NegatedTotal | operations/allocation.py:26 | negating the total negates every share, or fails alike |
| Allocation.OrderDoesNotMatter | operations/allocation.py:24-25 | with distinct labels, a key's share does not depend on the order of the mapping |
| Pricing.RoundsToNearestEven | ledger/pricing.py:32-35 | conversion rounds to a nearest unit, and to the even one on a tie |
| Pricing.FxRateFor | ledger/pricing.py:17-29 | returns a latest rate on or before the date, and none exactly when there is no eligible rate |
| Pricing.PriceLegs | ledger/pricing.py:38-73 | the loop with its rate cache prices every leg as if each rate were looked up afresh, and fails exactly when a needed rate is missing |
| Pricing.PricedAsAsked | ledger/pricing.py:47-72 | a base-currency leg is worth its amount; another takes the rate it was given, or a latest one, and is worth the nearest unit at that rate, the even one on a tie; a given base amount is kept and never adjusted; a leg has no price exactly when it needs a rate and there is none |
| Pricing.AbsorbRoundingResidual | ledger/pricing.py:76-89 | the in-place adjustment computes `Absorbed`, the function the next rows are about |
| Pricing.AbsorbBalancesIff | ledger/pricing.py:76-89 | the result balances exactly when the input did or its residual is at most a unit per adjustable leg; only the largest adjustable leg changes, and only its base amount |
| Pricing.RoundingNeverUnbalances | ledger/pricing.py:32-89 | with no base overrides and exactly balanced values, the residual is at most n/2 units, the output balances, and every base amount is within (n+1)/2 units of exact |
| Pricing.AbsorptionCanEmptyALeg | ledger/pricing.py:85-88 | a concrete exactly balanced transfer whose last leg is absorbed down to a base amount of zero |
| Pricing.SubstantialLegStaysPositive | ledger/pricing.py:76-89 | a leg worth more than (n+1)/2 units keeps a positive base amount |
| Posting.TightTransferRefused | ledger/models.py:153-155 | that transfer, posted into an open period, passes every other check and is refused by the positive-amount constraint |
| Posting.ExactTransferPassesIff | ledger/models.py:151-165 | an exactly balanced transfer always passes the balance check, and passes the positive-amount constraints exactly when its legs leave room to absorb the residual |
| Fingerprints.MoneyRoundTrip | ledger/idempotency.py:25-27 | money text reads back as the same amount, so different amounts have different texts |
| Fingerprints.SpellingDoesNotMatter | ledger/idempotency.py:25-27 | two decimals of at most four places have the same money text exactly when they are the same number |
| Fingerprints.SamePayloadIff | ledger/services.py:176-184 | for valid legs two requests have one payload exactly when type, period and the multiset of (account, direction, amount) agree |
| Queries.GroupedIsPerAccount | operations/queries.py:11-31 | the grouped map has exactly the accounts asked for and gives each its own fold, zero where there is no group |
| Queries.SplitByKinds | ledger/queries.py:33-35 | a filtered sum is additive in disjoint sets of effective types |
| Chart.CapitalAccountIsPartners | operations/chart.py:57-61 | the fund's LP capital accounts are exactly its committed partners' accounts |
| Chart.PartnersDistinct | funds/models.py:63-72 | a fund's partners, and their capital accounts, are pairwise distinct |
| Posting.PostedParts | ledger/services.py:45-83 | a posted transfer passed every check: open period, balanced, affordable on each locked account, fresh key and target, positive rows |
| Posting.PostedFromParts | ledger/services.py:45-83 | passing every check is enough to post exactly that transfer |
| Ledgers.ValidateLegs | ledger/services.py:86-100 | accepts exactly two or more positive legs with known directions, a debit and a credit among them |
| Ledgers.LockAccounts | ledger/services.py:103-119 | locks the touched accounts in ascending order, and comparing counts detects a missing account exactly |
| Ledgers.CheckSufficientFunds | ledger/services.py:139-149 | the netted deltas accept exactly when every cash account stays non-negative or is not lowered |
| Ledgers.SufficientIff | ledger/services.py:139-149 | checking the accounts with deltas is checking the locked accounts |
| Ledgers.Ledger.InsertTransfer | ledger/models.py:98-115 | the row goes in with no entries, or the first violated constraint is reported and nothing changes |
| Ledgers.Ledger.InsertEntries | ledger/migrations/0003_period_guards.py:5-27 | entries go in row by row unless the period is closed or a row is not positive; no other transfer changes |
| Ledgers.Ledger.PostTransfer | ledger/services.py:32-83 | posts exactly the transfer that `Posted` prescribes, or reports its error with the tables as they were |
| Ledgers.Ledger.ProRata | operations/services.py:26-34 | shares in whole pennies, every allocation error turned into an invalid transfer |
| Ledgers.Ledger.BuildLegs | operations/services.py:69-75 | two legs per partner with a nonzero share, in the order of the partners' ids |
| Ledgers.Ledger.CheckCommitments | operations/services.py:60-67 | the grouped query and the loop accept exactly when no share exceeds what the partner has left |
| Ledgers.Ledger.CreateCall | operations/services.py:54-96 | the create closure ends in the books that `Created` prescribes, or rolls back and reports its error |
| Ledgers.Ledger.CreateDistribution | operations/services.py:124-155 | likewise for a distribution |
| Ledgers.Ledger.RunIdempotent | ledger/idempotency.py:77-102 | replay, create, or look up again after an error: equal to `RunOnce` |
| Ledgers.Ledger.PostTransferIdempotent | ledger/services.py:166-200 | equal to one serial `Execute` |
| Ledgers.Ledger.ReverseTransfer | ledger/services.py:206-258 | equal to one serial `Execute`, a lost race on the target reported as already reversed |
| Ledgers.Ledger.CallOrDistribute | operations/services.py:98-104 | equal to one serial `Execute` |
| Ledgers.Ledger.ClosePeriod | operations/periods.py:21-39 | equal to one serial `Execute`; closing a closed period changes nothing |
| Ledgers.Ledger.Serve | ledger/idempotency.py:41-74 | the class, request by request, is the serial specification that the interleaved machine refines |
| Ledgers.Ledger.ChargeFee | operations/services.py:201-215 | equal to executing the fee posting, or refuses with the books unchanged |
| Ledgers.Ledger.RecordValuation | operations/services.py:218-235 | equal to executing the valuation posting, a change of zero refused |
| Ledgers.Ledger.RecordInvestment | operations/services.py:169-198 | equal to executing the investment posting, cash moving in whole pennies at the day's rate |
| Ledgers.Ledger.SnapshotNav | operations/statements.py:149-155 | writes the fund's net asset value through the period under (fund, end date) and touches no other snapshot |
| Invariants.ReversalPricesVerbatim | ledger/pricing.py:53-61 | flipped legs are priced to exactly the original's rates and base amounts, whatever rates say now |
| Invariants.PostedKeepsLedger | ledger/services.py:32-83 | a post keeps the ledger sound: balanced transfers inside one fund, unique keys, unique reversals, non-negative cash |
| Invariants.NumbersGapFree | operations/services.py:77-79 | one more than the largest number, kept up, means the numbers in use are exactly 1..n |
| Invariants.ExecuteKeepsBooks | operations/services.py:37-163 | every operation keeps the books' integrity, numbering and closing order |
| Invariants.SerialRunsKeepBooks | ledger/services.py:32-258 | so does every serial run from empty books |
| Capital.CallCreditsShares | operations/services.py:70-75 | a posted call credits each partner exactly the allocated share |
| Capital.CallCreditsTotal | operations/services.py:69-96 | a posted call credits the fund's partners exactly its total |
| Capital.CallsCarried | ledger/queries.py:33-35 | the effective-type sum over any accounts and periods counts each call where it falls and takes it back where its reversal falls |
| Capital.ContributionsAreStandingCalls | ledger/queries.py:33-35 | the effective-type sum over any accounts is the sum over calls that nothing reverses |
| Commitments.PartnersSum | operations/chart.py:57-61 | partners' accounts, summed one by one, are the fund's LP capital total |
| Commitments.ContributionsConserved | operations/queries.py:11-31 | net contributions of a fund's partners sum to the totals of its calls not yet reversed |
| Commitments.ExecuteKeepsBusiness | operations/services.py:54-96 | every business request keeps contributions within 0 and the commitment, documents linked to their transfers, and the general partner untouched |
| Commitments.RunsKeepCommitments | operations/services.py:56-67 | so does every serial run of business requests |
| Commitments.FeeIsBusiness | operations/services.py:201-215 | a fee request stays within what runs may contain |
| Commitments.ValuationIsBusiness | operations/services.py:218-235 | so does a valuation |
| Commitments.InvestmentIsBusiness | operations/services.py:169-198 | so does an investment |
| Locks.ProgramAscends | ledger/services.py:103-119 | every program takes its locks in one global order: fund, accounts by id, key, reverses, period |
| Locks.NextKeepsExclusive | ledger/migrations/0003_period_guards.py:9-15 | no step lets two transactions hold conflicting locks; postings share a period, a closer does not |
| Locks.PostingsShareAPeriod | ledger/migrations/0003_period_guards.py:9-20 | nobody waits for a period but a closer, or a posting while a closer holds it |
| Locks.WaitsForIsAcyclic | ledger/services.py:110-111 | in no state does a chain of waits come back to where it began |
| Progress.SomebodyCanStep | ledger/services.py:110-111 | while a request is unfinished, some process can step |
| Progress.StepDecreases | ledger/services.py:103-119 | every such step brings the whole system closer to its end |
| Progress.EverybodyCanFinish | ledger/services.py:103-119 | from every reachable state some schedule finishes every request |
| Facts.CommitIsSerial | ledger/services.py:45-83 | what a process commits when its facts hold is what its request does alone |
| Stability.PostingFactStays | ledger/services.py:103-149 | nothing that a posting has established is undone by another process's commit, because of the locks it holds |
| Stability.ClosingFactStays | operations/periods.py:23-38 | nor anything that a closer has established |
| Stability.FactStaysUnderClose | ledger/migrations/0003_period_guards.py:9-20 | nor by a close, because the posting holds its period or has not relied on it yet |
| Serializability.NextReachable | ledger/services.py:45-83 | every arrival, statement, commit, abort and retry keeps the whole invariant of the machine |
| Serializability.StepIsSerial | ledger/idempotency.py:87-99 | one step either leaves the books alone or performs one accepted serial request |
| Safety.RunsRefineSerial | ledger/services.py:45-83 | the books of any interleaved run are those of its accepted requests run one at a time in commit order, each accepted at its turn |
| Completeness.SoloIsSerial | ledger/idempotency.py:77-102 | from any reachable state with nobody in a transaction, a new request of any kind that runs uninterrupted answers what it answers run alone and leaves the books it leaves run alone, whatever the outcome |
| Completeness.SerialRunsAreRuns | ledger/services.py:45-83 | any requests: some interleaved run ends in exactly their serial books, each request answered as in its serial turn |
| Overdrafts.NoOverdraft | ledger/services.py:103-149 | no cash account is negative in any state of any run, whatever requests it contains |
| Safety.NoCommitmentExceeded | operations/services.py:56-67 | in every reachable state each partner's net contributions lie between 0 and the commitment |
| Safety.NumbersAreGapFree | operations/services.py:77-79 | in every reachable state call numbers are exactly 1..n per fund, and so are distribution numbers |
| Safety.ExecuteExtends | ledger/migrations/0002_integrity_triggers.py:40-57 | append-only: an operation changes no row, reopens no period and adds to no closed one |
| Safety.ClosingIsFinal | ledger/migrations/0003_period_guards.py:35-51 | in any interleaving, nothing is ever committed into a closed period, none reopens, and closed periods form a prefix by start date |
| Safety.EarlierPeriodsAreClosed | operations/periods.py:28-31 | in every state of every run, a closed period's earlier periods of its fund are closed |
| Safety.ExactlyOnce | ledger/idempotency.py:77-102 | all successes for one key name its only transfer and carry one payload; at most one of them created it |
| Safety.RereadFindsARow | ledger/idempotency.py:90-93 | the second read after a lost race on the key always finds a row |
| Races.RacesNeverSurface | ledger/idempotency.py:90-93 | in no run does a request end on a violated unique key or unique target: such a race ends in a replay, or in a business error |
| Races.BusinessErrorMeansFreeKey | ledger/idempotency.py:94-97 | an attempt's business error is answered only while the request's key is still free; otherwise the answer is the duplicate's replay, or a conflict |
| Safety.KnownKeyReplaysOrConflicts | ledger/idempotency.py:98-102 | a taken key replays its transfer and document, or conflicts when the payload differs; nothing else |
| Safety.FailureChangesNothing | ledger/idempotency.py:86-97 | the step after which a request has failed leaves the committed rows alone |
| Safety.LogIsOwned | ledger/idempotency.py:77-102 | in every run, each commit has exactly one owner, which has answered what its request run alone at that point answers, and whoever answers that something was created or closed owns a commit |
| Safety.FailureLeavesNoTrace | ledger/idempotency.py:86-97 | a request that ended in failure, after any number of attempts, owns no commit |
| Safety.AbortRollsBack | ledger/retry.py:24-34 | an abort changes no row and drops every lock; a retryable one starts the request over with one attempt more, any other ends it |
| Safety.AttemptsAreBounded | ledger/retry.py:16-31 | no request of any run makes more than three attempts |
| Retry.ServeWithRetry | ledger/retry.py:16-35 | attempts that do all their work and are rolled back, then at most one that commits: at most `attempts` calls, only retryable aborts outside a transaction are retried, and the books end as after one run or none |
| Retry.CreatedReplaysForEver | ledger/idempotency.py:85-102 | a request that created a transfer, run again on any later books, changes nothing and names that transfer |
| Reconciliation.BooksBalanceAtEveryGrain | ledger/reconciliation.py:25-74 | every transfer, period, fund and the whole system sum to zero |
| Reconciliation.ListsTheUnbalanced | ledger/reconciliation.py:36-59 | on any rows, the list holds each transfer whose entries do not sum to zero, with that sum, and no other |
| Reconciliation.ImbalancesSumTheirEntries | ledger/reconciliation.py:25-74 | on any rows, balanced or not, a period's, a fund's and the total imbalance sum the signed base amounts of exactly their entries |
| Reconciliation.OnlyOrderRefusesAClose | operations/periods.py:28-34 | a close is refused exactly when an earlier period is open; the imbalance refusal never fires |
| Reconciliation.ReversalUndoesExactly | ledger/services.py:206-258 | original and reversal cancel on every account in native and base currency; the original is no reversal and has no other |
| Statements.ClosingIsNetThrough | operations/statements.py:101-132 | a closing balance is the sum of net movements of all periods through the statement's |
| Statements.OpeningIsPreviousClosing | operations/statements.py:113-120 | each period opens with the balance the previous one closed with |
| Statements.PartnersCapitalAndNav | operations/statements.py:95-146 | in any sound ledger partners' closing balances sum to net asset value plus the general partner's balance, so they equal it exactly when that balance is zero |
| Statements.PartnersCapitalEqualsNav | operations/statements.py:95-146 | they equal it for every period in every state of every interleaved run |
| Statements.GainsAndFeesAreProRata | operations/statements.py:108-111 | on every statement, gains and fees are each within 0.0001 of the commitment's exact share of what the period books on that account, gains credit-positive and fees debit-positive |
| Statements.ShareIsProRata | operations/statements.py:110-111 | a partner's part of any total is within 0.0001 of the commitment's exact share of it |
| Statements.RunsConserveContributions | operations/queries.py:11-31 | conservation of contributions in every interleaved run |
| Statements.RunsBalance | ledger/reconciliation.py:25-74 | balance at every grain in every interleaved run |
| Statements.QueryFrozen | operations/statements.py:67-92 | a query that no later transfer can move keeps its value as the ledger grows |
| Statements.ClosedStatementFrozen | operations/statements.py:95-136 | a closed period's statements never change again |
| Statements.ClosedNavFrozen | operations/statements.py:139-155 | net asset value through a closed period never changes again, so a snapshot of it never goes stale |
| Statements.ClosedReportingIsFrozen | operations/statements.py:95-155 | both, from any moment of any interleaved run to any later one |
| Statements.LastStatementContributions | operations/statements.py:112-134 | over all of a fund's periods, contributions to date are the partner's net contributions |
| Statements.LastUnfundedInRange | operations/statements.py:134-135 | the last period's unfunded commitment lies between 0 and the commitment in every run |
| Unfunded.ToDateIsQuery | operations/statements.py:101-134 | contributions to date are one query over the fund's periods through the statement's |
| Unfunded.ToDateSplits | operations/statements.py:67-83 | they are the shares of standing calls through p, plus calls through p reversed only after it, less calls after p reversed through it |
| Unfunded.UnfundedInRangeIff | operations/statements.py:134-135 | for every period, the unfunded commitment lies between 0 and the commitment exactly when those sums say so |
| Unfunded.RunUnfundedInRangeIff | operations/statements.py:134-135 | the same in every state of every interleaved run |
| Unfunded.InRangeWithoutCrossings | operations/statements.py:134-135 | it does whenever no reversal lies on the other side of p from its call |
| Unfunded.CallRaisesToDate | operations/services.py:54-96 | an accepted call raises contributions to date by each partner's share, in its period and every later one of the fund, and nowhere else |
| Unfunded.ReversalLowersToDate | ledger/services.py:206-249 | an accepted reversal of a call lowers them by the share, from the reversal's own period on |
| Unfunded.StepKeepsRangeIff | operations/services.py:56-67 | from books with every statement in range, an accepted request keeps them so exactly when, from its period on, no statement has less left than a share called, or less shown than a share reversed |
| Unfunded.SerialRunsInRangeIff | operations/statements.py:112-135 | every statement is in range throughout a serial run exactly when each accepted request meets that condition at its turn |
| Unfunded.CarefulRunsStayInRange | operations/statements.py:112-135 | an interleaved run whose commits meet it has every statement in range |
| Crossings.UnfundedCanGoNegative | operations/statements.py:134-135 | call, reverse in the next period, call again: all accepted, and the first period is called twice over |
| Crossings.UnfundedCanExceedCommitment | operations/statements.py:134-135 | call in the second period, reverse in the first: both accepted, and the first period shows more left than was committed |
| Crossings.ReversalInPlaceCanLeaveRange | operations/statements.py:134-135 | a reversal in its own call's period can be the one that leaves the range, so the condition on reversals reaches past the call's period |
| Statements.NavNowIsLastNav | operations/statements.py:139-146 | net asset value without a period is the one through the last period |
| Snapshots.StoredIsLastTaken | operations/statements.py:149-155 | the stored row is the value at the last snapshot with its fund and end date |
| Snapshots.SnapshotNeverStale | operations/statements.py:149-155 | once a closed period with an end date of its own is snapshotted, the stored row is its net asset value in every later state, however often it is taken again |
| Snapshots.SharedEndDateIsOverwritten | funds/models.py:139-142 | periods that end on one day share the row, which is then the value of the one taken last |
| Reports.LpLedgerMovement | operations/statements.py:67-83 | sorting the grouped rows into three fields, in any row order, gives the three filtered sums |
| Reports.AllocatedShare | operations/statements.py:110-111 | the partner's entry of the allocated map |
| Reports.LpStatement | operations/statements.py:95-136 | the single pass over the periods computes `StatementOf`, and refuses exactly a partner without a commitment |
| Acceptance.PlanMadeIff | operations/services.py:26-34 | a total can be split exactly when the fund is known, a period covers the date, the fund has partners and the total is whole pennies |
| Acceptance.PeriodFound | operations/periods.py:12-18 | the period chosen is the fund's first that covers the date, and none is exactly when none covers it |
| Acceptance.SharesAreProRata | operations/services.py:26-34 | on the commitments table, shares are whole pennies, sum to the total, and are each within a penny of the exact pro-rata part |
| Acceptance.EqualPartnersByText | operations/allocation.py:44 | of two partners who committed the same, the one whose id's text comes first never takes the smaller part |
| Acceptance.PlanLegsInOrder | operations/services.py:69-75 | two legs for each partner with a nonzero share, cash first for a call and capital first for a distribution, partners in the order of their ids' text |
| Acceptance.CallAcceptedIff | operations/services.py:37-104 | a call is created exactly when its key is present and fresh, the fund is known, an open period covers the notice date, the fund has partners, the total is a positive number of pennies, no share exceeds what a partner has left, and it is due no earlier than noticed |
| Acceptance.DistributionAcceptedIff | operations/services.py:107-163 | a distribution is created exactly when its key is present and fresh, the fund is known, an open period covers the payment date, the fund has partners, and the total is a positive number of pennies that cash can pay |
| Acceptance.ReversalAcceptedIff | ledger/services.py:206-249 | in a sound ledger a reversal is created exactly when its key is fresh, the target is unreversed and no reversal, the period is open and the target's fund's, and every cash account can give back what it got |
| Acceptance.AlreadyReversedIff | ledger/services.py:218-254 | a reversal is refused as already done exactly when another key has reversed the target |
| Acceptance.SameRequestIff | ledger/idempotency.py:30-32 | two requests have one payload exactly when they ask for the same thing, so a reused key conflicts exactly when they do not |
| Acceptance.DistributionDebitsShares | operations/services.py:130-135 | a created distribution debits each partner exactly the allocated share |
| Answers.CallAnswer | operations/services.py:37-104 | what a call answers, for every request: the replay, a conflict, each refusal in the order it is made, or the new call |
| Answers.DistributionAnswer | operations/services.py:107-163 | the same for a distribution |
| Answers.ReversalAnswer | ledger/services.py:206-258 | the same for a reversal in a sound ledger |
| Answers.CloseAnswer | operations/periods.py:21-39 | the same for a close in a sound ledger, with the period it closes |
| Answers.PostAnswer | ledger/services.py:32-200 | the same for a posting of any legs, down to the constraint that an inserted row violates |
| Effects.CreatedAsAsked | ledger/services.py:58-69 | a created transfer carries its request's key, payload, type, target and period, and is the only row added |
| Effects.PostedLegsAreKept | ledger/services.py:70-81 | entry by entry, a created transfer keeps the account, direction and amount of the legs that were asked for |
| Effects.PostedAtTheDaysRates | ledger/services.py:48-53 | every entry of a posting has no rate and its amount in the base currency; else the rate given, or a latest one published by the posting's date, and the base amount given, or the nearest at that rate moved by at most a unit per leg |
| Effects.CallIsRecorded | operations/services.py:77-96 | a call is recorded with its fund, dates, total and transfer, under the next number |
| Effects.DistributionIsRecorded | operations/services.py:136-155 | so is a distribution, with its classification |
| Effects.PostMovesBalances | ledger/services.py:45-83 | a posting moves every account by its legs' amounts in the account's own currency |
| Effects.FeeMovesMoney | operations/services.py:201-215 | a fee moves its amount from cash to the fee expense account, and no other account |
| Effects.ValuationMovesMoney | operations/services.py:218-235 | a valuation moves the signed change from the gain and loss account to the holding, and no other account |
| Effects.BaseInvestmentMovesMoney | operations/services.py:183-198 | an investment in base currency moves its amount from cash to the holding, and no other account |
| Effects.ForeignInvestmentMovesMoney | operations/services.py:169-198 | one in another currency raises the holding by the amount and lowers cash by whole pennies, the nearest to the amount at the latest rate published by the date, the even penny on a tie; no other account moves |
| StatementEffects.CallMovesStatements | operations/statements.py:67-92 | an accepted call raises each partner's contributions by exactly the share, in the period covering the notice date; every other column, period and fund stays |
| StatementEffects.DistributionMovesStatements | operations/statements.py:67-92 | an accepted distribution raises each partner's distributions by exactly the share, in the period covering the payment date; every other column, period and fund stays |
| StatementEffects.ReversalMovesStatements | operations/statements.py:72-83 | a reversal takes its target back, in its own period, from the column the target was shown in, and from the fund's gains and fees |
| StatementEffects.ReversedDistribution | operations/statements.py:72-83 | reversing an accepted distribution, whenever, takes each partner's share back from distributions in the reversal's period and changes nothing else |
| NavEffects.CallRaisesNav | operations/services.py:54-96 | a call raises net asset value by exactly its total |
| NavEffects.DistributionLowersNav | operations/services.py:124-155 | a distribution lowers it by exactly its total |
| NavEffects.FeeLowersNav | operations/services.py:201-215 | a fee lowers it by its amount |
| NavEffects.ValuationMovesNav | operations/services.py:218-235 | a valuation moves it by exactly the signed change |
| NavEffects.InvestmentKeepsNav | operations/services.py:169-198 | buying a holding, at any rate, leaves it as it was |

## Left out

- Web layer (views, serializers, routing, throttling), API keys, roles, permissions, metrics, logging, deployment and
  management commands: no ledger state of their own.
- The database engine itself: its locking and rollback rules are the assumptions above. Database grants are not
  modelled, and neither is a commit whose acknowledgement is lost.
- SHA-256 and JSON text: a payload stands for its hash.
- `as_of` balances, `created_at`, `closed_at`, `closed_by`, `created_by`, descriptions and names: they decide no
  property here.
- Decimal context precision, column overflow, non-finite and non-Decimal amounts: amounts are integers, so the
  corresponding branches of `validate_legs` and `money_str` (negative zero included) do not arise.
- Ledgers.Ledger.RecordInvestment: refuses a currency the fund has no holding account for, where the source opens
  one; here the chart is complete from the start, and a missing account makes a posting fail as an unknown account.
- The deferred balance trigger and `_fire_deferred_balance_check`: an entry set that reaches them already balances,
  so they are not separate steps.
- `unbalanced_transfers`: its fund filter and row limit; the whole list is proved exact, and empty of a sound ledger.
- Statements asked for a period of another fund: the view looks the period up within the fund.
- Statements.LastUnfundedInRange: speaks of the last period only, because the range fails for others;
  `Unfunded.UnfundedInRangeIff` covers every period.
- Safety.FailureChangesNothing: speaks of one step; `Safety.FailureLeavesNoTrace` is about the whole request.
- Retry.ServeWithRetry: does not model the backoff delay and its jitter.
- Retries in the interleaved runs: as in the views, only calls, distributions and reversals are retried, three times.
