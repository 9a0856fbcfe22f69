# Verified model of the backtest engine and the protocols around it

This project models an integer-only backtest engine and proves what its parts promise
each other. The engine exists several times: a portfolio engine (v2), and for each of
the two v1 markets a one-shot run and an object that checkpoints restore and step. On
top of it stand validators that decide whether a serialized state is believed, a host
that stamps the intents of a strategy, and a report that recomputes the metrics. Three
smaller protocols are modelled beside it: the injection of messages into a session, the
domain event stream, and the tree of a revision's files.

`dafny verify dfyconfig.toml` checks everything. Every proof also passes with
`--resource-limit 2000000`, with and without `--warn-contradictory-assumptions`.

## How it is built

Amounts are integers with every checked operation written out, so `Err(Overflow)` means
that an `i128` operation of the program fails at that point; errors carry a kind but no
text. Identifiers, symbols and timestamps are integers of which only equality, and for
symbols the order, is used. Serialization is the identity, digests are arbitrary
functions.

| part | files |
|---|---|
| arithmetic, folds, sums, sorting, batches, text | `Checked`, `Folds`, `Sequences`, `Sorting`, `Batches`, `Ids`, `Strings`, `Contexts`, `Events` |
| share lots under T+1 | `Lots`, `ShareQueue`, `LedgerTotals` |
| v2: specification, object, invariants, solvency, scheduling, checkpoints | `Portfolio*` |
| v1: specification, object, one-shot loops, order, fills, ledgers, cash, perpetual account, checkpoints | `Engine*`, `OneShot` |
| v1 validators: specification, loops, exact soundness, exact completeness | `Validator*`, `EngineTrust` |
| concrete v1 inputs on which things fail | `EngineWitnesses` |
| strategy host | `Host` |
| run report | `Report*` |
| message injection | `Injection` |
| event stream | `EventStream`, `EventStreamServer` |
| revision paths and tree | `Paths`, `PathTree` |

Code that changes fields or loop variables is a method or a class method tied to a
specification function; the theorems are about those functions. A v1 state has three
parts that move together: the order log, the book and the curve.

## Findings that shape the statements

- The execution order of v1 intents is not transitive on every valid tape
  (`EngineOrder.ClashedBarHasNoOrder`). The exact condition is
  `EngineOrder.OrderIsTotalExactly`; statements about sorted tapes assume it under the
  name `WellOrdered`.
- The v1 order validator refuses a state in which an order rested on one bar and filled
  on a later one, although the engine produces such states
  (`EngineTrust.RestingFillIsRefused`). Completeness is therefore an if and only if.
- The validators add up the deltas of a ledger record in another grouping than the
  engine and can overflow where it does not. On A-share accounts this cannot happen; on
  perpetual accounts it can (`EngineWitnesses.UnfitLedgerIsRefused`) and is the second
  condition of the completeness theorem.
- The engine forms sums that the validators do not: notional and fee of a purchase, fee
  and stamp duty of an A-share sale, the wallet with a realized profit before its fee. It
  can overflow on a state they accept, on A-share accounts too
  (`EngineWitnesses.OverflowIsNotValidated`). Nor do they look at the 1x cap again
  (`EngineWitnesses.CapIsNotValidated`). Soundness is therefore an if and only if as
  well, `ValidatorExact.AcceptedIsReachedExactly`, over those sums of the accepted
  records.
- A v1 A-share buy has no cash check, and its cash can go negative
  (`EngineWitnesses.CashGoesNegative`; exactly when, `EngineCash.CashNonNegativeExactly`).
  Solvency of every run is a v2 theorem.
- An intrabar sell stop at or below the slippage fills at a price that is not positive
  (`EngineWitnesses.FillsBelowZero`; exactly when, `EnginePerp.FillPricePositiveExactly`).
- The report counts every closing trade, the engines count those that flatten the
  position, so a partial close does not reconcile (`PartialCloseDoesNotReconcile`, of
  `EngineWitnesses` and of `ReportPortfolio`); reconciliation holds exactly when the two
  notions coincide.
- The condition for v2 solvency is exact at one board lot at price 1; the linear
  condition on the rates is sufficient (`PortfolioInvariant.OnePercentSlackSuffices`).
  The same condition decides whether closing before opening is the best order: where a
  sale can cost more than it brings, buying first can pass while the engine's order does
  not (`PortfolioOptimality.SwapOverturns`).
- A reader of the event stream that retries after a failed connection is handed events
  again that the failed one had already handed over
  (`EventStreamServer.HandedTwiceExactly`, `EventStreamServer.RetryHandsTwice`).

## Model

| member | source | states |
|---|---|---|
| `Checked.RateChargeIsCeiling` | crates/quant-engine/src/lib.rs:3436-3443 | a charge on money is exactly the ceiling of notional times rate over scale, and never exceeds the notional when the rate is within its scale |
| `Checked.RateChargeOfNegative` | crates/quant-engine/src/lib.rs:3436-3443 | on a negative notional the charge is a rebate between the notional and zero |
| `Sorting.SortedUnique` | crates/quant-engine/src/lib.rs:494-505 | two ordered permutations under a strict total order are equal, so the outcome does not depend on the sorting algorithm |
| `Lots.ConsumeEligibleLots` | crates/quant-engine/src/lib.rs:3406-3434 | the loops over the lots, overwriting in place and dropping the empty ones, do what the specification of a sale says |
| `Lots.ConsumeIsFifo` | crates/quant-engine/src/lib.rs:3406-3434 | read as a queue of single shares: a sale passes exactly when that many shares of earlier sessions are held, and then removes exactly that many from the front |
| `Lots.SaleLeaves` | crates/quant-engine/src/portfolio_v2.rs:310-334 | what is left is well formed: positive lots in order of purchase, shorter by exactly the sold shares |
| `Lots.EligiblePrefix` | crates/quant-engine/src/portfolio_v2.rs:301-308 | under T+1 the eligible shares are a prefix of the queue |
| `PortfolioMachine.PortfolioState.SettleFill` | crates/quant-engine/src/portfolio_v2.rs:417-460 | cash, lots of one symbol and the closed count after a fill on the object, with every error of the checks in their order |
| `PortfolioMachine.PortfolioState.RunSession` | crates/quant-engine/src/portfolio_v2.rs:352-568 | one session on the object with its fields updated step by step is the session of the specification, errors included |
| `PortfolioMachine.RunOneShot` | crates/quant-engine/src/portfolio_v2.rs:589-596 | the whole one-shot run on the object is the run of the specification |
| `PortfolioInvariant.SettleIs` | crates/quant-engine/src/portfolio_v2.rs:417-460 | settling is determined by three things only: a buy needs the cash, a sale the eligible shares, anything else that stops it is an overflow; with the exact cash and lots otherwise |
| `PortfolioInvariant.ScheduleIsDue` | crates/quant-engine/src/portfolio_v2.rs:362-369 | a schedule holds exactly the intents of the session that have not completed |
| `PortfolioInvariant.ScheduleOrderIsTotal` | crates/quant-engine/src/portfolio_v2.rs:370-375 | closes, symbol, sequence number: no two intents tie and the order is transitive |
| `PortfolioInvariant.ProceedsNonNegative` | crates/quant-engine/src/portfolio_v2.rs:386-455 | when a board lot can pay its own selling costs, or they cannot be computed, no sale at a positive price takes cash away, with both charges rounded up |
| `PortfolioInvariant.OnePercentSlackSuffices` | crates/quant-engine/src/portfolio_v2.rs:842-852 | rates with 100 times their sum at most 99 times the scale satisfy that condition |
| `PortfolioLedger.FillKeepsBook` | crates/quant-engine/src/portfolio_v2.rs:417-455 | a fill keeps: every closing trade sells the oldest shares still held of its symbol, all bought in earlier sessions, and the lots are what the queue has left |
| `PortfolioSolvency.RunKeeps` | crates/quant-engine/src/portfolio_v2.rs:352-568 | every reachable state has well-formed lots and a FIFO trade ledger; with covered costs also cash after every fill and equity at every mark are non-negative, the peak is positive and every drawdown rate lies between minus the scale and zero |
| `PortfolioSolvency.SolventExactly` | crates/quant-engine/src/portfolio_v2.rs:386-461 | given any rates the validator allows, no valid input ever reaches negative cash if and only if the charges on one board lot at price 1 leave it non-negative or overflow; the other direction is a two-session input, for every such pair of rates |
| `PortfolioSchedule.CloseBeforeOpenIsOptimal` | crates/quant-engine/src/portfolio_v2.rs:370-461 | from any reachable state: if any order of the session's due intents passes all cash and T+1 checks, the engine's order passes if and only if the cash has room for the sum of the proceeds and the 64-bit count for the symbols sold out, and then ends with the same cash, cost totals and shares of every symbol |
| `PortfolioSchedule.BestOrder` | crates/quant-engine/src/portfolio_v2.rs:370-461 | the same for one session from any state with well-formed holdings and non-negative cash |
| `PortfolioOptimality.OptimalExactly` | crates/quant-engine/src/portfolio_v2.rs:370-461 | given any rates the validator allows, the engine's order does as well as any order that passes, in every session a valid input reaches, if and only if the charges on one board lot at price 1 leave it non-negative or cannot be computed |
| `PortfolioOptimality.SwapOverturns` | crates/quant-engine/src/portfolio_v2.rs:370-461 | with any other rates: a session in which buying first and selling afterwards passes, while the engine's order, the sale first, runs out of cash |
| `PortfolioAccounting.OneOrderPerIntent` | crates/quant-engine/src/portfolio_v2.rs:858-862 | a successful run gives exactly one order per intent, trades are the filled orders in order, and the final expiry loop adds nothing |
| `PortfolioCheckpoint.StepCheckpoint` | crates/quant-engine/src/portfolio_v2.rs:618-646 | a step restores the object, runs the batch and writes the checkpoint of the specification; an error of a session is reported as an inconsistent state |
| `PortfolioCheckpoint.FinalizeCheckpoint` | crates/quant-engine/src/portfolio_v2.rs:648-663 | finalizing restores the object and finishes it; an error of the finish is reported as an inconsistent state |
| `PortfolioCheckpoint.ChainIsPrefix` | crates/quant-engine/src/portfolio_v2.rs:598-646 | after k steps the checkpoint holds exactly the one-shot state of its cursor, or, when the one-shot run stopped before it, the chain reports an inconsistent state |
| `PortfolioCheckpoint.ChainRefinesRun` | crates/quant-engine/src/portfolio_v2.rs:589-663 | for every batch size the chain succeeds exactly when the one-shot run does, with the same output, in the sessions divided by the batch rounded up; before that the cursor strictly advances, after it a step changes nothing; any error of the one-shot run becomes an inconsistent state |
| `EngineMachine.ExecutionState.OpenLong` | crates/quant-engine/src/lib.rs:546-560 | the long-opening branch on the object: fields after it, or the error of the first check that fails |
| `EngineMachine.ExecutionState.CloseLong` | crates/quant-engine/src/lib.rs:561-581 | the long-closing branch, with the T+1 consumption and the flattening count |
| `EngineMachine.ExecutionState.MovePerp` | crates/quant-engine/src/lib.rs:765-812 | all four perpetual branches: flatness, the 1x cap, realized profit, the wallet |
| `EngineMachine.ExecutionState.ExecuteIntent` | crates/quant-engine/src/lib.rs:506-664 | one intent on the object: cancelled by its group, expired, resting, or filled with every record |
| `EngineMachine.ExecutionState.ProcessAShareBar` | crates/quant-engine/src/lib.rs:492-714 | one A-share bar on the object is the bar of the specification, errors included |
| `EngineMachine.ExecutionState.ProcessCryptoBar` | crates/quant-engine/src/lib.rs:717-934 | one perpetual bar with its funding, likewise |
| `EngineMachine.ExecutionState.FinishRun` | crates/quant-engine/src/lib.rs:2137-2278 | the end of a checkpointed run: expiry records, sort by sequence number, metrics |
| `OneShot.RunAShareCash` | crates/quant-engine/src/lib.rs:2359-2658 | the separate A-share implementation over local variables computes the same run as the object |
| `OneShot.RunCryptoLinearPerp` | crates/quant-engine/src/lib.rs:2660-2957 | the separate perpetual implementation computes the same run as the object |
| `EngineFills.FillsExactly` | crates/quant-engine/src/lib.rs:3209-3310 | on a valid bar an order fills exactly when its side is allowed and the bar reaches its price; then at the better of open and order price moved by the slippage but never past a limit, at the open exactly when it was reached there, maker exactly when a limit order had to wait |
| `EngineFills.DecisionFails` | crates/quant-engine/src/lib.rs:3209-3310 | the only failure is an overflow of the slipped price, exactly then |
| `EngineFills.FillsInRange` | crates/quant-engine/src/lib.rs:3209-3310 | no fill beyond its limit, none outside the bar by more than the slippage, never a negative slippage |
| `EngineOrder.OrderIsTotalExactly` | crates/quant-engine/src/lib.rs:3331-3354 | the execution order of a tape is a strict total order if and only if no intent outside an OCO event stands, in tape order, between two of its legs that execute in reverse |
| `EngineOrder.ClashHasNoOrder` | crates/quant-engine/src/lib.rs:3331-3354 | on any account, a valid three-intent tape whose intents wait for each other in a circle |
| `EngineOrder.ClashedBarHasNoOrder` | crates/quant-engine/src/lib.rs:494-505 | a valid input with one bar on which those three intents are live: in every arrangement of them one stands after an intent it executes before |
| `EngineOrder.AnySortAgrees` | crates/quant-engine/src/lib.rs:494-505 | on a well-ordered tape any sort of the live intents gives the schedule |
| `EngineInduction.ScheduleIs` | crates/quant-engine/src/lib.rs:494-505 | a schedule holds every live intent that has not completed, once |
| `EngineAccounting.RunAccounted` | crates/quant-engine/src/lib.rs:506-664 | after every bar: one order per completed intent, trades are the filled orders in order, the filled groups are those of the trades, at most one fill per OCO group |
| `EngineAccounting.OneOrderPerIntent` | crates/quant-engine/src/lib.rs:2141-2161 | a finished run has exactly one order per intent, in tape order, filled orders one to one with trades, at most one fill per OCO group |
| `EngineLedger.LedgerIsFifo` | crates/quant-engine/src/lib.rs:526-660 | every reachable A-share state holds lots of one side only, adding up to the position, and every closing trade, of longs or of research shorts, takes the oldest shares of earlier sessions |
| `EnginePerp.WalletEqualsCashBookkeeping` | crates/quant-engine/src/lib.rs:763-811 | at every bar wallet plus unrealized profit is starting balance plus signed notionals plus position at the mark less fees less funding |
| `EnginePerp.RunPerpSound` | crates/quant-engine/src/lib.rs:763-908 | an entry price is present exactly when there is a position, and wallet less entry value is plain cash bookkeeping |
| `EnginePerp.NoUnwrapFails` | crates/quant-engine/src/lib.rs:3209-3396 | on validated input no absent price is ever unwrapped |
| `EnginePerp.FillPricePositiveExactly` | crates/quant-engine/src/lib.rs:3292-3308 | a fill has a positive price unless it is an intrabar sell stop at or below the slippage, and only then |
| `EngineWitnesses.FillsBelowZero` | crates/quant-engine/src/lib.rs:3292-3308 | a valid perpetual run that fills an intrabar sell stop at -5 |
| `EnginePerp.LongOnlyNeverOwes` | crates/quant-engine/src/lib.rs:3365-3370 | a tape that opens no short, has no funding and whose sell stops clear the slippage keeps wallet and equity non-negative at every bar |
| `EngineCash.CashNonNegativeExactly` | crates/quant-engine/src/lib.rs:546-625 | after every fill of an A-share run the cash is non-negative if and only if the starting balance covers the debits of every beginning of the trade list, and then it is so after every bar |
| `EngineWitnesses.CashGoesNegative` | crates/quant-engine/src/lib.rs:546-560 | a valid A-share run that buys for 1000 with a cash of 100 |
| `LedgerTotals.ClosesStayBehindOpens` | crates/quant-engine/src/lib.rs:3398-3434 | in totals, for longs and research shorts: the shares closed through a session are covered by shares opened strictly before it |
| `LedgerTotals.SalesStayBehindPurchases` | crates/quant-engine/src/portfolio_v2.rs:293-334 | the same for every v2 symbol: shares sold through a session are covered by shares bought strictly before it |
| `ValidatorMachine.ValidateAuthoritativeState` | crates/quant-engine/src/lib.rs:1830-2062 | all checks in their order, with loops and early exits, accept exactly what the specification of the validators accepts, with the same error otherwise |
| `ValidatorMachine.ValidateCurveSemantics` | crates/quant-engine/src/lib.rs:1144-1237 | the three cursors that only move forward read, at every bar, the last position, cash and entry price recorded up to it |
| `ValidatorMachine.ValidateTradeSemantics` | crates/quant-engine/src/lib.rs:1239-1469 | the trade scan as a loop |
| `ValidatorMachine.ReconstructAShareLots` | crates/quant-engine/src/lib.rs:1471-1567 | the lots rebuilt from the trade records alone, as a loop |
| `ValidatorMachine.ValidateOrderSemantics` | crates/quant-engine/src/lib.rs:1569-1660 | the order log rebuilt bar by bar, as nested loops |
| `ValidatorMachine.RebuildLedgers` | crates/quant-engine/src/lib.rs:1662-1828 | cash and funding ledgers rebuilt from trades and funding events, as nested loops |
| `ValidatorMirror.RunIsRecomputed` | crates/quant-engine/src/lib.rs:1239-1567 | after any number of bars the trade scan, the lot reconstruction, the totals and the counters recomputed from the engine's records give the engine's own fields |
| `ValidatorMirror.BookedIsChecked` | crates/quant-engine/src/lib.rs:1278-1462 | the trade scan accepts every fill the engine books and moves with it |
| `ValidatorExact.BooksExactly` | crates/quant-engine/src/lib.rs:1278-1462 | of a trade that passes the scan, the ledger and the totals, the engine books the fill if and only if the trade fits: on A-share accounts the sum of notional and fee, or of fee and stamp duty; on perpetual ones that sum within 128 bits and the wallet, or the wallet with the profit |
| `ValidatorCurve.RunIsScanned` | crates/quant-engine/src/lib.rs:1144-1237 | the points the curve validator expects from the final records are the engine's points of every earlier bar, and the extremes are the engine's running ones |
| `ValidatorLedger.RunIsRebuilt` | crates/quant-engine/src/lib.rs:1662-1828 | rebuilding the ledgers from the trades succeeds exactly when the partial sums of every record fit in 128 bits, and then gives back the engine's ledgers |
| `ValidatorLedger.RunFits` | crates/quant-engine/src/lib.rs:1900-1930 | the running cash of the ledger is the engine's money, and on A-share accounts every record fits |
| `ValidatorOrders.TradesAreFills` | crates/quant-engine/src/lib.rs:1257-1272 | on a well-ordered tape a trade list in session and execution order that matches the order log in number can only be its fills, one after the other |
| `ValidatorExact.RunJoint` | crates/quant-engine/src/lib.rs:1569-1828 | beside an accepted state whose trades fit, the engine passes every bar and keeps its log, trades, positions, ledgers and points |
| `ValidatorExact.ReachedFits` | crates/quant-engine/src/lib.rs:526-812 | every state the engine reaches has only trades that fit |
| `ValidatorExact.AcceptedIsReachedExactly` | crates/quant-engine/src/lib.rs:1830-2062 | soundness, exact: a state accepted on a well-ordered tape is, field for field, the state of replaying the bars if and only if its trades fit, a condition on its own records; otherwise the replay stops by an overflow or at the 1x cap |
| `EngineWitnesses.CapIsNotValidated` | crates/quant-engine/src/lib.rs:1830-2062 | an accepted perpetual state that bought for 200 with 100; the engine stops at the cap |
| `EngineWitnesses.OverflowIsNotValidated` | crates/quant-engine/src/lib.rs:1830-2062 | an accepted A-share state whose fee and stamp duty do not fit together; the engine overflows |
| `ValidatorCompleteness.OrdersPassExactly` | crates/quant-engine/src/lib.rs:1619-1645 | the order check accepts the engine's own log if and only if no fill came after a bar on which its intent was already live |
| `ValidatorCompleteness.LedgersPassExactly` | crates/quant-engine/src/lib.rs:1898-1930 | the ledger checks accept the engine's own ledgers if and only if the partial sums of every record fit |
| `EngineWitnesses.UnfitLedgerIsRefused` | crates/quant-engine/src/lib.rs:1898-1930 | a valid perpetual run whose own state is refused because the deltas of one record do not fit together |
| `ValidatorCompleteness.ReachedIsAcceptedExactly` | crates/quant-engine/src/lib.rs:1830-2062 | completeness, exact: the engine's own state is accepted if and only if every fill came on the first bar its intent was live on and, on a perpetual account, every ledger record fits |
| `ValidatorCompleteness.DayTapesAreAccepted` | crates/quant-engine/src/lib.rs:1587-1659 | tapes of day orders never rest, so on A-share accounts the engine is always accepted |
| `EngineCheckpoint.StepCheckpoint` | crates/quant-engine/src/lib.rs:2301-2335 | a step restores the object, runs the batch and writes the checkpoint of the specification |
| `EngineCheckpoint.FinalizeCheckpoint` | crates/quant-engine/src/lib.rs:2337-2357 | finalizing restores the object and finishes it |
| `EngineCheckpoint.CheckpointedRunIsOneShot` | crates/quant-engine/src/lib.rs:2280-2357 | for every batch size: when start, the steps and finalize all succeed, the output is the one-shot output, whatever the validators are |
| `EngineCheckpoint.ChainIs` | crates/quant-engine/src/lib.rs:2301-2335 | a chain of steps succeeds exactly when the run reaches that far and every state on the way is believed, and then holds the one-shot state |
| `EngineTrust.DecodeCheckpoint` | crates/quant-engine/src/lib.rs:2064-2135 | decoding with the validator loops is the decoding of the protocol |
| `EngineTrust.FinalizedIsOneShot` | crates/quant-engine/src/lib.rs:2064-2357 | whoever wrote it: a checkpoint that finalizes on a well-ordered tape hands out the one-shot output if and only if its trades fit; otherwise the one-shot run fails, by an overflow or at the cap |
| `EngineTrust.InterruptedRunSucceeds` | crates/quant-engine/src/lib.rs:2280-2357 | an interrupted run succeeds, for one batch size as for every other, exactly when the one-shot run succeeds and ends resumable: every fill on its first live bar, every perpetual record fitting |
| `EngineTrust.DayRunSucceeds` | crates/quant-engine/src/lib.rs:2280-2357 | an A-share tape of day orders succeeds interrupted exactly when it does in one shot |
| `EngineTrust.RestingFillIsRefused` | crates/quant-engine/src/lib.rs:1633-1638 | a valid two-bar input the engine runs and whose state its validators refuse: a limit order that rests once and then fills |
| `Host.RunStrategyHost` | services/quant-domain/src/quant_domain/formal_runner.py:588-666 | the host loops, with their early exits and the dropped last answer, emit the tape of the specification |
| `Host.KnownBeforeEffective` | services/quant-domain/src/quant_domain/formal_runner.py:588-657 | for increasing sessions from 1 on every emitted intent is known strictly before it becomes effective, at an open, and the tape is in sequence |
| `Host.KnownBeforeExactly` | services/quant-domain/src/quant_domain/formal_runner.py:588-657 | for increasing sessions every emitted intent is known strictly before it becomes effective if and only if the sessions begin at 1 or later or no answer to the start becomes effective at session 0 |
| `Host.SessionZeroBreaks` | services/quant-domain/src/quant_domain/formal_runner.py:632-633 | on a tape starting at session 0 an answer to the start with no stated time breaks that order |
| `Host.NoLookAhead` | services/quant-domain/src/quant_domain/formal_runner.py:588-657 | whatever the strategy, two markets that agree on their first k bars and the funding of those sessions give the same engine state after k bars, through host stamping and either v1 engine |
| `Host.LaterRelease` | services/quant-domain/src/quant_domain/formal_runner.py:634-657 | what is emitted after bar m was released becomes effective after bar m |
| `Report.TruncDivsAgree` | services/quant-domain/src/quant_domain/run_report.py:53-57 | the report's truncating division is the engine's, for all signs |
| `Report.ReferenceSummary` | services/quant-domain/src/quant_domain/run_report.py:94-166 | the loops of the reference computation compute its specification |
| `Report.Reconciliation` | services/quant-domain/src/quant_domain/run_report.py:311-348 | the list of 17 checks passes if and only if every published metric and cost is the recomputed one |
| `Report.CountsAgreeExactly` | services/quant-domain/src/quant_domain/run_report.py:125-127 | counting all closing trades and counting flattening ones agree exactly when every close leaves its position flat |
| `ReportEngine.ReconcilesExactly` | services/quant-domain/src/quant_domain/run_report.py:311-348 | with a rate scale of 1000000 a v1 output reconciles if and only if every closing trade leaves the account flat; a perpetual output always does |
| `EngineWitnesses.PartialCloseDoesNotReconcile` | services/quant-domain/src/quant_domain/run_report.py:125-127 | a valid A-share run that sells half of what it holds and whose output does not reconcile |
| `ReportEngine.RunKeepsRunning` | services/quant-domain/src/quant_domain/run_report.py:106-115 | the peak and the extremes recomputed from the curve are the engine's running ones |
| `ReportPortfolio.ReconcilesExactly` | services/quant-domain/src/quant_domain/run_report.py:311-348 | a v2 output reconciles if and only if every closing trade leaves its symbol flat |
| `ReportPortfolio.PartialCloseDoesNotReconcile` | services/quant-domain/src/quant_domain/run_report.py:125-127 | a valid v2 run that sells one of two board lots and whose output does not reconcile |
| `ReportPortfolio.OpenCountIs` | services/quant-domain/src/quant_domain/run_report.py:129-133 | the symbols whose last recorded quantity is not zero are as many as the engine's open positions |
| `Injection.FindMarker` | apps/control-plane/src/pi-session-adapter.ts:421-436 | the scan finds a marker exactly when the log has one |
| `Injection.StepKeeps` | apps/control-plane/src/session-fabric.ts:343-408 | every action of deliveries, injections, acknowledgements and crashes keeps the invariant: at most one marker per message, one unsettled injection per message and only before its marker, a task marks only what is in the log, what is injected is in the log |
| `Injection.EffectivelyOnce` | apps/control-plane/src/pi-session-adapter.ts:374-419 | in every interleaving with crashes a marker enters the log at most once, and a message marked injected is there exactly once |
| `Injection.ReceiptsCount` | apps/control-plane/src/session-fabric.ts:419-467 | between any two moments of a run a receipt never goes back, and its version grows by exactly the stages passed |
| `Injection.RestartDelivers` | apps/control-plane/src/session-fabric.ts:343-408 | from any moment of any run: after a restart one undisturbed delivery leaves a message not yet injected marked injected, with exactly one marker |
| `EventStream.BoundaryIsStable` | apps/control-plane/src/domain-event-stream-client.ts:120-127 | a frame boundary once found stays the first one whatever arrives later |
| `EventStream.Read` | apps/control-plane/src/domain-event-stream-client.ts:113-135 | for any text in any chunks, and whether the stream ends or its connection fails, the incremental client does what parsing the whole text does: the same events handed over, the same cursor, the same refusal |
| `EventStreamServer.PrintFrames` | services/quant-domain/src/quant_domain/app.py:102-118 | the printing loop prints the events after the cursor and ends with the cursor of the last |
| `EventStreamServer.RoundTrip` | services/quant-domain/src/quant_domain/app.py:102-118 | a printed stream in any chunks is read as exactly the printed events, with the cursor of the last |
| `EventStreamServer.CutStreamExactly` | apps/control-plane/src/domain-event-stream-client.ts:69-135 | what a stream cut anywhere comes to: exactly its whole frames are handed over, a last one without its blank line included once the stream has ended, and the client returns their cursor unless it is cut inside a frame or the connection failed |
| `EventStreamServer.CutStreamIsWhole` | apps/control-plane/src/domain-event-stream-client.ts:113-135 | in particular, however it is cut off, a whole number of its events is handed over, never a changed one |
| `EventStreamServer.ReconnectsExactly` | apps/control-plane/src/domain-event-stream-client.ts:43-52 | over any number of connections against a growing log, each cut anywhere, the events of those that returned and what the last returned cursor still asks for are together exactly the log |
| `EventStreamServer.NeverSkips` | apps/control-plane/src/domain-event-stream-client.ts:106-126 | over the same connections: everything handed over, by failed ones too, is a beginning of the log at least as far as the cursor, and no event comes before all that precede it |
| `EventStreamServer.HandedTwiceExactly` | apps/control-plane/src/domain-event-stream-client.ts:106-126 | an event is handed over twice if and only if a connection failed after it had handed over an event and a later one hands over any; otherwise the log is handed over from its beginning, once |
| `EventStreamServer.RetryHandsTwice` | apps/control-plane/src/domain-event-stream-client.ts:106-126 | two events, the stream cut anywhere inside the second frame and read again from the old cursor: the first is handed over twice |
| `EventStreamServer.SomeCodecIsFaithful` | services/quant-domain/src/quant_domain/app.py:102-118 | what is assumed of the encoder holds of a concrete one |
| `EventStreamServer.DecimalReads` | apps/control-plane/src/domain-event-stream-client.ts:93-95 | a printed sequence number is accepted as an id and reads back as itself |
| `Paths.TestsAgree` | services/quant-domain/src/quant_domain/contracts.py:256-263 | the ancestor test on path components and the test on text prefixes agree on all strings |
| `Paths.ValidateFilePaths` | services/quant-domain/src/quant_domain/git_workspace.py:181-196 | the nested loops accept exactly the sets of valid paths with no path above another |
| `Paths.RevisionCommandErrors` | services/quant-domain/src/quant_domain/contracts.py:243-264 | the loop finds nothing exactly when paths are distinct, have no .git component and none is above another |
| `Paths.ChecksAgree` | services/quant-domain/src/quant_domain/git_workspace.py:181-196 | for paths valid one by one, the workspace accepts their set and they are distinct exactly when the contract finds nothing |
| `PathTree.BuildNestedTree` | services/quant-domain/src/quant_domain/git_workspace.py:110-116 | the insertion loop builds the tree of the specification or fails with it |
| `PathTree.InsertFailsExactly` | services/quant-domain/src/quant_domain/git_workspace.py:114-116 | an insertion fails exactly when a blob stands on its way |
| `PathTree.InsertFinds` | services/quant-domain/src/quant_domain/git_workspace.py:112-116 | otherwise it adds one file, removes what stood below that path, and leaves every other path as it was |
| `PathTree.TreeFailsExactly` | services/quant-domain/src/quant_domain/git_workspace.py:110-116 | inserting in sorted order meets a blob exactly when some path is above another |
| `PathTree.TreeRoundTrip` | services/quant-domain/src/quant_domain/git_workspace.py:215-224 | for every accepted set of files the tree is built, and flattening the tree objects gives back exactly the map from paths to blobs |

## Left out

- JSON, SHA-256, the Python bindings and error texts: foreign code. Equal values have
  equal serializations, and a checkpoint of another account model is refused by a field.
- Atoms outside 128 bits, negative sessions and negative sequence numbers in an input:
  they do not parse, so the model starts after that.
- `closed_trade_count` of v1 is an unbounded natural number; v2 models its 64-bit limit.
- The negation of a fee that is exactly the least 128-bit integer is written as plain
  negation; the validator's check of it is modelled.
- The program's sort is unspecified on a tape without a total order; the model sorts by
  stable insertion there. On well-ordered tapes every sort agrees (`EngineOrder.AnySortAgrees`).
- Constant and display fields of the outputs (versions, notices, assumptions), and the
  cost summaries, which repeat the totals of the metrics.
- The subprocess broker, its timeouts, tokens and frame limits: a strategy is a function
  of the bars released so far that may also fail to answer.
- The JavaScript number type: sequence numbers of the stream are exact integers.
- Byte decoding of the stream, a byte order mark, HTTP status and headers, and the
  polling of an idle connection. The encoder is assumed to write an event on one line of
  which no proper beginning decodes.
- A receiver of events that itself fails on one: the client then fails without moving
  its cursor past that event.
- Injection.EffectivelyOnce: assumes of the server only compare-and-set on state and
  version, and of a session that a message is appended to its log once, between
  hand-over and the check after it, or not at all; one session log has one adapter at a
  time. The disposition and event bodies of an answer are not modelled.
- PathTree.BuildNestedTree: the nested dictionaries are values that an insertion
  rebuilds, not shared mutable objects; a directory is never reached by two names, so
  only the update in place is lost.
- EngineFills.FillsExactly: takes the decision to be made; `EngineFills.DecisionFails`
  says when it is not.
- Hashing of blobs and trees by git, commits and references: a tree object is its list
  of entries.
- Project archives, the database, the worker, the HTTP services, tool definitions, the
  user interfaces and the bundled strategies: plumbing, or code resting on libraries.
- Import of market data: library behaviour; the engine input is taken as built.
