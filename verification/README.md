# Verified model of the trading pipeline

A Dafny model of the in-memory decision logic of the trading system: from bars, quotes and stream events through
features, datasets and forecasts to sized strategy decisions, pre-trade risk, simulated fills, the account, and the
paper reports. Each module follows one source component.

| module | component |
|---|---|
| `Contracts`, `Sorting`, `Statistics`, `Names` | options and results, the stable sort, sums and variances, names without case or padding |
| `InstrumentMaster` | effective-dated windows, order constraints, snapshot lookups |
| `StreamHealth` | the stateful stream-health evaluator and the data-health gate |
| `Orders`, `RiskContracts`, `RiskEngine` | order intents, risk inputs, the 23 limits and the decision |
| `RiskLimits`, `RiskCapping`, `RiskRun`, `RiskControls` | what the limits mean, what capping reaches, what whole runs keep, controls no order passes |
| `KillSwitch` | the kill-switch log, its snapshot and its transitions |
| `ReplayInputs`, `ReplayEngine` | bar and intent validation, fills, costs, balances |
| `ReplayAccounting`, `ReplayOutcomes` | conservation over runs, prices and costs of fills, what comes of every order |
| `ReplayCausality`, `ReplayWaiters` | order of fills, what later bars can change |
| `Gateway`, `Paper`, `PaperTca` | risk-gated replay, lifecycle events, session logs, cost analysis |
| `Scorecard` | compounding, drawdown, tail risk |
| `DatasetSnapshots` | chronological splits and labels |
| `Candidate`, `CandidateLaws` | the probabilistic candidate, what its forecasts say |
| `BarSeries`, `TaFeatures`, `LiquidityFeatures` | point-in-time features |
| `Strategy` | expected-edge decisions and sizing before risk |

Code that loops over dictionaries, lists or remembered values is a method with invariants, proved equal to a
specification function; objects that update their fields are classes. The laws are lemmas about those functions.
Constructors that raise are subset types, preconditions naming the validator, or `Result` values.

Conventions: decimals are exact reals, instants are integers (milliseconds of one timezone), identifiers are integers
whose equality and order are all that matters, and content hashes are the content itself, so equal hashes mean equal
content.

What the proofs settle beyond the happy path:

- A capped order is always smaller, and the request alone tells its notional (`RiskCapping.CappedToCapNotional`). Checked
  again it meets every hard limit unless an unresolved record already carries its hash
  (`RiskCapping.CapKeepsHardLimits`), which can happen (`RiskControls.CappedOrderCanBeRejected`).
- One cap is not always enough (`RiskCapping.SecondCapNeededIff`, `RiskControls.SecondCapCanBeNeeded`). Two are, exactly
  when neither capped order's hash is taken (`RiskCapping.TwoCapsSufficeIff`), as when every idempotency record carries
  the hash of its own client order (`RiskCapping.TwoCapsSuffice`).
- Checking an order under the state the kill-switch store reports is checking it under every active record
  (`RiskControls.SnapshotChecksEveryRecord`).
- A kill-switch log is a chain of custody exactly while every transition finds the state last appended to its scope as
  the effective one (`KillSwitch.ChainOfCustodyIff`); a back-dated transition breaks it
  (`KillSwitch.BackdatedTransitionBreaksChain`).
- A replay of accepted inputs raises exactly when it has no instrument metadata and one of its orders could trade on a
  bar that opens at zero (`ReplayAccounting.RunRaisesIff`).
- Later bars can undo a fill when orders of several markets share cash
  (`ReplayCausality.LaterBarsCanUndoFillAcrossMarkets`). They cannot when only waiting orders follow waiting ones, as
  within one market (`ReplayCausality.LaterBarsBehindWaiters`); for two orders they can, for some account, exactly when
  the first waits and its fill moves the balance the second is paid from (`ReplayWaiters.SecondOrderSparedIff`).
- The rounding behind the tail size is a ceiling only off the negative fractions (`Scorecard.CeilIsCeilingIff`), which
  the tail size never meets.
- One-pass and quadratic drawdown agree exactly when every ruinous fall is matched by some equity over its peak
  (`Scorecard.QuadraticIff`), and on all runs of returns of at least b exactly when b is at least -1
  (`Scorecard.QuadraticOnReturnsFromIff`).
- A buy sized with a zero budget is refused by its own validator (`Strategy.DecisionRefusedIff`).

Run `dafny verify dfyconfig.toml` here to check everything.

## Model

| member | source | states |
|---|---|---|
| `RiskEngine.EvaluatePreTradeRisk` | src/ta_model/risk/engine.py:95-173 | The method, with its loops and appended lists, returns the event of the specification function `RiskCheck` the laws below are about. |
| `RiskEngine.ApprovalAfterSoftCaps` | src/ta_model/risk/engine.py:176-216 | The cap collection loop and the early exits decide as `ApprovalFor` does. |
| `RiskEngine.CollectCaps` | src/ta_model/risk/engine.py:194-199 | The loop stops at the first breach that cannot be capped and otherwise holds exactly the allowed notionals of the soft breaches. |
| `RiskEngine.TightestCap` | src/ta_model/risk/engine.py:200 | The allowed notional is attained by some soft breach and no breach allows less. |
| `RiskEngine.LiquidityParticipation` | src/ta_model/risk/engine.py:722-800 | The check list built step by step yields the evaluation of the specification. |
| `RiskEngine.ThrottleEvaluations` | src/ta_model/risk/engine.py:906-954 | One evaluation per window, in window order. |
| `RiskEngine.RejectBurstEvaluations` | src/ta_model/risk/engine.py:957-998 | One evaluation per window, in window order. |
| `RiskLimits.RejectedIffHardLimitBroken` | src/ta_model/risk/engine.py:144-150 | An order is rejected if and only if it breaks one of the hard limits, each stated on the fields of request, policy, account and constraint (metadata, kill switch, venue, price, every size limit by the policy's fraction of NAV and the account's own, the constraint's maximum notional, cash reserve, losses, participation, spread, volatility, data health, duplicates, throttles, latency, model, cost). |
| `RiskLimits.FoldedLimitsMeaning` | src/ta_model/risk/engine.py:485-656 | The folded minima and the cash floor mean each bound separately: within the policy's hard fraction of NAV, within the account's own fraction when the account is known, within the constraint's maximum when it gives one. |
| `RiskLimits.MetadataMeaning` | src/ta_model/risk/engine.py:243-277 | The metadata of a request are snapshot entries with the ids asked for, absent only if none has them, and the one constraint whose window holds the creation time. |
| `RiskLimits.EvidenceMeaning` | src/ta_model/risk/engine.py:107-150 | The evidence lists every limit in a fixed order, throttles and bursts once per window, each with a reason that fits its status. |
| `RiskLimits.EvidenceNumbers` | src/ta_model/risk/engine.py:1094-1164 | The numbers reported explain the status: a soft breach lies beyond its soft and within its hard threshold, losses downwards, reject counts from the threshold on, a cash reserve below the floor. |
| `RiskLimits.SizesReported` | src/ta_model/risk/engine.py:485-656 | What a buy's size limits report: its notional and each exposure after it, or the cash left when that is short of the reserve, against the soft fractions of NAV. |
| `RiskLimits.BuyApprovedIffAllLimitsMet` | src/ta_model/risk/engine.py:176-191 | A buy is approved as it stands if and only if it meets every hard and every soft limit. |
| `RiskLimits.BuyCappedIff` | src/ta_model/risk/engine.py:186-216 | A buy is capped if and only if it meets every hard limit and every soft limit that size cannot mend, exceeds a soft size limit or share, and every exposure has room left. |
| `RiskLimits.SellApprovedIffHardLimitsMet` | src/ta_model/risk/engine.py:183-184 | A sell is approved unchanged if and only if it meets the hard limits; soft limits never hold it back. |
| `RiskLimits.OperationalLimitsMeaning` | src/ta_model/risk/engine.py:906-1091 | Throttle, reject-burst, latency, model and cost evaluations, both directions, over every window. |
| `RiskCapping.ParticipationByNotional` | src/ta_model/risk/engine.py:722-800 | Participation is breached exactly when the notional exceeds the share of a metric; its cap is that of the first exceeded metric. |
| `RiskCapping.BuyDecisionTable` | src/ta_model/risk/engine.py:144-216 | The four outcomes of a buy, each with its exact condition on the evaluations. |
| `RiskCapping.CappedOrderIsSmaller` | src/ta_model/risk/engine.py:200-216 | A capped order is the original buy at a positive and strictly smaller quantity; the branch that keeps the original order is unreachable. |
| `RiskCapping.CappedToCapNotional` | src/ta_model/risk/engine.py:176-216 | Told on the request alone: the notional of a capped order is the least room that the four size limits leave, or the exceeded participation share when that is less. |
| `RiskCapping.CapKeepsHardLimits` | src/ta_model/risk/engine.py:176-240 | Told on the request alone: checked again, a capped order breaches a hard limit if and only if an unresolved record already carries the hash of the order at that notional. |
| `RiskCapping.OneCapSufficesIffDepthFits` | src/ta_model/risk/engine.py:722-800 | Checked again under a hash that is not taken, a capped order is approved unchanged exactly when it also fits the book-depth share, and otherwise capped once more. |
| `RiskCapping.SecondCapNeededIff` | src/ta_model/risk/engine.py:722-800 | The full table of a second check, told on the request alone: rejected exactly when the hash at the capped notional is taken; otherwise capped once more exactly when the order exceeds the volume share, the depth share is smaller still, and every size limit leaves more room than the depth share; otherwise approved. |
| `RiskCapping.TwoCapsSufficeIff` | src/ta_model/risk/engine.py:176-240 | At most two caps reach an order that is approved unchanged if and only if no unresolved record carries the hash of the order at the capped notional nor, when a second cap is needed, at the depth share. |
| `RiskCapping.TwoCapsSuffice` | src/ta_model/risk/engine.py:176-240 | In particular when every idempotency record carries the hash of an intent of its own client order. |
| `RiskCapping.OwnHashesAreFresh` | src/ta_model/risk/engine.py:882-903 | When every record carries the hash of its own client order, none carries that of a capped order at any quantity. |
| `RiskCapping.CapIsGreatest` | src/ta_model/risk/engine.py:200-216 | The cap is not tighter than it must be: no larger quantity up to the original would be approved unchanged. |
| `RiskControls.SecondCapCanBeNeeded` | src/ta_model/risk/engine.py:770-786 | A concrete request whose capped order must be capped a second time. |
| `RiskControls.CappedOrderCanBeRejected` | src/ta_model/risk/engine.py:882-903 | A concrete request that is capped to 8 and then rejected, because another order's unresolved record carries the hash of the order at 8. |
| `RiskControls.TwiceCappedOrderCanBeRejected` | src/ta_model/risk/engine.py:882-903 | The same after the second cap, with a record that carries the hash at 5. |
| `RiskControls.KillSwitchGatesApproval` | src/ta_model/risk/engine.py:383-415 | What each kill-switch state allows to be approved; no buy of any size while soft-limited. |
| `RiskControls.SnapshotChecksEveryRecord` | src/ta_model/risk/kill_switch.py:65-90 | An order gets past the hard limits under the reported kill-switch state if and only if some record is active and it gets past them under the state of each active record: folding the records to one state neither relaxes nor tightens the check. |
| `RiskControls.StaleFeedRejects` | src/ta_model/risk/engine.py:861-879 | End to end from the stream: an event whose timestamp lies further back than the policy's maximum age, with freshness critical, blocks every order on its instrument. |
| `RiskRun.ApprovalIsSafe` | src/ta_model/risk/engine.py:95-173 | Any approval, capped or not, keeps cash and exposures within limits or only reduces them. |
| `RiskRun.ApprovedBuyFits` | src/ta_model/risk/engine.py:176-216 | Every approved buy, capped or not, meets at its approved quantity the policy's soft and hard fractions, the account's own fractions, the constraint's maximum and the cash reserve. |
| `RiskRun.ApprovedSellIsHeld` | src/ta_model/risk/engine.py:659-674 | Approved sells are covered by the position. |
| `RiskRun.StepKeepsLimits` | src/ta_model/risk/engine.py:280-325 | Feeding an approved order's own effect back as state keeps limits and non-negativity, for any price. |
| `RiskRun.EffectMeaning` | src/ta_model/risk/engine.py:280-325 | A buy spends quantity times price and adds it to every exposure; a sell returns it and takes it off every exposure down to nothing; the order increases risk exactly when it buys or oversells. |
| `RiskRun.StepMeaning` | src/ta_model/risk/engine.py:280-325 | One submission leaves the book alone unless a quantity of the order is approved; then its market and strategy move by exactly that quantity at the request's price, and every other entry stays. |
| `RiskRun.RunBook` | src/ta_model/risk/engine.py:95-173 | Every run of submissions from a book within limits ends within limits: each exposure at most the policy's soft and hard fractions and the account's fraction of NAV, cash at least both reserves, positions non-negative. |
| `InstrumentMaster.OverlappingKey` | src/ta_model/contracts/instrument_master.py:903-920 | The group, sort and neighbour scan accepts exactly the records whose windows are pairwise disjoint per key. |
| `InstrumentMaster.SortedWindowsDecide` | src/ta_model/contracts/instrument_master.py:912-920 | Sorted by start, no neighbour overlaps if and only if no two windows overlap. |
| `InstrumentMaster.GroupByKey` | src/ta_model/contracts/instrument_master.py:909-911 | The dictionary of lists holds each key's windows in input order. |
| `InstrumentMaster.AtMostOneActive` | src/ta_model/contracts/instrument_master.py:897-900 | With accepted windows at most one constraint per instrument is effective at any instant. |
| `InstrumentMaster.LookupFailsOnlyByAbsence` | src/ta_model/risk/engine.py:267-277 | Both "exactly one active constraint" lookups can fail only by finding none. |
| `InstrumentMaster.LookupsMeaning` | src/ta_model/simulation/replay.py:364-408 | Venue, instrument and account lookups find the first entry with the id and fail only if there is none. |
| `InstrumentMaster.EvaluateOrder` | src/ta_model/contracts/instrument_master.py:495-531 | The appended codes are those of the specification and the order passes exactly when there is none. |
| `InstrumentMaster.AllowedMeaning` | src/ta_model/contracts/instrument_master.py:495-531 | An order passes if and only if its price is a positive whole number of ticks, its quantity a positive whole number of lots, no less than the minimum (one lot when none is given) and within the maximum, and its notional within its bounds. |
| `InstrumentMaster.MultipleIsWholeNumber` | src/ta_model/contracts/instrument_master.py:923-924 | The tick and lot test accepts exactly whole multiples. |
| `InstrumentMaster.Duplicates` | src/ta_model/contracts/instrument_master.py:927-935 | The one-pass scan returns exactly the values that occur more than once. |
| `ReplayInputs.ValidateBars` | src/ta_model/simulation/replay.py:508-543 | The one-pass check accepts exactly the bars that are available by their close, ordered, and within a market of one timeframe and pairwise non-overlapping. |
| `ReplayInputs.SafeMeaning` | src/ta_model/simulation/replay.py:508-543 | In full: every bar is available by its close, later bars follow in order of close, instrument and venue, and within a market have one timeframe and open no earlier than the bar before closed. |
| `ReplayInputs.CheckBar` | src/ta_model/simulation/replay.py:513-543 | One iteration, against its remembered sets and dictionaries, accepts a bar exactly when it is safe after every earlier one. |
| `ReplayEngine.ValidateIntents` | src/ta_model/simulation/replay.py:546-559 | Accepts exactly distinct client order ids in (submission, id) order. |
| `ReplayEngine.OrderedMeaning` | src/ta_model/simulation/replay.py:546-559 | In full: later orders have other ids and are submitted later, or at the same time with a greater id. |
| `ReplayEngine.BalanceBook.ApplyBalanceOrReject` | src/ta_model/simulation/replay.py:436-463 | The in-place update equals the settlement the accounting laws are about; rejections leave the balances. |
| `ReplayEngine.ReplayOrder` | src/ta_model/simulation/replay.py:121-316 | One order against the shared balances equals the specification, result and balances. |
| `ReplayEngine.ReplayMarketOrders` | src/ta_model/simulation/replay.py:49-118 | The whole replay equals the order-by-order specification; on failure it names the class of error: bars are judged before order intents, both before the metadata, and what is left is a result that fails its validator. |
| `ReplayEngine.MeetingConstraintNeedsPrice` | src/ta_model/simulation/replay.py:411-433 | An order that meets its constraint has a positive reference price. |
| `ReplayAccounting.FillNumbers` | src/ta_model/simulation/replay.py:254-269 | Notionals and costs are non-negative, the fee is at most the notional, and effective and reference notional differ by exactly spread plus slippage, for both sides. |
| `ReplayAccounting.FillCharges` | src/ta_model/simulation/replay.py:254-269 | With a cost model the fee is its taker rate on the effective notional, spread and slippage its basis points of the reference notional; without one all three are zero. |
| `ReplayAccounting.FillIsPricedAt` | src/ta_model/simulation/replay.py:214-269 | A fill's quantity, prices, notionals and costs are those of the bar's open and volume and of the cost model's own rates, participation and partial-fill rule. |
| `ReplayAccounting.FillRaisesIffUnpriced` | src/ta_model/contracts/simulation.py:214-278 | A fill passes the result validator if and only if the bar opens above zero. |
| `ReplayAccounting.RunRaisesIff` | src/ta_model/simulation/replay.py:76-94 | A whole replay raises if and only if it has no metadata and one of its orders could trade on the bar it tries while that bar opens at zero. |
| `ReplayAccounting.ReplayRaisesExactlyOnZeroOpen` | src/ta_model/simulation/replay.py:151-199 | The same for one order. |
| `ReplayAccounting.ZeroOpenBarRaises` | src/ta_model/simulation/replay.py:151-199 | Such inputs pass validation: any market order and one bar of its market that opens at zero make the replay raise. |
| `ReplayAccounting.ZeroOpenBarExists` | src/ta_model/simulation/replay.py:151-199 | Such an order and such a bar exist. |
| `ReplayAccounting.FillsIff` | src/ta_model/simulation/replay.py:121-316 | With an account an order fills if and only if metadata, bar choice, constraint, liquidity and balance all allow it; the balance must cover reference notional plus all costs. |
| `ReplayOutcomes.OutcomeMeaning` | src/ta_model/simulation/replay.py:121-316 | What comes of every order, by the first thing that stands in its way: metadata, order type, no bar after the latency, constraint, liquidity, then cash or inventory that does not hold what the fill takes; otherwise a fill at the price of the bar tried. |
| `ReplayOutcomes.RunOutcomes` | src/ta_model/simulation/replay.py:76-94 | The same for every order of a run, on the balances its predecessors left. |
| `ReplayOutcomes.MetadataMeaning` | src/ta_model/simulation/replay.py:364-408 | Venue, venue order types, instrument, instrument order types and account are judged in this order, each with its own reason. |
| `ReplayAccounting.SettleMovesFlow` | src/ta_model/simulation/replay.py:436-463 | One settlement moves exactly its result's flow in every balance and keeps every balance non-negative. |
| `ReplayAccounting.RunConservesBalances` | src/ta_model/simulation/replay.py:76-94 | Whole-run accounting: each balance ends at its start plus the net flow of all results, a buy costing reference notional plus total cost and a sell yielding it less total cost; no balance is ever negative. |
| `ReplayAccounting.UnfilledMovesNothing` | src/ta_model/simulation/replay.py:436-463 | An order that does not fill leaves every balance as it was. |
| `ReplayAccounting.RunSettlesExactly` | src/ta_model/simulation/replay.py:254-269 | In every fill of a run the cash moved is the reference notional and the reported costs, exactly. |
| `ReplayAccounting.ResultsMatchIntents` | src/ta_model/simulation/replay.py:78-88 | One result per order, in order, consistent and carrying its own order's identity. |
| `ReplayAccounting.BuildRejectionCounts` | src/ta_model/contracts/simulation.py:318-330 | The dictionary counts each reason exactly and lists none that does not occur. |
| `ReplayAccounting.FillsAndRejectionsPartition` | src/ta_model/contracts/simulation.py:318-330 | Fills plus the counts of all reasons are the number of results. |
| `ReplayCausality.EligibleAreExact` | src/ta_model/simulation/replay.py:142-149 | The eligible list is all eligible bars, in bar order. |
| `ReplayCausality.LaterOrderSeesSuffix` | src/ta_model/simulation/replay.py:142-149 | Within a market the eligible bars of a later order are the last ones of an earlier order. |
| `ReplayCausality.AttemptsMoveForward` | src/ta_model/simulation/replay.py:204-213 | The bar tried by the later of two orders of a market is never earlier. |
| `ReplayCausality.FillIsOnLatencyBar` | src/ta_model/simulation/replay.py:142-253 | Every fill is on the bar of its market with exactly `latency` bars between the submission and it, takes at most its share of the volume, and is priced and charged by that bar and the cost model. |
| `ReplayCausality.FillsNeverGoBack` | src/ta_model/simulation/replay.py:546-559 | Over a whole run, fills of one market never go back in time. |
| `ReplayCausality.RunFillsArePriced` | src/ta_model/simulation/replay.py:76-94 | In every run each fill is on its order's latency bar, with the quantity, prices and costs of that bar and the cost model's own rates. |
| `ReplayCausality.TurnedAwayIgnoresBars` | src/ta_model/simulation/replay.py:364-408 | An order that its metadata or its type turns away has the same result whatever the bars and balances, and moves nothing. |
| `ReplayCausality.LaterBarsWithoutAccount` | src/ta_model/simulation/replay.py:142-199 | Without an account, appended bars make a replay raise exactly when a waiting order tries one that opens at zero, and otherwise change only results that had found no future bar. |
| `ReplayCausality.LaterBarsBehindWaiters` | src/ta_model/simulation/replay.py:142-213 | With or without an account, in any number of markets: when behind an order that waits for a bar there are only orders that wait too or are turned away, appended bars change only results that had found no future bar, and nothing at all if no order waits. |
| `ReplayCausality.LaterBarsInOneMarket` | src/ta_model/simulation/replay.py:142-213 | In particular when all orders are in one market. |
| `ReplayCausality.LaterBarsCanUndoFillAcrossMarkets` | src/ta_model/simulation/replay.py:436-463 | Across markets that share cash it can fail: a concrete run in which a later bar of one market turns a fill in the other into a cash rejection. |
| `ReplayWaiters.LaterBarsSpareOthers` | src/ta_model/simulation/replay.py:142-213 | For every account: later bars change only waiting orders when no waiter that can fill on them moves the balance a later, fillable order is paid from. |
| `ReplayWaiters.WaiterDisturbs` | src/ta_model/simulation/replay.py:436-463 | The converse: from a tight account, found for any two such orders, the waiter's fill on later bars turns the result of the order behind it. |
| `ReplayWaiters.LaterBarsSpareOthersIff` | src/ta_model/simulation/replay.py:142-213 | When third orders keep off the waiter's balances, later bars spare everyone but waiters for every account if and only if no waiter moves the balance an order behind it is paid from. |
| `ReplayWaiters.SecondOrderSparedIff` | src/ta_model/simulation/replay.py:142-213 | For two orders this needs no assumption. |
| `ReplayWaiters.RefilledPurseHidesWaiter` | src/ta_model/simulation/replay.py:436-463 | Why third orders must keep off: a concrete run of four orders in which a waiter moves the cash a later order is paid from, and yet later bars spare that order for every account, because an order in between refills the cash. |
| `Gateway.EngineEventsAreAccepted` | src/ta_model/contracts/risk.py:576-600 | Every event of the risk engine passes the risk-event validator. |
| `Gateway.ForwardedOrBlocked` | src/ta_model/risk/replay.py:40-51 | Every event is either forwarded or blocked, once. |
| `Gateway.ReplayRiskApproved` | src/ta_model/risk/replay.py:29-68 | The loop replays exactly the approved intents in event order; without any, nothing is replayed or validated. |
| `Gateway.DictionaryPairsOwnResults` | src/ta_model/execution/gateway.py:143-156 | The zipped dictionary gives each event the result at its own rank among the approved ones, and blocked events none. |
| `Gateway.EachEventGetsItsOwnResult` | src/ta_model/execution/gateway.py:105-132 | Every approved event is paired with the result of its own approved intent; a blocked one with none. |
| `Gateway.LifecycleIsConsistent` | src/ta_model/contracts/execution.py:141-266 | A lifecycle event always passes its validator and is blocked exactly when the risk decision was no approval. |
| `Gateway.RunRiskGatedGateway` | src/ta_model/execution/gateway.py:93-140 | The gateway fails exactly when the replay does; otherwise it reports every risk event, in order, with its own result. |
| `Gateway.EventMeaning` | src/ta_model/execution/gateway.py:105-132 | Event i of a report names risk event i, carries every figure of the replay result whose rank among the approvals is its own, or says that it was blocked and carries nothing. |
| `Gateway.GatewayConservesBalances` | src/ta_model/execution/gateway.py:105-140 | The final account behind a gateway report is the start plus the flows of the replayed results, never negative. |
| `Paper.LogsPartitionEvents` | src/ta_model/execution/paper.py:96-110 | Fill logs and rejection logs partition the gateway events. |
| `Paper.CountsAddUp` | src/ta_model/execution/paper.py:138-145 | The five status counts add up to the logs and to the events. |
| `Paper.SessionTotalsAreReplayTotals` | src/ta_model/execution/paper.py:146-150 | Quantity and each cost total of the session equal the totals over all replay results. |
| `PaperTca.ArrivalQuote` | src/ta_model/execution/paper.py:537-549 | The arrival quote is a candidate that no other candidate follows, and missing exactly when there is no candidate. |
| `PaperTca.ArrivalMeaning` | src/ta_model/execution/paper.py:537-549 | In full: a quote of the order's instrument and venue no later than the submission, such that no other is later, nor has a greater id at the same time. |
| `PaperTca.ArrivalIgnoresOtherQuotes` | src/ta_model/execution/paper.py:537-549 | Quotes of other markets or after the submission have no influence, wherever they are inserted. |
| `PaperTca.ErrorIsQuoteGap` | src/ta_model/execution/paper.py:427-492 | The prediction error of a row is exactly the signed gap between the replay's arrival price and the reference price. |
| `PaperTca.RowMeaning` | src/ta_model/execution/paper.py:408-500 | A row compares the price filled at with the arrival mid, or the arrival price without a quote, signed by side; its prediction is the spread, slippage and fee charged. |
| `PaperTca.NoQuoteNoError` | src/ta_model/execution/paper.py:427-492 | Without an arrival quote the prediction error is zero, for buys and sells. |
| `PaperTca.GatewayFillsAreExplained` | src/ta_model/execution/paper.py:445-455 | In every fill a gateway reports, spread and slippage explain the price exactly. |
| `PaperTca.MakeTcaReport` | src/ta_model/execution/paper.py:158-252 | The loop appends one row per fill and the issues of the specification, with their sums. |
| `PaperTca.RowsAndIssuesCoverEvents` | src/ta_model/execution/paper.py:168-217 | One row per fill log; one issue per rejection log and per fill without a quote. |
| `PaperTca.TcaTotalsAreSessionTotals` | src/ta_model/execution/paper.py:236-243 | Fee and predicted totals equal the session's, and the total error is realised minus predicted. |
| `PaperTca.UnquotedReportHasNoError` | src/ta_model/execution/paper.py:236-243 | A report over fills without arrival quotes has a total error of zero. |
| `StreamHealth.StreamHealthEvaluator.Evaluate` | src/ta_model/contracts/stream_health.py:250-407 | The three per-scope dictionaries stay exactly what the history leaves behind, and the record is the one the scope's own state earns. |
| `StreamHealth.StreamHealthEvaluator.CheckDuplicate` | src/ta_model/contracts/stream_health.py:315-320 | The duplicate test; entering empty sets for a new scope is invisible. |
| `StreamHealth.StreamHealthEvaluator.Commit` | src/ta_model/contracts/stream_health.py:390-394 | Only the event's own scope changes. |
| `StreamHealth.StreamHealthEvaluator.EvaluateMany` | src/ta_model/contracts/stream_health.py:409-417 | A batch emits the records of its events in order. |
| `StreamHealth.StreamHealthEvaluator.Findings` | src/ta_model/contracts/stream_health.py:265-388 | The appended metrics and issues are those of the specification. |
| `StreamHealth.ScopeIsolation` | src/ta_model/contracts/stream_health.py:440-479 | For any interleaving, a scope's records are those of a fresh run on its events alone. |
| `StreamHealth.DuplicateIffSeenBefore` | src/ta_model/contracts/stream_health.py:315-320 | A duplicate is reported exactly when an earlier event of the scope has the same id or the same non-null sequence. |
| `StreamHealth.MemoryIsHistory` | src/ta_model/contracts/stream_health.py:390-394 | The remembered ids and sequences are exactly those of the scope's earlier events. |
| `StreamHealth.GapAccounting` | src/ta_model/contracts/stream_health.py:343-394 | Per scope the last sequence is the greatest seen, reported gaps sum to its distance from the first less the advances, and the numbers still missing are that sum less the late arrivals above the first. |
| `StreamHealth.RecordMeaning` | src/ta_model/contracts/stream_health.py:250-407 | For the k-th event of any trace, on raw timestamps, ids and sequences: stale exactly when older than the maximum age, drifting exactly when further than the maximum from its source time on either side, duplicate exactly when an earlier event of the scope has its id or sequence, gap exactly when it skips numbers; with the value of every metric. |
| `StreamHealth.TimingIssues` | src/ta_model/contracts/stream_health.py:264-313 | A record carries a freshness issue if and only if the event is older than the policy allows, and a drift issue if and only if its clock is off by more than the policy allows, ahead or behind. |
| `StreamHealth.GapIssueIff` | src/ta_model/contracts/stream_health.py:343-388 | A record carries a gap issue if and only if the sequence exceeds the one expected next. |
| `StreamHealth.GateBlocksExactlyCriticalIssues` | src/ta_model/contracts/stream_health.py:198-230 | A record blocks its own instrument exactly when one of its issues is critical, told on raw timestamps, ids and sequences, with the reason reported. |
| `KillSwitch.KillSwitchStore.LoadSnapshot` | src/ta_model/risk/kill_switch.py:43-90 | The snapshot fails closed when unreadable, empty or unmatched, and otherwise describes the applying latest records. |
| `KillSwitch.SnapshotMeaning` | src/ta_model/risk/kill_switch.py:65-90 | What a snapshot tells: exactly the latest record of each applying scope, in id order; its state is unknown if one of them is, else halted, cancel-only, reduce-only, paused or soft-limited if one is, in this order, and clear only when all are clear. |
| `KillSwitch.KillSwitchStore.ApplyTransition` | src/ta_model/risk/kill_switch.py:92-125 | Appends one record that starts from the scope's effective state; an unreadable log is started afresh. |
| `KillSwitch.LatestRecordsByScope` | src/ta_model/risk/kill_switch.py:156-162 | The sorted overwriting loop keeps, per scope, the record no other is later than. |
| `KillSwitch.MatchingIsActive` | src/ta_model/risk/kill_switch.py:165-173 | The matching records are exactly the latest ones of the evaluated scopes and the global one. |
| `KillSwitch.SnapshotIsFunctionOfRecords` | src/ta_model/risk/kill_switch.py:65-90 | The snapshot depends on the set of records alone, not on log order or repetition. |
| `KillSwitch.MoreScopesNeverRelax` | src/ta_model/risk/kill_switch.py:165-173 | Adding scopes to a query that already matches never lowers severity. |
| `KillSwitch.NoMatchIsUnknown` | src/ta_model/risk/kill_switch.py:71-77 | A snapshot is unknown and empty exactly when no record applies. |
| `KillSwitch.ChainOfCustodyIff` | src/ta_model/risk/kill_switch.py:92-125 | For any run of transitions: every record starts from the state last appended to its scope if and only if that held before and every transition finds that state as the effective one. |
| `KillSwitch.ChainOfCustody` | src/ta_model/risk/kill_switch.py:92-125 | In particular with increasing times per scope, and the last record is then the effective state. |
| `KillSwitch.BackdatedTransitionBreaksChain` | src/ta_model/risk/kill_switch.py:106-125 | A concrete run in which a transition dated before its scope's last record breaks the chain at the next one. |
| `KillSwitch.LastAppendedIsEffective` | src/ta_model/risk/kill_switch.py:156-162 | With increasing times the record last appended is the effective one. |
| `KillSwitch.TransitionTakesEffectIff` | src/ta_model/risk/kill_switch.py:106-125 | A transition takes effect exactly when it is not dated before the scope's effective record, ids deciding at the same time; the scope is then in the state asked for. |
| `KillSwitch.OtherScopesUnaffected` | src/ta_model/risk/kill_switch.py:106-125 | A transition leaves every other scope's effective record alone. |
| `Scorecard.CompoundedReturn` | src/ta_model/evaluation/scorecard.py:176-182 | The loop computes final equity less one. |
| `Scorecard.EquityOfConcat` | src/ta_model/evaluation/scorecard.py:176-182 | Compounding over a concatenation is the product of the parts. |
| `Scorecard.MaxDrawdown` | src/ta_model/evaluation/scorecard.py:248-261 | The one-pass loop computes the least equity-over-peak of any prefix. |
| `Scorecard.LeastDrawdownIsLeast` | src/ta_model/evaluation/scorecard.py:248-261 | For all inputs, the result is some prefix's equity over its running peak, less one, and no greater than any. |
| `Scorecard.PeakIsGreatest` | src/ta_model/evaluation/scorecard.py:253-256 | The running peak is the greatest equity so far, the initial one included. |
| `Scorecard.QuadraticIff` | src/ta_model/evaluation/scorecard.py:248-261 | For every run: the one-pass result is the minimum of equity_j / equity_i - 1 over all i <= j with equity_i > 0, and attained, if and only if every fall from positive to negative equity is matched by some equity over its running peak. |
| `Scorecard.DrawdownIsQuadraticMinimum` | src/ta_model/evaluation/scorecard.py:248-261 | While equity never turns negative the two definitions agree. |
| `Scorecard.QuadraticOnReturnsFromIff` | src/ta_model/evaluation/scorecard.py:248-261 | The two definitions agree on all runs of returns of at least b if and only if b is at least -1. |
| `Scorecard.HalfThenRuin` | src/ta_model/evaluation/scorecard.py:248-261 | A loss of a half followed by any return below -1 splits them. |
| `Scorecard.SingleRuinAgrees` | src/ta_model/evaluation/scorecard.py:248-261 | Ruin alone does not: a single return of -2 gives the same under both. |
| `Scorecard.LossesBoundedByStakeNeverRuin` | src/ta_model/evaluation/scorecard.py:248-261 | Returns of at least -1 never turn equity negative. |
| `Scorecard.DrawdownWithinUnitIff` | src/ta_model/evaluation/scorecard.py:248-261 | The result lies in [-1, 0] exactly when equity never turns negative. |
| `Scorecard.CeilIsCeilingIff` | src/ta_model/evaluation/scorecard.py:272-276 | The rounding is the true ceiling exactly off the negative fractions, where truncation goes the other way. |
| `Scorecard.TailCountIsCeiling` | src/ta_model/evaluation/scorecard.py:267 | The tail size is the true ceiling of n * p and lies in 1..n. |
| `Scorecard.CvarIsLeastMean` | src/ta_model/evaluation/scorecard.py:264-269 | The result is the least mean over all sub-multisets of the tail size, and attained. |
| `Scorecard.CvarIgnoresOrder` | src/ta_model/evaluation/scorecard.py:264-269 | The result does not depend on the order of the returns. |
| `Scorecard.CvarBetweenMinAndMean` | src/ta_model/evaluation/scorecard.py:264-269 | The result lies between every lower bound of the returns and their mean. |
| `Scorecard.CvarGrowsWithTail` | src/ta_model/evaluation/scorecard.py:264-269 | The result never decreases as the tail probability grows. |
| `DatasetSnapshots.ValidateVectors` | src/ta_model/datasets/snapshots.py:113-124 | Accepts exactly non-empty vectors with distinct ids and strictly increasing times. |
| `DatasetSnapshots.ValidateObservations` | src/ta_model/datasets/snapshots.py:127-139 | Accepts exactly non-empty observations at strictly increasing times. |
| `DatasetSnapshots.ValidateSplitWindows` | src/ta_model/datasets/snapshots.py:142-153 | Accepts exactly train, validation and test in order, each ending by the next start. |
| `DatasetSnapshots.SplitForFeatureTs` | src/ta_model/datasets/snapshots.py:167-173 | The loop finds the split of the specification; the row builder uses it. |
| `DatasetSnapshots.SplitIsTheOnlyWindow` | src/ta_model/datasets/snapshots.py:167-173 | The window found is the only one that contains the instant; none is found exactly when none does. |
| `DatasetSnapshots.BuiltRow` | src/ta_model/contracts/datasets.py:158-189 | A built row sits in exactly one window, and an observation of its market one horizon later gives its label: the observed value, or the return from the vector's close that leads to it. |
| `DatasetSnapshots.RowIffLabelled` | src/ta_model/datasets/snapshots.py:61-87 | A vector gets a row if and only if some window holds it, its market is observed one horizon later and, for returns, its close is known and not zero; otherwise the first of these is the error. |
| `DatasetSnapshots.NamesLabelMeaning` | src/ta_model/datasets/snapshots.py:156-164 | A vector is refused as leaking exactly when some feature name, in whatever case, is label, the rule's name, or that name after label_. |
| `DatasetSnapshots.BuildSnapshot` | src/ta_model/datasets/snapshots.py:38-110 | Succeeds exactly on accepted inputs whose every vector falls in a window and has its label; one row per vector, in order, and the snapshot passes its own validator. |
| `DatasetSnapshots.CountRows` | src/ta_model/datasets/snapshots.py:89-91 | The counts dictionary counts every split exactly. |
| `DatasetSnapshots.CountsSumToRows` | src/ta_model/datasets/snapshots.py:89-91 | The counts sum to the rows. |
| `DatasetSnapshots.RowsAreContiguousBlocks` | src/ta_model/datasets/snapshots.py:61-87 | The rows are a train, a validation and a test block, of the counted sizes. |
| `Candidate.SequenceValues` | src/ta_model/training/probabilistic_candidate.py:267-281 | The loop returns the last two sequence values known at the row's time. |
| `Candidate.SequenceIgnoresLaterRows` | src/ta_model/training/probabilistic_candidate.py:267-281 | A row's sequence and bucket look at no later row. |
| `Candidate.FitSequenceCandidate` | src/ta_model/training/probabilistic_candidate.py:149-164 | Each bucket is fitted on exactly its train rows' labels; fails exactly without train rows. |
| `Candidate.CollectLabels` | src/ta_model/training/probabilistic_candidate.py:154-157 | The dictionary of lists holds each bucket's labels in row order. |
| `Candidate.PaddedLabelPassesBuilder` | src/ta_model/training/probabilistic_candidate.py:133-137 | A feature named label with a leading blank passes the dataset builder, which only lowers names, and is refused by training, which also strips them. |
| `Candidate.QuantileSplitsLabels` | src/ta_model/training/probabilistic_candidate.py:254-257 | A quantile is the label with exactly its index of other labels at or below and the rest at or above. |
| `Candidate.QuantilesAreOrdered` | src/ta_model/training/probabilistic_candidate.py:254-257 | Quantiles are monotone in the level and are fitted labels. |
| `Candidate.StatsAreAccepted` | src/ta_model/contracts/forecasts.py:78-109 | Probabilities lie in [0, 1] and sum to 1, levels and quantile values are ordered: the forecast checks on them always pass. |
| `CandidateLaws.StatsTellOfLabels` | src/ta_model/training/probabilistic_candidate.py:167-187 | The non-negative probability times the number of labels is the number of labels at or above zero, the negative one that of labels below; the quantiles are those of 0.1, 0.5 and 0.9, with the nearest whole rank below; the uncertainty is the variance. |
| `Statistics.VarianceIsLeastSpread` | src/ta_model/training/probabilistic_candidate.py:171-173 | The mean squared distance to any point is the variance plus the squared distance to the mean. |
| `Candidate.ForecastsAreAccepted` | src/ta_model/contracts/forecasts.py:78-109 | Every forecast is out of sample and passes those checks. |
| `Candidate.TrainCandidate` | src/ta_model/training/probabilistic_candidate.py:47-121 | The forecasts of the specification, or the first check that fails, in order. |
| `CandidateLaws.TrainedMeaning` | src/ta_model/training/probabilistic_candidate.py:47-121 | Training succeeds exactly on distinct held-out splits, clean features, sequence values, some train row and some row to score; it forecasts, in order, each row of those splits, and every forecast says of its row what the laws below state. |
| `CandidateLaws.ForecastMeaning` | src/ta_model/training/probabilistic_candidate.py:190-251 | A forecast shows the last two known values of its market and the sign of their sum, and its statistics tell of exactly the labels of the train rows on that side, or of all train rows if there is none. |
| `CandidateLaws.SequenceIsLastTwo` | src/ta_model/training/probabilistic_candidate.py:267-281 | The sequence is the value at the last two rows of the market known by the feature time, or at the one there is. |
| `Candidate.HeldOutLabelsDoNotInterfere` | src/ta_model/training/probabilistic_candidate.py:79-98 | Two datasets that differ only in non-train labels give the same forecasts: bucket, sequence, probabilities, quantiles, uncertainty and row counts. |
| `BarSeries.ValidateOhlctvBatch` | src/ta_model/features/ta.py:123-138 | Accepts exactly batches of the kind, timeframe, availability and strictly increasing closes required. |
| `BarSeries.ClosedByEarlier` | src/ta_model/features/ta.py:157-161 | What was known at an earlier instant follows from what is known at a later one. |
| `BarSeries.ReturnsMeaning` | src/ta_model/features/ta.py:58-70 | The returns collected are, in order, those of exactly the bars whose previous close is not zero, each growing the previous close to its own. |
| `TaFeatures.BuildTaFeatureVectors` | src/ta_model/features/ta.py:38-110 | Succeeds exactly on accepted inputs; the growing lists give the vectors of the specification. |
| `TaFeatures.VectorSeesPrefix` | src/ta_model/features/ta.py:58-110 | Each vector looks at the bars up to its own only. |
| `TaFeatures.VectorMeaning` | src/ta_model/features/ta.py:58-110 | Vector k in terms of the bars: returns and momentum compare the two closes named, the average is over the closes of bars k+1-w to k, the variance over the last returns, the higher close is the last one closed by then; with what is missing and what was read. |
| `TaFeatures.FirstVectorsArePointInTime` | src/ta_model/features/ta.py:58-110 | Given the first k bars and the higher-timeframe bars closed by then, the first k vectors are fixed exactly when both higher-timeframe batches are empty or neither is. |
| `TaFeatures.HigherCloseIsLatest` | src/ta_model/features/ta.py:157-161 | The higher-timeframe close is that of the last bar closed by the feature time. |
| `LiquidityFeatures.ValidateQuotes` | src/ta_model/features/liquidity_cost.py:165-182 | Accepts exactly quotes in scope, with source not before event, at strictly increasing times. |
| `LiquidityFeatures.BuildLiquidityCostFeatureVectors` | src/ta_model/features/liquidity_cost.py:40-132 | Succeeds exactly on accepted inputs with a quote and one fee schedule at every bar; vectors of the specification. |
| `LiquidityFeatures.LatestQuoteIsLatest` | src/ta_model/features/liquidity_cost.py:197-206 | No available quote has a later event than the one used. |
| `LiquidityFeatures.CostsAreCoherent` | src/ta_model/features/liquidity_cost.py:77-104 | A round trip costs two one-way trades, one-way cost is half spread plus fee, and the mid lies between bid and ask. |
| `LiquidityFeatures.VectorMeaning` | src/ta_model/features/liquidity_cost.py:58-132 | Every vector is read off the latest quote delivered by its close, the one schedule in force and the bars up to it: mid, spread, sizes, volumes, variance, fees and costs. |
| `LiquidityFeatures.VectorsIffServed` | src/ta_model/features/liquidity_cost.py:197-220 | The builder serves every bar if and only if at each close some quote is available and exactly one schedule is in force. |
| `LiquidityFeatures.FirstVectorsArePointInTime` | src/ta_model/features/liquidity_cost.py:58-132 | Quotes that happened or were delivered after the last feature time change nothing, refusals included. |
| `LiquidityFeatures.LaterBarsOnlyAdd` | src/ta_model/features/liquidity_cost.py:58-132 | Later bars leave the first k vectors as they were. |
| `Strategy.BuyIsSized` | src/ta_model/strategy/decisions.py:152-209 | A buy with a positive budget has a multiplier in (0, 1], a notional within budget equal to quantity times price; the zero-multiplier branch is unreachable. |
| `Strategy.MultiplierZeroIff` | src/ta_model/strategy/decisions.py:175-204 | The product of multipliers is zero exactly when a threshold is breached. |
| `Strategy.MultiplierInUnit` | src/ta_model/strategy/decisions.py:270-284 | A multiplier lies in [0, 1] and is zero exactly on a breach, zero thresholds included. |
| `Strategy.RoomMeaning` | src/ta_model/strategy/decisions.py:270-284 | A multiplier is the share of the threshold that the value leaves: all of it at zero, none once the threshold is reached. |
| `Strategy.SizeShrinksWithRisk` | src/ta_model/strategy/decisions.py:44-88 | Proposed notional and quantity never grow with uncertainty or drawdown, classification included. |
| `Strategy.BuyOnlyIfCalmBuys` | src/ta_model/strategy/decisions.py:235-267 | What is not bought under less risk is not bought under more. |
| `Strategy.ProposalIsAccepted` | src/ta_model/contracts/decisions.py:175-206 | Every sizing proposal passes its own validator. |
| `Strategy.ActionIsBuyIff` | src/ta_model/strategy/decisions.py:235-267 | A forecast is bought if and only if it has a positive expected return that exceeds cost, uncertainty buffer and required edge, breaches no threshold, and drawdown is below its maximum. |
| `Strategy.DecisionMeaning` | src/ta_model/strategy/decisions.py:44-134 | What a decision says: the value of the one quantile at the level, the edge after cost and uncertainty buffer, the first condition that stands in its way as reason, and a size that is the budget times the room left under the three thresholds, with a reason per reduction. |
| `Strategy.DecisionRefusedIff` | src/ta_model/contracts/decisions.py:259-302 | Told on the inputs: a decision is refused if and only if the forecast is of the train split, the decision precedes its features, or a forecast that meets the conditions to be bought has a budget of zero. |
| `Strategy.ZeroBudgetBuyIsRefused` | src/ta_model/contracts/decisions.py:259-302 | Such a refusal exists: a forecast of certain gain at no cost, on a budget of zero. |

## Left out

- SHA-256, JSON canonicalisation, id formats, requirement ids, descriptions, owners and other text carried along: no behaviour depends on them.
- Rounding of decimals at 28 digits, and square roots: identities hold over exact reals, and variances are kept where the code reports deviations.
- Record-id checks of contract objects: identifiers are inputs, and content hashes are ideal.
- The flags of instruments and accounts that may only be false (derivative, margin, leverage, short selling, live capital): the types leave no other value.
- File reads and writes of the kill-switch store: the log is unreadable or a sequence of records; the atomic replace of the file is not part of this model.
- Which of several errors of one validator is raised: validators are modelled by the inputs they accept, and a replay by the class of error.
- Aggregate liquidity of several orders on one bar, and lot alignment of capped or partial quantities: the code enforces neither.
- Letters and white space outside ASCII in feature and label names: lower case and stripping are those of ASCII.
- Parsing of timeframe strings: timeframes are seconds.
- Sharpe, Sortino, Calmar and the benchmark-relative metrics: quotients of means and deviations that would add only easy members.
- Gateway kind and fill mode, which label reports without changing what they hold; simulator and paper gateways share one path.
- The crossed-quote check of the liquidity builder, which the quote contract already rules out: the quote type leaves no crossed quote.
- Account-state identity linkage of the paper session, and the lineage checks of training runs: comparisons of identifiers.
- Audit trace, audit replay and gate, observability, model registry, scenario fixtures, configuration loading, bronze storage, connectors, baselines and the strategy gates: field comparisons, report assembly and I/O.
- Numerical order of string identifiers and ISO timestamps: both are ordered as integers.
- ReplayMarketOrders: names the class of an input error (bars, order intents, metadata), not which fault of that class is reported first.
- TransitionTakesEffectIff: concerns a readable log; a transition on an unreadable one starts a fresh log, as `KillSwitchStore.ApplyTransition` states.
- DrawdownIsQuadraticMinimum: one direction only, because the exact condition is `QuadraticIff`.
- LaterBarsSpareOthersIff: assumes that third orders keep off the waiter's two balances; without that one direction fails (`ReplayWaiters.RefilledPurseHidesWaiter`) and the other is `ReplayWaiters.LaterBarsSpareOthers`.
- ChainOfCustody: one direction, under increasing times; the exact condition is `ChainOfCustodyIff`.
- TwoCapsSuffice: assumes that records carry their own order's hash, which the code does not check; the exact condition is `TwoCapsSufficeIff`.
- LaterBarsBehindWaiters: without an account assumes that the extended replay does not raise; `LaterBarsWithoutAccount` says exactly when it does.
- RunRiskGatedGateway: assumes risk events that passed their own validator, as the engine's always do (`Gateway.EngineEventsAreAccepted`).
