# Verified model of the trade-group system

Dafny models of the parts of the repository that carry its guarantees, and proofs of those
guarantees for every input, every broker behaviour and every run.

- `GroupStates`, `TradeGroupStore`, `Terminal`, `MT5Driver`, `ProtocolInvariant`, `ProtocolSteps`,
  `MT5Executor`: the persisted 20-state trade group, driven by submit and poll against a broker that
  may answer anything, by a process that may die between any two interactions. A run fixes one answer
  (`Moment`) for every interaction; a statement for every `world` is a statement for every broker and
  every crash. `ProtocolInvariant.GroupInv` holds after every step; a step that is cut short is
  counted, and each such abort loosens the effect bounds by one. Every stored state carries the moment
  of its write, so evidence can be placed before the state that rests on it.
- `LaggingStop`: one concrete world in which a break-even stop is modified twice.
- `PaperExecutor`: the paper lifecycle on the same store.
- `Volumes`, `NettingAccount`, `Geometry`: lot splitting, cumulative netting closes, tick-grid levels
  and break-even, over exact rationals and integer grids.
- `Backtest`: the candle loop as a fold over bars, its causality and its accounting.
- `Outbox`, `EventLedger`: at-least-once delivery into an idempotent table, and the hash chain.
- `Plateau`: grid neighbourhoods, breadth-first components and the centre of the widest one.
- `GapAudit`: aligned bars, maximal runs of missing bars and the sampled weekend probe.
- `StopRatchet`, `Migrations`, `Codecs`: the break-even ratchet, the two migration runners, and ids
  and comments that must be read back.

`dafny verify dfyconfig.toml` checks the project.

## Where the code does not do what it says

The models follow the code. Each point is a lemma or a clause with the exact condition.

- A group left in PARTIAL_SUBMISSION by a crash is polled for ever without effect: the comment at
  execution/mt5_trade_group.py:620-621 promises a crash-safe retry, but the table has no self-edge
  (`MT5Executor.Executor.PollGroup`).
- A fill at a moved stop is told from TP1 by the midpoint of the original stop and TP1. With the usual
  grid a break-even stop-out counts as TP1, on which a group past TP1 does not act
  (`ProtocolSteps.MovedStopIsAStopIff`, `ProtocolSteps.BreakEvenFillCountsAsTp1`).
- execution/mt5_be_flow.py:107-108 says a lagging query never causes a second stop modify. The recorded
  action is not consulted: `MT5Executor.Executor.ProtectLeg` says exactly when a modify leaves, and
  `LaggingStop.LaggingQueryModifiesTwice` is a world with two of them. What holds is the bound in
  `ProtocolInvariant.StopModifiesAreBounded`.
- execution/trade_group.py:85-88 says FAILED_WITH_OPEN_RISK is tried until open risk is zero. With a
  refused close and no retries left the position is not even looked at, and the group never leaves
  that state, flat or not (`MT5Executor.Executor.VerifyCompensation` says exactly when,
  `MT5Executor.Executor.PollForGood` for any number of polls).
- A process that dies between the two writes that end a compensation or a third target leaves the
  group in COMPENSATION_CONFIRMED or TP3_FILLED, and no poll completes it
  (`MT5Executor.Executor.PollForGood`).
- Deal action ids belong to a group, and a group is found by its id anywhere in a comment, so nothing in
  the code keeps a deal to one group; `ProtocolInvariant.DealDrivesOneGroup` says what does.
- A process that dies between OPEN-GROUP and the write of SUBMITTED leaves a group that no later
  submission takes (`MT5Executor.Executor.SubmitGroup`) and that polls leave in VALIDATED
  (`MT5Executor.Executor.PollGroup`), whatever legs have left. A second creation does not help.
- A group in PARTIAL_SUBMISSION also ends every poll, so no group stored after it is ever advanced
  (`MT5Executor.Executor.PollOnAndOn`).
- The two lot splitters part where the netting closer's minimum cuts a leg, even with short legs
  forbidden (`Volumes.SplittersAgreeIff`, `Volumes.MinimumCutsSecondLeg`).
- The backtester reads its candle step off the whole frame, so an irregular frame leaks its future
  (`Backtest.IrregularFrameLooksAhead`); `Backtest.LookAheadFreeIff` says exactly when it does not.
- data/ledger_bridge.py:232 says a malformed row must not block the batch. A batch full of them does
  (`Outbox.DeliveredIff`).
- A ledger that mixes events with and without an observation time is reported as broken, because the
  verifier reads the column back as floats (`EventLedger.HonestLedgerVerifiesIff`).
- A comment that is cut inside the group id, or an id with a bar, is not read back
  (`Codecs.CommentRoundTrip`).
- A result row that was replaced by a later one at the same grid point can still put the point on the
  plateau (`Plateau.StaleRecordKeepsPlateau`, exactly when in `Plateau.PlateauIsRightIff`).
- Once a stop move to the target went unreported, break-even is never reported
  (`StopRatchet.CanReportIff`).
- A ratio is rounded to six digits, so full coverage can be reported with bars missing
  (`GapAudit.FullCoverageIff`).
- `dry_run` of both migration runners returns an empty list, not what would be applied
  (`Migrations.Database.ApplyMigrations`, `Migrations.Table.MigrateTable`).

## Model

| member | source | states |
|---|---|---|
| GroupStates.ExtendHistory | execution/trade_group.py:148-156 | A write along a table edge, or of the same state, extends a state history to a history |
| GroupStates.TerminalAbsorbs | execution/trade_group.py:106-145 | Once a history has reached a terminal state, every later state is that state |
| GroupStates.MustPass | execution/trade_group.py:106-145 | If all edges into a set of states come from it or from one state, every history that gets into the set passed through that state strictly before |
| GroupStates.ReconciledOnlyThroughLadder | execution/trade_group.py:106-145 | A history ending in RECONCILED contains TP1_FILLED, BE_CONFIRMED, TP2_FILLED and TP3_FILLED at increasing positions |
| GroupStates.CompensationIsClosed | execution/trade_group.py:106-145 | After PARTIAL_SUBMISSION a group only visits compensation states until REJECTED or FAILED, and FAILED comes after COMPENSATION_CONFIRMED |
| GroupStates.OpenedNeverCompensated | execution/trade_group.py:106-145 | No history contains both OPENED and a compensation state |
| Codecs.LegIdRoundTrip | execution/mt5_netting_adapter.py:232-250 | Splitting a leg id at its last "-L" gives the group id back, for every group id and leg number |
| Codecs.CommentRoundTrip | execution/mt5_common.py:207-223 | Parsing a built comment gives the group id back if and only if the id has no bar and fits the limit with its tag, wherever the tail is cut |
| Codecs.EventIdsAreInjective | contracts/execution_contracts.py:107-125 | An event id exists exactly for bar-free fields, and equal ids mean equal source, account, type and key |
| Volumes.FloorLots | execution/trade_group.py:468-480 | Flooring a volume to the step is truncating its lots, without a tolerance |
| Volumes.NettingInLots | execution/mt5_netting_close.py:99-136 | In lots, the netting close volume is exactly the floored lots, and zero exactly where a close of leg 1 or 2 is positive but below the minimum |
| Volumes.CumulativeVolume | execution/mt5_netting_close.py:117-136 | Whatever was closed before, the volume asked for at leg 1 or 2 is exactly what is missing to the floored cumulative share, or zero where that cannot be filled |
| Volumes.AllocationIsExact | execution/trade_group.py:491-543 | A successful split sums exactly to the total; legs 1 and 2 are the largest grid volumes within their shares; every leg reaches the minimum unless short legs are allowed |
| Volumes.SplittersAgreeIff | execution/mt5_netting_close.py:117-136 | Both splitters split the whole position; they agree on leg 1 exactly and on legs 2 and 3 within one step if and only if the minimum does not cut leg 1 and does not cut leg 2, unless the allocation gives leg 2 at most one lot |
| Volumes.MinimumCutsSecondLeg | execution/mt5_netting_close.py:132-135 | Short legs forbidden: an allocation of 5, 5 and 5 lots of which the netting closer takes 5 and then nothing |
| Volumes.MinimumCutsFirstLeg | execution/mt5_netting_close.py:132-135 | Short legs allowed: a first leg of 0.03 of which the netting closer takes nothing |
| NettingAccount.Account.CloseLotsAreVolumes | execution/mt5_netting_close.py:99-136 | The lots of the account model are exactly the volumes the netting closer computes |
| NettingAccount.Account.CloseLeg | execution/mt5_netting_close.py:38-150 | Remaining plus closed stays the filled volume, nothing is over-closed, a target is filled once, totals land on the cumulative target, TP3 leaves zero |
| NettingAccount.Account.Ladder | execution/mt5_netting_close.py:38-150 | Three full closes end at the two cumulative targets and at zero and add up to the position |
| Geometry.RoundIsNearest | execution/trade_geometry.py:300-312 | Half-even rounding gives a nearest integer, the even one of a tie |
| Geometry.RoundIsMonotone | execution/trade_geometry.py:300-305 | Rounding is monotone, and strictly so across gaps above one |
| Geometry.RoundMirrors | execution/trade_geometry.py:300-305 | Rounding n+y and n-y is symmetric about every integer n |
| Geometry.OneTickGapCanCollapse | execution/trade_geometry.py:300-305 | A gap of exactly one tick can vanish by rounding |
| Geometry.AlignedIsOnGrid | execution/trade_geometry.py:300-312 | An aligned price passes the tick-alignment check |
| Geometry.AlignedIsNearest | execution/trade_geometry.py:300-305 | No grid price is nearer to the ideal price, and the distance is at most half a tick |
| Geometry.AlignKeepsOrder | execution/trade_geometry.py:300-305 | Alignment keeps order, and strict order for levels more than a tick apart |
| Geometry.AlignMirrors | execution/trade_geometry.py:300-305 | Levels at equal distances above and below a grid reference align to mirror images |
| Geometry.AdmitMirrors | execution/trade_geometry.py:344-492 | Acceptance and reject reason depend on the distances of the levels only |
| Geometry.GeometryMirrors | execution/trade_geometry.py:344-492 | For a reference on the grid, long and short get the same verdict and reason, and mirrored levels |
| Geometry.StepLadderIsOrdered | execution/trade_geometry.py:344-492 | A step and increasing multipliers give weakly ordered levels on the right sides of the reference, a valid chain when the ideal gaps exceed one tick |
| Geometry.AcceptedGeometry | execution/trade_geometry.py:344-492 | An accepted ladder is the aligned ladder, on the grid, with the stop beyond the broker minimum and TP1 beyond its costs |
| Geometry.BreakEvenIsTightest | execution/trade_geometry.py:500-540 | The break-even price is on the grid, at least the protection away from the fill, and the tightest such grid price |
| Geometry.BreakEvenMirrors | execution/trade_geometry.py:500-540 | Reflecting the fill in a grid point reflects the break-even price |
| TradeGroupStore.GroupRecord.UpdateGroupState | data/trade_group_store.py:236-273 | One write of state and the given columns, stamped with its moment; a process that dies there wrote nothing |
| TradeGroupStore.GroupRecord.SaveGroup | data/trade_group_store.py:71-135 | The row is replaced, an omitted volume or compensation state is kept |
| TradeGroupStore.GroupRecord.MarkAction | data/trade_group_store.py:172-190 | True exactly for the first caller of a group and action id |
| TradeGroupStore.GroupRecord.TryMarkSubmitted | data/trade_group_store.py:276-293 | True exactly for the first submission of a group |
| MT5Driver.Driver.ResolveMode | execution/mt5_trade_group.py:199-222 | The account mode of the moment of the call; an unknown one raises |
| MT5Driver.Driver.ResolveTicket | execution/mt5_netting_adapter.py:232-250 | A leg reference resolves through the map or, after a restart, through the comment of the live aggregate position |
| MT5Driver.Driver.FindOpened | execution/mt5_hedging_adapter.py:201-218 | Hedging takes the first position with the leg token, otherwise, asked again, the first that carries the group; netting only the latter |
| MT5Driver.Driver.SubmitLeg | execution/mt5_netting_adapter.py:44-133 | At most one entry order leaves per call; netting legs 2 and 3 send none, any other completed call sends one |
| MT5Driver.Driver.QueryPosition | execution/mt5_netting_adapter.py:212-213 | An answer "no position" was true of the terminal at a moment of the call |
| MT5Driver.Driver.QuerySl | execution/mt5_netting_adapter.py:153-161 | A reported stop, or the absence of one, was true at a moment of the call of the ticket asked for or of a position that carried the group |
| MT5Driver.Driver.ModifySl | execution/mt5_netting_adapter.py:135-151 | A stop order leaves, and is counted, exactly when the position is found |
| MT5Driver.Driver.ClosePosition | execution/mt5_hedging_adapter.py:130-173 | A missing position is a rejection without an order; a completed call on a live one sends exactly one close |
| MT5Driver.Driver.ClosePartial | execution/mt5_netting_adapter.py:163-205 | A completed call counts one fill of its leg exactly when it answers filled |
| ProtocolInvariant.CompensatedFailureIsFlat | execution/mt5_compensation.py:166-294 | A group that failed after a partial submission had, on a hedging account, each recorded position absent at the broker; on a netting account the position that had carried the group, or every position carrying it; after the last order sent for it and before COMPENSATION_CONFIRMED and FAILED were stored |
| ProtocolInvariant.AggregateIsFlat | execution/mt5_compensation.py:259-294 | Where one netting position always carries the group, that position was absent then |
| ProtocolInvariant.EffectsAreBounded | execution/mt5_compensation.py:34-294 | One entry order per leg, one transition of the group per deal; without aborted steps one fill per netting target, 1 + max_compensation_retries closes per reference, over all creations of the group, and max_be_retries stop modifies per leg; each abort adds at most one |
| ProtocolInvariant.DealDrivesOneGroup | execution/reconciliation.py:43-91 | Two groups are never driven by the same deal when no deal is shown under positions that mention both |
| ProtocolInvariant.TicketsKeepDealsApart | execution/reconciliation.py:43-91 | That is so when no ticket has both ids in its comments and no deal belongs to two tickets |
| ProtocolInvariant.StopModifiesAreBounded | execution/mt5_be_flow.py:75-189 | From its creation on a group gets at most max_be_retries stop modifies per apply_to leg in total, plus as many per aborted step as there are legs |
| ProtocolInvariant.ConfirmedMeansProtected | execution/mt5_be_flow.py:75-139 | A group ever stored BE_CONFIRMED had the broker show the requested stop within 1e-9 on the ticket of each apply_to leg, or on a netting account on a position that carried the group, after the break-even was priced and before the confirmation was stored; the price is the break-even of the actual fill |
| ProtocolInvariant.HistoryFacts | execution/trade_group.py:106-145 | Which states a group can be in, given what its history contains |
| ProtocolInvariant.AbortPaysSlack | execution/mt5_trade_group.py:491-517 | A step cut anywhere leaves at most one unrecorded effect of each kind, and counting the abort restores the invariant |
| ProtocolInvariant.CompWrite | execution/mt5_compensation.py:136-146 | Storing a compensation round keeps the close count within the stored retry count |
| ProtocolInvariant.BeConfirmWrite | execution/mt5_be_flow.py:110-117 | BE_CONFIRMED may be stored once every leg was seen at the requested stop |
| ProtocolSteps.ClassifiedByMidpoints | execution/reconciliation.py:101-127 | Without tolerance a close is told by the midpoints between stop, TP1, TP2 and TP3, for both sides |
| ProtocolSteps.MovedStopIsAStopIff | execution/reconciliation.py:101-127 | A close between the stop and TP1 counts as a stop if and only if it is below their midpoint; otherwise it counts as TP1, which a group past TP1 does not act on |
| ProtocolSteps.BreakEvenFillCountsAsTp1 | execution/reconciliation.py:117-127 | With the stop three steps and TP1 one step from the entry, a fill at the entry counts as TP1 |
| MT5Executor.Executor.RequestBe | execution/mt5_be_flow.py:31-72 | BE_REQUESTED is stored with the break-even of the actual fill at the current quote, or the step raises |
| MT5Executor.Executor.BeRetry | execution/mt5_be_flow.py:154-189 | One more failed round: BE_RETRY below the limit, FAILED at it |
| MT5Executor.Executor.ProtectLeg | execution/mt5_be_flow.py:91-109 | A modify leaves exactly when the first-pass query does not show the requested stop and the position is then found; both answers were true of the terminal |
| MT5Executor.Executor.VerifyBe | execution/mt5_be_flow.py:75-139 | A completed round sends exactly the modifies its first pass calls for and ends confirmed, in retry or failed, with the invariant kept |
| LaggingStop.LaggingQueryModifiesTwice | execution/mt5_be_flow.py:91-118 | For an accepted specification, a broker whose query lags: two rounds send two modifies of one leg although the first was accepted |
| MT5Executor.Executor.ConfirmBe | execution/mt5_be_flow.py:110-139 | BE_CONFIRMED is stored only after every leg was seen at the requested stop |
| MT5Executor.Executor.Tp1Filled | execution/mt5_tp_transitions.py:30-80 | From SUBMITTED or OPENED to TP1_FILLED with leg 1 closed and the fill recorded |
| MT5Executor.Executor.Tp2Filled | execution/mt5_tp_transitions.py:83-116 | Only from BE_CONFIRMED to TP2_FILLED |
| MT5Executor.Executor.Tp3Filled | execution/mt5_tp_transitions.py:119-165 | TP3_FILLED then RECONCILED; a stale row makes it raise |
| MT5Executor.Executor.StopGroup | execution/mt5_tp_transitions.py:168-191 | STOPPED along a table edge, otherwise it raises without a write |
| MT5Executor.Executor.OpenGroup | execution/mt5_trade_group.py:751-836 | OPENED with the volume-weighted fill of the group's positions |
| MT5Executor.Executor.NettingCloseLeg | execution/mt5_netting_close.py:38-96 | A target is filled only when its action is not recorded, and recorded before the transition is stored |
| MT5Executor.Executor.BeginCompensation | execution/mt5_compensation.py:34-163 | Ends in COMPENSATION_REQUESTED exactly when every entry is closed, otherwise FAILED_WITH_OPEN_RISK, with the close counts of the invariant; re-entry from PARTIAL_SUBMISSION raises and changes nothing |
| MT5Executor.Executor.VerifyCompensation | execution/mt5_compensation.py:166-294 | Refused closes are retried within the limit; FAILED is stored only after every entry was seen gone. With a refused entry and no retries left nothing is closed and only the state is stored again; with everything gone and no crash FAILED is reached if and only if that is not the case |
| MT5Executor.Executor.FinishCompensation | execution/mt5_compensation.py:259-294 | COMPENSATION_CONFIRMED then FAILED, only with all positions seen gone |
| MT5Executor.Executor.ConsumeDeals | execution/mt5_compensation.py:315-330 | For every recorded position of the group, all OUT deals that some moment of the call showed are recorded as consumed |
| MT5Executor.Executor.RejectGroup | execution/mt5_trade_group.py:433-451 | REJECTED is stored along a table edge |
| MT5Executor.Executor.PassGates | execution/mt5_trade_group.py:253-316 | The gates in order; an account that is not a demo, or whose mode is unknown, raises without a write; a failed gate leaves the group rejected |
| MT5Executor.Executor.SubmitGroup | execution/mt5_trade_group.py:253-431 | OPEN-GROUP is recorded before the first order leaves, so legs leave in at most one submission, restarts, crashes and a second creation included |
| MT5Executor.Executor.InspectGroup | execution/reconciliation.py:43-91 | Exactly the live positions with a known ticket or the group id in the comment, and exactly the OUT deals shown for the tickets of legs and positions, each within reach of the group |
| MT5Executor.Executor.ApplyDeal | execution/mt5_trade_group.py:528-586 | The price decides where a deal takes the group; a deal that drives a transition is recorded first, one out of turn stays unrecorded, a stop in a compensation state raises |
| MT5Executor.Executor.AdvanceGroup | execution/mt5_trade_group.py:519-694 | One poll of one group keeps the invariant whatever the broker answers |
| MT5Executor.Executor.PollGroup | execution/mt5_trade_group.py:491-517 | A completed poll moves the group only as PollOutcome allows; a group stored in PARTIAL_SUBMISSION raises at every poll and is left as it is; one out of compensation retries, or left in COMPENSATION_CONFIRMED or TP3_FILLED, is not completed |
| MT5Executor.Executor.PollForGood | execution/mt5_trade_group.py:491-517 | However often it is polled, a group in FAILED_WITH_OPEN_RISK without retries stays so and nothing is closed; one left in COMPENSATION_CONFIRMED stays there, one left in TP3_FILLED is at most stopped |
| MT5Executor.Executor.PollOnce | execution/mt5_trade_group.py:491-517 | All groups keep the invariant; a demo group in PARTIAL_SUBMISSION ends the poll, and no group after it is touched |
| MT5Executor.Executor.PollOnAndOn | execution/mt5_trade_group.py:491-517 | However often it is polled, the groups behind such a group stay as they are |
| MT5Executor.Executor.CreateGroup | execution/mt5_trade_group.py:224-251 | A forbidden mode raises before anything is written; otherwise the group starts VALIDATED with the invariant, over the row of an earlier group of that id, whose recorded actions and ledgers are kept |
| MT5Executor.Executor.Run | execution/mt5_trade_group.py:224-690 | After any sequence of creates, submits, polls and restarts, in any world, every group satisfies the invariant |
| PaperExecutor.PaperDriver.VirtualLegsResolve | execution/trade_group_executor.py:120-149 | Every leg of a group with a physical first leg has a stop to query |
| PaperExecutor.Executor.CreateGroup | execution/trade_group_executor.py:259-276 | A forbidden mode raises before anything is written; otherwise a draft, over the row of an earlier group of that id, then VALIDATED; a crash in between leaves the draft |
| PaperExecutor.Executor.SubmitGroup | execution/trade_group_executor.py:278-330 | The submitted flag is claimed before the first leg is sent; a leg without volume is stored as skipped |
| PaperExecutor.Executor.EnsureOpen | execution/trade_group_executor.py:221-234 | The first market event of a submitted group opens it |
| PaperExecutor.Executor.OnFirstLegFilled | execution/trade_group_executor.py:332-367 | TP1_FILLED with the actual fill, along table edges |
| PaperExecutor.Executor.OnTargetFilled | execution/trade_group_executor.py:369-393 | Leg 2 only after BE_CONFIRMED, leg 3 only after TP2_FILLED, then RECONCILED |
| PaperExecutor.Executor.RequestBreakEven | execution/trade_group_executor.py:395-431 | BE_REQUESTED at the break-even of the actual fill |
| PaperExecutor.Executor.BeRetryOrFail | execution/trade_group_executor.py:473-488 | BE_RETRY below the limit, FAILED at it |
| PaperExecutor.Executor.ConfirmBreakEven | execution/trade_group_executor.py:433-471 | BE_CONFIRMED exactly when the driver takes modifies and knows a position for every protected leg, and every one then shows the requested stop; otherwise one more retry or FAILED |
| PaperExecutor.Executor.OnStopped | execution/trade_group_executor.py:490-500 | STOPPED along a table edge |
| PaperExecutor.Executor.SimulateTick | execution/trade_group_executor.py:502-543 | A tick checks the stop first, then the awaited target, and keeps the path invariant |
| PaperExecutor.Executor.Run | execution/trade_group_executor.py:259-543 | After any paper commands, with crashes anywhere and restarts that lose the driver, every group's stored states since its creation form a path of the table and its legs were sent at most once |
| Backtest.CandleStepIsMode | backtest/engine.py:263-270 | The step is a most frequent positive spacing of neighbouring bars, the smallest of several, and 1 when there is none |
| Backtest.Backtester.Run | backtest/engine.py:117-261 | The loop computes exactly the fold over the bars: trades, equity and the exception |
| Backtest.Backtester.CheckExit | backtest/engine.py:191-255 | Trails the stop and closes on stop, target, progress stop or timeout, in that order |
| Backtest.StateIsCausal | backtest/engine.py:137-261 | The state after n bars depends on the first n bars only, for a given candle step |
| Backtest.EntryIsCausal | backtest/engine.py:139-185 | An entry at bar i depends on the bars before i and on the open, session and time of bar i |
| Backtest.TradesOnlyGrow | backtest/engine.py:243-255 | Later bars append trades that leave later |
| Backtest.NoLookAhead | backtest/engine.py:117-270 | On a uniformly spaced frame every prefix gives exactly the trades of the full run that leave inside it |
| Backtest.IrregularFrameLooksAhead | backtest/engine.py:263-270 | A frame of six bars whose three-bar prefix gives other trades than the full run |
| Backtest.LookAheadFreeIff | backtest/engine.py:263-270 | For ordered time stamps a prefix is free of look-ahead for all candles and configurations if and only if both candle steps count the same bars held inside it |
| Backtest.RunIsSound | backtest/engine.py:137-261 | Entry before exit before next entry, direction and regime from the bar before the entry, equity is the running sum of results |
| Backtest.HoldingIsBounded | backtest/engine.py:213-241 | With uniform spacing no trade lasts more than max(1, horizon) bars |
| Backtest.MovesAreBounded | backtest/engine.py:194-250 | For well-formed candles each signed move lies between minus (stop distance + slippage) and target distance minus slippage |
| Outbox.Server.Upsert | data/ledger_events.py:106-155 | Insert-or-ignore by event id |
| Outbox.IngestAgrees | data/ledger_events.py:106-155 | Ingesting outbox facts keeps one row per id with the outbox content and stores every one of them |
| Outbox.Outbox.EnqueueEvent | data/ledger_bridge.py:54-69 | A new id appends a row, a known id changes nothing, the invariant is kept |
| Outbox.Outbox.PendingEvents | data/ledger_bridge.py:72-88 | The first undelivered rows by id, up to the limit; a negative limit is none |
| Outbox.BatchIdsAre | data/ledger_bridge.py:72-88 | The listed ids ascend and are exactly the rows of the batch |
| Outbox.Outbox.MarkDelivered | data/ledger_bridge.py:106-123 | Exactly the listed undelivered rows become delivered |
| Outbox.Outbox.MarkFailed | data/ledger_bridge.py:126-141 | Each listing counts one attempt on an undelivered row and keeps 500 characters of the error |
| Outbox.Outbox.DeliverOutbox | data/ledger_bridge.py:213-265 | One delivery, with any loss or crash, settles exactly the batch and keeps exactly-once delivery |
| Outbox.RoundKeeps | data/ledger_bridge.py:213-265 | A delivery with any answer and any stored part of the request keeps the invariant |
| Outbox.Outbox.RunDeliveryLoop | data/ledger_bridge.py:268-303 | The loop performs that many rounds and stops at the bound or at the first round that leaves nothing pending |
| Outbox.LoopLength | data/ledger_bridge.py:286-303 | With the server up and nothing malformed it ends after ceil(pending / batch) rounds, at least one, with nothing pending |
| Outbox.DrainedIff | data/ledger_bridge.py:286-303 | With the server up and nothing malformed, nothing is pending after n rounds if and only if n batches cover the pending rows |
| Outbox.BadRowsBlock | data/ledger_bridge.py:225-235 | A batch full of malformed rows in front of a row blocks it for ever, whatever the server answers |
| Outbox.DeliveredIff | data/ledger_bridge.py:225-257 | With the server up a readable row is eventually delivered if and only if fewer malformed rows than the batch size precede it |
| Outbox.Run | data/ledger_bridge.py:54-265 | After any interleaving of enqueues and deliveries with any losses the invariant holds |
| Outbox.ServerHoldsFirsts | data/ledger_events.py:106-155 | The server holds each id at most once, with the first enqueued content, and everything delivered |
| EventLedger.Ledger.Append | data/trading_event_ledger.py:130-207 | Rejects unknown types, ignores a known id, otherwise appends the next chained row; the chain invariant is kept |
| EventLedger.Ledger.VerifyChain | data/trading_event_ledger.py:235-276 | True exactly when every row links to the row before and both its digests match |
| EventLedger.AppendKeeps | data/trading_event_ledger.py:140-207 | An appended row continues the sequence 1..n and the hash chain |
| EventLedger.Run | data/trading_event_ledger.py:130-207 | Every sequence of appends builds a chained ledger |
| EventLedger.UniformLedgerVerifies | data/trading_event_ledger.py:235-276 | A ledger built by appends verifies when its observation times are all present or all absent |
| EventLedger.HonestLedgerVerifiesIff | data/trading_event_ledger.py:235-276 | It verifies if and only if they are, short of a collision between two printings of one row |
| EventLedger.MixedLedgerIsReportedBroken | data/trading_event_ledger.py:257-272 | Two honest appends, one with and one without an observation time, are reported as broken |
| EventLedger.LastHashDeterminesLedger | data/trading_event_ledger.py:235-276 | Verifying ledgers with the same last hash agree on length, all hashed columns and all payloads, unless their own digests collide |
| EventLedger.EditIsCaughtIff | data/trading_event_ledger.py:235-276 | An edit that keeps the last hash is caught if and only if it touches a hashed column or a payload |
| Plateau.NeighboursAreAdjacent | backtest/plateau.py:106-112 | The enumerated non-zero offsets reach exactly the distinct points at most one step away in each dimension |
| Plateau.BuildRecords | backtest/plateau.py:62-86 | Rows on the grid become records, and the map holds the last record of each point |
| Plateau.CheckPoint | backtest/plateau.py:97-123 | True exactly when the record and every evaluated neighbour are above the threshold |
| Plateau.CollectPlateau | backtest/plateau.py:93-142 | The keys are exactly the plateau points in order of first appearance, each with its last plateau record |
| Plateau.Expand | backtest/plateau.py:157-163 | Exactly the unvisited plateau neighbours are visited and queued, once, in the order of the offsets |
| Plateau.Flood | backtest/plateau.py:149-163 | One search terminates and collects exactly the component of its start, in the order of the reference search |
| Plateau.Components | backtest/plateau.py:141-165 | The clusters are the connected components: whole, disjoint, covering, in the order of their first points, each in breadth-first order |
| Plateau.Widest | backtest/plateau.py:167-168 | The first of the longest clusters |
| Plateau.Nearest | backtest/plateau.py:174-181 | A member nearest to the centroid, the best metric among equally near ones, the first found among those |
| Plateau.MeanIsCentre | backtest/plateau.py:170-172 | The centroid minimises the sum of squared gaps in every dimension |
| Plateau.SelectPlateauConfig | backtest/plateau.py:30-187 | Each outcome with its reason: the centre of the first of the largest components, the best metric among equally near members and the first found among those, or the best record when the plateau is empty |
| Plateau.SelectionIsUnique | backtest/plateau.py:30-187 | The rows and the threshold determine what is selected |
| Plateau.PlateauIsRightIff | backtest/plateau.py:79-123 | The plateau is right at a point if and only if the point is not kept by a record that a later one at or below the threshold replaced |
| Plateau.StaleRecordKeepsPlateau | backtest/plateau.py:79-123 | With two records at one point, an early good one keeps the point on the plateau |
| GapAudit.AlignedBarsAre | data/provenance.py:49-59 | The aligned bars are exactly the multiples of the interval in the span, one interval apart |
| GapAudit.ProbeIsExact | data/provenance.py:199-209 | The 12-hour probe together with the end point is true exactly when the closed span contains a weekend instant |
| GapAudit.ProbeAloneMisses | data/provenance.py:201-205 | A span where the probe alone would miss the weekend |
| GapAudit.CloseGapRun | data/provenance.py:185-218 | Start, end, size and duration of a run, its nearest present neighbours and the exact weekend flag |
| GapAudit.FindRuns | data/provenance.py:156-168 | The runs concatenate to the missing bars and are consecutive and maximal |
| GapAudit.RunsAreUnique | data/provenance.py:156-168 | There is only one such decomposition |
| GapAudit.GapSizesSum | data/provenance.py:156-168 | The sizes of the runs sum to the missing count |
| GapAudit.PresentPlusMissing | data/provenance.py:122-133 | Present plus missing weekday bars is expected weekday bars, for every year and session |
| GapAudit.ExpectedPerYear | data/provenance.py:62-75 | The weekday bars counted per year and in all |
| GapAudit.CountBars | data/provenance.py:118-133 | Present and missing weekday bars counted per year and session |
| GapAudit.Audit | data/provenance.py:82-182 | The report: totals, shortfalls and six-digit ratios per year and session that add up, one described gap per maximal run, weekend gaps set apart |
| GapAudit.FullCoverageIff | data/provenance.py:171-182 | Coverage 1.0 is reported if and only if at most one expected bar in two million is missing |
| GapAudit.WeekendFlagIsExact | data/provenance.py:185-218 | In an audit every run lies between present bars and its flag is exact for that span |
| StopRatchet.Leg.MoveSlToEntry | execution/mt5_trader.py:1187-1255 | The stop after one attempt and whether break-even is reported |
| StopRatchet.Leg.CheckBreakEven | execution/mt5_trader.py:801-810 | Attempts are repeated until one is reported at the target |
| StopRatchet.RatchetIsTightest | execution/mt5_trader.py:1187-1255 | Over any quotes and answers the stop is the tightest of the initial stop and the levels carried out: a maximum for longs, a minimum for shorts |
| StopRatchet.NeverLoosens | execution/mt5_trader.py:1187-1255 | A set stop never moves away from the market |
| StopRatchet.DoneMeansAtTarget | execution/mt5_trader.py:1249-1252 | Break-even is reported only with the stop exactly at the entry target |
| StopRatchet.CanReportIff | execution/mt5_trader.py:1222-1252 | Break-even can still be reported if and only if no stop is set or it is short of the target |
| Migrations.Database.ApplyOne | data/migrate.py:154-164 | Effect and record together, or neither |
| Migrations.Database.ApplyMigrations | data/migrate.py:125-168 | What is not recorded is applied in version order up to the first failure or repeated version |
| Migrations.RepeatStops | data/migrate.py:148-164 | A version that comes twice in the list stops the run at its second migration |
| Migrations.PendingIsRest | data/migrate.py:109-122 | After k steps of a plan the sorted pending migrations are the rest of the plan |
| Migrations.Converge | data/migrate.py:125-168 | After any runs failing anywhere, the recorded versions are a prefix of the sorted list and the schema is its fold; a run that does not fail ends at the schema of one clean run |
| Migrations.Table.MigrateTable | data/migrate.py:372-403 | What lies above the watermark and up to the target is applied in version order up to the first failure |
| Migrations.ConvergeTable | data/migrate.py:354-403 | The watermark runner converges the same way to the migrations up to its target |
| Migrations.RunnersAgree | data/migrate.py:354-369 | Both runners follow the same plan if and only if all versions are positive |
| Migrations.LateMigration | data/migrate.py:354-403 | However often the runners are started, a migration added below the watermark is never applied by the table runner, and is by the global one once a run does not fail |

## Left out

- MT5Executor.Executor.CreateGroup: paper groups are created by the paper executor only; their delegation is not modelled.
- MT5Executor.Executor.SubmitGroup: the delegation of paper groups and the recorded reject details are not modelled.
- MT5Executor.Executor.InspectGroup: volume mismatch entries and notes are not modelled; nothing reads them in the protocol.
- MT5Executor.Executor.VerifyCompensation: the `status`, `recorded` and `pending` notes of `comp_state` are not modelled, nor the per-leg volumes; they only steer notifications.
- PaperExecutor.Executor.Run: counts the orders of a group since its creation, because `create_group` overwrites an existing row and its submitted flag.
- MT5Executor.Executor.VerifyBe: FAILED after exhausted break-even retries may leave legs open; only the compensation route ends flat.
- NettingAccount.Account.CloseLeg: assumes a position on the volume grid and a broker that removes the volume it reports; in `MT5Executor` the broker is arbitrary and only the counts of fills are bounded.
- NettingAccount.Account.Ladder: requires that each of the three closes can be filled, because a close below the minimum is skipped.
- Volumes.SplittersAgreeIff: compares the splitters on a whole number of steps with shares of sum at most one, where both are defined.
- Backtest.LookAheadFreeIff: requires time stamps in order, as the data frames are.
- Outbox.Outbox.RunDeliveryLoop: takes the tick at which the process is stopped as a parameter, since the unbounded loop against a server that is down does not end.
- Outbox.Server.Upsert: only the event id and the content of an event are kept; the HTTP handler is not shown and is taken to store every event before it answers 2xx.
- EventLedger.Ledger.VerifyChain: of the conversions made when the table is read back only the integer-to-float change of a column with missing values is modelled; floats are exact.
- Plateau.SelectPlateauConfig: which row is returned when no row lies on the grid, and the choice of the metric column, are not modelled.
- GapAudit.Audit: the expected total is counted instead of summed over years; calendar years and sessions are parameters; the missing bars are kept in bar order instead of being grouped by year and sorted again.
- StopRatchet.RatchetIsTightest: assumes a set stop and a positive target; profit trailing and manual stop changes are not modelled.
- Migrations.Converge: requires distinct versions, which the loader enforces.
- Liveness of the poll loop: only the newest unconsumed deal is looked at, and the code promises none.
- Orphan detection, ledger events, metrics, notifications and their texts: they do not feed back into a group.
- Floating-point noise and decimal conversions: prices and volumes are exact rationals; the code's epsilons are kept where it adds them.
- The early break-even of the backtester has no long/short mirror (backtest/engine.py:197-199), so none is stated.
- Telegram bots, charts, MT5 provider, ingestion, news, statistics, configuration schema and deployment flags: input, output or easy members.
