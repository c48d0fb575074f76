# FX cashflow back end: a verified model

This project models the parts of an FX-hedging back end that carry real logic, and proves what they
promise. `dafny verify dfyconfig.toml` checks everything.

| file | models |
|---|---|
| `Dates.dfy`, `Rolls.dfy` | instants, civil months and the business-day rolls of the two calendars |
| `Generators.dfy` | expansion of a cashflow generator into dated cashflows, as a lazy stream |
| `ActiveWindow.dfy`, `WindowChaining.dfy` | the skip-and-break window over generated cashflows, and chains of windows |
| `PendingStatus.dfy` | the end-of-day status step and the queries that pick the cashflows to hedge |
| `ExposureProjection.dfy`, `Dicts.dfy` | projected exposures: grouping, run-down with snapping, transpose |
| `ParachuteHistory.dfy` | the life cycle of a parachute cashflow and the as-of query |
| `SnapshotChain.dfy`, `SnapshotRedo.dfy` | surgery on the doubly linked snapshot chain under cascading delete |
| `CovarianceRun.dfy` | the merge join, cut cursor and EWMA fold of the covariance run |
| `MissingRanges.dfy` | missing business days coalesced into ranges |
| `Percentiles.dfy`, `BacktestRollOff.dfy` | percentile curves, start-date sampling and roll-off of the backtest |
| `ChangeLog.dfy` | rebuilding a cashflow's original fields from its audit log |
| `Sorting.dfy`, `Mixes.dfy`, `Sums.dfy`, `Wrappers.dfy` | stable sorting by a key, weighted averages, sums and powers, nullable values and exceptions |

Conventions. Instants are microseconds, so `timedelta.days` rounds down as in Python; amounts and rates
are reals. A recurrence is a strictly increasing function from the occurrence number to an instant, endless
unless it has a count. Calendars, rolls, dates and day counts follow hdlib 0.1.58, which the repository
carries as `external/hdlib-0.1.58-py3-none-any.whl` (`hdlib/DateTime/Calendar/Calendar.py`, `Date.py`,
`DayCounter.py` inside it): `Date.from_datetime_date` drops the time of day and `Date.yield_range` includes
both ends. Log returns, currency conversion, NPV, elapsed time, the square root and the text form of logged
values are function parameters; the audit log package is not part of this model, and all that is taken from it
is that a text is logged as it is. Python generators are objects with a `Next` method; dictionaries keep
insertion order. A look-up on a null column is false, as Django compiles it.

Where the code and its own documentation differ, the model follows the code:

- `get_account_cashflows`: `allow_deactivated` is said to let deactivated flows in; it never does
  (`AllowDeactivatedIsInert`).
- `realized_pnl` is said to return the PnL of a closed cashflow; it returns nothing for one that closes at
  zero, and raises for one without an initial value (`RealizedPnlIff`).
- `get_changed_cashflows_as_of` is said to cover the time since `time`; its query reads that one instant
  (`QueryReadsOneInstant`), and line 133 stores a pair where the original value is meant
  (`AsWrittenIsOriginalIffUnchanged`). Even the value meant is the logged text, so numbers, dates, currencies
  and nulls would not come back (`UndoInvertsReplay`).
- `skip_less_than_ref_date` is said to skip flows created before the reference date; it skips those created
  after it (`SkipIsDocumentedIff`, `SkipsTheWrongOnes`), which is what `exclude_unknown_on_ref_date` does
  already (`SkippingIsExcluding`).
- The snapshot scripts are meant to leave a linked chain; the row creator sets no next link, so a run does
  so only when every slot after a redone one is redone too (`RedoIsWholeIffSuffix`). Where the creator makes
  no row the script ends, with that replacement taken back (`RedoAllSnapshots`).
- `get_projected_raw_cash_exposures` is said to show no exposure to a flow on the day it rolls off; its rows
  are right only when roll dates come in order, which sorting generators by start date does not give
  (`RowsAreRightIffOrdered`, `InterleavedGeneratorsMisstate`).
- The covariance run takes its data to be end-of-day data; two common dates on one day make every later
  estimate an infinity or NaN (`EstimateIsFiniteIff`).
- `stylized_run` accepts a start and an end on one day and then divides by the number of days: it raises after
  the first run and leaves the number of samples at that of the dates (`StylizedRun`, `SameDayBacktest`).
- A NaN carried over in the backtest keeps the total value up to the elapsed seconds that line 245 adds
  (`CarryOverKeepsTotal`).

## Model

| member | source | states |
|---|---|---|
| Rolls.AdjustDate | main/apps/account/models/cashflow.py:81-89 | the search loops of `calendar.adjust` find the day each roll convention promises |
| Rolls.NearestIsClosest | main/apps/account/models/cashflow.py:127 | no business day is closer than the NEAREST one; a tie goes to the later day |
| Rolls.AdjustMonotone | main/apps/account/models/cashflow.py:120-127 | a later day never rolls to an earlier one, for every convention on both calendars |
| Rolls.AdjustLandsOnBusinessDay | main/apps/account/models/cashflow.py:120-127 | every convention but UNADJUSTED pays on a business day, and business days do not move |
| Rolls.ModifiedStaysInPeriod | main/apps/account/models/cashflow.py:123-126 | modified rolls stay in the month, half-month rolls in the half month |
| Rolls.AdjustIsRolled | main/apps/account/models/cashflow.py:99-127 | each convention rolls a day to exactly what it promises in terms of business days: the least on or after, the greatest on or before, the nearest, and the modified ones only across the period when they must |
| Dates.MonthsAreCivil | main/apps/account/models/cashflow.py:123-126 | counting month by month gives the Gregorian calendar of whole years and a month table, leap years included |
| Generators.PayDatesAscend | main/apps/account/models/cashflow.py:80-89 | a generator's pay dates never go back |
| Generators.EmissionIsInitialRun | main/apps/account/models/cashflow.py:72-87 | stopping at the first flow past the end date loses none before it |
| Generators.PastEndByDay | main/apps/account/models/cashflow.py:72-86 | the end-of-day conversion cuts exactly the flows paying on a later day than the end date |
| Generators.HdlStream.Next | main/apps/account/models/cashflow.py:69-90 | the stream yields occurrence 0, 1, 2, ... exactly as far as the plain end-date filter keeps them, each with the row's name, amount and currency, paid on the day that its own convention rolls to; a missing calendar raises |
| Generators.EmitsIff | main/apps/account/models/cashflow.py:55-90 | what is generated, in terms of the row: the rule's instants or the start date, rolled, and not past the end date by day |
| ActiveWindow.MaxDaysIsHalfOpen | main/apps/account/models/cashflow.py:45-48 | a window of m days ends m (m + 1 with its end included) whole days after the reference |
| ActiveWindow.BreakIsFinal | main/apps/account/models/cashflow.py:46-51 | once one occurrence is past the window, nothing after it belongs to the window |
| ActiveWindow.NextActive | main/apps/account/models/cashflow.py:42-52 | each `next()` ends even on endless recurrences, and the yields are one by one those of the plain filter |
| ActiveWindow.ListingIsFilter | main/apps/account/models/cashflow.py:42-52 | the listing is the filter of every long enough prefix of the whole recurrence |
| ActiveWindow.BoundedWindowEnds | main/apps/account/models/cashflow.py:45-51 | a window with a day or date bound ends on every recurrence |
| ActiveWindow.ListOne | main/apps/account/models/cashflow.py:42-52 | on one generator the loop returns the filter and looks at no more than one occurrence past the window |
| ActiveWindow.SkipIsDocumentedIff | main/apps/account/models/cashflow.py:36-37 | on one generator the skip flag does what line 541 documents if and only if it is off, the generator was created at the reference date, or the window lists nothing of it |
| ActiveWindow.SkipsAreDocumentedIff | main/apps/account/models/cashflow.py:541-555 | the whole list is as documented if it is for each generator, and with distinct names only then |
| ActiveWindow.SkipsTheWrongOnes | main/apps/billing/calculators/fee_calculator.py:157-160 | in the fee calculation's window a flow created before the reference date is listed and one created after it is not |
| ActiveWindow.ListActive | main/apps/account/models/cashflow.py:27-52 | skip-and-break over several generators returns the plain filter of each, or raises exactly when an unskipped one has no calendar |
| ActiveWindow.ListingsAreAdmitted | main/apps/account/models/cashflow.py:27-52 | the list holds exactly the generated flows that the reference, the bounds and the flags admit, in terms of instants |
| WindowChaining.WindowSplits | main/apps/account/models/cashflow.py:42-52 | one generator's listing of a window is its first half's followed by its second's |
| WindowChaining.WindowChainConserves | main/apps/account/models/cashflow.py:514-555 | windows between ordered cut points return the flows and totals of the single outer window, for (a, b] and [a, b) alike |
| WindowChaining.KnownChainConservesIff | main/apps/account/models/cashflow.py:36-55 | with unknown generators left out of each window, a chain conserves the flows if and only if no window lists a generator created after the first cut and by the window's start |
| PendingStatus.UpdatePendingCashflows | main/apps/account/models/cashflow.py:593-612 | the step moves exactly the pending rows of the company and returns exactly the changed ones, activated first |
| PendingStatus.StepsMoveEachRowOnce | main/apps/account/models/cashflow.py:593-612 | however companies interleave or repeat, each of their rows moves once |
| PendingStatus.NothingPendingAfterSteps | main/apps/account/models/cashflow.py:593-612 | a company that had its step has nothing pending, and another step changes nothing |
| PendingStatus.QueryIsOrdered | main/apps/account/models/cashflow.py:499-511 | the query returns exactly the matching rows' generators, each as often as it matches, by start date |
| PendingStatus.QuerySelects | main/apps/account/models/cashflow.py:490-511 | which generators the query returns, in terms of the columns |
| PendingStatus.SkippingIsExcluding | main/apps/account/models/cashflow.py:499-555 | skipping in the window and excluding in the query give the same flows in the same order |
| PendingStatus.StepsAreInvisible | main/apps/account/models/cashflow.py:462-511 | no interleaving of steps changes the hedged generators that are windowed, or their order |
| ExposureProjection.GetCashflowsByRolloffDate | main/apps/account/services/cashflow_provider.py:138-145 | one group per pay date, in order of first appearance, each in flow order |
| ExposureProjection.GroupsPartition | main/apps/account/services/cashflow_provider.py:138-145 | the groups together are the flows, each exactly as often |
| ExposureProjection.GetProjectedRawCashExposures | main/apps/account/services/cashflow_provider.py:163-190 | no currency is missing in the second pass, and the rows are the run-down balances up to the end date |
| ExposureProjection.RowTracksUnpaid | main/apps/account/services/cashflow_provider.py:178-188 | in any order, a row holds the groups still to come, off by less than 0.001 per flow subtracted |
| ExposureProjection.NoSmallBalance | main/apps/account/services/cashflow_provider.py:185-187 | once a flow of a currency is subtracted, its balance is zero or at least a thousandth |
| ExposureProjection.UnpaidIsOffByOverdueAndEarly | main/apps/account/services/cashflow_provider.py:178-188 | in any order and for any amounts, what a row counts is the sum paying after its date, plus the flows overdue, less those subtracted early |
| ExposureProjection.ProjectionRefinesSum | main/apps/account/services/cashflow_provider.py:147-190 | with the roll dates in order up to it, a row holds the sum paying strictly after its date, within 0.001 per flow paid |
| ExposureProjection.OneGeneratorIsOrdered | main/apps/account/services/cashflow_provider.py:129-145 | the flows of a single generator have their roll dates in order |
| ExposureProjection.OneOffsAreOrdered | main/apps/account/models/cashflow.py:511 | sorting by start date orders the roll dates of flows that do not recur and roll alike |
| ExposureProjection.ProvidedFlows | main/apps/account/services/cashflow_provider.py:158-162 | the projection is made from exactly the generated flows that pay after the start and up to the given days away |
| ExposureProjection.RowsStopAtEnd | main/apps/account/services/cashflow_provider.py:178-180 | with ascending roll dates the rows stop at the last one not after the end |
| ExposureProjection.RowsListEveryCurrency | main/apps/account/services/cashflow_provider.py:166-188 | every row lists exactly the currencies of the flows, each once |
| ExposureProjection.RowsAreRightIffOrdered | main/apps/account/services/cashflow_provider.py:178-188 | for amounts too large to be snapped away, the rows up to the end date are all right if and only if the roll dates up to there come in order before all others |
| ExposureProjection.OrderIsRightForAllAmounts | main/apps/account/services/cashflow_provider.py:178-188 | for flows of any sign and size, the roll dates up to the end date come in order before all others if and only if the rows are right for every choice of amounts |
| ExposureProjection.InterleavedGeneratorsMisstate | main/apps/account/models/cashflow.py:511 | two generators sorted by start date, in the provider's own window, for which a returned row shows 1 EUR of exposure when nothing is left to pay |
| ExposureProjection.GetProjectedRawCashExposuresTs | main/apps/account/services/cashflow_provider.py:192-211 | the series are the exact transpose of the rows; an empty window raises an IndexError |
| ParachuteHistory.ParachuteCashFlow.Close | main/apps/account/models/parachute_cashflow.py:89-98 | the first close sets all closing fields, later ones change nothing |
| ParachuteHistory.RealizedPnlIff | main/apps/account/models/parachute_cashflow.py:100-103 | a closed flow has its PnL returned if and only if it has an initial value and its final value is not zero; zero gives none, a missing initial value raises |
| ParachuteHistory.AllowDeactivatedIsInert | main/apps/account/models/parachute_cashflow.py:153-162 | the flag changes no answer, and no answer holds a flow deleted by then |
| ParachuteHistory.LaterStepsAreInvisible | main/apps/account/models/parachute_cashflow.py:81-168 | no run of later creations and closes changes an as-of answer, for any flags |
| ParachuteHistory.AnswerIsReplay | main/apps/account/models/parachute_cashflow.py:141-168 | after a chronological history the query returns the rows asked for in the state replayed up to the reference date |
| ParachuteHistory.RunLeavesRow | main/apps/account/models/parachute_cashflow.py:81-139 | the row that any history leaves: as created, with the columns of the first close after that |
| ParachuteHistory.AnswerIsAskedOf | main/apps/account/models/parachute_cashflow.py:141-168 | which rows are returned, in terms of the steps: created by the date, and not closed by then or rolled off and asked for |
| ParachuteHistory.AsOfIsReplayIffClosedInOrder | main/apps/account/models/parachute_cashflow.py:89-168 | for histories in any order, as-of reading is replay if and only if, for each row, no ignored close is stamped before the one that counts, or the one that counts is stamped no later than the creation |
| SnapshotChain.DeletePropagates | scripts/fix/full_issue_fix.py:177-178 | without decoupling, deleting any row of a chain deletes all of it and nothing else |
| SnapshotChain.ReplaceRelinkKeepsChain | scripts/fix/full_issue_fix.py:175-211 | a new row with the old one's neighbours takes its slot; the chain stays whole and nothing else changes |
| SnapshotChain.RedoKeepsChain | scripts/fix/full_issue_fix.py:227-256 | redoing any slots, each read fresh, keeps one whole chain throughout |
| SnapshotRedo.SnapshotTable.ReplaceSnapshot | scripts/fix/script_fix_snapshots.py:35-60 | the saves and the cascading delete amount to decoupling, deleting and inserting; without a new row all is taken back and the call raises |
| SnapshotRedo.SnapshotTable.RelinkSnapshot | scripts/fix/script_fix_snapshots.py:62-71 | the neighbours named by the new row point back to it |
| SnapshotRedo.CreatorFindsPrevious | main/apps/history/services/snapshot.py:229-232 | in every state of a run the creator finds the slot before, redone or not |
| SnapshotRedo.StaleDecouplingSuffices | scripts/fix/full_issue_fix.py:179-196 | even with links read before the loop, decoupling leaves nothing that the delete could spread to |
| SnapshotRedo.ChainIsFreshTable | scripts/fix/full_issue_fix.py:213-217 | any whole chain in time order is a table that a run may start from, so a run over a sound account is covered |
| SnapshotRedo.ChainsAreFreshTables | scripts/fix/full_issue_fix.py:213-221 | whole chains of several accounts, and rows of others beside them, are tables that the script may start from |
| SnapshotRedo.RedoSnapshots | scripts/fix/full_issue_fix.py:224-256 | the loop leaves each slot with its expected row and links, and other accounts' rows as they were; a missing row ends it with the slots before redone |
| SnapshotRedo.RedoAllSnapshots | scripts/fix/full_issue_fix.py:213-256 | the loop over accounts leaves every account's slots as its own run would, up to the first missing row, which raises |
| SnapshotRedo.AllWholeIffSuffixes | scripts/fix/full_issue_fix.py:202-256 | after the script each account's chain is whole if and only if no redone slot of it is followed by one not redone |
| SnapshotRedo.RedoIsWholeIffSuffix | scripts/fix/full_issue_fix.py:202-256 | a run leaves a whole chain if and only if no redone slot is followed by one not redone |
| CovarianceRun.MergeIsIntersection | scripts/Load/Script_Bulk_Create_Estimators.py:72-89 | the join visits the sorted intersection of the dates with each date's own rates |
| CovarianceRun.CreateEstimatorsForPairs | scripts/Load/Script_Bulk_Create_Estimators.py:63-127 | one entry per consecutive pair of common dates, a prefix up to the first date without a cut; the loop ends |
| CovarianceRun.AdvanceCut | scripts/Load/Script_Bulk_Create_Estimators.py:92-99 | the forward-only cursor finds the first cut whose day is not before the entry's |
| CovarianceRun.CompleteIffOwnCuts | scripts/Load/Script_Bulk_Create_Estimators.py:59-99 | no entry is dropped and cuts are of the entry's day if and only if every later common date has its own cut |
| CovarianceRun.EstimateIsFiniteIff | scripts/Load/Script_Bulk_Create_Estimators.py:101-118 | an estimate is a number if and only if no two neighbouring common dates so far fall on one day |
| CovarianceRun.EstimateIsWeightedSum | main/apps/marketdata/models/fx/estimator.py:68-70 | an estimate is the exponentially weighted sum of the covariances; the limits without decay and with full decay |
| CovarianceRun.RunIsClosedForm | scripts/Load/Script_Bulk_Create_Estimators.py:53-118 | every entry has its date, the earliest cut of the common range on or after its day, and the weighted sum; the run stops only where there is no such cut |
| CovarianceRun.EstimateIsConvex | main/apps/marketdata/models/fx/estimator.py:68-70 | an estimate lies between any bounds of the covariances so far |
| CovarianceRun.SelfRunIsNonNegative | scripts/Load/Script_Bulk_Create_Estimators.py:101-106 | a pair against itself never yields a negative estimate |
| CovarianceRun.RunIsSymmetric | scripts/Load/Script_Bulk_Create_Estimators.py:72-127 | swapping the series gives the same dates, cuts and estimates |
| MissingRanges.TransitionIsGap | scripts/feature/utils.py:231-236 | the day-name test finds exactly the gaps between business days |
| MissingRanges.ConvertMissingDatesToRanges | scripts/feature/utils.py:227-268 | expanding the ranges gives back the missing days, sorted; ranges are numbered, ordered and separated by a business day |
| MissingRanges.MissingRangesOf | scripts/feature/utils.py:74-91 | ranges and present business days make up all business days from first to last date; an empty frame raises |
| MissingRanges.ExtractedWeekends | scripts/feature/utils.py:85-91 | the extraction also returns the weekend days of the frame, each as often as it is there |
| Percentiles.PercentileOkIff | scripts/backtest/utils/UnhedgedBacktester.py:453-471 | indices stay in range exactly for percentiles below one and not far below zero |
| Percentiles.PercentileBetween | scripts/backtest/utils/UnhedgedBacktester.py:468-471 | a value lies between its two neighbouring order statistics |
| Percentiles.PercentileIsOnLine | scripts/backtest/utils/UnhedgedBacktester.py:453-471 | a percentile is the linear interpolation between its two neighbouring samples |
| Percentiles.PercentilesAscend | scripts/backtest/utils/UnhedgedBacktester.py:453-471 | a larger percentile never has a smaller value, within or across cells |
| BacktestRollOff.UnhedgedBacktester.ComputePercentiles | scripts/backtest/utils/UnhedgedBacktester.py:445-474 | on the stored runs of an account, every curve interpolates each step's sorted values, with the code's error cases, also for a wrong sample count |
| BacktestRollOff.CurvesEndOnNumbers | scripts/backtest/utils/UnhedgedBacktester.py:273-281 | stored paths are aligned and numbers at the last step, so the curves are determined there |
| Percentiles.CurvesNeverCross | scripts/backtest/utils/UnhedgedBacktester.py:466-474 | the smaller percentile's curve is at or below the larger's at every step at which the paths are numbers |
| Percentiles.CurvesIgnoreOrder | scripts/backtest/utils/UnhedgedBacktester.py:466-474 | permuting the trajectories changes no curve where they are numbers |
| BacktestRollOff.SampleDates | scripts/backtest/utils/UnhedgedBacktester.py:158-168 | start dates are distinct, evenly stepped and leave room for the run; the error cases |
| BacktestRollOff.CumulativeGrows | scripts/backtest/utils/UnhedgedBacktester.py:229-243 | half-open days count each flow once, on the first simulated day after it pays |
| BacktestRollOff.RunAccount | scripts/backtest/utils/UnhedgedBacktester.py:209-271 | the three lists stay aligned, the roll-off conserves the flows, the total is NPV plus roll-off |
| BacktestRollOff.RunIsOfFlows | scripts/backtest/utils/UnhedgedBacktester.py:46-50 | the roll-off of day k is the sum over the stylized flows due before it, each valued on the day after it pays; NPVs and totals of every day |
| BacktestRollOff.CarryOverKeepsTotal | scripts/backtest/utils/UnhedgedBacktester.py:244-259 | a carried-over day keeps the total value exactly when no time elapsed |
| BacktestRollOff.TotalIsNumberIff | scripts/backtest/utils/UnhedgedBacktester.py:255-269 | a day's total is a number if and only if the NPV of the original date or of some day so far is |
| BacktestRollOff.StatsOf | scripts/backtest/utils/UnhedgedBacktester.py:288-302 | losses and volatilities of a run, and the division error of a run of no days |
| BacktestRollOff.StatsMean | scripts/backtest/utils/UnhedgedBacktester.py:288-302 | the statistics in terms of the totals: first less last, and the root of the scaled sum of squared daily changes |
| BacktestRollOff.NoChangeIffConstant | scripts/backtest/utils/UnhedgedBacktester.py:296-299 | a path of numbers has no realized variance if and only if it is constant |
| BacktestRollOff.UnhedgedBacktester.StylizedRun | scripts/backtest/utils/UnhedgedBacktester.py:108-313 | after sampling the run succeeds if and only if it ends on a later day than it starts or no date was sampled; then every date is run, the histories hold the runs that end on numbers and the sample count is theirs; what each error leaves behind |
| BacktestRollOff.SameDayBacktest | scripts/backtest/utils/UnhedgedBacktester.py:300 | a backtest of one day raises and claims ten samples with one run stored at most |
| ChangeLog.QueryReadsOneInstant | main/apps/account/services/cashflow_pricer.py:63 | the query reads what changed since `time` exactly when nothing changed after that instant |
| ChangeLog.CollectChanges | main/apps/account/services/cashflow_pricer.py:86-103 | the check raises exactly when some field's changes do not chain, and else collects every field's values |
| ChangeLog.BeforeIsThere | main/apps/account/services/cashflow_pricer.py:98-101 | a log that passes the check finds at every change, replayed, the value that it says was there before |
| ChangeLog.SummariseChanges | main/apps/account/services/cashflow_pricer.py:63-103 | exactly the account's logged cashflows that still exist are summarised, in order of first entry; the call raises exactly when one of them does not chain, and gives nothing when no entry is read |
| ChangeLog.ReplayRedoesUndo | main/apps/account/services/cashflow_pricer.py:108-133 | replaying the log on the undone record gives what the current one reads, as the log writes values down |
| ChangeLog.UndoInvertsReplay | main/apps/account/services/cashflow_pricer.py:108-133 | the undone record reads as the original, and is the original if and only if every changed field was a text |
| ChangeLog.AsWrittenIsOriginalIffUnchanged | main/apps/account/services/cashflow_pricer.py:129-133 | the code as written gives the original if and only if no field of it was changed |
| ChangeLog.UndoneFlagAgreesIff | main/apps/account/services/cashflow_pricer.py:115-133 | the undone recurrence flag is the original one if and only if the flow recurred then as it does now; when it agrees with the undone periodicity |

## Left out

- Storage, transactions, admin, serializers, tasks and logging: tables are maps, sequences or objects.
- Parsing of icalendar rules and enumeration names: a generator holds the rule's instants.
- The pass-through of already dated flows in `iter_active_cashflows`: window results are about generators.
- `get_active_hdl_cashflows_by_currency` and `get_cash_exposures`: grouping by currency, which would add easy members.
- Floating-point rounding: amounts are reals. NaN is modelled only for the backtest's NPVs and totals and for covariance estimates.
- The year-9999 limit of Python dates.
- ExposureProjection.GetProjectedRawCashExposures: takes flows that pay after the start date, as its own window provides (`ListedFlowsPayLater`).
- SnapshotRedo.RedoAllSnapshots: takes the snapshots already grouped by account, with distinct times within one; columns other than links, account and time are not modelled.
- CovarianceRun.CreateEstimatorsForPairs: takes both series in strictly increasing time order, as they are fetched; infinities and NaN are one value; the GAS estimator and the skipping of pairs are not modelled.
- BacktestRollOff.UnhedgedBacktester.ComputePercentiles: at a step where a stored path has a NaN, Python's sort may leave the values in any order, and the curves' values there are left open.
- BacktestRollOff.RunAccount: one account's days at a time, where the code handles all accounts within a day.
- BacktestRollOff.UnhedgedBacktester.StylizedRun: the accounts' flows and the spot date range are given, and valuation is by NPV, the only option that the code implements.
- ChangeLog.SummariseChanges: the windowing of the flows before and after the changes is not repeated here.
- ParachuteHistory.LaterStepsAreInvisible: the currency and generator columns, which no step or query reads, are not modelled.
