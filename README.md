# BTC EMA backtest and K-line trend analysis — a Dafny model

This project models the decision and aggregation logic of a small BTC/USDT
K-line toolkit. It has three parts:

- **The EMA-deviation backtest** (`BtcBacktest`, from `btc_backtest.js`).
  - A 120-period EMA is computed over the closes.
  - From bar 120 onward, a single-pass state machine opens a long on a fresh
    close above the EMA by more than 0.7 %, and a short on a fresh close below
    it by more than 0.7 %.
  - A long is closed when the close falls back under the EMA (stop loss) or
    reaches the entry price plus 0.7 % (take profit). The short side is the
    mirror image.
  - After a take profit, that side is paused until the close crosses the EMA
    again.
  - Capital is handled in one of two modes: compounding, where the whole
    capital is invested, or a fixed notional of 10000.
  - Every entry and exit is appended to a ledger, and a summary is returned.
- **The descriptive K-line analyser** (`AnalyzeKlines`, from `analyzeKlines.js`).
  - It attaches a 14-period EMA to every candle.
  - It classifies each candle as above, below or across its EMA and counts
    the classes.
  - It cuts the candle sequence into uptrend, downtrend and oscillation runs.
    Each kind's run lengths are reduced to a count, an average, a maximum and
    a minimum.
- **The duration histogram of the dashboard** (`DurationFrequency`, from
  `generateDurationFrequency` in `public/app.js`). It counts how often each
  run length occurs and lists the (duration, count) pairs by ascending
  duration.

`Indicators` holds what the backtest and the analyser share:
- the K-line record;
- the smoothing factor 2 / (period + 1);
- the EMA recurrence and its properties.

The EMA is specified once, by the ghost predicate `IsEmaSeries`. Both
`CalculateEma` methods are proved to produce that series. The backtest
writes the update as `p*k + ema*(1-k)` and the analyser writes it as
`(close-ema)*k + ema`; `AnalyzerStepAgrees` proves the two are the same step.

The backtest's ledger is specified by the ghost predicate
`BtcBacktest.LedgerOk`, which checks every record:
- records alternate entry, exit, entry, exit;
- each exit closes the entry just before it, on the same side, at that
  entry's price and invested amount;
- the exit's profit is the invested amount times the profit fraction;
- the exit's capital is the previous capital plus that profit;
- the reason is take profit exactly when the take-profit threshold is touched.

The loop is specified by the function `BtcBacktest.Run`, which folds one
`Step` per bar over the bars from index 120 on. `Backtest` is proved to return
exactly the `Outcome` of that run over the EMA series of the closes. The
properties of the ledger are then proved about `Run`: it agrees with its
state (`Agrees`), and each bar adds an exit exactly when an exit signal fires
and an entry exactly when an entry signal fires, at that bar's time and close.

The trend runs of the analyser are specified by the predicate
`AnalyzeKlines.RunOk`. A run takes the trend judged at its first candle, every
later candle of the run continues that trend, and the candle after the run
breaks it. `SegmentTrends` is proved to return a tiling by such runs, and
`SegmentationUnique` shows that there is only one such tiling.

Prices, EMA values, capital and profit are Dafny `real`s. Candle times are
integers.

## Model

| member | source | states |
|---|---|---|
| Indicators.Closes | btc_backtest.js:46 | one close per K-line, each that K-line's close |
| Indicators.Smoothing | btc_backtest.js:16 | the smoothing factor k = 2/(period+1) satisfies k*(period+1) = 2, lies in (0, 2], and is at most 1 for period >= 1 |
| Indicators.EmaStep | btc_backtest.js:21 | definition; no contract: the backtest's EMA update price*k + previous*(1-k) |
| Indicators.IsEmaSeries | btc_backtest.js:15-26 | definition; no contract: one value per price, the first equal to the first price, each later one an EmaStep from the one before |
| Indicators.AnalyzerStepAgrees | analyzeKlines.js:33 | the analyser's update (close-ema)*k + ema equals the backtest's update close*k + ema*(1-k), over the reals |
| Indicators.EmaSeriesUnique | btc_backtest.js:17-23 | the recurrence determines the EMA series: two series of the same prices with the same factor are equal |
| Indicators.EmaSeriesAgreeAt | btc_backtest.js:17-23 | two EMA series of the same prices agree at every index |
| Indicators.ConvexStep | btc_backtest.js:21 | for 0 < k <= 1 one EMA step stays within any bounds of the previous value and the new price |
| Indicators.NonNegativeProduct | btc_backtest.js:21 | proof helper of ConvexStep: the product of two non-negative reals is non-negative |
| Indicators.EmaWithinPriceRange | btc_backtest.js:15-26 | every EMA value lies between the lowest and the highest price |
| Indicators.EmaPositive | btc_backtest.js:15-26 | with positive prices and 0 < k <= 1 every EMA value is positive |
| Indicators.EmaOfConstant | btc_backtest.js:15-26 | on a constant price series every EMA value is that price |
| BtcBacktest.CalculateEma | btc_backtest.js:15-26 | returns the EMA series of the prices: one value per price, the first equal to the first price, each later one a step from the one before; all values are positive when the prices are and period >= 1 |
| BtcBacktest.ModeOf | btc_backtest.js:116 | definition; no contract: the mode label of a capital mode |
| BtcBacktest.LongTakeProfitPrice | btc_backtest.js:59 | for a positive entry price the long threshold lies above the entry price |
| BtcBacktest.ShortTakeProfitPrice | btc_backtest.js:60 | for a positive entry price the short threshold lies strictly between 0 and the entry price |
| BtcBacktest.Evaluate | btc_backtest.js:59-91 | take profit is reached exactly when the held side's threshold entry*(1 ± 0.7/100) is touched; a pause flag is raised only by its side's take profit and cleared only by a close on the other side of the EMA; no entry on a paused side or onto a held position; exits only on the held side; with EMA > 0 goLong and goShort are never both true, and an entry against a held position comes with that position's exit |
| BtcBacktest.ProfitFraction | btc_backtest.js:96-124 | for a positive entry price the profit fraction is positive exactly when the close moved in the held side's favour (above the entry for a long, below it for a short) |
| BtcBacktest.TakeProfitTouched | btc_backtest.js:63-64 | definition; no contract: the close has reached the side's take-profit threshold |
| BtcBacktest.ReasonFor | btc_backtest.js:114-142 | the exit reason is a take profit exactly when the take-profit flag is set, and a long reason exactly when the side is long |
| BtcBacktest.LedgerOk | btc_backtest.js:94-189 | definition; no contract: every record is well formed (RecordOk): entries and exits alternate, each exit closes the entry before it at its price and invested amount, with profit = invested * fraction and capital = previous capital + profit |
| BtcBacktest.AppendRecord | btc_backtest.js:106-117 | appending a well-formed record to a well-formed ledger keeps it well formed |
| BtcBacktest.TakeProfitExitGains | btc_backtest.js:63-64 | every exit labelled take profit has a profit fraction of at least 0.7/100, on both sides |
| BtcBacktest.CapitalIsInitialPlusProfits | btc_backtest.js:98-104 | capital changes only at exits and by their profit: before any record it is 10000 plus the profits of the exits before it |
| BtcBacktest.QuotientAtLeast | btc_backtest.js:96 | proof helper of TakeProfitExitGains: a >= b*c with b > 0 gives a/b >= c |
| BtcBacktest.CloseOut | btc_backtest.js:94-148 | definition; no contract: one exit block: profit fraction, profit on the invested (compounding) or fixed amount, new capital, the exit record, flat position with nothing invested |
| BtcBacktest.Open | btc_backtest.js:151-189 | definition; no contract: one entry block: position and entry price set, the capital (compounding) or 10000 invested, the entry record |
| BtcBacktest.ExitPhase | btc_backtest.js:94-148 | definition; no contract: the long exit block, then the short exit block, each when its signal fires |
| BtcBacktest.EntryPhase | btc_backtest.js:151-189 | definition; no contract: the long entry block, then the short entry block, each when its signal fires |
| BtcBacktest.Step | btc_backtest.js:53-189 | one bar of the loop: signals from the state before the bar, new pause flags, exits, entries; a held position keeps a positive entry price when the close is positive |
| BtcBacktest.Run | btc_backtest.js:36-190 | the state after the bars from index 120 up to n, starting flat, unpaused, with capital 10000 and an empty ledger; a held position always has a positive entry price |
| BtcBacktest.RunStep | btc_backtest.js:52 | one more bar of the loop is one more Step |
| BtcBacktest.Outcome | btc_backtest.js:193-206 | definition; no contract: the ledger of the final Run and the summary computed from it |
| BtcBacktest.CloseOutAgrees | btc_backtest.js:94-148 | an exit block leaves the state flat and in agreement with the ledger, and its capital is the previous capital plus the recorded profit, in both modes |
| BtcBacktest.OpenAgrees | btc_backtest.js:151-189 | an entry block on a flat state opens the position in agreement with the ledger |
| BtcBacktest.ExitPhaseAgrees | btc_backtest.js:94-148 | exits that close only the held side keep the agreement and leave the position flat |
| BtcBacktest.EntryPhaseAgrees | btc_backtest.js:151-189 | at most one entry, from a flat position, keeps the agreement |
| BtcBacktest.StepAgrees | btc_backtest.js:53-189 | with a positive close and EMA, one bar keeps the state in agreement with a well-formed ledger |
| BtcBacktest.ExitPhaseRecords | btc_backtest.js:94-148 | the exit phase appends exactly one exit record when an exit signal fires and none otherwise, at the bar's time and close, leaving the earlier ledger unchanged |
| BtcBacktest.EntryPhaseRecords | btc_backtest.js:151-189 | the entry phase appends exactly one entry record when an entry signal fires and none otherwise, at the bar's time and close, leaving the earlier ledger unchanged |
| BtcBacktest.StepRecords | btc_backtest.js:53-189 | one bar appends one exit record exactly when an exit signal fires and one entry record exactly when goLong or goShort holds, the entry last; every new record carries the bar's open time and close; the earlier ledger is unchanged |
| BtcBacktest.RunAgrees | btc_backtest.js:52-190 | after every bar the state agrees with a well-formed ledger, and the ledger holds at most two records per traded bar |
| BtcBacktest.RunRecordsAtBars | btc_backtest.js:52-189 | every ledger record was made at a traded bar (index 120 or later): it carries that bar's open time and close |
| BtcBacktest.OutcomeSummary | btc_backtest.js:193-206 | the ledger is well formed; final capital is the last record's capital; totalProfit = finalCapital - 10000 = the sum of the exit profits; totalTrades counts every record; profitPercentage = totalProfit/10000*100; with 120 bars or fewer nothing is traded |
| BtcBacktest.ApplyExits | btc_backtest.js:94-148 | the new position, invested amount, capital and ledger are exactly those of ExitPhase on the old state |
| BtcBacktest.ApplyEntries | btc_backtest.js:151-189 | the new position, entry price, invested amount and ledger are exactly those of EntryPhase on the old state; capital is unchanged |
| BtcBacktest.TradeBar | btc_backtest.js:53-189 | the state after the loop body is exactly one Step of the old state |
| BtcBacktest.TradeBars | btc_backtest.js:36-190 | the final capital and ledger of the loop are exactly those of Run over all bars |
| BtcBacktest.Backtest | btc_backtest.js:29-207 | the result is exactly the Outcome of Run over the 120-period EMA series of the closes; hence the ledger satisfies LedgerOk, final capital is the last record's capital, totalProfit = finalCapital - 10000 = the sum of the exit profits, totalTrades counts every record, profitPercentage = totalProfit/10000*100, and with 120 bars or fewer the ledger is empty |
| AnalyzeKlines.EmaOf | analyzeKlines.js:28-34 | one EMA per candle, each that candle's ema field |
| AnalyzeKlines.CalculateEma | analyzeKlines.js:22-38 | no result exactly on an empty input; otherwise one candle per K-line, carrying that K-line and the EMA series of the closes |
| AnalyzeKlines.CandleState | analyzeKlines.js:79-87 | the state is 1, -1 or 0; it is 1 exactly when open and close are both above the EMA and -1 exactly when both are below |
| AnalyzeKlines.CountState | analyzeKlines.js:42-62 | definition; no contract: the number of candles of a given state |
| AnalyzeKlines.StatesPartitionCandles | analyzeKlines.js:52-62 | the counts of the three states add up to the number of candles |
| AnalyzeKlines.AnalyzeEmaRelationship | analyzeKlines.js:41-74 | aboveEMA, belowEMA and crossingEMA are the numbers of candles of state 1, -1 and 0, and they sum to totalCandles |
| AnalyzeKlines.CandleStates | analyzeKlines.js:79-87 | one state per candle, each that candle's CandleState |
| AnalyzeKlines.TrendOf | analyzeKlines.js:107-113 | a run starts as an uptrend exactly when the candle and its neighbour are both 1, as a downtrend exactly when both are -1, otherwise as an oscillation |
| AnalyzeKlines.OpeningTrend | analyzeKlines.js:106-163 | a run opened at a candle is judged with the next candle, or, at the last candle, with the previous one; a lone candle opens an oscillation; an uptrend (downtrend) opens only on a candle of state 1 (-1) |
| AnalyzeKlines.Continues | analyzeKlines.js:120-133 | definition; no contract: a candle continues an uptrend (downtrend) when its state is 1 (-1), and an oscillation unless it and its predecessor are both 1 or both -1 |
| AnalyzeKlines.RunOk | analyzeKlines.js:106-167 | definition; no contract: a run opens with OpeningTrend, every candle inside it continues it, and the candle after it, if any, does not |
| AnalyzeKlines.RunDeterminedByStart | analyzeKlines.js:116-167 | two maximal runs within the candles that start at the same candle are the same run |
| AnalyzeKlines.TilesBounds | analyzeKlines.js:103-166 | in a tiling the first run starts at candle 0, each next run starts where the previous one ends, every run has length >= 1 and the last ends at the end |
| AnalyzeKlines.SegmentationUnique | analyzeKlines.js:102-177 | two tilings of the same candles by maximal runs are equal, so the run rule determines the segmentation |
| AnalyzeKlines.ThreeAboveIsOneUptrend | analyzeKlines.js:107-122 | on states [1, 1, 1] the only tiling by maximal runs is one uptrend of three candles |
| AnalyzeKlines.LengthsPositive | analyzeKlines.js:104 | in a tiling every recorded run length is at least 1 |
| AnalyzeKlines.DurationsCoverTiling | analyzeKlines.js:137-143 | the run lengths of the three kinds sum to the number of candles the tiling covers |
| AnalyzeKlines.DurationsOfTiling | analyzeKlines.js:170-177 | in a tiling every run length is at least 1, and the three kinds' lengths sum to the candles covered |
| AnalyzeKlines.SumAppend | analyzeKlines.js:185 | proof helper of DurationsCoverTiling: the sum of durations extended by one element grows by that element |
| AnalyzeKlines.LengthsOfAppend | analyzeKlines.js:137-143 | closing a run appends its length to its own kind's list and leaves the other two unchanged |
| AnalyzeKlines.Push | analyzeKlines.js:137-177 | definition; no contract: the run's length goes onto the list of its kind |
| AnalyzeKlines.CloseRun | analyzeKlines.js:136-143 | closing a run of length >= 1 at the end of a tiling extends the tiling and pushes the length onto the list of the run's kind |
| AnalyzeKlines.ExtendRun | analyzeKlines.js:121-133 | a candle that continues the open run extends it, keeping every run homogeneous, opened by the rule, and the lists in step |
| AnalyzeKlines.StartRun | analyzeKlines.js:134-167 | on a candle that breaks the open run, the run is closed as a maximal run and pushed, and a run of length 1 opened by the rule starts at that candle |
| AnalyzeKlines.CloseLastRun | analyzeKlines.js:170-177 | pushing the last run completes a tiling of all candles by maximal homogeneous runs: every duration is at least 1 and the three lists sum to the number of candles |
| AnalyzeKlines.TilesAppend | analyzeKlines.js:165-166 | a run starting where the tiling ends extends it |
| AnalyzeKlines.MaxOf | analyzeKlines.js:187 | the maximum is an element and bounds every element from above |
| AnalyzeKlines.MinOf | analyzeKlines.js:188 | the minimum is an element and bounds every element from below |
| AnalyzeKlines.Mean | analyzeKlines.js:184-186 | the average times the count is the total, and lies between 0 and the total |
| AnalyzeKlines.Summarize | analyzeKlines.js:180-208 | count is the number of durations; with none, count, average, max and min are 0; otherwise min <= max, both are durations, every duration lies between them, and average*count is the sum |
| AnalyzeKlines.SegmentTrends | analyzeKlines.js:95-177 | the recorded runs tile the candles end to end and each is a maximal run by the rule (RunOk: opening trend, continuation inside, break after), so by SegmentationUnique they are the only such tiling; uptrend runs hold only state 1 and downtrend runs only -1; every duration is at least 1; for a non-empty input the durations sum to the number of candles; an empty input records one oscillation of length 1 |
| AnalyzeKlines.AnalyzeTrends | analyzeKlines.js:77-211 | each kind's statistics summarize that kind's run lengths; the runs are maximal by the rule, homogeneous and tile the candles; for a non-empty input all durations sum to the number of candles |
| DurationFrequency.Occurrences | public/app.js:296-302 | definition; no contract: how often a duration occurs in the input |
| DurationFrequency.OccurrencesPositive | public/app.js:297-301 | a duration has a positive count exactly when it occurs in the input, so the truthiness test of the table is a membership test |
| DurationFrequency.OccurrencesAppend | public/app.js:296-302 | one more input element raises the count of its own duration by one and no other |
| DurationFrequency.OccursOnce | public/app.js:305-310 | in a strictly ascending key list every key occurs once |
| DurationFrequency.DurationList | public/app.js:307-310 | one duration per pair, in order |
| DurationFrequency.Entries | public/app.js:305 | the table's entries list each key of the insertion order once, with its count |
| DurationFrequency.Insert | public/app.js:306 | inserting a pair adds exactly that pair |
| DurationFrequency.InsertSorted | public/app.js:306 | inserting into an ascending list keeps it ascending and keeps every lower bound |
| DurationFrequency.PrependSorted | public/app.js:306 | proof helper of InsertSorted: a pair no longer than the head of an ascending list can be put in front of it |
| DurationFrequency.SortByDuration | public/app.js:305-306 | the result is a permutation of the entries and ascending by duration |
| DurationFrequency.DistinctOnce | public/app.js:305 | proof helper of PermutationKeepsDistinct: in pairs with distinct durations each pair occurs at most once |
| DurationFrequency.TwoCopies | public/app.js:305 | proof helper of PermutationKeepsDistinct: a pair found at two positions occurs at least twice |
| DurationFrequency.PermutationKeepsDistinct | public/app.js:305-306 | sorting entries with distinct durations keeps the durations distinct |
| DurationFrequency.OccurrencesOfAllAppend | public/app.js:296-302 | one more input element adds its own count to the total over the keys |
| DurationFrequency.OccurrencesOfAllNone | public/app.js:294 | proof helper of OccurrencesOfAllCover: an empty input has no occurrences of any key |
| DurationFrequency.OccurrencesOfAllCover | public/app.js:296-310 | when every input duration is one of a list of distinct keys, the keys' counts sum to the length of the input |
| DurationFrequency.TotalOfBars | public/app.js:307-310 | when every pair carries its duration's count, the pairs' counts sum to the occurrences of their durations |
| DurationFrequency.CountDurations | public/app.js:294-302 | the table's keys are exactly the input durations, each with its number of occurrences, and the insertion order lists each key once |
| DurationFrequency.GenerateDurationFrequency | public/app.js:293-313 | the durations of the pairs are strictly increasing (no repeated durations); a duration appears exactly when it occurs in the input, with count equal to its occurrences (at least 1); the counts sum to the input length; an empty input gives an empty output |
| DurationFrequency.SortedBarsDistinct | public/app.js:305-306 | sorting the entries of a table leaves the durations strictly ascending |
| DurationFrequency.BarsAreEntries | public/app.js:305-310 | every sorted pair is one of the table's keys with its count |
| DurationFrequency.EntriesAreBars | public/app.js:305-310 | every key of the table appears among the sorted pairs |
| DurationFrequency.SortedBarsCount | public/app.js:296-310 | each sorted pair's count is its duration's occurrences in the input, at least 1, and the pairs' durations are exactly the input's |
| DurationFrequency.AscendingArrangementUnique | public/app.js:306 | two arrangements of the same pairs with strictly increasing durations are equal, so any sort by numeric key gives the same output |
| DurationFrequency.AscendingHeadsEqual | public/app.js:306 | the pair with the smallest duration heads every strictly increasing arrangement of the same pairs |
| DurationFrequency.SameTails | public/app.js:306 | two arrangements of the same pairs with the same head have tails holding the same pairs |

## Left out

- File and network I/O, JSON parsing and serialisation, console logging and the command-line entry points (`loadKlineData` and `main` in `btc_backtest.js`, `readKlineData` and `main` in `analyzeKlines.js`) are not modelled. `fetchKlines.js`, `server.js` and the DOM, fetch and chart code of `public/app.js` are not part of this model.
- IEEE-754 double arithmetic: prices, EMA values, capital, profit and averages are exact reals. Rounding, NaN and infinities are not modelled.
- String formatting is left out:
  - `toFixed(2)`, the `'%'` suffixes, ISO timestamps and `parseFloat` of string fields;
  - money and percentages are kept as reals, and candle times as integers;
  - the ledger's Chinese type labels become the record's constructor (`Entry` or `Exit`) and its side, and the reason and mode labels become the enumerations `ExitReason` and `Mode`;
  - an exit's profit percentage is kept as a fraction, not multiplied by 100.
- The three percentage fields of the EMA relationship report are not modelled. They are the counts divided by the number of candles and formatted as strings.
- BtcBacktest.CalculateEma: requires a non-empty price list. On an empty list the source returns a one-element list holding `undefined`. `Backtest` calls it only when there is at least one bar; with no bars the loop never reads the EMA, so the result is the same.
- BtcBacktest.Backtest: requires every close to be positive. With a zero close a short could be entered at price 0 and its exit would divide by zero. The exclusivity of entries also needs the positive EMA that positive closes give.
- BtcBacktest.Evaluate: states the exclusivity of entries and the flat-entry property only for a positive EMA. With EMA <= 0 the deviation bands invert and the source gives no such guarantee.
- AnalyzeKlines.Summarize: keeps the exact real average, where the source formats it as a two-decimal string (and as the number 0 when there are no durations).
- AnalyzeKlines.SegmentTrends: on an empty input the source reads `candleStates[0]` and `candleStates[1]` as `undefined`, and still records an oscillation of length 1. The model records that run as well, so the sum of durations equals the number of candles only for a non-empty input.
- DurationFrequency.GenerateDurationFrequency: models durations as integers and takes the round trip through object keys (number to string, then `parseInt`) as the identity, which holds for the integer run lengths it receives. JavaScript's own ordering of integer-like object keys is not modelled. The output does not depend on it, because `AscendingArrangementUnique` shows that any strictly ascending arrangement of the same pairs is the same sequence.
- DurationFrequency.SortByDuration: stands in for the engine's `Array.prototype.sort`, as an insertion sort on values. The in-place sort algorithm itself is not modelled.

`totalTrades` counts every ledger record, entries as well as exits
(`btc_backtest.js:195`).
