# Indicator and signal core of two freqtrade strategies

This project models, in Dafny, the signal logic of two freqtrade strategies
of the repository and proves properties of that model.

- `VWMAStrategyVolumeRegime` trades on 15m candles. It enters long when the
  fast volume-weighted moving average (VWMA) crosses above the medium one,
  while the slow VWMA's slope angle is above a minimum and, when 4h data is
  available, while the 4h table is in a *bull regime*. The bull regime means
  on-balance volume (OBV) is above its moving average and the 4h RSI lies in
  a band. The strategy exits on the opposite crossing.
- `RPSROI` (RSI percentile-nearest-rank slope, ROI exits):
  - `rsidiffMIN` is the distance of the RSI below its rolling high.
  - The strategy enters long when `rsidiffMIN` crosses above its rolling
    99th percentile, optionally only while the slow VWMA's slope is above a
    minimum.
  - It has no exit signal.

The candle table is `Table.DataFrame`, a class:

- The `close` and `volume` columns are fixed.
- The derived columns are a map from column name to column. The strategy
  hooks extend or overwrite that map in place.
- A NaN cell is `None`. Every comparison with NaN is false, as in pandas.

A rolling aggregate is defined at a row exactly when the window ending there
is complete and holds no NaN. This is pandas' default, where `min_periods`
equals the window.

The two files define `vwma` and `calculate_slope_angle` identically. Both
are modelled once, in module `Indicators`.

Modules:

- `Series`: cells, columns and window helpers.
- `Indicators`: VWMA, slope, slope angle and its warm-up, and crossings.
- `OnBalanceVolume`: OBV.
- `RsiPnr`: rsidiffMIN and rsidiffMAX and their thresholds.
- `Table`: the candle table.
- `Foreign`: the TA-Lib, pandas and numpy routines, taken as parameters.
- `Hyperopt`: the decimal grid of a parameter and the base-column shortcut.
- `VolumeRegime`: the first strategy.
- `Rpsroi`: the second strategy.

## Model

| member | source | states |
|---|---|---|
| Indicators.Vwma | user_data/strategies/VWMAStrategyVolumeRegime.py:101-107 | NaN on the first period-1 rows. NaN exactly when the window's volume sum is 0. Otherwise VWMA × volume sum = Σ close·volume over the window. |
| Indicators.VwmaWithinWindow | user_data/strategies/VWMAStrategyVolumeRegime.py:101-107 | With non-negative volumes, a defined VWMA lies between the window's smallest and largest close. |
| Indicators.WeightedMeanBounds | user_data/strategies/VWMAStrategyVolumeRegime.py:104-107 | With non-negative weights and a non-zero weight sum, Σ c·v / Σ v lies between the smallest and largest c. |
| Indicators.MeanAtLeast | user_data/strategies/VWMAStrategyVolumeRegime.py:104-107 | A lower bound on every c, with non-negative weights and a positive weight sum, is a lower bound on Σ c·v / Σ v. |
| Indicators.MeanAtMost | user_data/strategies/VWMAStrategyVolumeRegime.py:104-107 | An upper bound on every c, with non-negative weights and a positive weight sum, is an upper bound on Σ c·v / Σ v. |
| Indicators.VwmaOfFlatWindow | user_data/strategies/RPSROI.py:86-92 | Over a window of equal closes, a defined VWMA equals that close, whatever the volumes. |
| Indicators.SlopeAt | user_data/strategies/VWMAStrategyVolumeRegime.py:115 | The slope at a row is defined exactly when both ends are. Slope × lag equals the change over the lag. |
| Indicators.Slope | user_data/strategies/VWMAStrategyVolumeRegime.py:115 | `(ma - ma.shift(lag)) / lag`: defined exactly from row lag on, where both ends are defined; each row is the slope between its two ends. |
| Indicators.SlopeAngle | user_data/strategies/VWMAStrategyVolumeRegime.py:109-120 | The angle column is defined exactly where the slope is. |
| Indicators.SlopeAngleSign | user_data/strategies/RPSROI.py:94-105 | A defined angle lies in (-90, 90). It is positive, zero or negative exactly as the series rose, stayed flat or fell over the lag. |
| Indicators.WarmUpSlopeClause | user_data/strategies/VWMAStrategyVolumeRegime.py:233-240 | On every row where the slope angle is NaN, `fillna(0)` makes the slope clause pass exactly when the minimum slope is negative. |
| Indicators.VwmaSlopeWarmUp | user_data/strategies/VWMAStrategyVolumeRegime.py:101-120 | The slope angle of a VWMA is NaN on its first period − 1 + lag rows (302 at the defaults 300 and 3). |
| Indicators.CrossAbove | user_data/strategies/VWMAStrategyVolumeRegime.py:212-219 | Fires exactly when fast > medium now and fast <= medium on the previous row, both defined. Never fires on row 0 nor on two consecutive rows. |
| Indicators.CrossBelow | user_data/strategies/VWMAStrategyVolumeRegime.py:221-225 | The mirror image: fires exactly on a crossing down. Never fires on row 0 nor on two consecutive rows. |
| Indicators.CrossingsExclusive | user_data/strategies/VWMAStrategyVolumeRegime.py:215-225 | A crossover and a crossunder never fire on the same row. |
| OnBalanceVolume.CalculateObv | user_data/strategies/VWMAStrategyVolumeRegime.py:122-137 | The loop over an array returns the cumulative signed-volume sum at every row. An empty table is the failure case (`None`). |
| OnBalanceVolume.ObvRecurrence | user_data/strategies/VWMAStrategyVolumeRegime.py:127-135 | The cumulative sum obeys the source's recurrence: 0 on row 0, then add, subtract or keep the volume as the close rose, fell or stayed. |
| OnBalanceVolume.ObvNonDecreasing | user_data/strategies/VWMAStrategyVolumeRegime.py:129-135 | With non-decreasing closes and non-negative volumes, OBV never falls. |
| OnBalanceVolume.ObvOfFlatCloses | user_data/strategies/VWMAStrategyVolumeRegime.py:134-135 | A table whose close never moves has OBV 0 on every row. |
| OnBalanceVolume.SignedVolumes | user_data/strategies/VWMAStrategyVolumeRegime.py:127-135 | Row 0 contributes 0. Each later row contributes its volume with the sign of the close's move. |
| RsiPnr.RollingMax | user_data/strategies/RPSROI.py:126 | The rolling maximum is defined exactly on complete, NaN-free windows. |
| RsiPnr.RollingMin | user_data/strategies/RPSROI.py:139 | The rolling minimum is defined exactly on complete, NaN-free windows. |
| RsiPnr.RsiDiffMin | user_data/strategies/RPSROI.py:125-126 | rsidiffMIN is defined exactly where the lookback window is complete, so it is NaN on the first lookback-1 rows. |
| RsiPnr.RsiDiffMax | user_data/strategies/RPSROI.py:138-139 | The same definedness for rsidiffMAX. |
| RsiPnr.RsiDiffsSpanWindow | user_data/strategies/RPSROI.py:120-144 | Where defined, both distances are >= 0 and they add up to the window's max − min. |
| RsiPnr.RollingQuantile | user_data/strategies/RPSROI.py:129 | The threshold is defined exactly on complete, NaN-free windows of the diff. |
| RsiPnr.ThresholdWithinWindow | user_data/strategies/RPSROI.py:129 | A defined threshold lies between its window's smallest and largest value. |
| RsiPnr.CalculateRsiPnrBuy | user_data/strategies/RPSROI.py:120-131 | Returns rsidiffMIN and a threshold defined exactly where the diff's window is full. |
| RsiPnr.CalculateRsiPnrSell | user_data/strategies/RPSROI.py:133-144 | Returns rsidiffMAX and a threshold defined exactly where the diff's window is full. |
| RsiPnr.DiffsNonNegative | user_data/strategies/RPSROI.py:125-139 | rsidiffMIN and rsidiffMAX are >= 0 on every row where they are defined. |
| RsiPnr.WindowNonNegative | user_data/strategies/RPSROI.py:129 | A complete window of a series that is never negative has a minimum >= 0, the lower bound used for the quantile. |
| RsiPnr.BuyThresholdBounds | user_data/strategies/RPSROI.py:120-131 | The buy threshold is NaN for the first lookback + window − 2 rows and >= 0 where defined. |
| RsiPnr.SellThresholdNonNegative | user_data/strategies/RPSROI.py:133-144 | The sell threshold is >= 0 where defined. |
| Hyperopt.SelectVwma | user_data/strategies/VWMAStrategyVolumeRegime.py:193-201 | If the base column is the VWMA at the default period, either branch gives the VWMA at the chosen period. |
| Hyperopt.SelectSlow | user_data/strategies/VWMAStrategyVolumeRegime.py:203-209 | If the base columns are as built, either branch gives the slow VWMA and its slope angle at the chosen period and lag. |
| VolumeRegime.BullRegimeFlags | user_data/strategies/VWMAStrategyVolumeRegime.py:170-174 | Bull exactly when obv > obv_ma and lower <= rsi <= upper (both bounds inclusive). False wherever an input is NaN. |
| VolumeRegime.Align | user_data/strategies/VWMAStrategyVolumeRegime.py:177-181 | Each 15m row takes the value of the 4h row the given alignment names, or NaN when it names none. |
| VolumeRegime.LongCondition | user_data/strategies/VWMAStrategyVolumeRegime.py:236-250 | Entry exactly on crossover ∧ slope above the minimum ∧ volume > 0, plus a regime equal to 1 when the regime column exists. |
| VolumeRegime.RegimeOnlyFilters | user_data/strategies/VWMAStrategyVolumeRegime.py:236-250 | Every entry made with the regime column is also an entry of the fallback rule. |
| VolumeRegime.AllBearNeverEnters | user_data/strategies/VWMAStrategyVolumeRegime.py:170-181 | A 4h table that is never bull blocks every entry, after merging and before the first 4h candle. |
| VolumeRegime.EntriesAreIsolated | user_data/strategies/VWMAStrategyVolumeRegime.py:216-250 | The strategy never enters on row 0 nor on two consecutive rows. |
| VolumeRegime.AddBaseColumns | user_data/strategies/VWMAStrategyVolumeRegime.py:145-151 | Adds the fast, medium and slow VWMA at 20/100/300 and the slow slope at lag 3. Nothing else changes. |
| VolumeRegime.AddRegimeColumns | user_data/strategies/VWMAStrategyVolumeRegime.py:161-174 | On a non-empty 4h table, adds OBV, its SMA, the RSI and the bull flag. An empty table fails and is left untouched. |
| VolumeRegime.MergeRegime | user_data/strategies/VWMAStrategyVolumeRegime.py:177-181 | Adds the four regime columns, aligned onto the 15m rows, as the `_4h` columns. |
| VolumeRegime.PopulateIndicators | user_data/strategies/VWMAStrategyVolumeRegime.py:139-183 | Base columns always. Regime and merged columns when the 4h table is present and non-empty. Failure on an empty 4h table. |
| VolumeRegime.SelectLines | user_data/strategies/VWMAStrategyVolumeRegime.py:192-209 | With base columns as built, the lines chosen are those recomputed at the chosen parameters. |
| VolumeRegime.PopulateEntryTrend | user_data/strategies/VWMAStrategyVolumeRegime.py:185-254 | The new table is the old one with exactly the entry hook's columns, `enter_long` included, written. |
| VolumeRegime.IndicatorsMeetEntry | user_data/strategies/VWMAStrategyVolumeRegime.py:145-151 | The columns `populate_indicators` stores, with or without the merged 4h columns, meet the entry hook's requirement that the base columns are present, of full length and as built. |
| VolumeRegime.EntryMarksExactlyTheCondition | user_data/strategies/VWMAStrategyVolumeRegime.py:231-252 | With base columns as built, `enter_long` is 1 on the rows meeting the long condition at the chosen parameters. Every other row keeps its previous value. |
| VolumeRegime.PopulateExitTrend | user_data/strategies/VWMAStrategyVolumeRegime.py:256-264 | `exit_long` becomes 1 exactly on the crossunder rows, other rows keep their value. Without a crossunder column the table is unchanged. |
| Table.DataFrame.LocSetOne | user_data/strategies/VWMAStrategyVolumeRegime.py:252 | `.loc[cond, n] = 1`: rows meeting the condition become 1. The others keep their value, or are NaN in a new column. |
| Rpsroi.GetRsiSource | user_data/strategies/RPSROI.py:107-118 | The 20-period VWMA for "vwma" and the 20-period EMA for "ema". The close for "close" and for every other name. |
| Rpsroi.UnknownSourceIsClose | user_data/strategies/RPSROI.py:117-118 | An unknown source name gives exactly the "close" source. |
| Rpsroi.BuySignal | user_data/strategies/RPSROI.py:202-209 | The crossing of rsidiffMIN above its threshold. A row signals exactly when rsidiffMIN > threshold there and the shifted `_prev` columns satisfy rsidiffMIN_prev <= threshold_prev, both defined. |
| Rpsroi.BuySignalFacts | user_data/strategies/RPSROI.py:202-209 | A buy signal at row i implies: i >= 1; both windows had filled by row i − 1; diff <= threshold on the previous row; diff > threshold now; diff > 0. |
| Rpsroi.LongCondition | user_data/strategies/RPSROI.py:214-225 | Entry exactly on signal ∧ volume > 0, plus slope above the minimum when the filter is on. |
| Rpsroi.FilterOnlyRemoves | user_data/strategies/RPSROI.py:214-225 | Entries with the filter on are a subset of entries with it off. They differ exactly on rows whose slope is not above the minimum. |
| Rpsroi.BaseColumns | user_data/strategies/RPSROI.py:151-172 | The columns `populate_indicators` stores include the slow VWMA and its slope, both full length, and rsidiffMIN with its threshold. |
| Rpsroi.PopulateIndicators | user_data/strategies/RPSROI.py:146-174 | Adds exactly the base columns: slow VWMA 300, slope at lag 3, RSI-14 of the close, and both PNR pairs at lookback 10 and window 150. |
| Rpsroi.SelectLines | user_data/strategies/RPSROI.py:183-199 | Slow lines as recomputed when the base columns are as built. The RSI-14 of the chosen source. The PNR buy pair at the chosen lookback and window. |
| Rpsroi.AddLines | user_data/strategies/RPSROI.py:183-199 | Writes the slow VWMA, slope, RSI, rsidiffMIN and threshold columns. Nothing else changes. |
| Rpsroi.LineColumns | user_data/strategies/RPSROI.py:183-199 | Writing the five line columns leaves `enter_long`, present or absent, as it was. |
| Rpsroi.AddSignal | user_data/strategies/RPSROI.py:202-227 | Writes the shifted columns, the buy signal, the cleaned slope and `enter_long`. Nothing else changes. |
| Rpsroi.PopulateEntryTrend | user_data/strategies/RPSROI.py:176-229 | The new table is the old one with exactly the entry hook's columns, `enter_long` included, written. |
| Rpsroi.EntryFacts | user_data/strategies/RPSROI.py:202-227 | An entry row is never row 0, never follows another entry, never comes before row lookback + window − 1, and has rsidiffMIN > 0. |
| Rpsroi.EntryRows | user_data/strategies/RPSROI.py:211-227 | `enter_long` is 1 exactly on the rows meeting the long condition. Other rows keep their previous value. |
| Rpsroi.DefaultsReproduceBase | user_data/strategies/RPSROI.py:157-199 | At lookback 10, window 150 and the close as source, the entry hook's rsidiffMIN and threshold equal the base columns. |
| Rpsroi.PopulateExitTrend | user_data/strategies/RPSROI.py:231-236 | The table comes back unchanged. |

## Left out

- TA-Lib's `RSI`, `SMA` and `EMA` are not modelled. They are sealed library code, so they are given as function values in `Foreign.Library`. The model knows only that they preserve length.
- pandas' interpolated rolling `quantile(0.99)` is not modelled. It is a function value; the model knows only that its value for a full window lies between the window's minimum and maximum.
- `np.arctan(x) * 180 / np.pi` is not modelled. It is a function value; the model knows only that it is strictly increasing, 0 at 0, and stays inside (-90, 90).
- Floating point is not modelled: all arithmetic is on exact reals. IEEE rounding, infinities and NaN propagation through arithmetic are not captured.
- Indicators.Vwma: a window whose volume sum is 0 gives NaN. pandas gives NaN only for 0/0 and ±inf for x/0 with x ≠ 0, which needs negative volumes. Such an inf is also NaN in the model.
- `dp.get_pair_dataframe` is not modelled. The 4h table arrives as a parameter; its absence (`self.dp` unset) is `None`.
- VolumeRegime.MergeRegime: freqtrade's `merge_informative_pair` is host code. The model takes its time alignment as a given row map and adds only the four regime columns, in place. The source returns a new merged frame that also carries every other 4h column, renamed.
- VolumeRegime.PopulateIndicators: `calculate_obv` on an empty 4h table raises IndexError. The model returns `false` and leaves the 15m table with its base columns only.
- Hyperopt parameter objects (`IntParameter`, `DecimalParameter`, `CategoricalParameter`, `BooleanParameter`) are not modelled. They become plain values, with their declared ranges in the `Params.Valid` predicates.
- `informative_pairs`, `plot_config`, `minimal_roi`, `stoploss`, `trailing_stop`, `startup_candle_count`, `timeframe` and `can_short` are configuration read by the host and are not modelled.
- Column dtypes are not modelled: boolean and integer columns (`astype(int)`, the crossing flags) are stored as 0/1 reals or as `Flags`.
