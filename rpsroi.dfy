/** The RSI PNR slope strategy with ROI-only exits (`RPSROI`): enter long when
    the distance of the RSI below its recent high crosses above its rolling
    99th percentile, optionally only while the slow VWMA slopes upward. */
module Rpsroi {
  import opened Series
  import opened Indicators
  import opened RsiPnr
  import opened Table
  import opened Foreign
  import opened Hyperopt

  /** Both hooks compute the RSI at this period, whatever the parameters. */
  const RsiPeriod: nat := 14
  /** `populate_indicators` builds the base PNR columns with these. */
  const LookbackDefault: nat := 10
  const PercentileWindowDefault: nat := 150
  /** The period of the VWMA and EMA RSI sources. */
  const SourcePeriod: nat := 20

  /** The hyperopt parameters, as plain values. */
  datatype Params = Params(
    buyRsiLookback: nat, buyRsiPercentileWindow: nat, sourceType: string,
    useVwmaFilter: bool, vwmaSlow: nat, slopeBars: nat, minSlopeSlow: real)
  {
    /** The declared ranges and categories. */
    predicate Valid()
    {
      && 5 <= buyRsiLookback <= 40
      && 100 <= buyRsiPercentileWindow <= 200
      && sourceType in ["close", "vwma", "ema"]
      && 280 <= vwmaSlow <= 320
      && 1 <= slopeBars <= 5
      && -5.0 <= minSlopeSlow <= 5.0 && TwoDecimals(minSlopeSlow)
    }
  }

  /** `get_rsi_source`: the 20-period VWMA for "vwma", TA-Lib's 20-period EMA of
      the close for "ema", and the close for "close" and for every other name. */
  function GetRsiSource(close: seq<real>, volume: seq<real>, sourceType: string, lib: Library)
    : (r: Series)
    requires |close| == |volume| && lib.Valid()
    ensures |r| == |close|
    ensures sourceType == "vwma" ==> r == Vwma(close, volume, SourcePeriod)
    ensures sourceType == "ema" ==> r == lib.ema(Lift(close), SourcePeriod)
    ensures sourceType != "vwma" && sourceType != "ema" ==>
              forall i :: 0 <= i < |close| ==> r[i] == Some(close[i])
  {
    if sourceType == "close" then Lift(close)
    else if sourceType == "vwma" then Vwma(close, volume, SourcePeriod)
    else if sourceType == "ema" then lib.ema(Lift(close), SourcePeriod)
    else Lift(close)
  }

  /** An unknown source name silently falls back to the close, the same series
      as asking for "close". */
  lemma UnknownSourceIsClose(close: seq<real>, volume: seq<real>, sourceType: string, lib: Library)
    requires |close| == |volume| && lib.Valid()
    requires sourceType !in ["close", "vwma", "ema"]
    ensures GetRsiSource(close, volume, sourceType, lib) == GetRsiSource(close, volume, "close", lib)
  {
  }

  /** `rsi_pnr_buy_signal`: `rsidiffMIN > threshold` now and
      `rsidiffMIN_prev <= threshold_prev` on the previous row. */
  function BuySignal(diff: Series, threshold: Series): (r: seq<bool>)
    requires |threshold| == |diff|
    ensures |r| == |diff|
    ensures forall i :: 0 <= i < |diff| ==>
              (r[i] <==> Gt(diff[i], threshold[i]) && Le(Shift(diff, 1)[i], Shift(threshold, 1)[i]))
  {
    CrossAbove(diff, threshold)
  }

  /** What a buy signal at row `i` implies: a previous row on which rsidiffMIN
      was at or under its threshold, rsidiffMIN strictly above its threshold
      now and so strictly positive, and both windows filled by the previous row. */
  lemma BuySignalFacts(rsi: Series, lookback: nat, window: nat, q: seq<real> -> real, i: nat)
    requires QuantileBounded(q) && i < |rsi|
    requires var (diff, th) := CalculateRsiPnrBuy(rsi, lookback, window, q);
             BuySignal(diff, th)[i]
    ensures var (diff, th) := CalculateRsiPnrBuy(rsi, lookback, window, q);
            && 1 <= i
            && lookback + window <= i + 1
            && diff[i - 1].value <= th[i - 1].value
            && th[i].value < diff[i].value
            && 0.0 < diff[i].value
  {
    var pnr := CalculateRsiPnrBuy(rsi, lookback, window, q);
    assert 1 <= i && Gt(pnr.0[i], pnr.1[i]) && Le(pnr.0[i - 1], pnr.1[i - 1]);
    BuyThresholdBounds(rsi, lookback, window, q, i - 1);
    BuyThresholdBounds(rsi, lookback, window, q, i);
  }

  /** `long_condition`: the buy signal and traded volume, and with the VWMA
      filter on also a slope above the minimum. */
  function LongCondition(signal: seq<bool>, slopeClean: seq<real>, minSlope: real,
                         volume: seq<real>, useFilter: bool): (r: seq<bool>)
    requires |slopeClean| == |signal| && |volume| == |signal|
    ensures |r| == |signal|
    ensures forall i :: 0 <= i < |signal| ==>
              (r[i] <==> signal[i] && volume[i] > 0.0 && (useFilter ==> slopeClean[i] > minSlope))
  {
    if useFilter then
      seq(|signal|, i requires 0 <= i < |signal| =>
        signal[i] && slopeClean[i] > minSlope && volume[i] > 0.0)
    else
      seq(|signal|, i requires 0 <= i < |signal| => signal[i] && volume[i] > 0.0)
  }

  /** The VWMA filter only removes entries: with it on, the entry rows are a
      subset of those with it off, and they differ exactly on the rows whose
      slope is not above the minimum. */
  lemma FilterOnlyRemoves(signal: seq<bool>, slopeClean: seq<real>, minSlope: real,
                          volume: seq<real>, i: nat)
    requires |slopeClean| == |signal| && |volume| == |signal| && i < |signal|
    ensures LongCondition(signal, slopeClean, minSlope, volume, true)[i] ==>
              LongCondition(signal, slopeClean, minSlope, volume, false)[i]
    ensures LongCondition(signal, slopeClean, minSlope, volume, false)[i] &&
            !LongCondition(signal, slopeClean, minSlope, volume, true)[i] <==>
              LongCondition(signal, slopeClean, minSlope, volume, false)[i] && slopeClean[i] <= minSlope
  {
  }

  // ---- populate_indicators ----

  /** The columns `populate_indicators` adds: the slow VWMA and its slope at the
      defaults, the RSI of the close, and rsidiffMIN / rsidiffMAX with their
      thresholds at lookback 10 and window 150. */
  ghost function BaseColumns(cols: map<Name, Column>, close: seq<real>, volume: seq<real>,
                             lib: Library): (r: map<Name, Column>)
    requires |close| == |volume| && lib.Valid()
    ensures BaseReady(r, |close|)
    ensures RsiDiffMinBase in r && RsiDiffMinThresholdBase in r
  {
    var slow := Vwma(close, volume, SlowDefault);
    var rsi := lib.rsi(GetRsiSource(close, volume, "close", lib), RsiPeriod);
    var buy := CalculateRsiPnrBuy(rsi, LookbackDefault, PercentileWindowDefault, lib.quantile99);
    var sell := CalculateRsiPnrSell(rsi, LookbackDefault, PercentileWindowDefault, lib.quantile99);
    cols[VwmaSlowBase := Num(slow)]
        [VwmaSlowSlopeBase := Num(SlopeAngle(slow, SlopeBarsDefault, lib.angle))]
        [RsiBase := Num(rsi)]
        [RsiDiffMinBase := Num(buy.0)]
        [RsiDiffMinThresholdBase := Num(buy.1)]
        [RsiDiffMaxBase := Num(sell.0)]
        [RsiDiffMaxThresholdBase := Num(sell.1)]
  }

  /** `populate_indicators` */
  method PopulateIndicators(df: DataFrame, lib: Library)
    requires df.Valid() && lib.Valid()
    modifies df
    ensures df.Valid()
    ensures df.cols == BaseColumns(old(df.cols), df.close, df.volume, lib)
  {
    var close, volume := df.close, df.volume;
    var slow := Vwma(close, volume, SlowDefault);
    df.Assign(VwmaSlowBase, Num(slow));
    df.Assign(VwmaSlowSlopeBase, Num(SlopeAngle(slow, SlopeBarsDefault, lib.angle)));
    var rsi := lib.rsi(GetRsiSource(close, volume, "close", lib), RsiPeriod);
    df.Assign(RsiBase, Num(rsi));
    var (diffMin, thresholdMin) := CalculateRsiPnrBuy(rsi, LookbackDefault, PercentileWindowDefault, lib.quantile99);
    df.Assign(RsiDiffMinBase, Num(diffMin));
    df.Assign(RsiDiffMinThresholdBase, Num(thresholdMin));
    var (diffMax, thresholdMax) := CalculateRsiPnrSell(rsi, LookbackDefault, PercentileWindowDefault, lib.quantile99);
    df.Assign(RsiDiffMaxBase, Num(diffMax));
    df.Assign(RsiDiffMaxThresholdBase, Num(thresholdMax));
  }

  // ---- populate_entry_trend ----

  /** The columns `populate_entry_trend` reads from `populate_indicators`. */
  predicate BaseReady(cols: map<Name, Column>, rows: nat)
  {
    && VwmaSlowBase in cols && cols[VwmaSlowBase].Num? && cols[VwmaSlowBase].Length() == rows
    && VwmaSlowSlopeBase in cols && cols[VwmaSlowSlopeBase].Num? && cols[VwmaSlowSlopeBase].Length() == rows
  }

  /** The entry rule's inputs at the chosen parameters: the slow VWMA, its slope
      angle, the RSI of the chosen source, rsidiffMIN and its threshold. */
  datatype Lines = Lines(slow: Series, slope: Series, rsi: Series, diff: Series, threshold: Series)

  function SelectLines(cols: map<Name, Column>, close: seq<real>, volume: seq<real>,
                       lib: Library, p: Params): (r: Lines)
    requires |close| == |volume| && lib.Valid() && BaseReady(cols, |close|) && p.Valid()
    ensures |r.slow| == |close| && |r.slope| == |close| && |r.rsi| == |close|
    ensures |r.diff| == |close| && |r.threshold| == |close|
    ensures var slow := Vwma(close, volume, p.vwmaSlow);
            cols[VwmaSlowBase].vals == Vwma(close, volume, SlowDefault) &&
            cols[VwmaSlowSlopeBase].vals == SlopeAngle(cols[VwmaSlowBase].vals, SlopeBarsDefault, lib.angle) ==>
              r.slow == slow && r.slope == SlopeAngle(slow, p.slopeBars, lib.angle)
    ensures r.rsi == lib.rsi(GetRsiSource(close, volume, p.sourceType, lib), RsiPeriod)
    ensures (r.diff, r.threshold) ==
              CalculateRsiPnrBuy(r.rsi, p.buyRsiLookback, p.buyRsiPercentileWindow, lib.quantile99)
  {
    var (slow, slope) := SelectSlow(cols[VwmaSlowBase].vals, cols[VwmaSlowSlopeBase].vals,
                                    close, volume, p.vwmaSlow, p.slopeBars, lib.angle);
    var rsi := lib.rsi(GetRsiSource(close, volume, p.sourceType, lib), RsiPeriod);
    var pnr := CalculateRsiPnrBuy(rsi, p.buyRsiLookback, p.buyRsiPercentileWindow, lib.quantile99);
    Lines(slow, slope, rsi, pnr.0, pnr.1)
  }

  /** The line columns `populate_entry_trend` writes first. */
  function LineColumns(cols: map<Name, Column>, l: Lines): (r: map<Name, Column>)
    ensures EnterLong in r <==> EnterLong in cols
    ensures EnterLong in cols ==> r[EnterLong] == cols[EnterLong]
  {
    cols[VwmaSlow := Num(l.slow)]
        [VwmaSlowSlope := Num(l.slope)]
        [Rsi := Num(l.rsi)]
        [RsiDiffMin := Num(l.diff)]
        [RsiDiffMinThreshold := Num(l.threshold)]
  }

  /** The signal columns `populate_entry_trend` writes after the lines,
      `enter_long` included. */
  ghost function SignalColumns(cols: map<Name, Column>, l: Lines, volume: seq<real>, p: Params)
    : map<Name, Column>
    requires |l.threshold| == |l.diff| && |l.slope| == |l.diff| && |volume| == |l.diff|
    requires EnterLong in cols ==> cols[EnterLong].Num? && cols[EnterLong].Length() == |l.diff|
  {
    var signal := BuySignal(l.diff, l.threshold);
    var clean := FillNa(l.slope, 0.0);
    var entry := LongCondition(signal, clean, p.minSlopeSlow, volume, p.useVwmaFilter);
    cols[RsiDiffMinPrev := Num(Shift(l.diff, 1))]
        [RsiDiffMinThresholdPrev := Num(Shift(l.threshold, 1))]
        [RsiPnrBuySignal := Flags(signal)]
        [VwmaSlowSlopeClean := Num(Lift(clean))]
        [EnterLong := Num(MarkWhere(entry, Existing(cols, EnterLong, |l.diff|)))]
  }

  /** The columns `populate_entry_trend` writes, `enter_long` included. */
  ghost function EntryColumns(cols: map<Name, Column>, close: seq<real>, volume: seq<real>,
                              lib: Library, p: Params): map<Name, Column>
    requires |close| == |volume| && lib.Valid() && BaseReady(cols, |close|) && p.Valid()
    requires EnterLong in cols ==> cols[EnterLong].Num? && cols[EnterLong].Length() == |close|
  {
    var l := SelectLines(cols, close, volume, lib, p);
    SignalColumns(LineColumns(cols, l), l, volume, p)
  }

  /** The slow-VWMA and RSI half of `populate_entry_trend`. */
  method AddLines(df: DataFrame, lib: Library, p: Params) returns (l: Lines)
    requires df.Valid() && lib.Valid() && p.Valid() && BaseReady(df.cols, |df.close|)
    modifies df
    ensures df.Valid()
    ensures l == SelectLines(old(df.cols), df.close, df.volume, lib, p)
    ensures df.cols == LineColumns(old(df.cols), l)
  {
    l := SelectLines(df.cols, df.close, df.volume, lib, p);
    df.Assign(VwmaSlow, Num(l.slow));
    df.Assign(VwmaSlowSlope, Num(l.slope));
    df.Assign(Rsi, Num(l.rsi));
    df.Assign(RsiDiffMin, Num(l.diff));
    df.Assign(RsiDiffMinThreshold, Num(l.threshold));
  }

  /** The signal half of `populate_entry_trend`. */
  method AddSignal(df: DataFrame, l: Lines, p: Params)
    requires df.Valid()
    requires |l.diff| == |df.close| && |l.threshold| == |df.close| && |l.slope| == |df.close|
    requires EnterLong in df.cols ==> df.cols[EnterLong].Num?
    modifies df
    ensures df.Valid()
    ensures df.cols == SignalColumns(old(df.cols), l, df.volume, p)
  {
    df.Assign(RsiDiffMinPrev, Num(Shift(l.diff, 1)));
    df.Assign(RsiDiffMinThresholdPrev, Num(Shift(l.threshold, 1)));
    var signal := BuySignal(l.diff, l.threshold);
    df.Assign(RsiPnrBuySignal, Flags(signal));
    var clean := FillNa(l.slope, 0.0);
    df.Assign(VwmaSlowSlopeClean, Num(Lift(clean)));
    var entry := LongCondition(signal, clean, p.minSlopeSlow, df.volume, p.useVwmaFilter);
    df.LocSetOne(entry, EnterLong);
  }

  /** `populate_entry_trend` */
  method PopulateEntryTrend(df: DataFrame, lib: Library, p: Params)
    requires df.Valid() && lib.Valid() && p.Valid() && BaseReady(df.cols, |df.close|)
    requires EnterLong in df.cols ==> df.cols[EnterLong].Num?
    modifies df
    ensures df.Valid()
    ensures df.cols == EntryColumns(old(df.cols), df.close, df.volume, lib, p)
  {
    var l := AddLines(df, lib, p);
    AddSignal(df, l, p);
  }

  /** An entry row has a buy signal, so it is neither the first row, nor the
      row after another entry, nor earlier than row lookback + window - 1, and
      its rsidiffMIN is positive. */
  lemma EntryFacts(rsi: Series, lookback: nat, window: nat, q: seq<real> -> real,
                   slopeClean: seq<real>, minSlope: real, volume: seq<real>, useFilter: bool, i: nat)
    requires QuantileBounded(q) && |slopeClean| == |rsi| && |volume| == |rsi| && i < |rsi|
    ensures var (diff, th) := CalculateRsiPnrBuy(rsi, lookback, window, q);
            var entry := LongCondition(BuySignal(diff, th), slopeClean, minSlope, volume, useFilter);
            entry[i] ==> && 1 <= i && !entry[i - 1]
                         && lookback + window <= i + 1
                         && 0.0 < diff[i].value
  {
    var pnr := CalculateRsiPnrBuy(rsi, lookback, window, q);
    var signal := BuySignal(pnr.0, pnr.1);
    var entry := LongCondition(signal, slopeClean, minSlope, volume, useFilter);
    if entry[i] {
      assert signal[i];
      BuySignalFacts(rsi, lookback, window, q, i);
      assert !signal[i - 1];
    }
  }

  /** What `enter_long` says after the entry hook: 1 exactly on the rows that
      meet the long condition, every other row as it was. */
  lemma EntryRows(cols: map<Name, Column>, close: seq<real>, volume: seq<real>,
                  lib: Library, p: Params, i: nat)
    requires |close| == |volume| && lib.Valid() && BaseReady(cols, |close|) && p.Valid()
    requires EnterLong in cols ==> cols[EnterLong].Num? && cols[EnterLong].Length() == |close|
    requires i < |close|
    ensures var l := SelectLines(cols, close, volume, lib, p);
            var entry := LongCondition(BuySignal(l.diff, l.threshold), FillNa(l.slope, 0.0),
                                       p.minSlopeSlow, volume, p.useVwmaFilter);
            var enterLong := EntryColumns(cols, close, volume, lib, p)[EnterLong].vals;
            && (entry[i] ==> enterLong[i] == Some(1.0))
            && (!entry[i] ==> enterLong[i] == Existing(cols, EnterLong, |close|)[i])
  {
  }

  /** At the default lookback and window and with the close as source, the
      entry hook's rsidiffMIN and threshold are exactly the base columns of
      `populate_indicators`. */
  lemma DefaultsReproduceBase(cols: map<Name, Column>, close: seq<real>, volume: seq<real>,
                              lib: Library, p: Params)
    requires |close| == |volume| && lib.Valid() && p.Valid()
    requires p.buyRsiLookback == LookbackDefault && p.buyRsiPercentileWindow == PercentileWindowDefault
    requires p.sourceType == "close"
    ensures var base := BaseColumns(cols, close, volume, lib);
            var l := SelectLines(base, close, volume, lib, p);
            l.diff == base[RsiDiffMinBase].vals && l.threshold == base[RsiDiffMinThresholdBase].vals
  {
    var base := BaseColumns(cols, close, volume, lib);
    var rsi := lib.rsi(GetRsiSource(close, volume, "close", lib), RsiPeriod);
    var buy := CalculateRsiPnrBuy(rsi, LookbackDefault, PercentileWindowDefault, lib.quantile99);
    assert base[RsiDiffMinBase] == Num(buy.0) && base[RsiDiffMinThresholdBase] == Num(buy.1);
    var l := SelectLines(base, close, volume, lib, p);
    assert l.rsi == rsi;
    assert (l.diff, l.threshold) == buy;
  }

  // ---- populate_exit_trend ----

  /** `populate_exit_trend`: exits come from the ROI table only, so the table
      is handed back as it came. */
  method PopulateExitTrend(df: DataFrame) returns (r: DataFrame)
    ensures r == df
  {
    r := df;
  }
}
