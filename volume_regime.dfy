/** The VWMA strategy with the OBV + RSI regime filter
    (`VWMAStrategyVolumeRegime`): fast/medium VWMA crossings on the 15m table,
    gated by the slope of the slow VWMA and by a bull regime computed on the
    4h table of the same pair. */
module VolumeRegime {
  import opened Series
  import opened Indicators
  import opened OnBalanceVolume
  import opened Table
  import opened Foreign
  import opened Hyperopt

  const FastDefault: nat := 20
  const MediumDefault: nat := 100

  /** The hyperopt parameters, as plain values. */
  datatype Params = Params(
    vwmaFast: nat, vwmaMedium: nat, vwmaSlow: nat, slopeBars: nat, minSlopeSlow: real,
    obvMaPeriod: nat, rsiPeriod: nat, rsiLowerBull: int, rsiUpperBull: int)
  {
    /** The declared ranges. */
    predicate Valid()
    {
      && 10 <= vwmaFast <= 30
      && 80 <= vwmaMedium <= 120
      && 280 <= vwmaSlow <= 320
      && 1 <= slopeBars <= 5
      && -5.0 <= minSlopeSlow <= 5.0 && TwoDecimals(minSlopeSlow)
      && 15 <= obvMaPeriod <= 30
      && 10 <= rsiPeriod <= 20
      && 45 <= rsiLowerBull <= 55
      && 65 <= rsiUpperBull <= 75
    }
  }

  /** The bull regime of the 4h table: OBV above its moving average and the RSI
      inside the band, both bounds included; false wherever an input is NaN. */
  function BullRegimeFlags(obv: Series, obvMa: Series, rsi: Series, lower: int, upper: int): (r: seq<bool>)
    requires |obvMa| == |obv| && |rsi| == |obv|
    ensures |r| == |obv|
    ensures forall i :: 0 <= i < |obv| ==>
              (r[i] <==> && obv[i].Some? && obvMa[i].Some? && rsi[i].Some?
                         && obvMa[i].value < obv[i].value
                         && lower as real <= rsi[i].value <= upper as real)
  {
    seq(|obv|, i requires 0 <= i < |obv| =>
      Gt(obv[i], obvMa[i]) && Ge(rsi[i], Some(lower as real)) && Le(rsi[i], Some(upper as real)))
  }

  /** A 4h column laid onto the 15m rows by `merge_informative_pair(..., ffill=True)`:
      15m row i holds the value of the 4h row `align[i]` (the latest 4h candle
      available at that time), NaN where there is none. */
  function Align(col: Series, align: seq<Option<nat>>): (r: Series)
    ensures |r| == |align|
    ensures forall i :: 0 <= i < |align| && (align[i].None? || align[i].value >= |col|) ==> r[i] == None
    ensures forall i :: 0 <= i < |align| && align[i].Some? && align[i].value < |col| ==>
              r[i] == col[align[i].value]
  {
    seq(|align|, i requires 0 <= i < |align| =>
      if align[i].Some? && align[i].value < |col| then col[align[i].value] else None)
  }

  /** `long_condition`: crossover, slope above the minimum, traded volume and,
      when the regime column exists, a bull regime. */
  function LongCondition(crossover: seq<bool>, slopeClean: seq<real>, minSlope: real,
                         volume: seq<real>, regime: Option<Series>): (r: seq<bool>)
    requires |slopeClean| == |crossover| && |volume| == |crossover|
    requires regime.Some? ==> |regime.value| == |crossover|
    ensures |r| == |crossover|
    ensures forall i :: 0 <= i < |crossover| ==>
              (r[i] <==> && crossover[i] && slopeClean[i] > minSlope && volume[i] > 0.0
                         && (regime.Some? ==> regime.value[i] == Some(1.0)))
  {
    seq(|crossover|, i requires 0 <= i < |crossover| =>
      && crossover[i]
      && slopeClean[i] > minSlope
      && (regime.Some? ==> regime.value[i].Some? && regime.value[i].value == 1.0)
      && volume[i] > 0.0)
  }

  /** The regime clause only removes entries: every entry with the regime column
      is also an entry of the fallback expression. */
  lemma RegimeOnlyFilters(crossover: seq<bool>, slopeClean: seq<real>, minSlope: real,
                          volume: seq<real>, regime: Series, i: nat)
    requires |slopeClean| == |crossover| && |volume| == |crossover| && |regime| == |crossover|
    requires i < |crossover|
    ensures LongCondition(crossover, slopeClean, minSlope, volume, Some(regime))[i] ==>
              LongCondition(crossover, slopeClean, minSlope, volume, None)[i]
  {
  }

  /** A 4h table whose bull flag is 0 on every candle never lets an entry
      through, whatever the VWMA crossings do. */
  lemma AllBearNeverEnters(bull: seq<bool>, align: seq<Option<nat>>,
                           crossover: seq<bool>, slopeClean: seq<real>, minSlope: real,
                           volume: seq<real>, i: nat)
    requires forall k :: 0 <= k < |bull| ==> !bull[k]
    requires |slopeClean| == |crossover| && |volume| == |crossover| && |align| == |crossover|
    requires i < |crossover|
    ensures !LongCondition(crossover, slopeClean, minSlope, volume, Some(Align(FlagsToNum(bull), align)))[i]
  {
    var merged := Align(FlagsToNum(bull), align);
    if align[i].Some? && align[i].value < |bull| {
      assert merged[i] == Some(0.0);
    } else {
      assert merged[i] == None;
    }
  }

  /** An entry needs a crossover, so the strategy never enters on the first
      candle nor on two consecutive candles. */
  lemma EntriesAreIsolated(fast: Series, medium: Series, slopeClean: seq<real>, minSlope: real,
                           volume: seq<real>, regime: Option<Series>, i: nat)
    requires |medium| == |fast| && |slopeClean| == |fast| && |volume| == |fast|
    requires regime.Some? ==> |regime.value| == |fast|
    requires i < |fast|
    ensures var entry := LongCondition(CrossAbove(fast, medium), slopeClean, minSlope, volume, regime);
            !entry[0] && (1 <= i ==> !(entry[i - 1] && entry[i]))
  {
  }

  // ---- populate_indicators ----

  /** The base columns `populate_indicators` adds to the 15m table. */
  ghost function BaseColumns(cols: map<Name, Column>, close: seq<real>, volume: seq<real>,
                             angle: real -> real): map<Name, Column>
    requires |close| == |volume|
  {
    var slow := Vwma(close, volume, SlowDefault);
    cols[VwmaFastBase := Num(Vwma(close, volume, FastDefault))]
        [VwmaMediumBase := Num(Vwma(close, volume, MediumDefault))]
        [VwmaSlowBase := Num(slow)]
        [VwmaSlowSlopeBase := Num(SlopeAngle(slow, SlopeBarsDefault, angle))]
  }

  /** The 4h table holds the four regime columns as float columns. */
  predicate HasRegime(coarse: map<Name, Column>)
  {
    && Obv in coarse && coarse[Obv].Num?
    && ObvMa in coarse && coarse[ObvMa].Num?
    && Rsi in coarse && coarse[Rsi].Num?
    && BullRegime in coarse && coarse[BullRegime].Num?
  }

  /** The regime columns computed on the 4h table. */
  ghost function RegimeColumns(cols: map<Name, Column>, close: seq<real>, volume: seq<real>,
                               lib: Library, p: Params): (r: map<Name, Column>)
    requires |close| == |volume| && lib.Valid()
    ensures HasRegime(r)
  {
    var obv := Lift(ObvSpec(close, volume));
    var obvMa := lib.sma(obv, p.obvMaPeriod);
    var rsi := lib.rsi(Lift(close), p.rsiPeriod);
    cols[Obv := Num(obv)]
        [ObvMa := Num(obvMa)]
        [Rsi := Num(rsi)]
        [BullRegime := Num(FlagsToNum(BullRegimeFlags(obv, obvMa, rsi, p.rsiLowerBull, p.rsiUpperBull)))]
  }

  /** The four regime columns merged onto the 15m table with their `_4h` names. */
  ghost function MergedColumns(cols: map<Name, Column>, coarse: map<Name, Column>,
                               align: seq<Option<nat>>): map<Name, Column>
    requires HasRegime(coarse)
  {
    cols[Obv4h := Num(Align(coarse[Obv].vals, align))]
        [ObvMa4h := Num(Align(coarse[ObvMa].vals, align))]
        [Rsi4h := Num(Align(coarse[Rsi].vals, align))]
        [BullRegime4h := Num(Align(coarse[BullRegime].vals, align))]
  }

  /** The 4h table of the same pair and its alignment onto the 15m rows, both
      supplied by the host's data provider. */
  datatype Informative = Informative(table: DataFrame, align: seq<Option<nat>>)

  /** The first half of `populate_indicators`: the base VWMAs and slope. */
  method AddBaseColumns(df: DataFrame, angle: real -> real)
    requires df.Valid()
    modifies df
    ensures df.Valid()
    ensures df.cols == BaseColumns(old(df.cols), df.close, df.volume, angle)
  {
    var close, volume := df.close, df.volume;
    var slow := Vwma(close, volume, SlowDefault);
    df.Assign(VwmaFastBase, Num(Vwma(close, volume, FastDefault)));
    df.Assign(VwmaMediumBase, Num(Vwma(close, volume, MediumDefault)));
    df.Assign(VwmaSlowBase, Num(slow));
    df.Assign(VwmaSlowSlopeBase, Num(SlopeAngle(slow, SlopeBarsDefault, angle)));
  }

  /** The regime half of `populate_indicators`, on the 4h table `info`. */
  method AddRegimeColumns(info: DataFrame, lib: Library, p: Params) returns (ok: bool)
    requires info.Valid() && lib.Valid() && p.Valid()
    modifies info
    ensures info.Valid()
    ensures ok <==> |info.close| > 0
    ensures !ok ==> info.cols == old(info.cols)
    ensures ok ==> info.cols == RegimeColumns(old(info.cols), info.close, info.volume, lib, p)
  {
    var r := CalculateObv(info.close, info.volume);
    if r.None? {
      return false;
    }
    var obv := Lift(r.value);
    info.Assign(Obv, Num(obv));
    var obvMa := lib.sma(obv, p.obvMaPeriod);
    info.Assign(ObvMa, Num(obvMa));
    var rsi := lib.rsi(Lift(info.close), p.rsiPeriod);
    info.Assign(Rsi, Num(rsi));
    var bull := FlagsToNum(BullRegimeFlags(obv, obvMa, rsi, p.rsiLowerBull, p.rsiUpperBull));
    info.Assign(BullRegime, Num(bull));
    return true;
  }

  /** `merge_informative_pair` restricted to the four regime columns. */
  method MergeRegime(df: DataFrame, coarse: map<Name, Column>, align: seq<Option<nat>>)
    requires df.Valid() && |align| == |df.close|
    requires HasRegime(coarse)
    modifies df
    ensures df.Valid()
    ensures df.cols == MergedColumns(old(df.cols), coarse, align)
  {
    df.Assign(Obv4h, Num(Align(coarse[Obv].vals, align)));
    df.Assign(ObvMa4h, Num(Align(coarse[ObvMa].vals, align)));
    df.Assign(Rsi4h, Num(Align(coarse[Rsi].vals, align)));
    df.Assign(BullRegime4h, Num(Align(coarse[BullRegime].vals, align)));
  }

  /** `populate_indicators`.  Without a data provider only the base columns are
      added.  With one, OBV, its moving average, the RSI and the bull regime are
      added to the 4h table and merged onto the 15m table.  An empty 4h table
      makes `calculate_obv` fail: `ok` is false and the 4h table is untouched. */
  method PopulateIndicators(df: DataFrame, informative: Option<Informative>, lib: Library, p: Params)
    returns (ok: bool)
    requires df.Valid() && lib.Valid() && p.Valid()
    requires informative.Some? ==>
               && informative.value.table != df
               && informative.value.table.Valid()
               && |informative.value.align| == |df.close|
    modifies df, if informative.Some? then {informative.value.table} else {}
    ensures df.Valid()
    ensures ok <==> !(informative.Some? && |informative.value.table.close| == 0)
    ensures informative.None? || !ok ==>
              df.cols == BaseColumns(old(df.cols), df.close, df.volume, lib.angle)
    ensures informative.Some? && !ok ==> informative.value.table.cols == old(informative.value.table.cols)
    ensures informative.Some? && ok ==>
              var info := informative.value.table;
              && info.Valid()
              && info.cols == RegimeColumns(old(info.cols), info.close, info.volume, lib, p)
              && df.cols == MergedColumns(BaseColumns(old(df.cols), df.close, df.volume, lib.angle),
                                          info.cols, informative.value.align)
  {
    if informative.None? {
      AddBaseColumns(df, lib.angle);
      return true;
    }
    var info, align := informative.value.table, informative.value.align;
    AddBaseColumns(df, lib.angle);
    ghost var base := df.cols;
    assert info.cols == old(info.cols);
    ok := AddRegimeColumns(info, lib, p);
    assert df.cols == base;
    if ok {
      MergeRegime(df, info.cols, align);
    }
  }

  // ---- populate_entry_trend ----

  /** The columns `populate_entry_trend` reads from `populate_indicators`. */
  predicate BaseReady(cols: map<Name, Column>, rows: nat)
  {
    && VwmaFastBase in cols && cols[VwmaFastBase].Num? && cols[VwmaFastBase].Length() == rows
    && VwmaMediumBase in cols && cols[VwmaMediumBase].Num? && cols[VwmaMediumBase].Length() == rows
    && VwmaSlowBase in cols && cols[VwmaSlowBase].Num? && cols[VwmaSlowBase].Length() == rows
    && VwmaSlowSlopeBase in cols && cols[VwmaSlowSlopeBase].Num? && cols[VwmaSlowSlopeBase].Length() == rows
  }

  /** The base columns hold what `populate_indicators` stores in them. */
  ghost predicate BaseAsBuilt(cols: map<Name, Column>, close: seq<real>, volume: seq<real>,
                              angle: real -> real)
    requires |close| == |volume|
  {
    var base := BaseColumns(map[], close, volume, angle);
    && VwmaFastBase in cols && cols[VwmaFastBase] == base[VwmaFastBase]
    && VwmaMediumBase in cols && cols[VwmaMediumBase] == base[VwmaMediumBase]
    && VwmaSlowBase in cols && cols[VwmaSlowBase] == base[VwmaSlowBase]
    && VwmaSlowSlopeBase in cols && cols[VwmaSlowSlopeBase] == base[VwmaSlowSlopeBase]
  }

  /** What `populate_indicators` stores, with or without the merged 4h
      columns, is what the entry hook expects of its base columns. */
  lemma IndicatorsMeetEntry(cols: map<Name, Column>, coarse: map<Name, Column>, align: seq<Option<nat>>,
                            close: seq<real>, volume: seq<real>, angle: real -> real)
    requires |close| == |volume| && HasRegime(coarse)
    ensures var base := BaseColumns(cols, close, volume, angle);
            && BaseReady(base, |close|) && BaseAsBuilt(base, close, volume, angle)
    ensures var merged := MergedColumns(BaseColumns(cols, close, volume, angle), coarse, align);
            && BaseReady(merged, |close|) && BaseAsBuilt(merged, close, volume, angle)
  {
  }

  /** The averages the entry rule works on: the fast, medium and slow VWMA and
      the slow VWMA's slope angle. */
  datatype Lines = Lines(fast: Series, medium: Series, slow: Series, slope: Series)

  /** The lines at the chosen parameters, each reused from its base column when
      its parameters are the defaults.  Over base columns as `populate_indicators`
      built them this is the same as recomputing every line. */
  function SelectLines(cols: map<Name, Column>, close: seq<real>, volume: seq<real>,
                       angle: real -> real, p: Params): (r: Lines)
    requires |close| == |volume| && BaseReady(cols, |close|) && p.Valid()
    ensures |r.fast| == |close| && |r.medium| == |close| && |r.slow| == |close| && |r.slope| == |close|
    ensures BaseAsBuilt(cols, close, volume, angle) ==>
              var slow := Vwma(close, volume, p.vwmaSlow);
              r == Lines(Vwma(close, volume, p.vwmaFast), Vwma(close, volume, p.vwmaMedium),
                         slow, SlopeAngle(slow, p.slopeBars, angle))
  {
    var (slow, slope) := SelectSlow(cols[VwmaSlowBase].vals, cols[VwmaSlowSlopeBase].vals,
                                    close, volume, p.vwmaSlow, p.slopeBars, angle);
    Lines(SelectVwma(cols[VwmaFastBase].vals, close, volume, FastDefault, p.vwmaFast),
          SelectVwma(cols[VwmaMediumBase].vals, close, volume, MediumDefault, p.vwmaMedium),
          slow, slope)
  }

  /** The regime column, when `populate_indicators` merged one. */
  function RegimeColumn(cols: map<Name, Column>): Option<Series>
  {
    if BullRegime4h in cols && cols[BullRegime4h].Num? then Some(cols[BullRegime4h].vals) else None
  }

  /** The columns `populate_entry_trend` writes, `enter_long` included. */
  ghost function EntryColumns(cols: map<Name, Column>, close: seq<real>, volume: seq<real>,
                              angle: real -> real, p: Params): map<Name, Column>
    requires |close| == |volume| && BaseReady(cols, |close|) && p.Valid()
    requires BullRegime4h in cols ==> cols[BullRegime4h].Num? && cols[BullRegime4h].Length() == |close|
    requires EnterLong in cols ==> cols[EnterLong].Num? && cols[EnterLong].Length() == |close|
  {
    var l := SelectLines(cols, close, volume, angle, p);
    var cross, under := CrossAbove(l.fast, l.medium), CrossBelow(l.fast, l.medium);
    var clean := FillNa(l.slope, 0.0);
    var entry := LongCondition(cross, clean, p.minSlopeSlow, volume, RegimeColumn(cols));
    cols[VwmaFast := Num(l.fast)]
        [VwmaMedium := Num(l.medium)]
        [VwmaSlow := Num(l.slow)]
        [VwmaSlowSlope := Num(l.slope)]
        [VwmaFastPrev := Num(Shift(l.fast, 1))]
        [VwmaMediumPrev := Num(Shift(l.medium, 1))]
        [VwmaCrossover := Flags(cross)]
        [VwmaCrossunder := Flags(under)]
        [VwmaCrossoverPlot := Num(FlagsToNum(cross))]
        [VwmaCrossunderPlot := Num(FlagsToNum(under))]
        [VwmaSlowSlopeClean := Num(Lift(clean))]
        [EnterLong := Num(MarkWhere(entry, Existing(cols, EnterLong, |close|)))]
  }

  /** `populate_entry_trend` */
  method PopulateEntryTrend(df: DataFrame, angle: real -> real, p: Params)
    requires df.Valid() && p.Valid() && BaseReady(df.cols, |df.close|)
    requires BullRegime4h in df.cols ==> df.cols[BullRegime4h].Num?
    requires EnterLong in df.cols ==> df.cols[EnterLong].Num?
    modifies df
    ensures df.Valid()
    ensures df.cols == EntryColumns(old(df.cols), df.close, df.volume, angle, p)
  {
    var close, volume := df.close, df.volume;
    var l := SelectLines(df.cols, close, volume, angle, p);
    var regime := RegimeColumn(df.cols);
    df.Assign(VwmaFast, Num(l.fast));
    df.Assign(VwmaMedium, Num(l.medium));
    df.Assign(VwmaSlow, Num(l.slow));
    df.Assign(VwmaSlowSlope, Num(l.slope));
    df.Assign(VwmaFastPrev, Num(Shift(l.fast, 1)));
    df.Assign(VwmaMediumPrev, Num(Shift(l.medium, 1)));
    var cross := CrossAbove(l.fast, l.medium);
    df.Assign(VwmaCrossover, Flags(cross));
    var under := CrossBelow(l.fast, l.medium);
    df.Assign(VwmaCrossunder, Flags(under));
    df.Assign(VwmaCrossoverPlot, Num(FlagsToNum(cross)));
    df.Assign(VwmaCrossunderPlot, Num(FlagsToNum(under)));
    var clean := FillNa(l.slope, 0.0);
    df.Assign(VwmaSlowSlopeClean, Num(Lift(clean)));
    var entry := LongCondition(cross, clean, p.minSlopeSlow, volume, regime);
    df.LocSetOne(entry, EnterLong);
  }

  /** What `enter_long` says after the entry hook: 1 exactly on the rows that
      meet the long condition at the recomputed lines, every other row as it
      was; with base columns as built, the lines are those at the chosen
      parameters. */
  lemma EntryMarksExactlyTheCondition(cols: map<Name, Column>, close: seq<real>, volume: seq<real>,
                                      angle: real -> real, p: Params, i: nat)
    requires |close| == |volume| && BaseReady(cols, |close|) && p.Valid()
    requires BullRegime4h in cols ==> cols[BullRegime4h].Num? && cols[BullRegime4h].Length() == |close|
    requires EnterLong in cols ==> cols[EnterLong].Num? && cols[EnterLong].Length() == |close|
    requires BaseAsBuilt(cols, close, volume, angle)
    requires i < |close|
    ensures var slow := Vwma(close, volume, p.vwmaSlow);
            var cross := CrossAbove(Vwma(close, volume, p.vwmaFast), Vwma(close, volume, p.vwmaMedium));
            var clean := FillNa(SlopeAngle(slow, p.slopeBars, angle), 0.0);
            var entry := EntryColumns(cols, close, volume, angle, p)[EnterLong].vals;
            && (LongCondition(cross, clean, p.minSlopeSlow, volume, RegimeColumn(cols))[i] ==> entry[i] == Some(1.0))
            && (!LongCondition(cross, clean, p.minSlopeSlow, volume, RegimeColumn(cols))[i] ==>
                  entry[i] == Existing(cols, EnterLong, |close|)[i])
  {
  }

  // ---- populate_exit_trend ----

  /** `populate_exit_trend`: `exit_long` becomes 1 on every crossunder row; the
      table is left as it is when there is no crossunder column. */
  method PopulateExitTrend(df: DataFrame)
    requires df.Valid()
    requires VwmaCrossunder in df.cols ==> df.cols[VwmaCrossunder].Flags?
    requires ExitLong in df.cols ==> df.cols[ExitLong].Num?
    modifies df
    ensures df.Valid()
    ensures VwmaCrossunder !in old(df.cols) ==> df.cols == old(df.cols)
    ensures VwmaCrossunder in old(df.cols) ==>
              df.cols == old(df.cols)[ExitLong := Num(MarkWhere(old(df.cols)[VwmaCrossunder].bits,
                                                                Existing(old(df.cols), ExitLong, |df.close|)))]
  {
    if VwmaCrossunder in df.cols {
      df.LocSetOne(df.cols[VwmaCrossunder].bits, ExitLong);
    }
  }
}
