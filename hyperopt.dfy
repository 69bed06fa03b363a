/** What both strategies share about their hyperopt parameters: the decimal
    grid of a `DecimalParameter(decimals=2)`, and the shortcut of
    `populate_entry_trend` that reuses a base column computed at the default
    period instead of recomputing it. */
module Hyperopt {
  import opened Series
  import opened Indicators

  /** A value on the grid of a `DecimalParameter(..., decimals=2)`. */
  predicate TwoDecimals(x: real)
  {
    (x * 100.0).Floor as real == x * 100.0
  }

  /** The slow VWMA and its slope angle are built at these in `populate_indicators`. */
  const SlowDefault: nat := 300
  const SlopeBarsDefault: nat := 3

  /** A VWMA column for `period`: recomputed when the period differs from the
      default its base column was built with, the base column otherwise.  When
      the base column is what `populate_indicators` stored, either branch gives
      the VWMA at `period`. */
  function SelectVwma(base: Series, close: seq<real>, volume: seq<real>, default: nat, period: nat)
    : (r: Series)
    requires |close| == |volume| && |base| == |close| && 1 <= default && 1 <= period
    ensures |r| == |close|
    ensures base == Vwma(close, volume, default) ==> r == Vwma(close, volume, period)
  {
    if period != default then Vwma(close, volume, period) else base
  }

  /** The slow VWMA and its slope angle: both recomputed when either the period
      or the slope lag differs from its default (300 and 3), both taken from the
      base columns otherwise.  With the base columns as stored, the pair is
      always the one computed at the chosen period and lag. */
  function SelectSlow(baseMa: Series, baseSlope: Series, close: seq<real>, volume: seq<real>,
                      period: nat, lag: nat, angle: real -> real): (r: (Series, Series))
    requires |close| == |volume| && |baseMa| == |close| && |baseSlope| == |close|
    requires 1 <= period && 1 <= lag
    ensures |r.0| == |close| && |r.1| == |close|
    ensures baseMa == Vwma(close, volume, SlowDefault)
              && baseSlope == SlopeAngle(baseMa, SlopeBarsDefault, angle) ==>
              r.0 == Vwma(close, volume, period) && r.1 == SlopeAngle(r.0, lag, angle)
  {
    if period != SlowDefault || lag != SlopeBarsDefault then
      var ma := Vwma(close, volume, period);
      (ma, SlopeAngle(ma, lag, angle))
    else
      (baseMa, baseSlope)
  }
}
