/** The numeric routines the strategies call but do not define: TA-Lib's
    `RSI`, `SMA` and `EMA`, pandas' interpolated rolling 0.99-quantile of a
    window, and numpy's `arctan(x) * 180 / pi`.  The model takes them as
    function values and knows only the properties `Valid` lists. */
module Foreign {
  import opened Series
  import Indicators
  import RsiPnr

  datatype Library = Library(
    rsi: (Series, nat) -> Series,      // ta.RSI(source, timeperiod)
    sma: (Series, nat) -> Series,      // ta.SMA(series, timeperiod)
    ema: (Series, nat) -> Series,      // ta.EMA(close, timeperiod)
    quantile99: seq<real> -> real,     // 0.99-quantile of one full window
    angle: real -> real)               // arctan(slope) in degrees
  {
    ghost predicate Valid()
    {
      && (forall s, n :: |rsi(s, n)| == |s|)
      && (forall s, n :: |sma(s, n)| == |s|)
      && (forall s, n :: |ema(s, n)| == |s|)
      && RsiPnr.QuantileBounded(quantile99)
      && Indicators.AngleLike(angle)
    }
  }
}
