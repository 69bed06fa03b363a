/** The RSI percentile-nearest-rank components of the RSI PNR strategy:
    the distance of the RSI below its rolling maximum (`rsidiffMIN`), above its
    rolling minimum (`rsidiffMAX`), and a rolling 99th percentile of each. */
module RsiPnr {
  import opened Series

  /** `xs.rolling(window=w).max()` */
  function RollingMax(xs: Series, w: nat): (r: Series)
    ensures |r| == |xs|
    ensures forall i :: 0 <= i < |xs| ==> (r[i].Some? <==> FullWindow(xs, i, w))
  {
    seq(|xs|, i requires 0 <= i < |xs| =>
      if FullWindow(xs, i, w) then Some(SeqMax(Window(xs, i, w))) else None)
  }

  /** `xs.rolling(window=w).min()` */
  function RollingMin(xs: Series, w: nat): (r: Series)
    ensures |r| == |xs|
    ensures forall i :: 0 <= i < |xs| ==> (r[i].Some? <==> FullWindow(xs, i, w))
  {
    seq(|xs|, i requires 0 <= i < |xs| =>
      if FullWindow(xs, i, w) then Some(SeqMin(Window(xs, i, w))) else None)
  }

  /** `rsidiffMIN = rsi.rolling(lookback).max() - rsi`: defined exactly where the
      lookback window is complete, so never in the first lookback - 1 rows. */
  function RsiDiffMin(rsi: Series, lookback: nat): (r: Series)
    ensures |r| == |rsi|
    ensures forall i :: 0 <= i < |rsi| ==> (r[i].Some? <==> FullWindow(rsi, i, lookback))
    ensures forall i :: 0 <= i < |rsi| && i + 1 < lookback ==> r[i] == None
  {
    var hi := RollingMax(rsi, lookback);
    seq(|rsi|, i requires 0 <= i < |rsi| => Sub(hi[i], rsi[i]))
  }

  /** `rsidiffMAX = rsi - rsi.rolling(lookback).min()` */
  function RsiDiffMax(rsi: Series, lookback: nat): (r: Series)
    ensures |r| == |rsi|
    ensures forall i :: 0 <= i < |rsi| ==> (r[i].Some? <==> FullWindow(rsi, i, lookback))
    ensures forall i :: 0 <= i < |rsi| && i + 1 < lookback ==> r[i] == None
  {
    var lo := RollingMin(rsi, lookback);
    seq(|rsi|, i requires 0 <= i < |rsi| => Sub(rsi[i], lo[i]))
  }

  lemma WindowLast(xs: Series, i: nat, w: nat)
    requires FullWindow(xs, i, w)
    ensures Window(xs, i, w)[w - 1] == xs[i].value
  {
  }

  /** Where defined, both distances are non-negative and together span the
      window: rsidiffMIN + rsidiffMAX = max - min of the lookback window. */
  lemma RsiDiffsSpanWindow(rsi: Series, lookback: nat, i: nat)
    requires i < |rsi| && FullWindow(rsi, i, lookback)
    ensures 0.0 <= RsiDiffMin(rsi, lookback)[i].value
    ensures 0.0 <= RsiDiffMax(rsi, lookback)[i].value
    ensures RsiDiffMin(rsi, lookback)[i].value + RsiDiffMax(rsi, lookback)[i].value
              == SeqMax(Window(rsi, i, lookback)) - SeqMin(Window(rsi, i, lookback))
  {
    var win := Window(rsi, i, lookback);
    WindowLast(rsi, i, lookback);
    assert win[lookback - 1] <= SeqMax(win);
    assert SeqMin(win) <= win[lookback - 1];
    assert RsiDiffMin(rsi, lookback)[i].value == SeqMax(win) - rsi[i].value;
    assert RsiDiffMax(rsi, lookback)[i].value == rsi[i].value - SeqMin(win);
  }

  /** What the model knows of pandas' interpolated 0.99-quantile of a full
      window: it lies between the window's smallest and largest value. */
  ghost predicate QuantileBounded(q: seq<real> -> real)
  {
    forall w :: |w| > 0 ==> SeqMin(w) <= q(w) <= SeqMax(w)
  }

  /** `xs.rolling(window=w).quantile(0.99)`, the quantile of a window given as `q`. */
  function RollingQuantile(xs: Series, w: nat, q: seq<real> -> real): (r: Series)
    ensures |r| == |xs|
    ensures forall i :: 0 <= i < |xs| ==> (r[i].Some? <==> FullWindow(xs, i, w))
  {
    seq(|xs|, i requires 0 <= i < |xs| =>
      if FullWindow(xs, i, w) then Some(q(Window(xs, i, w))) else None)
  }

  /** A defined threshold lies between the smallest and largest value of its
      window. */
  lemma ThresholdWithinWindow(xs: Series, w: nat, q: seq<real> -> real, i: nat)
    requires QuantileBounded(q)
    requires i < |xs| && RollingQuantile(xs, w, q)[i].Some?
    ensures SeqMin(Window(xs, i, w)) <= RollingQuantile(xs, w, q)[i].value <= SeqMax(Window(xs, i, w))
  {
    assert RollingQuantile(xs, w, q)[i].value == q(Window(xs, i, w));
  }

  /** `calculate_rsi_pnr_buy(rsi, lookback, percentile_window)` */
  function CalculateRsiPnrBuy(rsi: Series, lookback: nat, window: nat, q: seq<real> -> real)
    : (r: (Series, Series))
    ensures |r.0| == |rsi| && |r.1| == |rsi|
    ensures forall i :: 0 <= i < |rsi| ==> (r.1[i].Some? <==> FullWindow(r.0, i, window))
  {
    var diff := RsiDiffMin(rsi, lookback);
    (diff, RollingQuantile(diff, window, q))
  }

  /** `calculate_rsi_pnr_sell(rsi, lookback, percentile_window)` */
  function CalculateRsiPnrSell(rsi: Series, lookback: nat, window: nat, q: seq<real> -> real)
    : (r: (Series, Series))
    ensures |r.0| == |rsi| && |r.1| == |rsi|
    ensures forall i :: 0 <= i < |rsi| ==> (r.1[i].Some? <==> FullWindow(r.0, i, window))
  {
    var diff := RsiDiffMax(rsi, lookback);
    (diff, RollingQuantile(diff, window, q))
  }

  /** A defined rsidiffMIN or rsidiffMAX is >= 0 on every row. */
  lemma DiffsNonNegative(rsi: Series, lookback: nat)
    ensures forall j :: 0 <= j < |rsi| && RsiDiffMin(rsi, lookback)[j].Some? ==>
              0.0 <= RsiDiffMin(rsi, lookback)[j].value
    ensures forall j :: 0 <= j < |rsi| && RsiDiffMax(rsi, lookback)[j].Some? ==>
              0.0 <= RsiDiffMax(rsi, lookback)[j].value
  {
    forall j | 0 <= j < |rsi| && FullWindow(rsi, j, lookback)
      ensures 0.0 <= RsiDiffMin(rsi, lookback)[j].value && 0.0 <= RsiDiffMax(rsi, lookback)[j].value
    {
      RsiDiffsSpanWindow(rsi, lookback, j);
    }
  }

  /** A complete window of a series that is never negative has a minimum >= 0. */
  lemma WindowNonNegative(xs: Series, i: nat, w: nat)
    requires FullWindow(xs, i, w)
    requires forall j :: 0 <= j < |xs| && xs[j].Some? ==> 0.0 <= xs[j].value
    ensures 0.0 <= SeqMin(Window(xs, i, w))
  {
    var win := Window(xs, i, w);
    assert forall k :: 0 <= k < w ==> 0.0 <= win[k];
  }

  /** The buy threshold is never negative, and it stays undefined until both
      windows have filled: for the first lookback + window - 2 rows. */
  lemma BuyThresholdBounds(rsi: Series, lookback: nat, window: nat, q: seq<real> -> real, i: nat)
    requires QuantileBounded(q) && i < |rsi|
    ensures i + 2 < lookback + window ==> CalculateRsiPnrBuy(rsi, lookback, window, q).1[i] == None
    ensures CalculateRsiPnrBuy(rsi, lookback, window, q).1[i].Some? ==>
              0.0 <= CalculateRsiPnrBuy(rsi, lookback, window, q).1[i].value
  {
    var diff := RsiDiffMin(rsi, lookback);
    var th := RollingQuantile(diff, window, q);
    if th[i].Some? {
      assert FullWindow(diff, i, window);
      assert diff[i + 1 - window].Some?;
      assert FullWindow(rsi, i + 1 - window, lookback);
      DiffsNonNegative(rsi, lookback);
      WindowNonNegative(diff, i, window);
      ThresholdWithinWindow(diff, window, q, i);
    }
  }

  /** The sell threshold, likewise, is never negative where defined. */
  lemma SellThresholdNonNegative(rsi: Series, lookback: nat, window: nat, q: seq<real> -> real, i: nat)
    requires QuantileBounded(q) && i < |rsi|
    requires CalculateRsiPnrSell(rsi, lookback, window, q).1[i].Some?
    ensures 0.0 <= CalculateRsiPnrSell(rsi, lookback, window, q).1[i].value
  {
    var diff := RsiDiffMax(rsi, lookback);
    assert FullWindow(diff, i, window);
    DiffsNonNegative(rsi, lookback);
    WindowNonNegative(diff, i, window);
    ThresholdWithinWindow(diff, window, q, i);
  }
}
