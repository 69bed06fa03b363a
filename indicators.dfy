/** The indicator transforms that both strategy files define identically:
    the volume-weighted moving average, the slope (angle) of a series over a
    lag, and the shift-by-one crossing detectors. */
module Indicators {
  import opened Series

  /** VWMA at row `i`: sum(close * volume) / sum(volume) over the `period` rows
      ending at `i`; NaN before the window is full and when its volume sums to 0. */
  function VwmaAt(close: seq<real>, volume: seq<real>, period: nat, i: nat): Option<real>
    requires |close| == |volume| && 1 <= period && i < |close|
  {
    if i + 1 < period then None
    else
      var c, v := close[i + 1 - period .. i + 1], volume[i + 1 - period .. i + 1];
      if Sum(v) == 0.0 then None else Some(Dot(c, v) / Sum(v))
  }

  /** `vwma(dataframe, period)` */
  function Vwma(close: seq<real>, volume: seq<real>, period: nat): (r: Series)
    requires |close| == |volume| && 1 <= period
    ensures |r| == |close|
    ensures forall i :: 0 <= i < |r| && i < period - 1 ==> r[i] == None
    ensures forall i :: period - 1 <= i < |r| ==>
              (r[i].Some? <==> Sum(volume[i + 1 - period .. i + 1]) != 0.0)
    ensures forall i :: period - 1 <= i < |r| && r[i].Some? ==>
              r[i].value * Sum(volume[i + 1 - period .. i + 1])
                == Dot(close[i + 1 - period .. i + 1], volume[i + 1 - period .. i + 1])
  {
    seq(|close|, i requires 0 <= i < |close| => VwmaAt(close, volume, period, i))
  }

  /** With non-negative volumes, a defined VWMA is a weighted average of its
      window: it lies between the smallest and the largest close there. */
  lemma VwmaWithinWindow(close: seq<real>, volume: seq<real>, period: nat, i: nat)
    requires |close| == |volume| && 1 <= period && period - 1 <= i < |close|
    requires forall k :: i + 1 - period <= k <= i ==> 0.0 <= volume[k]
    requires Vwma(close, volume, period)[i].Some?
    ensures SeqMin(close[i + 1 - period .. i + 1])
              <= Vwma(close, volume, period)[i].value
              <= SeqMax(close[i + 1 - period .. i + 1])
  {
    var c, v := close[i + 1 - period .. i + 1], volume[i + 1 - period .. i + 1];
    assert Vwma(close, volume, period)[i] == VwmaAt(close, volume, period, i);
    WeightedMeanBounds(c, v);
  }

  /** A weighted mean with non-negative weights lies between the smallest and
      the largest value. */
  lemma WeightedMeanBounds(c: seq<real>, v: seq<real>)
    requires |c| == |v| && |c| > 0
    requires forall k :: 0 <= k < |v| ==> 0.0 <= v[k]
    requires Sum(v) != 0.0
    ensures SeqMin(c) <= Dot(c, v) / Sum(v) <= SeqMax(c)
  {
    SumNonNegative(v);
    MeanAtLeast(c, v, SeqMin(c));
    MeanAtMost(c, v, SeqMax(c));
  }

  lemma MeanAtLeast(c: seq<real>, v: seq<real>, lo: real)
    requires |c| == |v| && Sum(v) > 0.0
    requires forall k :: 0 <= k < |v| ==> 0.0 <= v[k]
    requires forall k :: 0 <= k < |c| ==> lo <= c[k]
    ensures lo <= Dot(c, v) / Sum(v)
  {
    DotLower(c, v, lo);
    assert lo * Sum(v) <= Dot(c, v);
    DivideLower(lo, Dot(c, v), Sum(v));
  }

  lemma MeanAtMost(c: seq<real>, v: seq<real>, hi: real)
    requires |c| == |v| && Sum(v) > 0.0
    requires forall k :: 0 <= k < |v| ==> 0.0 <= v[k]
    requires forall k :: 0 <= k < |c| ==> c[k] <= hi
    ensures Dot(c, v) / Sum(v) <= hi
  {
    DotUpper(c, v, hi);
    assert Dot(c, v) <= hi * Sum(v);
    DivideUpper(hi, Dot(c, v), Sum(v));
  }

  lemma DivideLower(lo: real, d: real, s: real)
    requires s > 0.0 && lo * s <= d
    ensures lo <= d / s
  {
    var q := d / s;
    assert q * s == d;
    if q < lo {
      assert (lo - q) * s > 0.0;
    }
  }

  lemma DivideUpper(hi: real, d: real, s: real)
    requires s > 0.0 && d <= hi * s
    ensures d / s <= hi
  {
    var q := d / s;
    assert q * s == d;
    if q > hi {
      assert (q - hi) * s > 0.0;
    }
  }

  lemma {:induction false} DotOfConstant(c: seq<real>, w: seq<real>, x: real)
    requires |c| == |w|
    requires forall k :: 0 <= k < |c| ==> c[k] == x
    ensures Dot(c, w) == x * Sum(w)
  {
    if c != [] {
      var n := |c| - 1;
      assert forall k :: 0 <= k < n ==> c[..n][k] == c[k];
      DotOfConstant(c[..n], w[..n], x);
      assert x * Sum(w) == x * Sum(w[..n]) + x * w[n];
    }
  }

  /** Over a window of equal closes the VWMA, where defined, is that close,
      whatever the volumes. */
  lemma VwmaOfFlatWindow(close: seq<real>, volume: seq<real>, period: nat, i: nat)
    requires |close| == |volume| && 1 <= period && period - 1 <= i < |close|
    requires forall k :: i + 1 - period <= k <= i ==> close[k] == close[i]
    requires Vwma(close, volume, period)[i].Some?
    ensures Vwma(close, volume, period)[i].value == close[i]
  {
    var c, v := close[i + 1 - period .. i + 1], volume[i + 1 - period .. i + 1];
    DotOfConstant(c, v, close[i]);
    var s := Sum(v);
    assert s != 0.0;
    assert (close[i] * s) / s == close[i];
  }

  /** The slope at row `i`: NaN unless both ends of the lag are defined. */
  function SlopeAt(cur: Option<real>, prev: Option<real>, lag: nat): (r: Option<real>)
    requires 1 <= lag
    ensures r.Some? <==> cur.Some? && prev.Some?
    ensures r.Some? ==> r.value * (lag as real) == cur.value - prev.value
  {
    var d := Sub(cur, prev);
    if d.Some? then
      var l := lag as real;
      assert (d.value / l) * l == d.value;
      Some(d.value / l)
    else None
  }

  /** The slope `(ma - ma.shift(lag)) / lag`. */
  function Slope(ma: Series, lag: nat): (r: Series)
    requires 1 <= lag
    ensures |r| == |ma|
    ensures forall i :: 0 <= i < |ma| ==>
              (r[i].Some? <==> lag <= i && ma[i].Some? && ma[i - lag].Some?)
    ensures forall i :: lag <= i < |ma| ==> r[i] == SlopeAt(ma[i], ma[i - lag], lag)
  {
    var prev := Shift(ma, lag);
    seq(|ma|, i requires 0 <= i < |ma| => SlopeAt(ma[i], prev[i], lag))
  }

  /** What the model knows of `arctan(x) * 180 / pi`: strictly increasing, zero
      at zero, and inside (-90, 90). */
  ghost predicate AngleLike(angle: real -> real)
  {
    && (forall x, y :: x < y ==> angle(x) < angle(y))
    && angle(0.0) == 0.0
    && (forall x :: -90.0 < angle(x) < 90.0)
  }

  /** `calculate_slope_angle(ma_series, slope_bars)`, with the angle conversion
      given as a parameter. */
  function SlopeAngle(ma: Series, lag: nat, angle: real -> real): (r: Series)
    requires 1 <= lag
    ensures |r| == |ma|
    ensures forall i :: 0 <= i < |ma| ==>
              (r[i].Some? <==> lag <= i && ma[i].Some? && ma[i - lag].Some?)
  {
    var s := Slope(ma, lag);
    seq(|ma|, i requires 0 <= i < |ma| => if s[i].Some? then Some(angle(s[i].value)) else None)
  }

  /** A defined slope angle is positive, zero or negative exactly as the series
      rose, stayed or fell over the lag, and always lies in (-90, 90). */
  lemma SlopeAngleSign(ma: Series, lag: nat, angle: real -> real, i: nat)
    requires 1 <= lag && AngleLike(angle)
    requires i < |ma| && SlopeAngle(ma, lag, angle)[i].Some?
    ensures -90.0 < SlopeAngle(ma, lag, angle)[i].value < 90.0
    ensures SlopeAngle(ma, lag, angle)[i].value > 0.0 <==> ma[i].value > ma[i - lag].value
    ensures SlopeAngle(ma, lag, angle)[i].value == 0.0 <==> ma[i].value == ma[i - lag].value
    ensures SlopeAngle(ma, lag, angle)[i].value < 0.0 <==> ma[i].value < ma[i - lag].value
  {
    var x := Slope(ma, lag)[i].value;
    var l := lag as real;
    assert x * l == ma[i].value - ma[i - lag].value;
    assert SlopeAngle(ma, lag, angle)[i].value == angle(x);
    if x > 0.0 {
      assert angle(0.0) < angle(x);
      assert x * l > 0.0;
    } else if x < 0.0 {
      assert angle(x) < angle(0.0);
      assert x * l < 0.0;
    } else {
      assert x * l == 0.0;
    }
  }

  /** Wherever the slope angle is NaN, `fillna(0)` turns the slope clause
      `slope_clean > min_slope_slow` into `0 > min_slope_slow`. */
  lemma WarmUpSlopeClause(ma: Series, lag: nat, angle: real -> real, minSlope: real, i: nat)
    requires 1 <= lag && i < |ma| && SlopeAngle(ma, lag, angle)[i].None?
    ensures FillNa(SlopeAngle(ma, lag, angle), 0.0)[i] > minSlope <==> minSlope < 0.0
  {
  }

  /** The slope angle of a VWMA is NaN for its first `period - 1 + lag` rows:
      the VWMA's own warm-up followed by the lag. */
  lemma VwmaSlopeWarmUp(close: seq<real>, volume: seq<real>, period: nat, lag: nat,
                        angle: real -> real, i: nat)
    requires |close| == |volume| && 1 <= period && 1 <= lag && i < |close|
    requires i + 1 < period + lag
    ensures SlopeAngle(Vwma(close, volume, period), lag, angle)[i].None?
  {
  }

  /** Bullish crossing: `a > b` now and `a.shift(1) <= b.shift(1)`. */
  function CrossAbove(a: Series, b: Series): (r: seq<bool>)
    requires |a| == |b|
    ensures |r| == |a|
    ensures forall i :: 0 <= i < |a| ==>
              (r[i] <==> 1 <= i && Gt(a[i], b[i]) && Le(a[i - 1], b[i - 1]))
    ensures |a| > 0 ==> !r[0]
    ensures forall i :: 1 <= i < |a| ==> !(r[i - 1] && r[i])
  {
    var ap, bp := Shift(a, 1), Shift(b, 1);
    seq(|a|, i requires 0 <= i < |a| => Gt(a[i], b[i]) && Le(ap[i], bp[i]))
  }

  /** Bearish crossing: `a < b` now and `a.shift(1) >= b.shift(1)`. */
  function CrossBelow(a: Series, b: Series): (r: seq<bool>)
    requires |a| == |b|
    ensures |r| == |a|
    ensures forall i :: 0 <= i < |a| ==>
              (r[i] <==> 1 <= i && Lt(a[i], b[i]) && Ge(a[i - 1], b[i - 1]))
    ensures |a| > 0 ==> !r[0]
    ensures forall i :: 1 <= i < |a| ==> !(r[i - 1] && r[i])
  {
    var ap, bp := Shift(a, 1), Shift(b, 1);
    seq(|a|, i requires 0 <= i < |a| => Lt(a[i], b[i]) && Ge(ap[i], bp[i]))
  }

  /** The two crossings of the same pair never fire on the same row. */
  lemma CrossingsExclusive(a: Series, b: Series, i: nat)
    requires |a| == |b| && i < |a|
    ensures !(CrossAbove(a, b)[i] && CrossBelow(a, b)[i])
  {
  }
}
