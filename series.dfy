/** Column values as the two strategies see them in a pandas table.

    A float cell that pandas holds as NaN is `None`; every comparison that
    involves `None` is false, as comparisons with NaN are.  Arithmetic is on
    exact reals: IEEE rounding is not modelled. */
module Series {

  datatype Option<+T> = None | Some(value: T)

  /** A float column, index-aligned with the candle table. */
  type Series = seq<Option<real>>

  /** A column without NaN (the candle columns, `fillna` output). */
  function Lift(xs: seq<real>): (r: Series)
    ensures |r| == |xs|
    ensures forall i :: 0 <= i < |xs| ==> r[i] == Some(xs[i])
  {
    seq(|xs|, i requires 0 <= i < |xs| => Some(xs[i]))
  }

  /** `series.fillna(v)` */
  function FillNa(s: Series, v: real): (r: seq<real>)
    ensures |r| == |s|
    ensures forall i :: 0 <= i < |s| ==> r[i] == (if s[i].Some? then s[i].value else v)
  {
    seq(|s|, i requires 0 <= i < |s| => if s[i].Some? then s[i].value else v)
  }

  /** `series.shift(k)`: the value k rows earlier, NaN for the first k rows. */
  function Shift(s: Series, k: nat): (r: Series)
    ensures |r| == |s|
    ensures forall i :: 0 <= i < |s| ==> r[i] == (if i < k then None else s[i - k])
  {
    seq(|s|, i requires 0 <= i < |s| => if i < k then None else s[i - k])
  }

  /** A boolean column cast with `.astype(int)` and stored as numbers. */
  function FlagsToNum(bits: seq<bool>): (r: Series)
    ensures |r| == |bits|
    ensures forall i :: 0 <= i < |bits| ==> r[i] == Some(if bits[i] then 1.0 else 0.0)
  {
    seq(|bits|, i requires 0 <= i < |bits| => Some(if bits[i] then 1.0 else 0.0))
  }

  // Element-wise comparisons of pandas: false as soon as one side is NaN.

  predicate Gt(a: Option<real>, b: Option<real>) { a.Some? && b.Some? && a.value > b.value }
  predicate Lt(a: Option<real>, b: Option<real>) { a.Some? && b.Some? && a.value < b.value }
  predicate Ge(a: Option<real>, b: Option<real>) { a.Some? && b.Some? && a.value >= b.value }
  predicate Le(a: Option<real>, b: Option<real>) { a.Some? && b.Some? && a.value <= b.value }

  /** `a - b` element-wise: NaN when either side is NaN. */
  function Sub(a: Option<real>, b: Option<real>): (r: Option<real>)
    ensures r.Some? <==> a.Some? && b.Some?
  {
    if a.Some? && b.Some? then Some(a.value - b.value) else None
  }

  /** Sum of a finite run of reals. */
  function Sum(s: seq<real>): real
  {
    if s == [] then 0.0 else Sum(s[..|s| - 1]) + s[|s| - 1]
  }

  /** Sum of the products `c[k] * w[k]`. */
  function Dot(c: seq<real>, w: seq<real>): real
    requires |c| == |w|
  {
    if c == [] then 0.0 else Dot(c[..|c| - 1], w[..|w| - 1]) + c[|c| - 1] * w[|w| - 1]
  }

  /** The largest element: one of the elements, and no element exceeds it. */
  function SeqMax(s: seq<real>): (m: real)
    requires |s| > 0
    ensures exists k :: 0 <= k < |s| && s[k] == m
    ensures forall k :: 0 <= k < |s| ==> s[k] <= m
  {
    if |s| == 1 then s[0]
    else
      var m' := SeqMax(s[..|s| - 1]);
      assert forall k :: 0 <= k < |s| - 1 ==> s[..|s| - 1][k] == s[k];
      if s[|s| - 1] > m' then s[|s| - 1] else m'
  }

  /** The smallest element: one of the elements, and no element is below it. */
  function SeqMin(s: seq<real>): (m: real)
    requires |s| > 0
    ensures exists k :: 0 <= k < |s| && s[k] == m
    ensures forall k :: 0 <= k < |s| ==> m <= s[k]
  {
    if |s| == 1 then s[0]
    else
      var m' := SeqMin(s[..|s| - 1]);
      assert forall k :: 0 <= k < |s| - 1 ==> s[..|s| - 1][k] == s[k];
      if s[|s| - 1] < m' then s[|s| - 1] else m'
  }

  /** The window of `w` rows ending at row `i` is complete and holds no NaN:
      exactly when a pandas `rolling(window=w)` aggregate is defined at `i`
      (its default `min_periods` is the window length). */
  predicate FullWindow(xs: Series, i: int, w: nat)
  {
    && 1 <= w
    && w - 1 <= i < |xs|
    && forall k :: i - w < k <= i ==> xs[k].Some?
  }

  /** The values of a complete window, oldest first. */
  function Window(xs: Series, i: int, w: nat): (r: seq<real>)
    requires FullWindow(xs, i, w)
    ensures |r| == w
    ensures forall k :: 0 <= k < w ==> r[k] == xs[i - w + 1 + k].value
  {
    seq(w, k requires 0 <= k < w => xs[i - w + 1 + k].value)
  }

  /** `df.loc[cond, col] = 1`: rows meeting the condition become 1, the others keep
      what they held. */
  function MarkWhere(cond: seq<bool>, prev: Series): (r: Series)
    requires |cond| == |prev|
    ensures |r| == |cond|
    ensures forall i :: 0 <= i < |cond| && cond[i] ==> r[i] == Some(1.0)
    ensures forall i :: 0 <= i < |cond| && !cond[i] ==> r[i] == prev[i]
  {
    seq(|cond|, i requires 0 <= i < |cond| => if cond[i] then Some(1.0) else prev[i])
  }

  /** A column pandas creates with no value yet: all NaN. */
  function AllNaN(n: nat): (r: Series)
    ensures |r| == n
    ensures forall i :: 0 <= i < n ==> r[i] == None
  {
    seq(n, i => None)
  }

  // Facts about sums used by the indicator proofs.

  lemma MulMonotone(a: real, b: real, w: real)
    requires a <= b && 0.0 <= w
    ensures a * w <= b * w
  {
    assert (b - a) * w >= 0.0;
  }

  /** One step of the induction below, on plain numbers. */
  lemma DotStepLower(lo: real, s: real, d: real, s': real, d': real, x: real, y: real)
    requires s == s' + y && d == d' + x * y
    requires lo * s' <= d' && lo <= x && 0.0 <= y
    ensures lo * s <= d
  {
    MulMonotone(lo, x, y);
    assert lo * (s' + y) == lo * s' + lo * y;
  }

  lemma DotStepUpper(hi: real, s: real, d: real, s': real, d': real, x: real, y: real)
    requires s == s' + y && d == d' + x * y
    requires d' <= hi * s' && x <= hi && 0.0 <= y
    ensures d <= hi * s
  {
    MulMonotone(x, hi, y);
    assert hi * (s' + y) == hi * s' + hi * y;
  }

  lemma {:induction false} DotLower(c: seq<real>, w: seq<real>, lo: real)
    requires |c| == |w|
    requires forall k :: 0 <= k < |w| ==> 0.0 <= w[k]
    requires forall k :: 0 <= k < |c| ==> lo <= c[k]
    ensures lo * Sum(w) <= Dot(c, w)
  {
    if c != [] {
      var n := |c| - 1;
      var c', w' := c[..n], w[..n];
      DotLower(c', w', lo);
      DotStepLower(lo, Sum(w), Dot(c, w), Sum(w'), Dot(c', w'), c[n], w[n]);
    }
  }

  lemma {:induction false} DotUpper(c: seq<real>, w: seq<real>, hi: real)
    requires |c| == |w|
    requires forall k :: 0 <= k < |w| ==> 0.0 <= w[k]
    requires forall k :: 0 <= k < |c| ==> c[k] <= hi
    ensures Dot(c, w) <= hi * Sum(w)
  {
    if c != [] {
      var n := |c| - 1;
      var c', w' := c[..n], w[..n];
      DotUpper(c', w', hi);
      DotStepUpper(hi, Sum(w), Dot(c, w), Sum(w'), Dot(c', w'), c[n], w[n]);
    }
  }

  lemma {:induction false} SumNonNegative(w: seq<real>)
    requires forall k :: 0 <= k < |w| ==> 0.0 <= w[k]
    ensures 0.0 <= Sum(w)
  {
    if w != [] {
      var n := |w| - 1;
      assert forall k :: 0 <= k < n ==> w[..n][k] == w[k];
      SumNonNegative(w[..n]);
    }
  }
}
