/** On-Balance Volume, `calculate_obv`: a running total that adds the
    candle's volume when the close rose, subtracts it when the close fell and
    keeps it when the close was flat. */
module OnBalanceVolume {
  import opened Series

  /** The signed volume that candle `i` (i >= 1) contributes. */
  function SignedVolume(close: seq<real>, volume: seq<real>, i: nat): real
    requires |close| == |volume| && 1 <= i < |close|
  {
    if close[i] > close[i - 1] then volume[i]
    else if close[i] < close[i - 1] then -volume[i]
    else 0.0
  }

  /** Every candle's contribution; the first candle has no predecessor and
      contributes nothing. */
  function SignedVolumes(close: seq<real>, volume: seq<real>): (r: seq<real>)
    requires |close| == |volume|
    ensures |r| == |close|
    ensures |close| > 0 ==> r[0] == 0.0
    ensures forall i :: 1 <= i < |close| ==> r[i] == SignedVolume(close, volume, i)
  {
    seq(|close|, i requires 0 <= i < |close| => if i == 0 then 0.0 else SignedVolume(close, volume, i))
  }

  /** The specification of OBV: row `i` holds the cumulative sum of the signed
      volumes of rows 0..i. */
  function ObvSpec(close: seq<real>, volume: seq<real>): (r: seq<real>)
    requires |close| == |volume|
    ensures |r| == |close|
  {
    var sv := SignedVolumes(close, volume);
    seq(|close|, i requires 0 <= i < |close| => Sum(sv[..i + 1]))
  }

  /** `calculate_obv(dataframe)`.  An empty table has no row 0 to start from;
      the source fails there (`obv.iloc[0] = 0` raises), and the model answers
      `None`. */
  method CalculateObv(close: seq<real>, volume: seq<real>) returns (r: Option<seq<real>>)
    requires |close| == |volume|
    ensures r.None? <==> |close| == 0
    ensures r.Some? ==> r.value == ObvSpec(close, volume)
  {
    if |close| == 0 {
      return None;
    }
    ghost var sv := SignedVolumes(close, volume);
    var obv := new real[|close|];
    obv[0] := 0.0;
    assert sv[..1] == [] + [sv[0]];
    var i := 1;
    while i < |close|
      invariant 1 <= i <= |close|
      invariant forall k :: 0 <= k < i ==> obv[k] == Sum(sv[..k + 1])
    {
      if close[i] > close[i - 1] {
        obv[i] := obv[i - 1] + volume[i];
      } else if close[i] < close[i - 1] {
        obv[i] := obv[i - 1] - volume[i];
      } else {
        obv[i] := obv[i - 1];
      }
      assert sv[..i + 1][..i] == sv[..i];
      i := i + 1;
    }
    r := Some(obv[..]);
  }

  /** The recurrence the source's loop follows holds of the specification:
      the first value is 0 and each later value adds, subtracts or keeps the
      candle's volume as the close rose, fell or stayed. */
  lemma ObvRecurrence(close: seq<real>, volume: seq<real>, i: nat)
    requires |close| == |volume| && i < |close|
    ensures i == 0 ==> ObvSpec(close, volume)[0] == 0.0
    ensures 1 <= i && close[i] > close[i - 1] ==>
              ObvSpec(close, volume)[i] == ObvSpec(close, volume)[i - 1] + volume[i]
    ensures 1 <= i && close[i] < close[i - 1] ==>
              ObvSpec(close, volume)[i] == ObvSpec(close, volume)[i - 1] - volume[i]
    ensures 1 <= i && close[i] == close[i - 1] ==>
              ObvSpec(close, volume)[i] == ObvSpec(close, volume)[i - 1]
  {
    var sv := SignedVolumes(close, volume);
    assert ObvSpec(close, volume)[i] == Sum(sv[..i + 1]);
    if i == 0 {
      assert sv[..1] == [] + [sv[0]];
    } else {
      assert ObvSpec(close, volume)[i - 1] == Sum(sv[..i]);
      assert sv[..i + 1][..i] == sv[..i];
    }
  }

  /** With non-decreasing closes and non-negative volumes, OBV never falls. */
  lemma {:induction false} ObvNonDecreasing(close: seq<real>, volume: seq<real>, i: nat, j: nat)
    requires |close| == |volume| && i <= j < |close|
    requires forall k :: 1 <= k < |close| ==> close[k - 1] <= close[k]
    requires forall k :: 0 <= k < |volume| ==> 0.0 <= volume[k]
    ensures ObvSpec(close, volume)[i] <= ObvSpec(close, volume)[j]
    decreases j - i
  {
    if i < j {
      ObvNonDecreasing(close, volume, i, j - 1);
      ObvRecurrence(close, volume, j);
    }
  }

  /** A table whose close never moves has OBV 0 throughout. */
  lemma {:induction false} ObvOfFlatCloses(close: seq<real>, volume: seq<real>, i: nat)
    requires |close| == |volume| && i < |close|
    requires forall k :: 0 <= k < |close| ==> close[k] == close[0]
    ensures ObvSpec(close, volume)[i] == 0.0
  {
    ObvRecurrence(close, volume, i);
    if i > 0 {
      ObvOfFlatCloses(close, volume, i - 1);
    }
  }
}
