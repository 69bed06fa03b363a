/** The candle table (a pandas DataFrame) that the strategy hooks receive and
    extend in place.  The candle columns never change; the hooks add or
    overwrite derived columns. */
module Table {
  import opened Series

  /** The derived columns the two strategies write.  The `*4h` columns are the
      regime columns merged from the 4h table (`obv_4h`, `obv_ma_4h`, `rsi_4h`,
      `bull_regime_4h`). */
  datatype Name =
    | VwmaFastBase | VwmaMediumBase | VwmaSlowBase | VwmaSlowSlopeBase
    | Obv | ObvMa | Rsi | BullRegime
    | Obv4h | ObvMa4h | Rsi4h | BullRegime4h
    | VwmaFast | VwmaMedium | VwmaSlow | VwmaSlowSlope
    | VwmaFastPrev | VwmaMediumPrev
    | VwmaCrossover | VwmaCrossunder | VwmaCrossoverPlot | VwmaCrossunderPlot
    | VwmaSlowSlopeClean
    | RsiBase | RsiDiffMinBase | RsiDiffMinThresholdBase | RsiDiffMaxBase | RsiDiffMaxThresholdBase
    | RsiDiffMin | RsiDiffMinThreshold | RsiDiffMinPrev | RsiDiffMinThresholdPrev
    | RsiPnrBuySignal
    | EnterLong | ExitLong

  /** A float column (NaN allowed) or a boolean column. */
  datatype Column = Num(vals: Series) | Flags(bits: seq<bool>)
  {
    function Length(): nat
    {
      match this
      case Num(v) => |v|
      case Flags(b) => |b|
    }
  }

  /** The values a `.loc[..., n] = 1` starts from: the column if it is there,
      all NaN if pandas has to create it. */
  function Existing(cols: map<Name, Column>, n: Name, rows: nat): (r: Series)
    requires n in cols ==> cols[n].Num? && cols[n].Length() == rows
    ensures |r| == rows
  {
    if n in cols then cols[n].vals else AllNaN(rows)
  }

  class DataFrame {
    const close: seq<real>
    const volume: seq<real>
    var cols: map<Name, Column>

    /** Every column has one entry per candle. */
    ghost predicate Valid()
      reads this
    {
      && |volume| == |close|
      && forall n :: n in cols ==> cols[n].Length() == |close|
    }

    constructor (close: seq<real>, volume: seq<real>)
      requires |close| == |volume|
      ensures Valid()
      ensures this.close == close && this.volume == volume && cols == map[]
    {
      this.close := close;
      this.volume := volume;
      cols := map[];
    }

    /** `dataframe[n] = c` */
    method Assign(n: Name, c: Column)
      requires Valid() && c.Length() == |close|
      modifies this
      ensures Valid()
      ensures cols == old(cols)[n := c]
    {
      cols := cols[n := c];
    }

    /** `dataframe.loc[cond, n] = 1`: the rows meeting `cond` become 1, every
        other row keeps its value (NaN in a column created here). */
    method LocSetOne(cond: seq<bool>, n: Name)
      requires Valid() && |cond| == |close|
      requires n in cols ==> cols[n].Num?
      modifies this
      ensures Valid()
      ensures cols == old(cols)[n := Num(MarkWhere(cond, Existing(old(cols), n, |close|)))]
    {
      var before := Existing(cols, n, |close|);
      cols := cols[n := Num(MarkWhere(cond, before))];
    }
  }
}
