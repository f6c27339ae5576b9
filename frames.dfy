/** The last two bars of an indicator-augmented price frame, as the scan reads them.

    Indicator values are inputs here: the library that computes them is not part of
    this model. A cell of the frame is a float that may be NaN; a column that the scan
    finds by name prefix may be missing from the frame altogether. */
module Frames {

  datatype Option<+T> = None | Some(value: T)

  /** One floating-point cell: a number, or NaN (warm-up rows, missing data). */
  datatype Value = NaN | Num(x: real)

  /** `a < b` with Python float semantics: every comparison with NaN is false. */
  predicate Lt(a: Value, b: Value) {
    a.Num? && b.Num? && a.x < b.x
  }

  /** `a > b` with Python float semantics. */
  predicate Gt(a: Value, b: Value) {
    Lt(b, a)
  }

  /** `a * k`; NaN stays NaN. */
  function Scale(a: Value, k: real): (r: Value)
    ensures r.Num? <==> a.Num?
    ensures a.Num? ==> r.x == a.x * k
  {
    if a.Num? then Num(a.x * k) else NaN
  }

  /** Columns the scan looks up by name prefix. Each one is either in the frame or not;
      a lookup of a missing one raises, which skips the whole check that needed it. */
  datatype Column =
    | MacdLine        // MACD_...
    | MacdSignalLine  // MACDs_...
    | AdxLine         // ADX_...
    | BandLower       // BBL_...
    | BandUpper       // BBU_...
    | StochK          // STOCHk_...
    | StochD          // STOCHd_...
    | EngulfingFlag   // CDL_ENGULFING
    | HammerFlag      // CDL_HAMMER

  /** One row of the frame. Columns the scan assigns itself (RSI, ATR, SMA_50, SMA_200,
      Volume_SMA, OBV) are always present; the prefixed ones are read only when the
      frame's column set holds them. `obvSma` is the 20-bar mean of OBV at this row. */
  datatype Bar = Bar(
    close: real,
    volume: Value,
    rsi: Value,
    atr: Value,
    sma50: Value,
    sma200: Value,
    volumeSma: Value,
    obv: Value,
    obvSma: Value,
    macd: Value,
    macdSignal: Value,
    adx: Value,
    bbLower: Value,
    bbUpper: Value,
    stochK: Value,
    stochD: Value,
    engulfing: Value,
    hammer: Value)

  /** A downloaded and indicator-augmented frame: its number of rows, the prefixed
      columns it holds, its last row (`son`) and the row before (`onceki`). */
  datatype Frame = Frame(length: nat, columns: set<Column>, last: Bar, prev: Bar)

  /** Series A crosses above series B on the last bar: strictly above now, strictly
      below on the previous bar. */
  predicate CrossedAbove(a: Value, b: Value, a0: Value, b0: Value) {
    Gt(a, b) && Lt(a0, b0)
  }
}
