/** Stop-loss and the two targets of a result row. The stop lies `atr_mult` ATRs
    below the price (an unavailable ATR counts as 0); the risk is the distance from
    the price down to the stop, floored at 0; the targets lie two and three risks
    above the price. Rounding to two decimals is left out: the values are reals. */
module Risk {
  import opened Frames

  datatype Levels = Levels(stopLoss: real, risk: real, target1: real, target2: real)

  /** The ATR the scan works with: the last bar's ATR, or 0 when it is NaN. */
  function EffectiveAtr(atr: Value): (r: real)
    ensures atr.Num? ==> r == atr.x
    ensures atr.NaN? ==> r == 0.0
  {
    if atr.Num? then atr.x else 0.0
  }

  /** Python's `max(0, x)`. */
  function FloorAtZero(x: real): (r: real)
    ensures r >= 0.0 && r >= x
    ensures r == 0.0 || r == x
  {
    if x > 0.0 then x else 0.0
  }

  /** The levels of a row with price `fiyat`, last ATR `atr` and multiplier `atrMult`. */
  function RiskLevels(fiyat: real, atr: Value, atrMult: real): (r: Levels)
    ensures r.risk >= 0.0
    ensures fiyat <= r.target1 <= r.target2
    ensures r.target1 - fiyat == 2.0 * r.risk
    ensures r.target2 - fiyat == 3.0 * r.risk
    // The risk is the distance from the price down to the stop, or 0 if the stop is not below.
    ensures r.risk >= fiyat - r.stopLoss && (r.risk == 0.0 || r.risk == fiyat - r.stopLoss)
    // The stop lies atr * atrMult below the price.
    ensures atr.Num? ==> fiyat - r.stopLoss == atr.x * atrMult
    // Without an ATR the stop is the price itself and both targets collapse onto it.
    ensures atr.NaN? ==> r.stopLoss == fiyat && r.risk == 0.0 && r.target1 == fiyat && r.target2 == fiyat
  {
    var stop := fiyat - EffectiveAtr(atr) * atrMult;
    var risk := FloorAtZero(fiyat - stop);
    Levels(stop, risk, fiyat + risk * 2.0, fiyat + risk * 3.0)
  }

  /** With a non-negative ATR and multiplier the stop is at or below the price and
      the risk is exactly the price-to-stop distance. */
  lemma StopBelowPrice(fiyat: real, atr: Value, atrMult: real)
    requires atrMult >= 0.0
    requires atr.Num? ==> atr.x >= 0.0
    ensures var r := RiskLevels(fiyat, atr, atrMult);
      r.stopLoss <= fiyat && r.risk == fiyat - r.stopLoss
  {
    var r := RiskLevels(fiyat, atr, atrMult);
    if atr.Num? {
      assert fiyat - r.stopLoss == atr.x * atrMult;
      assert atr.x * atrMult >= 0.0;
    }
  }

  /** What the `max(0, ...)` guards against: a negative ATR product would put the stop
      above the price, and the risk then floors at 0 and both targets equal the price.
      The program itself never reaches this case, since the ATR is never negative and
      the multiplier setting ranges over 1.5 to 3.0. */
  lemma StopAbovePriceFloors(fiyat: real, atr: Value, atrMult: real)
    requires atr.Num? && atr.x * atrMult < 0.0
    ensures var r := RiskLevels(fiyat, atr, atrMult);
      r.stopLoss > fiyat && r.risk == 0.0 && r.target1 == fiyat && r.target2 == fiyat
  {
  }
}
