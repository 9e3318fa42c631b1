/** Climate unit conversions and the water-balance chain: reference
    evapotranspiration from temperature (`calculateET0`), crop
    evapotranspiration ETc = ET0·Kc, and balance = precipitation − ETc.

    The balance sets a cumulative precipitation total against an ET0 computed
    from a mean temperature; the formula is kept as the script writes it. */
module WaterBalance {
  import opened Raster
  import opened CropModels
  import opened RealFacts

  const KelvinOffset: real := 273.15
  const MillimetresPerMetre: real := 1000.0

  /** The constants of `0.0023 * 15 * (temp + 17.8) * sqrt(25)`. */
  const HargreavesCoefficient: real := 0.0023
  const RadiationTerm: real := 15.0
  const TemperatureOffset: real := 17.8
  /** The script's `sqrt(25)`, a constant. */
  const Sqrt25: real := 5.0

  /** ERA5 `temperature_2m` is in kelvin; `subtract(273.15)` gives °C. */
  function KelvinToCelsius(k: real): (c: real)
    ensures c + KelvinOffset == k
  {
    k - KelvinOffset
  }

  /** ERA5 `total_precipitation_sum` is in metres; `multiply(1000)` gives mm. */
  function MetresToMillimetres(m: real): (mm: real)
    ensures mm / MillimetresPerMetre == m
    ensures m >= 0.0 ==> mm >= m
    ensures mm == 0.0 <==> m == 0.0
  {
    m * MillimetresPerMetre
  }

  /** The temperature band: the conversion applied where ERA5 has data. */
  function TemperaturePixel(kelvin: Pixel): (c: Pixel)
    ensures c.Some? <==> kelvin.Some?
    ensures c.Some? ==> c.value + KelvinOffset == kelvin.value
  {
    match kelvin
    case None => None
    case Some(k) => Some(KelvinToCelsius(k))
  }

  /** The `era5_precip` band (computed by the script, not used further). */
  function Era5PrecipitationPixel(metres: Pixel): (mm: Pixel)
    ensures mm.Some? <==> metres.Some?
    ensures mm.Some? ==> mm.value / MillimetresPerMetre == metres.value
  {
    match metres
    case None => None
    case Some(m) => Some(MetresToMillimetres(m))
  }

  /** 5 is the one non-negative square root of 25, so the literal `sqrt(25)`
      is the constant 5. */
  lemma Sqrt25IsTheSquareRoot(r: real)
    requires r >= 0.0 && r * r == 25.0
    ensures r == Sqrt25
    ensures Sqrt25 * Sqrt25 == 25.0
  {
    assert (r - 5.0) * (r + 5.0) == r * r - 25.0 == 0.0;
    FactorSign(r - 5.0, r + 5.0);
  }

  /** Simplified Hargreaves reference evapotranspiration from °C. */
  function ReferenceEt(t: real): (et0: real)
    ensures et0 == 0.0 <==> t == -TemperatureOffset
    ensures et0 > 0.0 <==> t > -TemperatureOffset
  {
    HargreavesCoefficient * RadiationTerm * (t + TemperatureOffset) * Sqrt25
  }

  /** ET0 is affine in temperature: every degree adds the same amount,
      0.0023·15·5 = 0.1725 mm. */
  lemma ReferenceEtAffine(t1: real, t2: real)
    ensures ReferenceEt(t2) - ReferenceEt(t1) == 0.1725 * (t2 - t1)
  {
  }

  /** ET0 strictly increases with temperature. */
  lemma ReferenceEtIncreasing(t1: real, t2: real)
    requires t1 < t2
    ensures ReferenceEt(t1) < ReferenceEt(t2)
  {
  }

  /** The temperature that produces a given ET0. */
  function TemperatureForEt(et0: real): real {
    et0 / 0.1725 - TemperatureOffset
  }

  /** `TemperatureForEt` inverts `ReferenceEt` in both directions. */
  lemma ReferenceEtRoundTrip(t: real, et0: real)
    ensures TemperatureForEt(ReferenceEt(t)) == t
    ensures ReferenceEt(TemperatureForEt(et0)) == et0
  {
  }

  /** At 20 °C, ET0 = 0.0023·15·37.8·5 = 6.5205. */
  lemma ReferenceEtAt20()
    ensures ReferenceEt(20.0) == 6.5205
  {
  }

  /** `calculateET0` on one pixel. */
  function ReferenceEtPixel(temperature: Pixel): (r: Pixel)
    ensures r.Some? <==> temperature.Some?
    ensures r.Some? ==> TemperatureForEt(r.value) == temperature.value
  {
    match temperature
    case None => None
    case Some(t) =>
      ReferenceEtRoundTrip(t, 0.0);
      Some(ReferenceEt(t))
  }

  /** ETc = ET0·Kc. With a non-negative ET0 and a coefficient in [0.2, 1.2],
      ETc lies between 0.2·ET0 and 1.2·ET0. */
  function CropEt(et0: real, kc: real): (etc: real)
    ensures et0 >= 0.0 && KcMin <= kc <= KcMax ==> KcMin * et0 <= etc <= KcMax * et0
  {
    et0 * kc
  }

  /** precipitation − ETc: adding ETc back gives the precipitation. */
  function Balance(precipitation: real, etc: real): (wb: real)
    ensures wb + etc == precipitation
  {
    precipitation - etc
  }

  /** The `water_balance` band: cumulative precipitation minus ET0·Kc, where
      precipitation, temperature and NDVI all have data. */
  function WaterBalancePixel(precipitation: Pixel, temperature: Pixel, ndvi: Pixel): (wb: Pixel)
    ensures wb.Some? <==> precipitation.Some? && temperature.Some? && ndvi.Some?
    ensures wb.Some? ==> wb.value + ReferenceEt(temperature.value) * CropCoefficient(ndvi.value)
                         == precipitation.value
  {
    match (precipitation, ReferenceEtPixel(temperature), CropCoefficientPixel(ndvi))
    case (Some(p), Some(et0), Some(kc)) => Some(Balance(p, CropEt(et0, kc)))
    case _ => None
  }

  /** Warmer is drier: with precipitation and NDVI fixed, a higher
      temperature gives a strictly lower balance. */
  lemma BalanceFallsWithTemperature(p: real, t1: real, t2: real, ndvi: real)
    requires t1 < t2
    ensures WaterBalancePixel(Some(p), Some(t2), Some(ndvi)).value
            < WaterBalancePixel(Some(p), Some(t1), Some(ndvi)).value
  {
    var kc := CropCoefficient(ndvi);
    var rise := ReferenceEt(t2) - ReferenceEt(t1);
    ReferenceEtIncreasing(t1, t2);
    PositiveProduct(rise, kc);
    assert rise * kc == ReferenceEt(t2) * kc - ReferenceEt(t1) * kc;
    assert WaterBalancePixel(Some(p), Some(t1), Some(ndvi)).value + ReferenceEt(t1) * kc == p;
    assert WaterBalancePixel(Some(p), Some(t2), Some(ndvi)).value + ReferenceEt(t2) * kc == p;
  }

  /** Greener is thirstier: where ET0 is non-negative, a higher NDVI never
      raises the balance. */
  lemma BalanceFallsWithNdvi(p: real, t: real, ndvi1: real, ndvi2: real)
    requires ndvi1 <= ndvi2
    requires t >= -TemperatureOffset
    ensures WaterBalancePixel(Some(p), Some(t), Some(ndvi2)).value
            <= WaterBalancePixel(Some(p), Some(t), Some(ndvi1)).value
  {
    CropCoefficientMonotone(ndvi1, ndvi2);
    var et0 := ReferenceEt(t);
    var rise := CropCoefficient(ndvi2) - CropCoefficient(ndvi1);
    assert et0 * CropCoefficient(ndvi2) - et0 * CropCoefficient(ndvi1) == et0 * rise;
    if et0 > 0.0 && rise > 0.0 {
      PositiveProduct(et0, rise);
    }
    assert et0 * rise >= 0.0;
    assert WaterBalancePixel(Some(p), Some(t), Some(ndvi1)).value + et0 * CropCoefficient(ndvi1) == p;
    assert WaterBalancePixel(Some(p), Some(t), Some(ndvi2)).value + et0 * CropCoefficient(ndvi2) == p;
  }
}
