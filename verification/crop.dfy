/** NDVI-driven crop models: the yield ramp (`estimateYield`) and the crop
    coefficient (`calculateKc`). Both clamp an affine function of NDVI. */
module CropModels {
  import opened Raster

  /** Maximum maize yield, kg/ha, reached at the NDVI threshold. */
  const MaxYield: real := 10000.0
  const NdviThreshold: real := 0.75

  const KcBase: real := 1.0
  const KcSlope: real := 0.2
  const KcMin: real := 0.2
  const KcMax: real := 1.2

  /** `clamp(max_yield * (ndvi / ndvi_threshold), 0, max_yield)`. */
  function YieldEstimate(ndvi: real): (y: real)
    ensures 0.0 <= y <= MaxYield
    ensures 0.0 <= ndvi <= NdviThreshold ==> y * NdviThreshold == MaxYield * ndvi
    ensures ndvi >= NdviThreshold ==> y == MaxYield
    ensures ndvi <= 0.0 ==> y == 0.0
  {
    Clamp(MaxYield * (ndvi / NdviThreshold), 0.0, MaxYield)
  }

  /** The yield estimate never decreases as NDVI grows. */
  lemma YieldMonotone(a: real, b: real)
    requires a <= b
    ensures YieldEstimate(a) <= YieldEstimate(b)
  {
  }

  /** On the ramp (0 ≤ NDVI ≤ 0.75) the yield strictly increases. */
  lemma YieldStrictOnRamp(a: real, b: real)
    requires 0.0 <= a < b <= NdviThreshold
    ensures YieldEstimate(a) < YieldEstimate(b)
  {
  }

  /** The NDVI at which the ramp reaches a given yield. */
  function NdviForYield(y: real): (ndvi: real)
    requires 0.0 <= y <= MaxYield
    ensures 0.0 <= ndvi <= NdviThreshold
  {
    y * NdviThreshold / MaxYield
  }

  /** Every yield in [0, 10000] is reached, at exactly one NDVI of the ramp:
      `NdviForYield` inverts `YieldEstimate` there. */
  lemma YieldRampRoundTrip(y: real, ndvi: real)
    requires 0.0 <= y <= MaxYield
    requires 0.0 <= ndvi <= NdviThreshold
    ensures YieldEstimate(NdviForYield(y)) == y
    ensures NdviForYield(YieldEstimate(ndvi)) == ndvi
  {
  }

  /** NDVI 0.5 gives two thirds of the maximum yield (6666.67 kg/ha). */
  lemma YieldAtHalfNdvi()
    ensures 3.0 * YieldEstimate(0.5) == 2.0 * MaxYield
  {
  }

  /** `estimateYield` on one pixel: masked NDVI stays masked. */
  function YieldPixel(ndvi: Pixel): (r: Pixel)
    ensures r.Some? <==> ndvi.Some?
    ensures r.Some? ==> 0.0 <= r.value <= MaxYield
    ensures r.Some? ==> r.value == YieldEstimate(ndvi.value)
  {
    match ndvi
    case None => None
    case Some(v) => Some(YieldEstimate(v))
  }

  /** `clamp(1.0 + 0.2 * ndvi, 0.2, 1.2)`. */
  function CropCoefficient(ndvi: real): (kc: real)
    ensures KcMin <= kc <= KcMax
    ensures -1.0 <= ndvi <= 1.0 ==> kc == KcBase + KcSlope * ndvi
    ensures ndvi >= 1.0 ==> kc == KcMax
    ensures ndvi <= -4.0 ==> kc == KcMin
  {
    Clamp(KcBase + KcSlope * ndvi, KcMin, KcMax)
  }

  /** Kc never decreases as NDVI grows. */
  lemma CropCoefficientMonotone(a: real, b: real)
    requires a <= b
    ensures CropCoefficient(a) <= CropCoefficient(b)
  {
  }

  /** The NDVI at which the unclamped line reaches a given coefficient. */
  function NdviForCoefficient(kc: real): real {
    (kc - KcBase) / KcSlope
  }

  /** Every coefficient in [0.2, 1.2] is reached by exactly the NDVI
      `NdviForCoefficient` gives, and every NDVI in the clamp-free range
      [−4, 1] is recovered from its coefficient. */
  lemma CropCoefficientRoundTrip(kc: real, ndvi: real)
    requires KcMin <= kc <= KcMax
    requires -4.0 <= ndvi <= 1.0
    ensures CropCoefficient(NdviForCoefficient(kc)) == kc
    ensures NdviForCoefficient(CropCoefficient(ndvi)) == ndvi
  {
  }

  /** `calculateKc` on one pixel. */
  function CropCoefficientPixel(ndvi: Pixel): (r: Pixel)
    ensures r.Some? <==> ndvi.Some?
    ensures r.Some? ==> KcMin <= r.value <= KcMax
    ensures r.Some? ==> r.value == CropCoefficient(ndvi.value)
  {
    match ndvi
    case None => None
    case Some(v) => Some(CropCoefficient(v))
  }
}
