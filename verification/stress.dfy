/** Threshold stress layers (`waterStress`, `nutrientStress`) and their
    `unmask(0)` in the analysis stack.

    Each layer is a 0/1 comparison passed through `selfMask()`, so only
    stressed pixels carry a value (1); `unmask(0)` later turns every other
    pixel, unstressed or without data, into 0. */
module Stress {
  import opened Raster

  /** Water balance (mm) below which a pixel is water-stressed. */
  const WaterStressBalance: real := -50.0
  /** Nutrient stress: bare-soil index above this ... */
  const NutrientStressBsi: real := 0.1
  /** ... while NDVI stays below this. */
  const NutrientStressNdvi: real := 0.5

  /** `waterBalance.lt(-50).selfMask()`. */
  function WaterStress(balance: Pixel): (s: Pixel)
    ensures s.Some? <==> balance.Some? && balance.value < WaterStressBalance
    ensures s.Some? ==> s.value == 1.0
  {
    SelfMask(LessThan(balance, WaterStressBalance))
  }

  /** `expression('BSI > 0.1 && NDVI < 0.5').selfMask()`. */
  function NutrientStress(bsi: Pixel, ndvi: Pixel): (s: Pixel)
    ensures s.Some? <==> && bsi.Some? && ndvi.Some?
                         && bsi.value > NutrientStressBsi && ndvi.value < NutrientStressNdvi
    ensures s.Some? ==> s.value == 1.0
  {
    SelfMask(And(GreaterThan(bsi, NutrientStressBsi), LessThan(ndvi, NutrientStressNdvi)))
  }

  /** After `unmask(0)` the water-stress band is defined everywhere and is
      exactly the 0/1 indicator of a balance below −50 mm. */
  lemma UnmaskedWaterStressIsIndicator(balance: Pixel)
    ensures Unmask(WaterStress(balance), 0.0)
            == Some(Indicator(balance.Some? && balance.value < WaterStressBalance))
  {
  }

  /** After `unmask(0)` the nutrient-stress band is the 0/1 indicator of
      BSI > 0.1 and NDVI < 0.5. */
  lemma UnmaskedNutrientStressIsIndicator(bsi: Pixel, ndvi: Pixel)
    ensures Unmask(NutrientStress(bsi, ndvi), 0.0)
            == Some(Indicator(&& bsi.Some? && ndvi.Some?
                              && bsi.value > NutrientStressBsi && ndvi.value < NutrientStressNdvi))
  {
  }

  /** Little bare soil rules nutrient stress out, whatever the NDVI. */
  lemma LowBsiMeansNoNutrientStress(bsi: Pixel, ndvi: Pixel)
    requires bsi.Some? && bsi.value <= NutrientStressBsi
    ensures NutrientStress(bsi, ndvi).None?
    ensures Unmask(NutrientStress(bsi, ndvi), 0.0) == Some(0.0)
  {
  }

  /** BSI 0.15 with NDVI 0.3 is nutrient stress. */
  lemma NutrientStressExample()
    ensures NutrientStress(Some(0.15), Some(0.3)) == Some(1.0)
  {
  }

  /** A 250 mm surplus is not water stress. */
  lemma WaterStressExample()
    ensures WaterStress(Some(250.0)) == None
  {
  }

  /** `unmask(0)` cannot tell an unstressed pixel from one without data: a
      masked balance and a balance of 0 mm give the same stress value. */
  lemma UnmaskMergesNoDataWithUnstressed()
    ensures Unmask(WaterStress(None), 0.0) == Unmask(WaterStress(Some(0.0)), 0.0) == Some(0.0)
  {
  }
}
