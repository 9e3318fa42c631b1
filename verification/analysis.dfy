/** The per-pixel analysis stack (`analysisImage`): the composite's index
    bands, yield, biomass, water balance, both stress layers with
    `unmask(0)`, zones, precipitation, temperature, elevation and slope,
    concatenated into one record per pixel.

    Biomass, zones, elevation, slope and the precipitation total come from
    computations outside this model and are carried through unchanged. */
module Analysis {
  import opened Raster
  import opened CloudMask
  import opened SpectralIndices
  import opened CropModels
  import opened WaterBalance
  import opened Stress
  import opened RealFacts

  /** One pixel of `analysisImage`, band for band. */
  datatype AnalysisPixel = AnalysisPixel(
    ndvi: Pixel, ndwi: Pixel, savi: Pixel, bsi: Pixel,
    yieldEstimate: Pixel, biomass: Pixel, waterBalance: Pixel,
    waterStress: Pixel, nutrientStress: Pixel, zones: Pixel,
    precipitation: Pixel, temperature: Pixel, elevation: Pixel, slope: Pixel)

  /** The per-pixel inputs that do not come from the composite: the CHIRPS
      precipitation total (mm), the ERA5 mean temperature (K), and the
      biomass, zone, elevation and slope values computed elsewhere. */
  datatype External = External(
    precipitation: Pixel, temperatureKelvin: Pixel,
    biomass: Pixel, zone: Pixel, elevation: Pixel, slope: Pixel)

  /** The temporal composite: its band schema and pixels. */
  datatype Composite = Composite(bandNames: set<string>, pixels: seq<Bands>)

  /** The composite bands the analysis selects. */
  const StackBands: seq<string> := ["NDVI", "NDWI", "SAVI", "BSI"]

  predicate HasStackBands(names: set<string>) {
    "NDVI" in names && "NDWI" in names && "SAVI" in names && "BSI" in names
  }

  predicate CompositeWellFormed(c: Composite) {
    forall i | 0 <= i < |c.pixels| :: c.pixels[i].Keys == c.bandNames
  }

  /** One pixel of the stack. The two stress bands are defined everywhere
      and are exactly the 0/1 indicators of their thresholds; yield is
      defined where NDVI is and is the clamped ramp of that NDVI; the
      balance closes against ET0·Kc of this pixel's temperature and NDVI. */
  function AnalyzePixel(c: Bands, ext: External): (a: AnalysisPixel)
    requires HasStackBands(c.Keys)
    ensures a.ndvi == c["NDVI"] && a.ndwi == c["NDWI"] && a.savi == c["SAVI"] && a.bsi == c["BSI"]
    ensures a.biomass == ext.biomass && a.zones == ext.zone && a.precipitation == ext.precipitation
    ensures a.elevation == ext.elevation && a.slope == ext.slope
    ensures a.temperature.Some? <==> ext.temperatureKelvin.Some?
    ensures a.temperature.Some? ==> a.temperature.value + KelvinOffset == ext.temperatureKelvin.value
    ensures a.yieldEstimate.Some? <==> a.ndvi.Some?
    ensures a.yieldEstimate.Some? ==> 0.0 <= a.yieldEstimate.value <= MaxYield
    ensures a.yieldEstimate.Some? ==> a.yieldEstimate.value == YieldEstimate(a.ndvi.value)
    ensures a.waterBalance.Some? <==> ext.precipitation.Some? && a.temperature.Some? && a.ndvi.Some?
    ensures a.waterBalance.Some? ==>
              a.waterBalance.value + ReferenceEt(a.temperature.value) * CropCoefficient(a.ndvi.value)
              == ext.precipitation.value
    ensures a.waterStress.Some? && a.nutrientStress.Some?
    ensures a.waterStress.value == 1.0 <==> a.waterBalance.Some? && a.waterBalance.value < WaterStressBalance
    ensures a.waterStress.value == 0.0 <==> !(a.waterBalance.Some? && a.waterBalance.value < WaterStressBalance)
    ensures a.nutrientStress.value == 1.0 <==> && a.bsi.Some? && a.ndvi.Some?
                                               && a.bsi.value > NutrientStressBsi
                                               && a.ndvi.value < NutrientStressNdvi
    ensures a.nutrientStress.value == 0.0 <==> !(&& a.bsi.Some? && a.ndvi.Some?
                                                 && a.bsi.value > NutrientStressBsi
                                                 && a.ndvi.value < NutrientStressNdvi)
  {
    var ndvi := c["NDVI"];
    var temperature := TemperaturePixel(ext.temperatureKelvin);
    var balance := WaterBalancePixel(ext.precipitation, temperature, ndvi);
    UnmaskedWaterStressIsIndicator(balance);
    UnmaskedNutrientStressIsIndicator(c["BSI"], ndvi);
    AnalysisPixel(
      ndvi, c["NDWI"], c["SAVI"], c["BSI"],
      YieldPixel(ndvi), ext.biomass, balance,
      Unmask(WaterStress(balance), 0.0),
      Unmask(NutrientStress(c["BSI"], ndvi), 0.0),
      ext.zone, ext.precipitation, temperature, ext.elevation, ext.slope)
  }

  /** `analysisImage` over the whole grid. The external rasters are taken
      as already aligned to the composite's grid, one value per pixel. A
      composite lacking one of the selected bands is an error. */
  method AnalyzeImage(c: Composite, ext: seq<External>) returns (r: Result<seq<AnalysisPixel>>)
    requires CompositeWellFormed(c)
    requires |ext| == |c.pixels|
    ensures r.Success? <==> HasStackBands(c.bandNames)
    ensures r.Failure? ==> r.error.name in StackBands && r.error.name !in c.bandNames
    ensures r.Success? ==> |r.value| == |c.pixels|
    ensures r.Success? ==> forall i | 0 <= i < |c.pixels| ::
                             HasStackBands(c.pixels[i].Keys)
                             && r.value[i] == AnalyzePixel(c.pixels[i], ext[i])
  {
    var missing := FirstMissing(StackBands, c.bandNames);
    assert missing.None? <==> HasStackBands(c.bandNames) by {
      assert StackBands[0] == "NDVI" && StackBands[1] == "NDWI";
      assert StackBands[2] == "SAVI" && StackBands[3] == "BSI";
    }
    if missing.Some? {
      return Failure(MissingBand(missing.value));
    }
    var stack: seq<AnalysisPixel> := [];
    var i := 0;
    while i < |c.pixels|
      invariant 0 <= i <= |c.pixels|
      invariant |stack| == i
      invariant forall j | 0 <= j < i :: HasStackBands(c.pixels[j].Keys)
                                         && stack[j] == AnalyzePixel(c.pixels[j], ext[j])
    {
      assert c.pixels[i].Keys == c.bandNames;
      stack := stack + [AnalyzePixel(c.pixels[i], ext[i])];
      i := i + 1;
    }
    return Success(stack);
  }

  /** End to end on one Sentinel-2 pixel: when the QA bits are clear and
      every input band holds a digital number of at most 10000, masking
      yields reflectance in [0, 1], so every index defined on it lies in
      [−1, 1] and SAVI is defined and in [−1, 1]. */
  lemma ClearPixelIndicesBounded(raw: RawBands)
    requires S2QaBand in raw && S2Usable(raw[S2QaBand])
    requires HasInputBands(raw.Keys)
    requires forall b | b in raw && b in [Nir, Red, Green, Swir1, Blue] ::
               raw[b].Some? && raw[b].value <= 10000
    ensures HasInputBands(MaskS2Pixel(raw).Keys)
    ensures forall b | b in [Nir, Red, Green, Swir1, Blue] :: Reflectance(MaskS2Pixel(raw)[b])
    ensures var px := MaskS2Pixel(raw);
            && (Ndvi(px).Some? ==> -1.0 <= Ndvi(px).value <= 1.0)
            && (Ndwi(px).Some? ==> -1.0 <= Ndwi(px).value <= 1.0)
            && (Mndwi(px).Some? ==> -1.0 <= Mndwi(px).value <= 1.0)
            && (Bsi(px).Some? ==> -1.0 <= Bsi(px).value <= 1.0)
            && Savi(px).Some? && -1.0 <= Savi(px).value <= 1.0
  {
  }

  /** From climate to the stress band: after `unmask(0)` the water-stress
      value of a pixel with data is exactly the indicator of
      precipitation − ET0(T)·Kc(NDVI) < −50 mm. */
  lemma WaterStressFromClimate(p: real, t: real, ndvi: real)
    ensures Unmask(WaterStress(WaterBalancePixel(Some(p), Some(t), Some(ndvi))), 0.0)
            == Some(Indicator(p - ReferenceEt(t) * CropCoefficient(ndvi) < WaterStressBalance))
  {
  }

  /** 300 mm of rain against 50 mm of ETc leaves a 250 mm surplus, which is
      not water stress: the band is absent, and 0 once unmasked. Because
      ET0 is computed from a mean temperature and not accumulated over the
      season, an ETc of 50 mm needs a mean temperature above 200 °C (about
      272 °C at Kc = 1); `ReferenceEtNeedsHeatFor50` states this. */
  lemma RainCoveringEtIsNoStress(t: real, ndvi: real)
    requires ReferenceEt(t) * CropCoefficient(ndvi) == 50.0
    ensures WaterBalancePixel(Some(300.0), Some(t), Some(ndvi)) == Some(250.0)
    ensures WaterStress(WaterBalancePixel(Some(300.0), Some(t), Some(ndvi))) == None
    ensures Unmask(WaterStress(WaterBalancePixel(Some(300.0), Some(t), Some(ndvi))), 0.0) == Some(0.0)
  {
    assert WaterBalancePixel(Some(300.0), Some(t), Some(ndvi)).value + 50.0 == 300.0;
  }

  /** A per-pixel ETc of 50 mm takes a mean temperature above 200 °C: the
      single-day ET0 formula set against a seasonal precipitation total
      makes realistic temperatures give only a few millimetres. */
  lemma ReferenceEtNeedsHeatFor50(t: real, ndvi: real)
    requires ReferenceEt(t) * CropCoefficient(ndvi) == 50.0
    ensures t > 200.0
  {
    var kc := CropCoefficient(ndvi);
    var et0 := ReferenceEt(t);
    FactorSign(et0, kc);
    // ET0 = 50 / Kc >= 50 / 1.2 > 41.6, and ET0 = 0.1725 (t + 17.8).
    if kc < KcMax {
      PositiveProduct(et0, KcMax - kc);
    }
    assert et0 * KcMax - et0 * kc == et0 * (KcMax - kc) >= 0.0;
    assert et0 * KcMax >= 50.0;
    ReferenceEtAffine(-TemperatureOffset, t);
  }
}
