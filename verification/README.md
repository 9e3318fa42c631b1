# Per-pixel algebra of the sustainable-agriculture Earth Engine model

This project models, in Dafny, the per-pixel arithmetic of the Earth Engine
script `modeloAgriculturaSostenible.js`. The script estimates maize yield,
water balance and nutrient/water stress for a study area. The model covers:

- the Sentinel-2 (`maskS2clouds`) and Landsat (`maskL8clouds`) QA-bit cloud masks;
- the spectral indices of `calculateIndices`: NDVI, NDWI, MNDWI, BSI and SAVI;
- the yield ramp (`estimateYield`) and the crop coefficient (`calculateKc`);
- the kelvin-to-°C and metre-to-mm conversions;
- reference evapotranspiration (`calculateET0`), ETc = ET0·Kc and the water balance;
- the water and nutrient stress layers with `selfMask()`, and their `unmask(0)` in `analysisImage`;
- the per-pixel `analysisImage` stack itself.

A pixel is `Option<real>`. `None` is a masked (no-data) pixel. Values are exact reals.
QA values are unsigned integers (`nat`). `bitwiseAnd` is a recursive function on `nat`.
Lemmas prove it is the bitwise AND, and that `bitwiseAnd(1 << k) == 0` holds exactly when bit k is clear.
Every scene-level operation is the per-pixel function lifted over the pixels of one grid.
Selecting a band the image lacks is an error (`MissingBand`), as `image.select` raises one.

Modules, one per file: `Raster` (pixels, scenes, the comparison / `selfMask` /
`unmask` / `clamp` primitives), `QaBits`, `CloudMask`, `SpectralIndices`,
`CropModels`, `WaterBalance`, `Stress`, `Analysis`, plus `RealFacts`, which
holds sign facts about real products used by the proofs.

Modelling choices:

- Division by zero. The script leaves a zero denominator in the index formulas to the Earth Engine library.
  This model gives such a pixel no value (`None`). That is a choice of the model, not behaviour read from the script.
- Grid alignment. The external climate rasters are taken as already resampled onto the composite's grid, one value per pixel.
- `era5_precip`. The script converts ERA5 precipitation from metres to millimetres and then never uses it.
  The water balance uses the CHIRPS total. The model does the same.
- Water-balance units. The balance subtracts an ET0 computed from a *mean* temperature from a *cumulative* precipitation total.
  The formula is kept as written.

## Model

| member | source | states |
|---|---|---|
| QaBits.BitAndIsBitwise | modeloAgriculturaSostenible.js:32-33 | the `bitwiseAnd` model sets bit k of its result iff bit k is set in both operands |
| QaBits.SingleBitMask | modeloAgriculturaSostenible.js:30-33 | `q & (1 << k)` is 0 exactly when bit k of q is clear |
| QaBits.TestBitIsDigit | modeloAgriculturaSostenible.js:30-31 | bit k is the k-th binary digit, `(q / 2^k) % 2` |
| QaBits.BitAnd | modeloAgriculturaSostenible.js:32-33 | the `bitwiseAnd` model never exceeds either operand (bit-by-bit meaning in `QaBits.BitAndIsBitwise`) |
| QaBits.Pow2IsSingleBit | modeloAgriculturaSostenible.js:30-31 | `1 << k` has bit k set and no other bit |
| CloudMask.S2Clear | modeloAgriculturaSostenible.js:29-33 | the Sentinel-2 QA test passes iff bit 10 (cloud) and bit 11 (cirrus) are both clear |
| CloudMask.L8Clear | modeloAgriculturaSostenible.js:41-43 | the Landsat QA test passes iff bit 3 (cloud) and bit 4 (cloud shadow) are both clear |
| CloudMask.MaskS2Pixel | modeloAgriculturaSostenible.js:28-37 | same bands; a band is valid iff it was valid and the QA bits 10 and 11 are clear; each kept value times 10000 is the raw number |
| CloudMask.MaskL8Pixel | modeloAgriculturaSostenible.js:40-46 | same bands; a band is valid iff it was valid and QA bits 3 and 4 are clear; kept values are the raw numbers, not rescaled |
| CloudMask.MaskS2Clouds | modeloAgriculturaSostenible.js:28-37 | a scene without QA60 is an error; otherwise the time stamp and band schema are kept and every pixel is masked and rescaled |
| CloudMask.MaskL8Clouds | modeloAgriculturaSostenible.js:40-46 | a scene without QA_PIXEL is an error; otherwise the time stamp and band schema are kept and every pixel is masked |
| CloudMask.S2KeptValueRescaled | modeloAgriculturaSostenible.js:34-35 | a kept Sentinel-2 value is its digital number divided by 10000 |
| CloudMask.S2CloudyPixelMasked | modeloAgriculturaSostenible.js:32-34 | a pixel with bit 10 or bit 11 set is no-data in every band |
| SpectralIndices.NormDiff | modeloAgriculturaSostenible.js:76 | the normalized difference r satisfies r·(a+b) = a−b; it lies in [−1, 1] for non-negative operands; for a positive sum it is positive iff a > b and zero iff a = b |
| SpectralIndices.NormDiffBounds | modeloAgriculturaSostenible.js:76 | any r with r·(a+b) = a−b lies in [−1, 1] when a, b ≥ 0 and a+b > 0, with the sign of a−b |
| SpectralIndices.NormalizedDifference | modeloAgriculturaSostenible.js:76-82 | the pixel is valid iff both operands are valid and their sum is non-zero; the value then solves r·(a+b) = a−b and lies in [−1, 1] for non-negative operands |
| SpectralIndices.NormDiffAntisymmetric | modeloAgriculturaSostenible.js:76-79 | swapping the operands negates the index (NDWI uses B3/B8 where NDVI uses B8/B4) |
| SpectralIndices.NormDiffRecoversBands | modeloAgriculturaSostenible.js:76 | the index and the operand sum determine both operands: a = s(1+r)/2, b = s(1−r)/2 |
| SpectralIndices.NormDiffIncreasing | modeloAgriculturaSostenible.js:76 | with a positive second operand the index strictly increases with the first |
| SpectralIndices.Ndvi | modeloAgriculturaSostenible.js:76 | NDVI is defined iff B8 and B4 are valid with a non-zero sum; it solves r·(B8+B4) = B8−B4, so for a positive sum it is positive exactly where B8 > B4 |
| SpectralIndices.Ndwi | modeloAgriculturaSostenible.js:79 | NDWI is defined iff B3 and B8 are valid with a non-zero sum; it solves r·(B3+B8) = B3−B8, so for a positive sum it is positive exactly where B3 > B8 |
| SpectralIndices.Mndwi | modeloAgriculturaSostenible.js:82 | MNDWI is defined iff B3 and B11 are valid with a non-zero sum; it solves r·(B3+B11) = B3−B11, so for a positive sum it is positive exactly where B3 > B11 |
| SpectralIndices.Bsi | modeloAgriculturaSostenible.js:85-91 | BSI as its expression reads is defined iff the four bands are valid and the denominator is non-zero; it then equals the normalized difference of B11+B4 against B8+B2 |
| SpectralIndices.SaviValue | modeloAgriculturaSostenible.js:94-98 | SAVI solves r·(NIR+RED+0.5) = 1.5·(NIR−RED); it lies in (−1.5, 1.5) for non-negative bands and in [−1, 1] for bands in [0, 1]; its sign is that of NIR−RED |
| SpectralIndices.SaviRatioBounds | modeloAgriculturaSostenible.js:95 | the unscaled SAVI ratio lies in (−1, 1) for non-negative bands and in [−2/3, 2/3] for bands in [0, 1] |
| SpectralIndices.Savi | modeloAgriculturaSostenible.js:94-98 | SAVI of a pixel is defined iff NIR and RED are valid and NIR+RED+0.5 is non-zero |
| SpectralIndices.AddIndices | modeloAgriculturaSostenible.js:74-101 | the five index bands are added; every original band is unchanged |
| SpectralIndices.CalculateIndices | modeloAgriculturaSostenible.js:74-101 | a scene lacking B2, B3, B4, B8 or B11 is an error naming a missing band; otherwise the schema grows by the five index bands and the time stamp is kept |
| SpectralIndices.IndicesBoundedOnReflectance | modeloAgriculturaSostenible.js:76-98 | on reflectance in [0, 1], every defined NDVI, NDWI, MNDWI and BSI lies in [−1, 1]; SAVI is always defined and lies in [−1, 1] |
| CropModels.YieldEstimate | modeloAgriculturaSostenible.js:145-157 | yield lies in [0, 10000]; on the ramp NDVI ∈ [0, 0.75], yield·0.75 = 10000·NDVI; yield is 10000 from NDVI 0.75 up and 0 from NDVI 0 down |
| CropModels.YieldMonotone | modeloAgriculturaSostenible.js:149-154 | yield never decreases as NDVI grows |
| CropModels.YieldStrictOnRamp | modeloAgriculturaSostenible.js:149-154 | on [0, 0.75] yield strictly increases with NDVI |
| CropModels.YieldRampRoundTrip | modeloAgriculturaSostenible.js:149-154 | every yield in [0, 10000] comes from exactly one NDVI on the ramp; the inverse recovers NDVI from yield |
| CropModels.YieldAtHalfNdvi | modeloAgriculturaSostenible.js:149-154 | NDVI 0.5 gives two thirds of the maximum yield (6666.67 kg/ha) |
| CropModels.YieldPixel | modeloAgriculturaSostenible.js:145-157 | yield is defined exactly where NDVI is, and lies in [0, 10000] |
| CropModels.CropCoefficient | modeloAgriculturaSostenible.js:187-194 | Kc lies in [0.2, 1.2]; for NDVI ∈ [−1, 1] it is 1 + 0.2·NDVI, unclamped; from NDVI 1 up it is 1.2; from NDVI −4 down it is 0.2 |
| CropModels.CropCoefficientMonotone | modeloAgriculturaSostenible.js:188-191 | Kc never decreases as NDVI grows |
| CropModels.CropCoefficientRoundTrip | modeloAgriculturaSostenible.js:188-191 | every Kc in [0.2, 1.2] is reached, and NDVI in [−4, 1] is recovered from its Kc |
| CropModels.CropCoefficientPixel | modeloAgriculturaSostenible.js:187-194 | Kc is defined exactly where NDVI is, and lies in [0.2, 1.2] |
| WaterBalance.KelvinToCelsius | modeloAgriculturaSostenible.js:132 | adding 273.15 to the converted temperature gives back the kelvin value |
| WaterBalance.MetresToMillimetres | modeloAgriculturaSostenible.js:133 | the millimetre value divided by 1000 is the metre value; zero maps to zero only |
| WaterBalance.TemperaturePixel | modeloAgriculturaSostenible.js:132 | the temperature band is defined where ERA5 is, and is the kelvin value minus 273.15 |
| WaterBalance.Era5PrecipitationPixel | modeloAgriculturaSostenible.js:133 | the ERA5 precipitation band is defined where ERA5 is, and is the metre value times 1000 |
| WaterBalance.Sqrt25IsTheSquareRoot | modeloAgriculturaSostenible.js:179 | 5 is the only non-negative square root of 25, so `sqrt(25)` is the constant 5 |
| WaterBalance.ReferenceEt | modeloAgriculturaSostenible.js:177-184 | ET0 is zero exactly at −17.8 °C and positive exactly above it |
| WaterBalance.ReferenceEtAffine | modeloAgriculturaSostenible.js:179 | each degree adds 0.0023·15·5 = 0.1725 to ET0 |
| WaterBalance.ReferenceEtIncreasing | modeloAgriculturaSostenible.js:179 | ET0 strictly increases with temperature |
| WaterBalance.ReferenceEtRoundTrip | modeloAgriculturaSostenible.js:179 | the inverse affine map recovers the temperature from ET0, and ET0 from it |
| WaterBalance.ReferenceEtAt20 | modeloAgriculturaSostenible.js:179 | at 20 °C, ET0 = 6.5205 |
| WaterBalance.ReferenceEtPixel | modeloAgriculturaSostenible.js:177-184 | ET0 is defined exactly where temperature is, and maps back to that temperature |
| WaterBalance.CropEt | modeloAgriculturaSostenible.js:199 | with ET0 ≥ 0 and Kc in [0.2, 1.2], ETc lies between 0.2·ET0 and 1.2·ET0 |
| WaterBalance.Balance | modeloAgriculturaSostenible.js:200 | the balance plus ETc is the precipitation |
| WaterBalance.WaterBalancePixel | modeloAgriculturaSostenible.js:197-200 | the balance is defined iff precipitation, temperature and NDVI are; it then closes: balance + ET0(T)·Kc(NDVI) = precipitation |
| WaterBalance.BalanceFallsWithTemperature | modeloAgriculturaSostenible.js:197-200 | with precipitation and NDVI fixed, a higher temperature gives a strictly lower balance |
| WaterBalance.BalanceFallsWithNdvi | modeloAgriculturaSostenible.js:197-200 | where ET0 ≥ 0, a higher NDVI never raises the balance |
| Raster.LessThan | modeloAgriculturaSostenible.js:206 | `lt(c)` is defined where its input is; it is 1 iff the value is below c, else 0 |
| Raster.GreaterThan | modeloAgriculturaSostenible.js:212 | `gt(c)` is defined where its input is; it is 1 iff the value is above c, else 0 |
| Raster.And | modeloAgriculturaSostenible.js:212 | `&&` is defined where both operands are; it is 1 iff both are non-zero |
| Raster.SelfMask | modeloAgriculturaSostenible.js:208 | on the 0/1 images the script masks, `selfMask()` keeps exactly the valid pixels equal to 1, unchanged, and masks the zeros |
| Raster.Unmask | modeloAgriculturaSostenible.js:282-283 | `unmask(d)` is defined everywhere; valid pixels are unchanged and masked ones become d |
| Raster.Clamp | modeloAgriculturaSostenible.js:154 | `clamp(lo, hi)` lands in [lo, hi]; it is the identity inside and the nearer bound outside |
| Stress.WaterStress | modeloAgriculturaSostenible.js:206-208 | the water-stress pixel is present iff the balance is valid and below −50 mm, and is then 1 |
| Stress.NutrientStress | modeloAgriculturaSostenible.js:211-215 | the nutrient-stress pixel is present iff BSI > 0.1 and NDVI < 0.5 (both valid), and is then 1 |
| Stress.UnmaskedWaterStressIsIndicator | modeloAgriculturaSostenible.js:282 | after `unmask(0)` the water-stress band is exactly the 0/1 indicator of a valid balance below −50 |
| Stress.UnmaskedNutrientStressIsIndicator | modeloAgriculturaSostenible.js:283 | after `unmask(0)` the nutrient-stress band is exactly the 0/1 indicator of BSI > 0.1 and NDVI < 0.5 |
| Stress.LowBsiMeansNoNutrientStress | modeloAgriculturaSostenible.js:211-215 | BSI ≤ 0.1 rules out nutrient stress whatever the NDVI; the unmasked band is 0 |
| Stress.NutrientStressExample | modeloAgriculturaSostenible.js:212 | BSI 0.15 with NDVI 0.3 is nutrient stress |
| Stress.WaterStressExample | modeloAgriculturaSostenible.js:206 | a 250 mm surplus is not water stress |
| Stress.UnmaskMergesNoDataWithUnstressed | modeloAgriculturaSostenible.js:282 | after `unmask(0)` a pixel without balance data and an unstressed pixel both read 0 |
| Analysis.AnalyzePixel | modeloAgriculturaSostenible.js:277-289 | the stack carries the selected bands unchanged; both stress bands are defined everywhere and are exactly their 0/1 indicators; yield is defined where NDVI is and equals the clamped yield ramp of that NDVI; the balance closes against ET0·Kc |
| Analysis.AnalyzeImage | modeloAgriculturaSostenible.js:277-289 | a composite lacking NDVI, NDWI, SAVI or BSI is an error naming a missing band; otherwise pixel i of the stack is the analysis of composite pixel i |
| Analysis.WaterStressFromClimate | modeloAgriculturaSostenible.js:197-208 | after `unmask(0)`, the water-stress value of a pixel with data is exactly the indicator of precipitation − ET0(T)·Kc(NDVI) < −50 mm |
| Analysis.RainCoveringEtIsNoStress | modeloAgriculturaSostenible.js:197-208 | 300 mm of rain against 50 mm of ETc gives a 250 mm balance, no water-stress pixel, and 0 after `unmask(0)` |
| Analysis.ReferenceEtNeedsHeatFor50 | modeloAgriculturaSostenible.js:177-200 | an ETc of 50 mm per pixel requires a mean temperature above 200 °C, because ET0 is the single-day formula applied to a mean temperature |
| Analysis.ClearPixelIndicesBounded | modeloAgriculturaSostenible.js:28-98 | a Sentinel-2 pixel with clear QA bits and digital numbers up to 10000 becomes reflectance in [0, 1]; its defined indices all lie in [−1, 1] and its SAVI is defined |

## Left out

- Catalog loading, date/bounds/cloud-cover filtering, the CHIRPS sum and the ERA5 mean (lines 10-11, 52-66, 114-129): these are remote queries. The precipitation total and the mean kelvin temperature enter the model as per-pixel inputs.
- Temporal median compositing and `clip` (line 108): the reduction and its mask rules belong to the Earth Engine library. The composite enters `Analysis.AnalyzeImage` as an input.
- Biomass `8·exp(2.3·NDVI)` (lines 160-167): it is transcendental and has no exact real counterpart. The biomass band is carried through the stack as an input.
- K-means zonation (lines 220-229): sampling and training happen inside library calls. The zone band is carried through as an input.
- SRTM elevation and `ee.Terrain.slope` (lines 138-139): external data and a library algorithm. Both are carried through as inputs.
- `reduceRegion` / `reduceRegions` statistics (lines 292-311): library reducers with resampling at 20 m.
- Exports, charts, the UI panel, `print` and `Map.addLayer` (lines 14-19, 234-271, 320 onwards): I/O and display.
- `toFloat()` casts and IEEE rounding (lines 278-288): the model uses exact reals.
- Resampling of the climate rasters onto the composite grid: done by the library. The model takes them as already aligned.
- `normalizedDifference`'s own library-side masking of negative inputs is not part of this model. The model applies the plain formula.
- Band-name collisions in `addBands`, where the library renames a duplicate band: the model requires that the index band names are not yet in the scene. That holds for the masked Sentinel-2 scenes the script passes in.
- SpectralIndices.NormalizedDifference: a zero denominator gives no value. The script leaves that case to the library; the model states nothing about what the library returns there.
- Raster.SelfMask: the library uses a pixel's value as its new mask weight, so a value strictly between 0 and 1 would be partially masked. `Option` has no partial mask; the model is exact only on 0/1 images, which are the only ones the script masks.
- The 16-bit width of the QA bands: QA values are unbounded `nat`. The tests only read bits 3, 4, 10 and 11, which every 16-bit value has.
