/** Per-sensor cloud masks (`maskS2clouds`, `maskL8clouds`).

    Each mask reads the scene's integer quality band, keeps a pixel only when
    the sensor's cloud bits are clear, and masks every band of a rejected
    pixel. Sentinel-2 values are then rescaled from digital numbers to
    reflectance; Landsat values are left as they are. The scene's
    acquisition time is carried over. */
module CloudMask {
  import opened Raster
  import opened QaBits

  const S2QaBand: string := "QA60"
  const S2CloudBit: nat := 10
  const S2CirrusBit: nat := 11
  /** Sentinel-2 digital numbers per unit reflectance. */
  const S2ScaleFactor: real := 10000.0

  const L8QaBand: string := "QA_PIXEL"
  const L8CloudBit: nat := 3
  const L8ShadowBit: nat := 4

  /** Reference meaning of a usable Sentinel-2 pixel: its QA value is
      present and has neither the opaque-cloud nor the cirrus bit set. */
  predicate S2Usable(qa: Option<nat>) {
    qa.Some? && !TestBit(qa.value, S2CloudBit) && !TestBit(qa.value, S2CirrusBit)
  }

  /** Reference meaning of a usable Landsat pixel: neither the cloud nor the
      cloud-shadow bit is set. */
  predicate L8Usable(qa: Option<nat>) {
    qa.Some? && !TestBit(qa.value, L8CloudBit) && !TestBit(qa.value, L8ShadowBit)
  }

  /** The Sentinel-2 test as written: both `bitwiseAnd(1 << k)` results are 0. */
  function S2Clear(q: nat): (r: bool)
    ensures r <==> !TestBit(q, S2CloudBit) && !TestBit(q, S2CirrusBit)
  {
    SingleBitMask(q, S2CloudBit);
    SingleBitMask(q, S2CirrusBit);
    BitAnd(q, Pow2(S2CloudBit)) == 0 && BitAnd(q, Pow2(S2CirrusBit)) == 0
  }

  /** The Landsat test as written. */
  function L8Clear(q: nat): (r: bool)
    ensures r <==> !TestBit(q, L8CloudBit) && !TestBit(q, L8ShadowBit)
  {
    SingleBitMask(q, L8CloudBit);
    SingleBitMask(q, L8ShadowBit);
    BitAnd(q, Pow2(L8CloudBit)) == 0 && BitAnd(q, Pow2(L8ShadowBit)) == 0
  }

  /** `maskS2clouds` on one pixel: `updateMask` with the QA test, then
      `divide(10000)` on every band (the QA band included). */
  function MaskS2Pixel(px: RawBands): (r: Bands)
    requires S2QaBand in px
    ensures r.Keys == px.Keys
    ensures forall b | b in px :: r[b].Some? <==> px[b].Some? && S2Usable(px[S2QaBand])
    ensures forall b | b in px && r[b].Some? :: r[b].value * S2ScaleFactor == px[b].value as real
  {
    var qa := px[S2QaBand];
    var keep := qa.Some? && S2Clear(qa.value);
    map b | b in px :: if keep && px[b].Some? then Some(px[b].value as real / S2ScaleFactor) else None
  }

  /** `maskL8clouds` on one pixel: `updateMask` with the QA test, values
      otherwise untouched. */
  function MaskL8Pixel(px: RawBands): (r: Bands)
    requires L8QaBand in px
    ensures r.Keys == px.Keys
    ensures forall b | b in px :: r[b].Some? <==> px[b].Some? && L8Usable(px[L8QaBand])
    ensures forall b | b in px && r[b].Some? :: r[b].value == px[b].value as real
  {
    var qa := px[L8QaBand];
    var keep := qa.Some? && L8Clear(qa.value);
    map b | b in px :: if keep && px[b].Some? then Some(px[b].value as real) else None
  }

  /** `maskS2clouds` on a scene. Selecting a QA band the scene lacks is an
      error; otherwise every pixel is masked as above and the acquisition
      time is copied over. */
  function MaskS2Clouds(s: RawScene): (r: Result<Scene>)
    requires RawWellFormed(s)
    ensures r.Success? <==> S2QaBand in s.bandNames
    ensures r.Failure? ==> r.error == MissingBand(S2QaBand)
    ensures r.Success? ==> && r.value.timeStart == s.timeStart
                           && r.value.bandNames == s.bandNames
                           && |r.value.pixels| == |s.pixels|
                           && WellFormed(r.value)
    ensures r.Success? ==> forall i | 0 <= i < |s.pixels| :: r.value.pixels[i] == MaskS2Pixel(s.pixels[i])
  {
    if S2QaBand !in s.bandNames then Failure(MissingBand(S2QaBand))
    else
      Success(Scene(s.timeStart, s.bandNames,
                    seq(|s.pixels|, i requires 0 <= i < |s.pixels| => MaskS2Pixel(s.pixels[i]))))
  }

  /** `maskL8clouds` on a scene. */
  function MaskL8Clouds(s: RawScene): (r: Result<Scene>)
    requires RawWellFormed(s)
    ensures r.Success? <==> L8QaBand in s.bandNames
    ensures r.Failure? ==> r.error == MissingBand(L8QaBand)
    ensures r.Success? ==> && r.value.timeStart == s.timeStart
                           && r.value.bandNames == s.bandNames
                           && |r.value.pixels| == |s.pixels|
                           && WellFormed(r.value)
    ensures r.Success? ==> forall i | 0 <= i < |s.pixels| :: r.value.pixels[i] == MaskL8Pixel(s.pixels[i])
  {
    if L8QaBand !in s.bandNames then Failure(MissingBand(L8QaBand))
    else
      Success(Scene(s.timeStart, s.bandNames,
                    seq(|s.pixels|, i requires 0 <= i < |s.pixels| => MaskL8Pixel(s.pixels[i]))))
  }

  /** A kept Sentinel-2 value is exactly its raw digital number divided by
      the scale factor. */
  lemma S2KeptValueRescaled(px: RawBands, b: string)
    requires S2QaBand in px && b in px
    requires px[b].Some? && S2Usable(px[S2QaBand])
    ensures MaskS2Pixel(px)[b] == Some(px[b].value as real / S2ScaleFactor)
  {
  }

  /** A cloudy or cirrus-flagged Sentinel-2 pixel is no-data in every band. */
  lemma S2CloudyPixelMasked(px: RawBands, b: string)
    requires S2QaBand in px && b in px
    requires px[S2QaBand].Some?
    requires TestBit(px[S2QaBand].value, S2CloudBit) || TestBit(px[S2QaBand].value, S2CirrusBit)
    ensures MaskS2Pixel(px)[b].None?
  {
  }
}
