/** Spectral indices (`calculateIndices`).

    NDVI, NDWI and MNDWI are normalized differences of two reflectance
    bands, BSI is the normalized difference of two band sums, and SAVI is
    the soil-adjusted ratio with L = 0.5. A pixel whose denominator is zero
    is given no value (see the README for why this is a modelling choice). */
module SpectralIndices {
  import opened Raster
  import opened RealFacts

  const Blue: string := "B2"
  const Green: string := "B3"
  const Red: string := "B4"
  const Nir: string := "B8"
  const Swir1: string := "B11"

  /** The bands `calculateIndices` selects, in the order it first selects them. */
  const InputBands: seq<string> := [Nir, Red, Green, Swir1, Blue]

  /** The scene (or pixel) has every band `calculateIndices` selects. */
  predicate HasInputBands(names: set<string>) {
    Nir in names && Red in names && Green in names && Swir1 in names && Blue in names
  }

  /** The bands it appends. */
  const IndexBands: set<string> := {"NDVI", "NDWI", "MNDWI", "BSI", "SAVI"}

  /** SAVI's soil-brightness correction L and its scale 1 + L. */
  const SaviL: real := 0.5
  const SaviScale: real := 1.5

  /** (a − b) / (a + b). The result is the unique r with r·(a + b) = a − b. */
  function NormDiff(a: real, b: real): (r: real)
    requires a + b != 0.0
    ensures r * (a + b) == a - b
    ensures a >= 0.0 && b >= 0.0 ==> -1.0 <= r <= 1.0
    ensures a + b > 0.0 ==> (r > 0.0 <==> a > b) && (r == 0.0 <==> a == b)
  {
    var r := (a - b) / (a + b);
    assert r * (a + b) == a - b;
    NormDiffBounds(a, b, r);
    r
  }

  /** Range and sign of any r with r·(a + b) = a − b. */
  lemma NormDiffBounds(a: real, b: real, r: real)
    requires r * (a + b) == a - b
    ensures a >= 0.0 && b >= 0.0 && a + b > 0.0 ==> -1.0 <= r <= 1.0
    ensures a + b > 0.0 ==> (r > 0.0 <==> a > b) && (r == 0.0 <==> a == b)
  {
    if a + b > 0.0 {
      FactorSign(r, a + b);
      // r − 1 and r + 1 scale to −2b and 2a, whose signs bound r.
      assert (r - 1.0) * (a + b) == -2.0 * b;
      assert (r + 1.0) * (a + b) == 2.0 * a;
      FactorSign(r - 1.0, a + b);
      FactorSign(r + 1.0, a + b);
    }
  }

  /** The normalized difference of two pixels, masked where either operand is
      masked or the denominator is zero. */
  function NormalizedDifference(a: Pixel, b: Pixel): (r: Pixel)
    ensures r.Some? <==> a.Some? && b.Some? && a.value + b.value != 0.0
    ensures r.Some? ==> r.value * (a.value + b.value) == a.value - b.value
    ensures r.Some? && a.value >= 0.0 && b.value >= 0.0 ==> -1.0 <= r.value <= 1.0
  {
    match (a, b)
    case (Some(x), Some(y)) => if x + y == 0.0 then None else Some(NormDiff(x, y))
    case _ => None
  }

  /** Swapping the operands negates a normalized difference. */
  lemma NormDiffAntisymmetric(a: real, b: real)
    requires a + b != 0.0
    ensures NormDiff(b, a) == -NormDiff(a, b)
  {
    var r := NormDiff(a, b);
    var s := NormDiff(b, a);
    assert (s + r) * (a + b) == 0.0;
    if a + b > 0.0 {
      FactorSign(s + r, a + b);
    } else {
      assert (s + r) * (-(a + b)) == 0.0;
      FactorSign(s + r, -(a + b));
    }
  }

  /** A normalized difference together with the operand sum determines both
      operands: a = s·(1 + r)/2 and b = s·(1 − r)/2. */
  lemma NormDiffRecoversBands(a: real, b: real)
    requires a + b != 0.0
    ensures a == (a + b) * (1.0 + NormDiff(a, b)) / 2.0
    ensures b == (a + b) * (1.0 - NormDiff(a, b)) / 2.0
  {
  }

  /** With a positive second operand, the normalized difference strictly
      increases with the first. */
  lemma NormDiffIncreasing(a1: real, a2: real, b: real)
    requires b > 0.0 && 0.0 <= a1 < a2
    ensures NormDiff(a1, b) < NormDiff(a2, b)
  {
    var r1 := NormDiff(a1, b);
    var r2 := NormDiff(a2, b);
    // r = 1 − 2b/(a + b): a larger sum leaves a smaller deficit from 1.
    var gap := 1.0 - r2;
    assert (1.0 - r1) * (a1 + b) == 2.0 * b;
    assert gap * (a2 + b) == 2.0 * b;
    FactorSign(gap, a2 + b);
    assert gap * (a2 - a1) > 0.0;
    assert (r2 - r1) * (a1 + b) == gap * (a2 - a1);
    FactorSign(r2 - r1, a1 + b);
  }

  /** NDVI = (B8 − B4)/(B8 + B4): for a positive band sum, positive exactly where NIR exceeds RED. */
  function Ndvi(px: Bands): (r: Pixel)
    requires Nir in px && Red in px
    ensures r.Some? <==> px[Nir].Some? && px[Red].Some? && px[Nir].value + px[Red].value != 0.0
    ensures r.Some? ==> r.value * (px[Nir].value + px[Red].value) == px[Nir].value - px[Red].value
    ensures r.Some? && px[Nir].value + px[Red].value > 0.0 ==>
              (r.value > 0.0 <==> px[Nir].value > px[Red].value)
  {
    NormalizedDifference(px[Nir], px[Red])
  }

  /** NDWI = (B3 − B8)/(B3 + B8): for a positive band sum, positive exactly where GREEN exceeds NIR. */
  function Ndwi(px: Bands): (r: Pixel)
    requires Green in px && Nir in px
    ensures r.Some? <==> px[Green].Some? && px[Nir].Some? && px[Green].value + px[Nir].value != 0.0
    ensures r.Some? ==> r.value * (px[Green].value + px[Nir].value) == px[Green].value - px[Nir].value
    ensures r.Some? && px[Green].value + px[Nir].value > 0.0 ==>
              (r.value > 0.0 <==> px[Green].value > px[Nir].value)
  {
    NormalizedDifference(px[Green], px[Nir])
  }

  /** MNDWI = (B3 − B11)/(B3 + B11): for a positive band sum, positive exactly where GREEN exceeds SWIR1. */
  function Mndwi(px: Bands): (r: Pixel)
    requires Green in px && Swir1 in px
    ensures r.Some? <==> px[Green].Some? && px[Swir1].Some? && px[Green].value + px[Swir1].value != 0.0
    ensures r.Some? ==> r.value * (px[Green].value + px[Swir1].value) == px[Green].value - px[Swir1].value
    ensures r.Some? && px[Green].value + px[Swir1].value > 0.0 ==>
              (r.value > 0.0 <==> px[Green].value > px[Swir1].value)
  {
    NormalizedDifference(px[Green], px[Swir1])
  }

  /** BSI as its band expression reads; it is the normalized difference of
      SWIR1 + RED against NIR + BLUE. */
  function Bsi(px: Bands): (r: Pixel)
    requires Blue in px && Red in px && Nir in px && Swir1 in px
    ensures r.Some? <==> && px[Blue].Some? && px[Red].Some? && px[Nir].Some? && px[Swir1].Some?
                         && px[Swir1].value + px[Red].value + px[Nir].value + px[Blue].value != 0.0
    ensures r.Some? ==> r.value == NormDiff(px[Swir1].value + px[Red].value, px[Nir].value + px[Blue].value)
  {
    match (px[Blue], px[Red], px[Nir], px[Swir1])
    case (Some(b2), Some(b4), Some(b8), Some(b11)) =>
      var denominator := (b11 + b4) + (b8 + b2);
      if denominator == 0.0 then None
      else
        var r := ((b11 + b4) - (b8 + b2)) / denominator;
        assert r == NormDiff(b11 + b4, b8 + b2);
        Some(r)
    case _ => None
  }

  /** ((NIR − RED)/(NIR + RED + 0.5))·1.5. */
  function SaviValue(nir: real, red: real): (r: real)
    requires nir + red + SaviL != 0.0
    ensures r * (nir + red + SaviL) == SaviScale * (nir - red)
    ensures nir >= 0.0 && red >= 0.0 ==> -SaviScale < r < SaviScale
    ensures 0.0 <= nir <= 1.0 && 0.0 <= red <= 1.0 ==> -1.0 <= r <= 1.0
    ensures nir + red + SaviL > 0.0 ==> (r > 0.0 <==> nir > red) && (r == 0.0 <==> nir == red)
  {
    var q := (nir - red) / (nir + red + SaviL);
    assert q * (nir + red + SaviL) == nir - red;
    SaviRatioBounds(nir, red, q);
    q * SaviScale
  }

  /** Bounds on the unscaled SAVI ratio q = (n − r)/(n + r + 0.5). */
  lemma SaviRatioBounds(n: real, r: real, q: real)
    requires q * (n + r + SaviL) == n - r
    ensures n >= 0.0 && r >= 0.0 ==> -1.0 < q < 1.0
    ensures 0.0 <= n <= 1.0 && 0.0 <= r <= 1.0 ==> -2.0 / 3.0 <= q <= 2.0 / 3.0
    ensures n + r + SaviL > 0.0 ==> (q > 0.0 <==> n > r) && (q == 0.0 <==> n == r)
  {
    var d := n + r + SaviL;
    if d > 0.0 {
      FactorSign(q, d);
    }
    if n >= 0.0 && r >= 0.0 {
      assert (q - 1.0) * d == (n - r) - d < 0.0;
      assert (q + 1.0) * d == (n - r) + d > 0.0;
      FactorSign(q - 1.0, d);
      FactorSign(q + 1.0, d);
      if n <= 1.0 && r <= 1.0 {
        // 3|n − r| <= 3 max(n, r) <= 2 max(n, r) + 1 <= 2(n + r) + 1 = 2d.
        assert (3.0 * q - 2.0) * d == 3.0 * (n - r) - 2.0 * d <= 0.0;
        assert (3.0 * q + 2.0) * d == 3.0 * (n - r) + 2.0 * d >= 0.0;
        FactorSign(3.0 * q - 2.0, d);
        FactorSign(3.0 * q + 2.0, d);
      }
    }
  }

  /** SAVI of a pixel, masked where NIR or RED is masked or the denominator
      is zero. */
  function Savi(px: Bands): (r: Pixel)
    requires Nir in px && Red in px
    ensures r.Some? <==> px[Nir].Some? && px[Red].Some? && px[Nir].value + px[Red].value + SaviL != 0.0
    ensures r.Some? ==> r.value == SaviValue(px[Nir].value, px[Red].value)
  {
    match (px[Nir], px[Red])
    case (Some(n), Some(rd)) => if n + rd + SaviL == 0.0 then None else Some(SaviValue(n, rd))
    case _ => None
  }

  /** The first band of `names` the pixel lacks, if any. */
  function FirstMissing(names: seq<string>, have: set<string>): (r: Option<string>)
    ensures r.None? <==> forall i | 0 <= i < |names| :: names[i] in have
    ensures r.Some? ==> exists i | 0 <= i < |names| :: names[i] == r.value
                                                       && r.value !in have
                                                       && forall j | 0 <= j < i :: names[j] in have
  {
    if |names| == 0 then None
    else if names[0] !in have then Some(names[0])
    else
      var rest := FirstMissing(names[1..], have);
      if rest.Some? then
        ghost var i :| 0 <= i < |names| - 1 && names[1..][i] == rest.value && rest.value !in have
                       && forall j | 0 <= j < i :: names[1..][j] in have;
        assert names[i + 1] == rest.value;
        rest
      else rest
  }

  /** `calculateIndices` on one pixel: the five index bands appended, every
      original band unchanged. */
  function AddIndices(px: Bands): (r: Bands)
    requires HasInputBands(px.Keys)
    requires IndexBands !! px.Keys
    ensures r.Keys == px.Keys + IndexBands
    ensures forall b | b in px :: r[b] == px[b]
    ensures r["NDVI"] == Ndvi(px) && r["NDWI"] == Ndwi(px) && r["MNDWI"] == Mndwi(px)
    ensures r["BSI"] == Bsi(px) && r["SAVI"] == Savi(px)
  {
    px + map["NDVI" := Ndvi(px), "NDWI" := Ndwi(px), "MNDWI" := Mndwi(px),
             "BSI" := Bsi(px), "SAVI" := Savi(px)]
  }

  /** `calculateIndices` on a scene: a missing input band is an error naming
      one of the absent input bands (which one the library reports is not
      fixed by the script, so only its absence is stated); otherwise every
      pixel gets its indices and the band schema grows by the five index
      bands. */
  function CalculateIndices(s: Scene): (r: Result<Scene>)
    requires WellFormed(s)
    requires IndexBands !! s.bandNames
    ensures r.Success? <==> HasInputBands(s.bandNames)
    ensures r.Failure? ==> r.error.name in InputBands && r.error.name !in s.bandNames
    ensures r.Success? ==> && r.value.timeStart == s.timeStart
                           && r.value.bandNames == s.bandNames + IndexBands
                           && |r.value.pixels| == |s.pixels|
                           && WellFormed(r.value)
    ensures r.Success? ==> forall i | 0 <= i < |s.pixels| :: r.value.pixels[i] == AddIndices(s.pixels[i])
  {
    var missing := FirstMissing(InputBands, s.bandNames);
    assert missing.None? <==> HasInputBands(s.bandNames) by {
      assert InputBands[0] == Nir && InputBands[1] == Red && InputBands[2] == Green;
      assert InputBands[3] == Swir1 && InputBands[4] == Blue;
      assert (forall i | 0 <= i < |InputBands| :: InputBands[i] in s.bandNames)
        <==> HasInputBands(s.bandNames);
    }
    if missing.Some? then Failure(MissingBand(missing.value))
    else
      Success(Scene(s.timeStart, s.bandNames + IndexBands,
                    seq(|s.pixels|, i requires 0 <= i < |s.pixels| => AddIndices(s.pixels[i]))))
  }

  /** Surface reflectance in [0, 1]. */
  predicate Reflectance(p: Pixel) {
    p.Some? && 0.0 <= p.value <= 1.0
  }

  /** On valid reflectance every index that is defined lies in [−1, 1];
      SAVI, whose denominator is then positive, is always defined. */
  lemma IndicesBoundedOnReflectance(px: Bands)
    requires HasInputBands(px.Keys)
    requires Reflectance(px[Nir]) && Reflectance(px[Red]) && Reflectance(px[Green])
    requires Reflectance(px[Swir1]) && Reflectance(px[Blue])
    ensures Ndvi(px).Some? ==> -1.0 <= Ndvi(px).value <= 1.0
    ensures Ndwi(px).Some? ==> -1.0 <= Ndwi(px).value <= 1.0
    ensures Mndwi(px).Some? ==> -1.0 <= Mndwi(px).value <= 1.0
    ensures Bsi(px).Some? ==> -1.0 <= Bsi(px).value <= 1.0
    ensures Savi(px).Some? && -1.0 <= Savi(px).value <= 1.0
  {
  }
}
