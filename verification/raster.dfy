/** Data model shared by every stage: single pixels with a validity mask,
    multi-band pixels, scenes and the pixel-level primitives of the image
    algebra (comparisons, `selfMask`, `unmask`, `clamp`).

    A pixel is `Option<real>`: `None` is a masked (no-data) pixel and
    `Some(v)` a valid one. Values are exact reals, not IEEE floats. */
module Raster {

  datatype Option<+T> = None | Some(value: T)

  /** Errors the image algebra raises; selecting a band the image does not
      have is the only one the modelled operations can reach. */
  datatype Error = MissingBand(name: string)

  datatype Result<+T> = Success(value: T) | Failure(error: Error)

  type Pixel = Option<real>

  /** One pixel of a multi-band image: band name to (possibly masked) value. */
  type Bands = map<string, Pixel>

  /** One pixel of a raw scene: band name to (possibly masked) unsigned
      digital number, as delivered by the sensor products. */
  type RawBands = map<string, Option<nat>>

  /** A raw scene: its acquisition time (`system:time_start`), its band
      schema and its pixels, all on one grid. */
  datatype RawScene = RawScene(timeStart: int, bandNames: set<string>, pixels: seq<RawBands>)

  /** A scene after masking / rescaling. */
  datatype Scene = Scene(timeStart: int, bandNames: set<string>, pixels: seq<Bands>)

  /** Every pixel of a scene carries exactly the scene's bands. */
  predicate RawWellFormed(s: RawScene) {
    forall i | 0 <= i < |s.pixels| :: s.pixels[i].Keys == s.bandNames
  }

  predicate WellFormed(s: Scene) {
    forall i | 0 <= i < |s.pixels| :: s.pixels[i].Keys == s.bandNames
  }

  /** The value an image comparison or logical operator writes: 1 for true, 0 for false. */
  function Indicator(b: bool): (r: real)
    ensures r == 0.0 || r == 1.0
    ensures r == 1.0 <==> b
  {
    if b then 1.0 else 0.0
  }

  /** `image.lt(c)`: 1 where the value is below `c`, 0 where it is not,
      masked where the input is masked. */
  function LessThan(p: Pixel, c: real): (r: Pixel)
    ensures r.Some? <==> p.Some?
    ensures r.Some? ==> (r.value == 1.0 <==> p.value < c)
    ensures r.Some? ==> (r.value == 0.0 <==> p.value >= c)
  {
    match p
    case None => None
    case Some(v) => Some(Indicator(v < c))
  }

  /** `image.gt(c)`. */
  function GreaterThan(p: Pixel, c: real): (r: Pixel)
    ensures r.Some? <==> p.Some?
    ensures r.Some? ==> (r.value == 1.0 <==> p.value > c)
    ensures r.Some? ==> (r.value == 0.0 <==> p.value <= c)
  {
    match p
    case None => None
    case Some(v) => Some(Indicator(v > c))
  }

  /** `a && b` in an image expression: 1 where both operands are non-zero,
      0 where either is zero, masked where either is masked. */
  function And(a: Pixel, b: Pixel): (r: Pixel)
    ensures r.Some? <==> a.Some? && b.Some?
    ensures r.Some? ==> (r.value == 1.0 <==> a.value != 0.0 && b.value != 0.0)
    ensures r.Some? ==> (r.value == 0.0 <==> a.value == 0.0 || b.value == 0.0)
  {
    match (a, b)
    case (Some(x), Some(y)) => Some(Indicator(x != 0.0 && y != 0.0))
    case _ => None
  }

  /** `selfMask()` on a 0/1 image: masks the zeros and keeps the ones. The
      library uses the value itself as the new mask weight, so a value
      strictly between 0 and 1 would be kept only partially; `Option`
      cannot express that, and the script applies `selfMask()` only to
      0/1 comparison results. */
  function SelfMask(p: Pixel): (r: Pixel)
    ensures r.Some? <==> p.Some? && p.value != 0.0
    ensures r.Some? ==> r == p
  {
    match p
    case Some(v) => if v != 0.0 then p else None
    case None => None
  }

  /** `unmask(d)`: replaces every masked pixel by the valid value `d`. */
  function Unmask(p: Pixel, d: real): (r: Pixel)
    ensures r.Some?
    ensures p.Some? ==> r == p
    ensures p.None? ==> r.value == d
  {
    match p
    case Some(_) => p
    case None => Some(d)
  }

  /** `clamp(lo, hi)` on one value. */
  function Clamp(x: real, lo: real, hi: real): (r: real)
    requires lo <= hi
    ensures lo <= r <= hi
    ensures lo <= x <= hi ==> r == x
    ensures x <= lo ==> r == lo
    ensures x >= hi ==> r == hi
  {
    if x < lo then lo else if x > hi then hi else x
  }
}
