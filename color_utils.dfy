/**
 * Colour math utilities: McCamy's correlated-colour-temperature
 * approximation, chromaticity (xy) <-> tristimulus (XYZ) conversion, the
 * linearized Bradford white-point adaptation, and the standard constants
 * (illuminant chromaticities, the Bradford and XYZ-D65 -> linear-sRGB
 * matrices). Everything is exact real arithmetic.
 */
module ColorUtils {
  import opened LinAlg
  import opened Errors

  /** A CIE xy chromaticity. */
  datatype XY = XY(x: real, y: real)

  // ---------------------------------------------------------------------------
  // Correlated colour temperature (McCamy's cubic)

  /** The pole of McCamy's approximation: n divides by 0.1858 - y. */
  const McCamyPoleY: real := 0.1858

  /** McCamy's n = (x - 0.3320) / (0.1858 - y). */
  function McCamyN(xy: XY): real
    requires xy.y != McCamyPoleY
  {
    (xy.x - 0.3320) / (McCamyPoleY - xy.y)
  }

  /** CCT = 437 n^3 + 3601 n^2 + 6861 n + 5517. */
  function CctCubic(n: real): real {
    437.0 * n * n * n + 3601.0 * n * n + 6861.0 * n + 5517.0
  }

  /**
   * temp_from_xy. Undefined on the pole y == 0.1858, which the source does not
   * guard either. On the line x == 0.3320 the temperature is the constant term.
   */
  function TempFromXY(xy: XY): (t: real)
    requires xy.y != McCamyPoleY
    ensures xy.x == 0.3320 ==> t == 5517.0
  {
    var n := McCamyN(xy);
    assert xy.x == 0.3320 ==> n == 0.0;
    CctCubic(n)
  }

  /**
   * The cubic is strictly increasing for n >= -1, a range that holds every
   * standard illuminant from A (n about -0.52) to D75 (n about 0.26).
   */
  lemma {:induction false} CctCubicIncreasing(n1: real, n2: real)
    requires -1.0 <= n1 < n2
    ensures CctCubic(n1) < CctCubic(n2)
  {
    var a, b := n1 + 1.0, n2 + 1.0;
    var q := 437.0 * (n2 * n2 + n1 * n2 + n1 * n1) + 3601.0 * (n1 + n2) + 6861.0;
    assert CctCubic(n2) - CctCubic(n1) == (n2 - n1) * q;
    assert q == 437.0 * (a * a + a * b + b * b) + 2290.0 * (a + b) + 970.0;
    assert a * a >= 0.0 && a * b >= 0.0 && b * b >= 0.0;
    assert q > 0.0;
    assert (n2 - n1) * q > 0.0;
  }

  // ---------------------------------------------------------------------------
  // Standard constants

  function D50XY(): XY { XY(0.3457, 0.3585) }

  /** As written, d55_xy repeats the D65 chromaticity; see D55XYIntended. */
  function D55XY(): XY { XY(0.3127, 0.3290) }

  function D65XY(): XY { XY(0.3127, 0.3290) }

  function D75XY(): XY { XY(0.2990, 0.3149) }

  function StandardAXY(): XY { XY(0.4476, 0.4074) }

  /** The CIE chromaticity of illuminant D55, which d55_xy evidently means to return. */
  function D55XYIntended(): XY { XY(0.3324, 0.3474) }

  /** The standard illuminants, ordered by McCamy temperature: A < D50 < D65 < D75. */
  lemma StandardIlluminantTemperatures()
    ensures 2855.0 < TempFromXY(StandardAXY()) < 2856.0
    ensures 4995.0 < TempFromXY(D50XY()) < 4996.0
    ensures 6508.0 < TempFromXY(D65XY()) < 6509.0
    ensures 7513.0 < TempFromXY(D75XY()) < 7514.0
  {
  }

  /** d55_xy as written is D65: its temperature is about 6508 K, not 5500 K. */
  lemma D55AsWrittenIsD65()
    ensures D55XY() == D65XY()
    ensures TempFromXY(D55XY()) > 6500.0
  {
    StandardIlluminantTemperatures();
  }

  /** The intended D55 sits at 5500 K, between D50 and D65. */
  lemma D55IntendedTemperature()
    ensures 5499.0 < TempFromXY(D55XYIntended()) < 5501.0
    ensures TempFromXY(D50XY()) < TempFromXY(D55XYIntended()) < TempFromXY(D65XY())
  {
    StandardIlluminantTemperatures();
  }

  /** Standard matrix yielding linear sRGB from XYZ D65. */
  function SrgbFromXyzD65(): Mat3 {
    Mat3(3.24071, -1.53726, -0.498571,
         -0.969258, 1.87599, 0.0415557,
         0.0556352, -0.203996, 1.05707)
  }

  /** The linearized Bradford cone-response matrix. */
  function Bradford(): Mat3 {
    Mat3(0.8951, 0.2664, -0.1614,
         -0.7502, 1.7135, 0.0367,
         0.0389, -0.0685, 1.0296)
  }

  /** np.linalg.inv of the Bradford matrix, which is not singular. */
  function BradfordInverse(): (r: Mat3)
    ensures MatMul(Bradford(), r) == Identity() && MatMul(r, Bradford()) == Identity()
  {
    assert Det(Bradford()) != 0.0;
    Inverse(Bradford()).value
  }

  // ---------------------------------------------------------------------------
  // xy <-> XYZ

  /** The default clamp range of xyz_from_xy: [1e-6, 1 - 1e-6]. */
  const MinXY: real := 0.000001
  const MaxXY: real := 0.999999

  /** np.clip(v, lo, hi), which is min(max(v, lo), hi). */
  function Clip(v: real, lo: real, hi: real): (r: real)
    ensures lo <= hi ==> lo <= r <= hi
    ensures lo <= v <= hi ==> r == v
  {
    var m := if v < lo then lo else v;
    if m > hi then hi else m
  }

  /** xy.clip(lo, hi), componentwise. */
  function ClipXY(xy: XY, lo: real, hi: real): XY {
    XY(Clip(xy.x, lo, hi), Clip(xy.y, lo, hi))
  }

  /**
   * The working chromaticity of xyz_from_xy: clipped to [lo, hi], then, if the
   * clipped coordinates sum to more than hi, scaled along their own ray so that
   * they sum to exactly hi. Both coordinates stay positive.
   */
  function ClampXY(xy: XY, lo: real, hi: real): (t: XY)
    requires 0.0 < lo <= hi
    ensures 0.0 < t.x && 0.0 < t.y && t.x + t.y <= hi
    ensures var c := ClipXY(xy, lo, hi);
      if c.x + c.y > hi then t.x + t.y == hi && t.x * c.y == t.y * c.x
      else t == c && lo <= t.x <= hi && lo <= t.y <= hi
  {
    var c := ClipXY(xy, lo, hi);
    var sum := c.x + c.y;
    if sum > hi then
      var scale := hi / sum;
      var t := XY(c.x * scale, c.y * scale);
      assert t.x + t.y == (c.x + c.y) * scale == hi;
      t
    else
      c
  }

  /**
   * xyz_from_xy: (x / y, 1, (1 - x - y) / y) of the working chromaticity.
   * The caller's xy is a value here, so it cannot be changed (the source
   * clips into a fresh copy before scaling it in place).
   */
  function XyzFromXY(xy: XY, lo: real, hi: real): (r: Vec3)
    requires 0.0 < lo <= hi
    ensures r.y == 1.0
    ensures r.x > 0.0
    ensures hi <= 1.0 ==> r.z >= 0.0
    ensures hi < 1.0 ==> r.z > 0.0
  {
    var t := ClampXY(xy, lo, hi);
    Vec3(t.x / t.y, 1.0, (1.0 - t.x - t.y) / t.y)
  }

  /**
   * xy_from_xyz as its comment documents it: (X, Y) / (X + Y + Z) when the sum
   * is positive, otherwise the PCS white D50.
   */
  function XyFromXyz(xyz: Vec3): (r: XY)
    ensures Sum(xyz) > 0.0 ==> r.x * Sum(xyz) == xyz.x && r.y * Sum(xyz) == xyz.y
    ensures Sum(xyz) <= 0.0 ==> r == D50XY()
  {
    var s := Sum(xyz);
    if s > 0.0 then XY(xyz.x / s, xyz.y / s) else D50XY()
  }

  /**
   * xy_from_xyz as written: the fallback branch calls d50_XYCoord(), which is
   * defined nowhere, so it raises NameError instead of returning D50.
   */
  function XyFromXyzAsWritten(xyz: Vec3): (r: Result<XY>)
    ensures Sum(xyz) > 0.0 ==> r == Ok(XyFromXyz(xyz))
    ensures Sum(xyz) <= 0.0 ==> r == Err(NameError)
  {
    var s := Sum(xyz);
    if s > 0.0 then Ok(XY(xyz.x / s, xyz.y / s)) else Err(NameError)
  }

  /** The black tristimulus value shows the discrepancy: NameError, where D50 is documented. */
  lemma XyFromXyzFallbackDiscrepancy()
    ensures XyFromXyzAsWritten(Vec3(0.0, 0.0, 0.0)) == Err(NameError)
    ensures XyFromXyz(Vec3(0.0, 0.0, 0.0)) == D50XY()
  {
  }

  /** Chromaticity ignores a positive change of luminance. */
  lemma XyFromXyzScaleInvariant(k: real, xyz: Vec3)
    requires k > 0.0
    ensures XyFromXyz(VecScale(k, xyz)) == XyFromXyz(xyz)
  {
    var s := Sum(xyz);
    assert Sum(VecScale(k, xyz)) == k * s;
    if s > 0.0 {
      assert (k * xyz.x) / (k * s) == xyz.x / s;
      assert (k * xyz.y) / (k * s) == xyz.y / s;
    } else {
      assert k * s <= 0.0;
    }
  }

  /** The division identities behind the xy -> XYZ -> xy round trip. */
  lemma {:induction false} ChromaticityRoundTrip(x: real, y: real)
    requires y > 0.0
    ensures var s := x / y + 1.0 + (1.0 - x - y) / y;
      s > 0.0 && (x / y) / s == x && 1.0 / s == y
  {
    var s := x / y + 1.0 + (1.0 - x - y) / y;
    assert (x / y) * y == x;
    assert ((1.0 - x - y) / y) * y == 1.0 - x - y;
    assert s * y == 1.0;
    assert s == 1.0 / y;
  }

  /** Converting to XYZ and back yields the working (clamped) chromaticity. */
  lemma XyzRoundTrip(xy: XY, lo: real, hi: real)
    requires 0.0 < lo <= hi
    ensures XyFromXyz(XyzFromXY(xy, lo, hi)) == ClampXY(xy, lo, hi)
  {
    var t := ClampXY(xy, lo, hi);
    ChromaticityRoundTrip(t.x, t.y);
  }

  /** A chromaticity already in range (each coordinate in [lo, hi], sum <= hi) survives the round trip unchanged. */
  lemma XyzRoundTripInRange(xy: XY, lo: real, hi: real)
    requires 0.0 < lo <= hi
    requires lo <= xy.x <= hi && lo <= xy.y <= hi && xy.x + xy.y <= hi
    ensures XyFromXyz(XyzFromXY(xy, lo, hi)) == xy
  {
    XyzRoundTrip(xy, lo, hi);
  }

  // ---------------------------------------------------------------------------
  // Linearized Bradford adaptation

  /** np.clip(v, 0, None): negative components become 0. */
  function ClipNonNegative(v: Vec3): (r: Vec3)
    ensures r.x >= 0.0 && r.y >= 0.0 && r.z >= 0.0
    ensures v.x < 0.0 ==> r.x == 0.0
    ensures v.y < 0.0 ==> r.y == 0.0
    ensures v.z < 0.0 ==> r.z == 0.0
    ensures v.x >= 0.0 ==> r.x == v.x
    ensures v.y >= 0.0 ==> r.y == v.y
    ensures v.z >= 0.0 ==> r.z == v.z
  {
    Vec3(if v.x < 0.0 then 0.0 else v.x,
         if v.y < 0.0 then 0.0 else v.y,
         if v.z < 0.0 then 0.0 else v.z)
  }

  /** The cone response of a white point, negative responses clipped to 0. */
  function ConeResponse(white: XY): (w: Vec3)
    ensures w.x >= 0.0 && w.y >= 0.0 && w.z >= 0.0
  {
    ClipNonNegative(MatVec(Bradford(), XyzFromXY(white, MinXY, MaxXY)))
  }

  /** One channel's adaptation ratio w2 / (w1 + eps), clipped to [minScale, maxScale]. */
  function ChannelScale(w1: real, w2: real, eps: real, minScale: real, maxScale: real): (a: real)
    requires w1 >= 0.0 && eps > 0.0
    ensures minScale <= maxScale ==> minScale <= a <= maxScale
    ensures minScale <= w2 / (w1 + eps) <= maxScale ==> a * (w1 + eps) == w2
  {
    Clip(w2 / (w1 + eps), minScale, maxScale)
  }

  /**
   * The diagonal of map_colors_between_white_points: per cone channel, the
   * target white's response over the source white's (plus eps, so the divisor
   * is at least eps > 0), limited to [minScale, maxScale].
   */
  function AdaptationScales(fromWhite: XY, toWhite: XY, eps: real, minScale: real, maxScale: real): (a: Vec3)
    requires eps > 0.0
    ensures minScale <= maxScale ==>
      minScale <= a.x <= maxScale && minScale <= a.y <= maxScale && minScale <= a.z <= maxScale
  {
    var w1, w2 := ConeResponse(fromWhite), ConeResponse(toWhite);
    Vec3(ChannelScale(w1.x, w2.x, eps, minScale, maxScale),
         ChannelScale(w1.y, w2.y, eps, minScale, maxScale),
         ChannelScale(w1.z, w2.z, eps, minScale, maxScale))
  }

  /** map_colors_between_white_points: inv(B) @ diag(a) @ B. */
  function MapColorsBetweenWhitePoints(fromWhite: XY, toWhite: XY, eps: real, minScale: real, maxScale: real): Mat3
    requires eps > 0.0
  {
    MatMul(MatMul(BradfordInverse(), Diag(AdaptationScales(fromWhite, toWhite, eps, minScale, maxScale))), Bradford())
  }

  /** The default arguments eps = 1e-12, min_scale = 0.1, max_scale = 10. */
  function MapColorsDefault(fromWhite: XY, toWhite: XY): Mat3 {
    MapColorsBetweenWhitePoints(fromWhite, toWhite, 0.000000000001, 0.1, 10.0)
  }

  /**
   * In cone-response space the adaptation is exactly the per-channel scaling:
   * the cone response of the adapted colour is the colour's cone response
   * multiplied channel by channel by the clipped ratios.
   */
  lemma MapColorsConeSpace(fromWhite: XY, toWhite: XY, eps: real, minScale: real, maxScale: real, v: Vec3)
    requires eps > 0.0
    ensures var a := AdaptationScales(fromWhite, toWhite, eps, minScale, maxScale);
      MatVec(Bradford(), MatVec(MapColorsBetweenWhitePoints(fromWhite, toWhite, eps, minScale, maxScale), v))
      == MatVec(Diag(a), MatVec(Bradford(), v))
  {
    ConjugateByInverse(Bradford(), BradfordInverse(), Diag(AdaptationScales(fromWhite, toWhite, eps, minScale, maxScale)), v);
  }

  /** linear_srgb_from_xyz_d50: srgb_from_xyz_d65 @ (XYZ D65 <- XYZ D50). */
  function LinearSrgbFromXyzD50(): Mat3 {
    MatMul(SrgbFromXyzD65(), MapColorsDefault(D50XY(), D65XY()))
  }
}
