/**
 * The DNG calibration record: colour matrices, camera calibrations and the
 * chromaticities of the two calibration illuminants, plus the analog balance.
 * It is immutable; standardizing it yields a record whose first illuminant
 * has the lower (or equal) correlated colour temperature.
 */
module ColorInfo {
  import opened LinAlg
  import opened ColorUtils

  datatype ColorInfo = ColorInfo(
    colorMatrix1: Mat3,
    colorMatrix2: Mat3,
    illuminant1XY: XY,
    illuminant2XY: XY,
    cameraCalib1: Mat3,
    cameraCalib2: Mat3,
    analogBalance: Vec3)
  {
    /** Both illuminant temperatures are defined: neither y sits on McCamy's pole. */
    predicate TemperaturesDefined() {
      illuminant1XY.y != McCamyPoleY && illuminant2XY.y != McCamyPoleY
    }

    function Illuminant1Temperature(): real
      requires illuminant1XY.y != McCamyPoleY
    {
      TempFromXY(illuminant1XY)
    }

    function Illuminant2Temperature(): real
      requires illuminant2XY.y != McCamyPoleY
    {
      TempFromXY(illuminant2XY)
    }

    /** diag(analog_balance) @ camera_calib_1 @ color_matrix_1 */
    function CalibratedColorMatrix1(): Mat3 {
      MatMul(MatMul(Diag(analogBalance), cameraCalib1), colorMatrix1)
    }

    /** diag(analog_balance) @ camera_calib_2 @ color_matrix_2 */
    function CalibratedColorMatrix2(): Mat3 {
      MatMul(MatMul(Diag(analogBalance), cameraCalib2), colorMatrix2)
    }

    /**
     * standardized: the record itself when temp1 <= temp2; otherwise a record
     * with the two illuminants' matrices, chromaticities and calibrations
     * exchanged and the same analog balance. Either way the new first
     * temperature is the lower of the two and the second the higher.
     */
    function Standardized(): (r: ColorInfo)
      requires TemperaturesDefined()
      ensures r.TemperaturesDefined()
      ensures r.Illuminant1Temperature() <= r.Illuminant2Temperature()
      ensures r.Illuminant1Temperature() == Min(Illuminant1Temperature(), Illuminant2Temperature())
      ensures r.Illuminant2Temperature() == MaxOf(Illuminant1Temperature(), Illuminant2Temperature())
      ensures Illuminant1Temperature() <= Illuminant2Temperature() ==> r == this
      ensures Illuminant1Temperature() > Illuminant2Temperature() ==>
        r.colorMatrix1 == colorMatrix2 && r.colorMatrix2 == colorMatrix1 &&
        r.illuminant1XY == illuminant2XY && r.illuminant2XY == illuminant1XY &&
        r.cameraCalib1 == cameraCalib2 && r.cameraCalib2 == cameraCalib1 &&
        r.analogBalance == analogBalance
    {
      if Illuminant1Temperature() <= Illuminant2Temperature() then this
      else
        ColorInfo(colorMatrix2, colorMatrix1, illuminant2XY, illuminant1XY,
                  cameraCalib2, cameraCalib1, analogBalance)
    }
  }

  function Min(a: real, b: real): real {
    if a <= b then a else b
  }

  function MaxOf(a: real, b: real): real {
    if a <= b then b else a
  }

  /**
   * The dataclass defaults: identity colour matrices and calibrations, D65 as
   * the first illuminant, standard illuminant A as the second, unit balance.
   */
  function DefaultColorInfo(): (c: ColorInfo)
    ensures c.TemperaturesDefined()
  {
    ColorInfo(Identity(), Identity(), D65XY(), StandardAXY(),
              Identity(), Identity(), Vec3(1.0, 1.0, 1.0))
  }

  /** Standardizing twice is standardizing once. */
  lemma StandardizedIdempotent(c: ColorInfo)
    requires c.TemperaturesDefined()
    ensures c.Standardized().Standardized() == c.Standardized()
  {
  }

  /** A swap exchanges the calibrated matrices as well, since the balance stays put. */
  lemma {:induction false} StandardizedSwapsCalibrated(c: ColorInfo)
    requires c.TemperaturesDefined()
    requires c.Illuminant1Temperature() > c.Illuminant2Temperature()
    ensures c.Standardized().CalibratedColorMatrix1() == c.CalibratedColorMatrix2()
    ensures c.Standardized().CalibratedColorMatrix2() == c.CalibratedColorMatrix1()
  {
    var r := c.Standardized();
    assert r.analogBalance == c.analogBalance;
    assert r.cameraCalib1 == c.cameraCalib2 && r.colorMatrix1 == c.colorMatrix2;
    assert r.cameraCalib2 == c.cameraCalib1 && r.colorMatrix2 == c.colorMatrix1;
  }

  /**
   * With the default identity calibration and unit analog balance, a
   * calibrated colour matrix (diag(balance) @ calib @ m, the shape of both
   * CalibratedColorMatrix1 and CalibratedColorMatrix2) is the colour matrix m.
   */
  lemma {:induction false} CalibratedWithUnitCalibration(balance: Vec3, calib: Mat3, m: Mat3)
    requires balance == Vec3(1.0, 1.0, 1.0) && calib == Identity()
    ensures MatMul(MatMul(Diag(balance), calib), m) == m
  {
    var d := Diag(balance);
    assert d == Identity();
    MatMulIdentity(calib);
    assert MatMul(d, calib) == calib;
    MatMulIdentity(m);
  }

  /**
   * The default record lists D65 (about 6508 K) before A (about 2856 K), so
   * standardizing it swaps the two illuminants.
   */
  lemma DefaultColorInfoIsSwapped()
    ensures DefaultColorInfo().Standardized().illuminant1XY == StandardAXY()
    ensures DefaultColorInfo().Standardized().illuminant2XY == D65XY()
  {
    StandardIlluminantTemperatures();
  }
}
