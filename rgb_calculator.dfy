/** `RgbCalculator`: a wavelength in nm to an sRGB triple through the CIE 1964 10° standard
    observer colour-matching functions (sampled every 5 nm from 380 to 780 nm), the sRGB D65
    XYZ-to-linear-sRGB matrix, the sRGB transfer function and a final clip to [0,1].
    `Math.pow` is not modelled: it is the parameter `pow`, and nothing proved here depends on it. */
module RgbCalculator {
  import opened Samples

  const LEN_MIN: real := 380.0
  const LEN_MAX: real := 780.0
  /* The grid step `LEN_STEP` is written below as the literal 5.0, the table span
     LEN_MAX - LEN_MIN as 400.0 and the shift of the colour function as 380.0, so that every
     product stays linear and every shifted argument is the same term. */

  /** The three colour-matching tables and the matrix, row by row. */
  const X: seq<real> := [
    0.00016, 0.000662, 0.002362, 0.007242, 0.01911, 0.0434, 0.084736, 0.140638, 0.204492, 0.264737,
    0.314679, 0.357719, 0.383734, 0.386726, 0.370702, 0.342957, 0.302273, 0.254085, 0.195618,
    0.132349, 0.080507, 0.041072, 0.016172, 0.005132, 0.003816, 0.015444, 0.037465, 0.071358,
    0.117749, 0.172953, 0.236491, 0.304213, 0.376772, 0.451584, 0.529826, 0.616053, 0.705224,
    0.793832, 0.878655, 0.951162, 1.01416, 1.0743, 1.11852, 1.1343, 1.12399, 1.0891, 1.03048,
    0.95074, 0.856297, 0.75493, 0.647467, 0.53511, 0.431567, 0.34369, 0.268329, 0.2043, 0.152568,
    0.11221, 0.081261, 0.05793, 0.040851, 0.028623, 0.019941, 0.013842, 0.009577, 0.006605,
    0.004553, 0.003145, 0.002175, 0.001506, 0.001045, 0.000727, 0.000508, 0.000356, 0.000251,
    0.000178, 0.000126, 0.00009, 0.000065, 0.000046, 0.000033
  ]

  const Y: seq<real> := [
    0.000017, 0.000072, 0.000253, 0.000769, 0.002004, 0.004509, 0.008756, 0.014456, 0.021391,
    0.029497, 0.038676, 0.049602, 0.062077, 0.074704, 0.089456, 0.106256, 0.128201, 0.152761,
    0.18519, 0.21994, 0.253589, 0.297665, 0.339133, 0.395379, 0.460777, 0.53136, 0.606741, 0.68566,
    0.761757, 0.82333, 0.875211, 0.92381, 0.961988, 0.9822, 0.991761, 0.99911, 0.99734, 0.98238,
    0.955552, 0.915175, 0.868934, 0.825623, 0.777405, 0.720353, 0.658341, 0.593878, 0.527963,
    0.461834, 0.398057, 0.339554, 0.283493, 0.228254, 0.179828, 0.140211, 0.107633, 0.081187,
    0.060281, 0.044096, 0.0318, 0.022602, 0.015905, 0.01113, 0.007749, 0.005375, 0.003718,
    0.002565, 0.001768, 0.001222, 0.000846, 0.000586, 0.000407, 0.000284, 0.000199, 0.00014,
    0.000098, 0.00007, 0.00005, 0.000036, 0.000025, 0.000018, 0.000013
  ]

  const Z: seq<real> := [
    0.000705, 0.002928, 0.010482, 0.032344, 0.086011, 0.19712, 0.389366, 0.65676, 0.972542, 1.2825,
    1.55348, 1.7985, 1.96728, 2.0273, 1.9948, 1.9007, 1.74537, 1.5549, 1.31756, 1.0302, 0.772125,
    0.57006, 0.415254, 0.302356, 0.218502, 0.159249, 0.112044, 0.082248, 0.060709, 0.04305,
    0.030451, 0.020584, 0.013676, 0.007918, 0.003988, 0.001091, 0.0, 0.0, 0.0, 0.0, 0.0, 0.0, 0.0,
    0.0, 0.0, 0.0, 0.0, 0.0, 0.0, 0.0, 0.0, 0.0, 0.0, 0.0, 0.0, 0.0, 0.0, 0.0, 0.0, 0.0, 0.0, 0.0,
    0.0, 0.0, 0.0, 0.0, 0.0, 0.0, 0.0, 0.0, 0.0, 0.0, 0.0, 0.0, 0.0, 0.0, 0.0, 0.0, 0.0, 0.0,
    0.0
  ]

  const MATRIX_SRGB_D65: seq<real> := [
    3.2404542, -1.5371385, -0.4985314, -0.969266, 1.8760108, 0.041556, 0.0556434, -0.2040259,
    1.0572252
  ]

  lemma TableSizes()
    ensures |X| == 81 && |Y| == 81 && |Z| == 81 && |MATRIX_SRGB_D65| == 9
  {
  }

  /** `Math.floor(len / LEN_STEP)` after `len -= LEN_MIN`: inside the table's span [0,400] the
      index lies in [0,80]. */
  function GridIndex(shifted: real): (i: int)
    ensures 0.0 <= shifted <= 400.0 ==> 0 <= i <= 80
    ensures i as real * 5.0 <= shifted < (i + 1) as real * 5.0
  {
    var q := (shifted / 5.0).Floor;
    assert q as real <= shifted / 5.0 < q as real + 1.0;
    assert 5.0 * (shifted / 5.0) == shifted;
    q
  }

  /** `len - LEN_STEP * index` after `len -= LEN_MIN`: always in [0,5); inside the table's span
      a non-zero offset forces index <= 79, so `index + 1` is a valid position of an 81-entry
      table. */
  function GridOffset(shifted: real): (o: real)
    ensures 0.0 <= o < 5.0
    ensures 0.0 <= shifted <= 400.0 && o != 0.0 ==> GridIndex(shifted) <= 79
  {
    shifted - 5.0 * GridIndex(shifted) as real
  }

  /** On a grid point 380 + 5k the index is k and the offset 0. */
  lemma GridExact(k: int)
    requires 0 <= k <= 80
    ensures GridIndex(5.0 * k as real) == k && GridOffset(5.0 * k as real) == 0.0
  {
    assert 5.0 * k as real / 5.0 == k as real;
  }

  /** `interpolate(values, index, offset)`: the sample itself when the offset is 0, otherwise the
      linear blend `y0 + (offset / 5) * (y1 - y0)`, which for an offset inside the step lies between
      the two samples. `values[index + 1]` is read only for a non-zero offset. */
  function Interpolate(values: seq<real>, index: int, offset: real): (v: real)
    requires 0 <= index < |values|
    requires offset != 0.0 ==> index + 1 < |values|
    ensures offset == 0.0 ==> v == values[index]
    ensures offset != 0.0 ==> v == values[index] + (offset / 5.0) * (values[index + 1] - values[index])
    ensures 0.0 <= offset <= 5.0 && offset != 0.0 ==> Between(values[index], values[index + 1], v)
  {
    if offset == 0.0 then values[index]
    else
      var x0 := index as real * 5.0;
      var x1 := x0 + 5.0;
      var y0 := values[index];
      var y1 := values[index + 1];
      var v := y0 + (offset * (y1 - y0)) / (x1 - x0);
      assert v == y0 + (y1 - y0) * (offset / 5.0);
      if 0.0 <= offset <= 5.0 then LerpBetween(y0, y1, offset / 5.0); v else v
  }

  /** `gammaCorrect_sRGB`: the linear segment `12.92 * c` up to 0.0031308, the power segment
      `1.055 * c^(1/2.4) - 0.055` above it. */
  function GammaCorrect(c: real, pow: (real, real) -> real): (v: real)
    ensures c <= 0.0031308 ==> v == 12.92 * c
    ensures c > 0.0031308 ==> v == 1.055 * pow(c, 1.0 / 2.4) - 0.055
  {
    if c <= 0.0031308 then 12.92 * c
    else
      var a := 0.055;
      (1.0 + a) * pow(c, 1.0 / 2.4) - a
  }

  /** On the linear segment the result does not depend on `Math.pow` at all, keeps the sign of
      `c`, and stays below 12.92 * 0.0031308. */
  lemma GammaLinearSegment(c: real, pow1: (real, real) -> real, pow2: (real, real) -> real)
    requires c <= 0.0031308
    ensures GammaCorrect(c, pow1) == GammaCorrect(c, pow2)
    ensures GammaCorrect(c, pow1) <= 0.040449936
    ensures (GammaCorrect(c, pow1) < 0.0 <==> c < 0.0) && (GammaCorrect(c, pow1) == 0.0 <==> c == 0.0)
  {
  }

  function Max(a: real, b: real): (m: real) { if a >= b then a else b }
  function Min(a: real, b: real): (m: real) { if a <= b then a else b }

  /** `clip`: `Math.max(0, Math.min(1, c))`, always in [0,1], below 0 it gives 0, above 1 it
      gives 1. */
  function Clip(c: real): (v: real)
    ensures 0.0 <= v <= 1.0
    ensures c < 0.0 ==> v == 0.0
    ensures c > 1.0 ==> v == 1.0
  {
    Max(0.0, Min(1.0, c))
  }

  /** Clipping is the identity on [0,1] and idempotent. */
  lemma ClipIdentityAndIdempotent(c: real)
    ensures 0.0 <= c <= 1.0 ==> Clip(c) == c
    ensures Clip(Clip(c)) == Clip(c)
  {
  }

  /** The interpolated (X, Y, Z) tristimulus values at `shifted` nm above LEN_MIN, for a
      wavelength in [380,780]. */
  function Tristimulus(shifted: real): (xyz: Vector3)
    requires 0.0 <= shifted <= 400.0
  {
    var index := GridIndex(shifted);
    var offset := GridOffset(shifted);
    Vector3(Interpolate(X, index, offset), Interpolate(Y, index, offset), Interpolate(Z, index, offset))
  }

  lemma TristimulusComponents(shifted: real)
    requires 0.0 <= shifted <= 400.0
    ensures Tristimulus(shifted) == Vector3(Interpolate(X, GridIndex(shifted), GridOffset(shifted)),
                                            Interpolate(Y, GridIndex(shifted), GridOffset(shifted)),
                                            Interpolate(Z, GridIndex(shifted), GridOffset(shifted)))
  {
  }

  /** `m * (x, y, z)` with the D65 matrix held row by row. */
  function ToLinearSrgb(xyz: Vector3): (lin: Vector3) {
    var m := MATRIX_SRGB_D65;
    Vector3(m[0] * xyz.x + m[1] * xyz.y + m[2] * xyz.z,
            m[3] * xyz.x + m[4] * xyz.y + m[5] * xyz.z,
            m[6] * xyz.x + m[7] * xyz.y + m[8] * xyz.z)
  }

  /** Gamma encoding followed by the clip, per channel. */
  function Encode(lin: Vector3, pow: (real, real) -> real): (v: Vector3) {
    Vector3(Clip(GammaCorrect(lin.x, pow)), Clip(GammaCorrect(lin.y, pow)), Clip(GammaCorrect(lin.z, pow)))
  }

  ghost predicate InUnitCube(v: Vector3) {
    0.0 <= v.x <= 1.0 && 0.0 <= v.y <= 1.0 && 0.0 <= v.z <= 1.0
  }

  /** The colour `calc` computes: black outside [380,780], else the encoded transform of the
      interpolated tristimulus values. Always inside the unit cube. */
  function Color(len: real, pow: (real, real) -> real): (v: Vector3)
    ensures len < LEN_MIN || len > LEN_MAX ==> v == Vector3(0.0, 0.0, 0.0)
    ensures InUnitCube(v)
  {
    if len < LEN_MIN || len > LEN_MAX then Vector3(0.0, 0.0, 0.0)
    else Encode(ToLinearSrgb(Tristimulus(len - 380.0)), pow)
  }

  /** A visible wavelength's colour is the encoded transform of the tristimulus values at its
      shifted position. */
  lemma ColorShifted(len: real, l: real, pow: (real, real) -> real)
    requires LEN_MIN <= len <= LEN_MAX && l == len - LEN_MIN
    ensures 0.0 <= l <= 400.0
    ensures Color(len, pow) == Encode(ToLinearSrgb(Tristimulus(l)), pow)
  {
    assert l == len - 380.0;
    SameShift(len, l);
  }

  lemma SameShift(len: real, l: real)
    requires 380.0 <= len <= 780.0 && l == len - 380.0
    ensures 0.0 <= l <= 400.0
    ensures Tristimulus(len - 380.0) == Tristimulus(l)
  {
  }

  /** `RgbCalculator.calc(len)`: black outside [380,780]; inside, the steps below. */
  method Calc(len: real, pow: (real, real) -> real) returns (v: Vector3)
    ensures v == Color(len, pow)
    ensures len < LEN_MIN || len > LEN_MAX ==> v == Vector3(0.0, 0.0, 0.0)
    ensures InUnitCube(v)
  {
    if len < LEN_MIN || len > LEN_MAX {
      return Vector3(0.0, 0.0, 0.0);
    }
    v := CalcVisible(len, pow);
  }

  /** The body of `calc` after its range check: shift by LEN_MIN, split into grid index and
      offset, interpolate the three tables, apply the matrix, then gamma and clip per channel. */
  method CalcVisible(len: real, pow: (real, real) -> real) returns (v: Vector3)
    requires LEN_MIN <= len <= LEN_MAX
    ensures v == Color(len, pow)
    ensures InUnitCube(v)
  {
    var l := len;
    l := l - LEN_MIN;
    var index := GridIndex(l);
    var offset := GridOffset(l);

    var x := Interpolate(X, index, offset);
    var y := Interpolate(Y, index, offset);
    var z := Interpolate(Z, index, offset);
    TristimulusComponents(l);
    ColorShifted(len, l, pow);

    var lin := ToLinearSrgb(Vector3(x, y, z));
    var r, g, b := lin.x, lin.y, lin.z;

    r := Clip(GammaCorrect(r, pow));
    g := Clip(GammaCorrect(g, pow));
    b := Clip(GammaCorrect(b, pow));

    v := Vector3(r, g, b);
    assert v == Encode(lin, pow);
  }

  /** On a grid point 380 + 5k the tristimulus values are the k-th samples exactly, without
      blending; in particular 380 and 780 give the transform of the first and last samples. */
  lemma OnGridExact(k: int, pow: (real, real) -> real)
    requires 0 <= k <= 80
    ensures Tristimulus(5.0 * k as real) == Vector3(X[k], Y[k], Z[k])
    ensures Color(380.0 + 5.0 * k as real, pow) == Encode(ToLinearSrgb(Vector3(X[k], Y[k], Z[k])), pow)
  {
    var l := 5.0 * k as real;
    GridExact(k);
    TristimulusComponents(l);
    assert Tristimulus(l) == Vector3(X[k], Y[k], Z[k]);
    ColorShifted(380.0 + l, l, pow);
  }

  lemma BoundaryExact(pow: (real, real) -> real)
    ensures Color(380.0, pow) == Encode(ToLinearSrgb(Vector3(X[0], Y[0], Z[0])), pow)
    ensures Color(780.0, pow) == Encode(ToLinearSrgb(Vector3(X[80], Y[80], Z[80])), pow)
  {
    OnGridExact(0, pow);
    OnGridExact(80, pow);
  }

  /** Off the grid each tristimulus value lies between the two neighbouring samples. */
  lemma OffGridBetween(shifted: real)
    requires 0.0 <= shifted <= 400.0
    requires GridOffset(shifted) != 0.0
    ensures var i := GridIndex(shifted);
      var xyz := Tristimulus(shifted);
      i + 1 <= 80 && Between(X[i], X[i + 1], xyz.x) && Between(Y[i], Y[i + 1], xyz.y)
      && Between(Z[i], Z[i + 1], xyz.z)
  {
    TristimulusComponents(shifted);
  }
}
