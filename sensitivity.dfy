/** `ColorSensitivity`: a per-channel wavelength domain, the constant value range [0,1], and a
    half-period sine over the domain of the red, green and blue channels. `Math.sin` is the
    parameter `sin`, and nothing proved here depends on its values. */
module Sensitivity {

  /** `Math.PI` as a decimal. */
  const PI: real := 3.141592653589793

  /** One `{ x, y }` point of the sensitivity data. */
  datatype Point = Point(x: real, y: real)

  /** The colour types with a sine curve of their own. */
  predicate IsChannel(colorType: string) {
    colorType == "red" || colorType == "green" || colorType == "blue"
  }

  /** The position of `x` in the domain `[lo, hi]` as a fraction of its width: 0 at `lo`, 1 at
      `hi`, 1/2 at the midpoint and inside [0,1] for every `x` of the domain. */
  function Phase(domain: seq<real>, x: real): (p: real)
    requires |domain| == 2 && domain[0] < domain[1]
    ensures x == domain[0] ==> p == 0.0
    ensures x == domain[1] ==> p == 1.0
    ensures x == (domain[0] + domain[1]) / 2.0 ==> p == 0.5
    ensures domain[0] <= x <= domain[1] ==> 0.0 <= p <= 1.0
  {
    var lo, w := domain[0], domain[1] - domain[0];
    FractionOfWidth(x - lo, w);
    (x - lo) / w
  }

  lemma FractionOfWidth(a: real, w: real)
    requires 0.0 < w
    ensures 0.0 <= a <= w ==> 0.0 <= a / w <= 1.0
    ensures a == w / 2.0 ==> a / w == 0.5
  {
    assert a / w * w == a;
    if a == w / 2.0 {
      assert (a / w - 0.5) * w == 0.0;
    }
  }

  class ColorSensitivity {
    var colorType: string
    var xRange: seq<real>
    var yRange: seq<real>
    var sensitivityData: seq<Point>

    /** Stores the type, then the domain and the value range it implies, and resets the data. */
    constructor (colorType: string)
      ensures this.colorType == colorType
      ensures xRange == GetXRange() && yRange == GetYRange()
      ensures sensitivityData == []
    {
      this.colorType := colorType;
      sensitivityData := [];
      new;
      xRange := GetXRange();
      yRange := GetYRange();
      LoadSensitivityData();
    }

    /** `getXRange`: red [380,780], green [400,700], blue [420,680], any other type [380,780].
        Always a proper sub-interval of [380,780], and the whole of it exactly when the type is
        neither green nor blue. */
    function GetXRange(): (r: seq<real>)
      reads this
      ensures |r| == 2 && 380.0 <= r[0] < r[1] <= 780.0
      ensures r == [380.0, 780.0] <==> colorType != "green" && colorType != "blue"
      ensures colorType == "red" ==> r == [380.0, 780.0]
      ensures colorType == "green" ==> r == [400.0, 700.0]
      ensures colorType == "blue" ==> r == [420.0, 680.0]
    {
      if colorType == "red" then [380.0, 780.0]
      else if colorType == "green" then [400.0, 700.0]
      else if colorType == "blue" then [420.0, 680.0]
      else [380.0, 780.0]
    }

    /** `getYRange`: the unit interval, whatever the type. */
    function GetYRange(): (r: seq<real>)
      ensures |r| == 2 && r[0] == 0.0 && r[1] == 1.0
    {
      [0.0, 1.0]
    }

    /** `loadSensitivityData`: empties the data and leaves every other field as it was. */
    method LoadSensitivityData()
      modifies this
      ensures sensitivityData == []
      ensures colorType == old(colorType) && xRange == old(xRange) && yRange == old(yRange)
    {
      sensitivityData := [];
    }

    /** `getYFromX`: for red, green and blue the sine of the phase fraction times pi over the
        channel's own constants; 0 for every other type. */
    function GetYFromX(x: real, sin: real -> real): (y: real)
      reads this
      ensures !IsChannel(colorType) ==> y == 0.0
    {
      if colorType == "red" then sin(((x - 380.0) / 400.0) * PI)
      else if colorType == "green" then sin(((x - 400.0) / 300.0) * PI)
      else if colorType == "blue" then sin(((x - 420.0) / 260.0) * PI)
      else 0.0
    }
  }

  /** For red, green and blue the constants of `getYFromX` describe the same interval as
      `getXRange`: the curve is `sin(phase * pi)` with the phase of `x` in that domain. */
  lemma {:induction false} PhaseAlignedWithXRange(s: ColorSensitivity, x: real, sin: real -> real)
    requires IsChannel(s.colorType)
    ensures s.GetYFromX(x, sin) == sin(Phase(s.GetXRange(), x) * PI)
  {
    var r := s.GetXRange();
    if s.colorType == "red" {
      assert Phase(r, x) == (x - 380.0) / 400.0;
    } else if s.colorType == "green" {
      assert Phase(r, x) == (x - 400.0) / 300.0;
    } else {
      assert Phase(r, x) == (x - 420.0) / 260.0;
    }
  }

  /** For red, green and blue the curve starts at sin(0) at the domain minimum, reaches
      sin(pi/2) at the midpoint and ends at sin(pi) at the maximum; inside the domain its
      argument stays within [0, pi]. */
  lemma CurveOverDomain(s: ColorSensitivity, sin: real -> real)
    requires IsChannel(s.colorType)
    ensures var r := s.GetXRange();
      && s.GetYFromX(r[0], sin) == sin(0.0)
      && s.GetYFromX((r[0] + r[1]) / 2.0, sin) == sin(PI / 2.0)
      && s.GetYFromX(r[1], sin) == sin(PI)
  {
    var r := s.GetXRange();
    PhaseAlignedWithXRange(s, r[0], sin);
    PhaseAlignedWithXRange(s, (r[0] + r[1]) / 2.0, sin);
    PhaseAlignedWithXRange(s, r[1], sin);
    assert 0.5 * PI == PI / 2.0;
  }

  /** Any other colour type has the full domain [380,780] but a flat curve: 0 everywhere. */
  lemma OtherTypeFlat(s: ColorSensitivity, sin: real -> real)
    requires !IsChannel(s.colorType)
    ensures s.GetXRange() == [380.0, 780.0]
    ensures forall x :: s.GetYFromX(x, sin) == 0.0
  {
  }
}
