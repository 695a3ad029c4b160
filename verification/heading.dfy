/**
 * The heading of a solar-panel array. The first two corners of the polygon
 * lie along the array's edge; the initial bearing from corner 0 to corner 1
 * is normalised into [0, 360), turned by +90 degrees to get the edge normal,
 * and reported as `180 - normal` with no further wrap.
 */
module Heading {
  import opened Wrappers
  import opened Corners

  /** `x` is a whole number of turns: an integer multiple of 360 degrees. */
  predicate MultipleOf360(x: real) {
    (x / 360.0).Floor as real == x / 360.0
  }

  /**
   * Python's `x % 360` on floats: the remainder takes the sign of the
   * divisor, so it lies in [0, 360) and differs from `x` by whole turns.
   */
  function FloorMod360(x: real): (r: real)
    ensures 0.0 <= r < 360.0
    ensures MultipleOf360(x - r)
  {
    x - 360.0 * ((x / 360.0).Floor as real)
  }

  /** A whole number of turns is a multiple of 360. */
  lemma Turns(x: real, n: int)
    requires x == 360.0 * n as real
    ensures MultipleOf360(x)
  {
    assert x / 360.0 == n as real;
  }

  /** `FloorMod360` is determined by its contract: any value in [0, 360) congruent to `x` is it. */
  lemma FloorMod360Unique(x: real, r: real)
    requires 0.0 <= r < 360.0
    requires MultipleOf360(x - r)
    ensures FloorMod360(x) == r
  {
    var a := ((x - r) / 360.0).Floor;
    var f := (x / 360.0).Floor;
    assert x - r == 360.0 * a as real;
    assert FloorMod360(x) == x - 360.0 * f as real;
    assert r - FloorMod360(x) == 360.0 * (f - a) as real;
    assert -1 < f - a < 1;
  }

  /** Degrees as `math.degrees(math.atan2(x, y))` yields them. */
  type RawBearing = d: real | -180.0 <= d <= 180.0 witness 0.0

  /**
   * The forward-azimuth formula of `calculate_bearing` in degrees, from one
   * corner to another. Its trigonometry is not modelled; callers supply it.
   */
  type Atan2Degrees = (Corner, Corner) -> RawBearing

  /**
   * The normalisation step of `calculate_bearing`: `(d + 360) % 360`. The
   * result is in [0, 360) and names the same direction as `d`.
   */
  function NormalizeBearing(d: real): (b: real)
    ensures 0.0 <= b < 360.0
    ensures MultipleOf360(b - d)
  {
    var k := ((d + 360.0) / 360.0).Floor;
    var b := FloorMod360(d + 360.0);
    Turns(b - d, 1 - k);
    b
  }

  /** For an `atan2` result, the normalisation only adds a turn to negative bearings. */
  lemma NormalizeRawBearing(d: RawBearing)
    ensures NormalizeBearing(d) == if d < 0.0 then d + 360.0 else d
  {
    var want := if d < 0.0 then d + 360.0 else d;
    Turns(d + 360.0 - want, if d < 0.0 then 0 else 1);
    FloorMod360Unique(d + 360.0, want);
  }

  /** `calculate_bearing`: the initial bearing from one corner to the next, in [0, 360). */
  function CalculateBearing(from: Corner, to: Corner, atan2Degrees: Atan2Degrees): (b: real)
    ensures 0.0 <= b < 360.0
    ensures MultipleOf360(b - atan2Degrees(from, to))
  {
    NormalizeBearing(atan2Degrees(from, to))
  }

  /**
   * The tail of `calculate_normal_heading`: `normal = (bearing + 90) % 360`
   * and the result `180 - normal`. For every bearing, the result lies in
   * (-180, 180], not in [0, 360), and points a quarter turn anticlockwise of
   * the reversed bearing: it is congruent to `90 - bearing`.
   */
  function NormalHeading(bearing: real): (h: real)
    ensures -180.0 < h <= 180.0
    ensures MultipleOf360(h - (90.0 - bearing))
  {
    var normal := FloorMod360(bearing + 90.0);
    Turns((180.0 - normal) - (90.0 - bearing), ((bearing + 90.0) / 360.0).Floor);
    180.0 - normal
  }

  /** On a bearing in [0, 360) the heading is `90 - b` below 270 and `450 - b` from 270 on. */
  lemma NormalHeadingCases(b: real)
    requires 0.0 <= b < 360.0
    ensures NormalHeading(b) == if b < 270.0 then 90.0 - b else 450.0 - b
  {
    var normal := if b < 270.0 then b + 90.0 else b - 270.0;
    Turns(b + 90.0 - normal, if b < 270.0 then 0 else 1);
    FloorMod360Unique(b + 90.0, normal);
  }

  /** `calculate_normal_heading`: the heading for the edge from one corner to the next. */
  function CalculateNormalHeading(from: Corner, to: Corner, atan2Degrees: Atan2Degrees): (h: real)
    ensures -180.0 < h <= 180.0
    ensures MultipleOf360(h - (90.0 - atan2Degrees(from, to)))
  {
    var d := atan2Degrees(from, to);
    var h := NormalHeading(CalculateBearing(from, to, atan2Degrees));
    HeadingOfRawBearing(d);
    Turns(h - (90.0 - d), if d < -90.0 then -1 else 0);
    h
  }

  /**
   * From the raw `atan2` angle `d` straight to the reported heading:
   * `90 - d`, except below -90 degrees, where it is `-270 - d`.
   */
  lemma HeadingOfRawBearing(d: RawBearing)
    ensures NormalHeading(NormalizeBearing(d)) == if d < -90.0 then -270.0 - d else 90.0 - d
  {
    NormalizeRawBearing(d);
    NormalHeadingCases(NormalizeBearing(d));
  }

  /** A due-east edge (bearing 90) gives heading 0: `180 - ((90 + 90) % 360)`. */
  lemma DueEastHeading()
    ensures NormalHeading(NormalizeBearing(90.0)) == 0.0
  {
    HeadingOfRawBearing(90.0);
  }

  /** `corners[0]` or `corners[1]` does not exist: Python raises `IndexError`. */
  datatype HeadingError = TooFewCorners(count: nat)

  /**
   * `calc_solar_array_heading_from`: the heading of the edge from `corners[0]`
   * to `corners[1]`. It needs at least two corners and looks at no other.
   */
  function CalcSolarArrayHeadingFrom(corners: seq<Corner>, atan2Degrees: Atan2Degrees): (r: Result<real, HeadingError>)
    ensures r.Failure? <==> |corners| < 2
    ensures r.Failure? ==> r.error == TooFewCorners(|corners|)
    ensures r.Success? ==>
      && -180.0 < r.value <= 180.0
      && MultipleOf360(r.value - (90.0 - atan2Degrees(corners[0], corners[1])))
  {
    if |corners| < 2 then Failure(TooFewCorners(|corners|))
    else Success(CalculateNormalHeading(corners[0], corners[1], atan2Degrees))
  }

  /** Changing any corner after the second leaves the array heading unchanged. */
  lemma HeadingIgnoresLaterCorners(corners: seq<Corner>, other: seq<Corner>, atan2Degrees: Atan2Degrees)
    requires |corners| >= 2 && |other| >= 2
    requires corners[0] == other[0] && corners[1] == other[1]
    ensures CalcSolarArrayHeadingFrom(corners, atan2Degrees) == CalcSolarArrayHeadingFrom(other, atan2Degrees)
  {
  }

  /**
   * The array heading is the unique angle in (-180, 180] congruent to
   * `90 - d`, where `d` is the raw `atan2` angle from corner 0 to corner 1.
   */
  lemma ArrayHeadingValue(corners: seq<Corner>, atan2Degrees: Atan2Degrees)
    requires |corners| >= 2
    ensures CalcSolarArrayHeadingFrom(corners, atan2Degrees)
      == Success(var d := atan2Degrees(corners[0], corners[1]); if d < -90.0 then -270.0 - d else 90.0 - d)
  {
    HeadingOfRawBearing(atan2Degrees(corners[0], corners[1]));
  }
}
