/**
 * `centroid`: the arithmetic mean of a list of (latitude, longitude) corners,
 * or `None` for an empty list. The mean is a plain average of the
 * coordinates; no spherical correction is applied.
 */
module Centroids {
  import opened Wrappers
  import opened Corners

  /** The sum of `xs`, added up from the first element to the last. */
  function Sum(xs: seq<real>): real {
    if xs == [] then 0.0 else Sum(xs[..|xs| - 1]) + xs[|xs| - 1]
  }

  /** The average of a non-empty sequence: its sum divided by its length. */
  function Average(xs: seq<real>): real
    requires xs != []
  {
    Sum(xs) / |xs| as real
  }

  /** When every element lies in [lo, hi], the sum lies between `n * lo` and `n * hi`. */
  lemma {:induction false} SumBounds(xs: seq<real>, lo: real, hi: real)
    requires forall i :: 0 <= i < |xs| ==> lo <= xs[i] <= hi
    ensures |xs| as real * lo <= Sum(xs) <= |xs| as real * hi
  {
    if xs != [] {
      SumBounds(xs[..|xs| - 1], lo, hi);
    }
  }

  /** The average of values in [lo, hi] lies in [lo, hi]. */
  lemma AverageWithinBounds(xs: seq<real>, lo: real, hi: real)
    requires xs != []
    requires forall i :: 0 <= i < |xs| ==> lo <= xs[i] <= hi
    ensures lo <= Average(xs) <= hi
  {
    var n := |xs| as real;
    SumBounds(xs, lo, hi);
    assert Average(xs) - lo == (Sum(xs) - n * lo) / n;
    assert hi - Average(xs) == (n * hi - Sum(xs)) / n;
  }

  /** The average of a sequence of equal values is that value. */
  lemma AverageOfConstant(xs: seq<real>, c: real)
    requires xs != []
    requires forall i :: 0 <= i < |xs| ==> xs[i] == c
    ensures Average(xs) == c
  {
    SumBounds(xs, c, c);
    assert Sum(xs) == |xs| as real * c;
  }

  /** The latitudes of `ps`, in order. */
  function Lats(ps: seq<Corner>): seq<real> {
    seq(|ps|, i requires 0 <= i < |ps| => ps[i].lat)
  }

  /** The longitudes of `ps`, in order. */
  function Lons(ps: seq<Corner>): seq<real> {
    seq(|ps|, i requires 0 <= i < |ps| => ps[i].lon)
  }

  /**
   * The value `centroid` returns: `None` exactly for an empty list, otherwise
   * the average latitude paired with the average longitude.
   */
  function Mean(ps: seq<Corner>): (r: Option<Corner>)
    ensures r.None? <==> ps == []
  {
    if ps == [] then None else Some(Corner(Average(Lats(ps)), Average(Lons(ps))))
  }

  /**
   * `centroid`: sums the latitudes and longitudes in one pass over the points
   * and divides each sum by the number of points.
   */
  method Centroid(points: seq<Corner>) returns (r: Option<Corner>)
    ensures r == Mean(points)
  {
    if points == [] {
      return None;
    }
    var latSum, lonSum := 0.0, 0.0;
    for i := 0 to |points|
      invariant latSum == Sum(Lats(points)[..i])
      invariant lonSum == Sum(Lons(points)[..i])
    {
      assert Lats(points)[..i + 1][..i] == Lats(points)[..i];
      assert Lons(points)[..i + 1][..i] == Lons(points)[..i];
      latSum := latSum + points[i].lat;
      lonSum := lonSum + points[i].lon;
    }
    assert Lats(points)[..|points|] == Lats(points);
    assert Lons(points)[..|points|] == Lons(points);
    r := Some(Corner(latSum / |points| as real, lonSum / |points| as real));
  }

  /**
   * Each coordinate of the centroid lies within the range of that coordinate
   * over the points: any box that holds every point holds the centroid.
   */
  lemma MeanWithinBounds(ps: seq<Corner>, latLo: real, latHi: real, lonLo: real, lonHi: real)
    requires ps != []
    requires forall i :: 0 <= i < |ps| ==> latLo <= ps[i].lat <= latHi && lonLo <= ps[i].lon <= lonHi
    ensures var c := Mean(ps).value; latLo <= c.lat <= latHi && lonLo <= c.lon <= lonHi
  {
    AverageWithinBounds(Lats(ps), latLo, latHi);
    AverageWithinBounds(Lons(ps), lonLo, lonHi);
  }

  /** The centroid of copies of one point is that point. */
  lemma MeanOfIdentical(ps: seq<Corner>, p: Corner)
    requires ps != []
    requires forall i :: 0 <= i < |ps| ==> ps[i] == p
    ensures Mean(ps) == Some(p)
  {
    AverageOfConstant(Lats(ps), p.lat);
    AverageOfConstant(Lons(ps), p.lon);
  }

  /** The centroid of the unit square's four corners is its middle. */
  lemma UnitSquareCentroid()
    ensures Mean([Corner(0.0, 0.0), Corner(0.0, 1.0), Corner(1.0, 1.0), Corner(1.0, 0.0)])
      == Some(Corner(0.5, 0.5))
  {
    var ps := [Corner(0.0, 0.0), Corner(0.0, 1.0), Corner(1.0, 1.0), Corner(1.0, 0.0)];
    var lats: seq<real> := [0.0, 0.0, 1.0, 1.0];
    var lons: seq<real> := [0.0, 1.0, 1.0, 0.0];
    assert Lats(ps) == lats && Lons(ps) == lons;
    assert [0.0][..0] == [] && Sum([0.0]) == 0.0;
    assert [0.0, 0.0][..1] == [0.0] && Sum([0.0, 0.0]) == 0.0;
    assert [0.0, 0.0, 1.0][..2] == [0.0, 0.0] && Sum([0.0, 0.0, 1.0]) == 1.0;
    assert lats[..3] == [0.0, 0.0, 1.0] && Sum(lats) == 2.0;
    assert [0.0, 1.0][..1] == [0.0] && Sum([0.0, 1.0]) == 1.0;
    assert [0.0, 1.0, 1.0][..2] == [0.0, 1.0] && Sum([0.0, 1.0, 1.0]) == 2.0;
    assert lons[..3] == [0.0, 1.0, 1.0] && Sum(lons) == 2.0;
  }
}
