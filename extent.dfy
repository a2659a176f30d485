/** The bounding extent and the centroid of a feature set
    (`getFeaturesExtent` and `getFeaturesCentroid`). */
module FeatureExtent {
  import opened Wrappers
  import opened Geometry

  /** An extent `[minX, minY, maxX, maxY]`. */
  datatype Box = Box(minX: real, minY: real, maxX: real, maxY: real)

  function Min(a: real, b: real): real { if a <= b then a else b }
  function Max(a: real, b: real): real { if a <= b then b else a }

  /** The extent of a non-empty set of points, folded from the last point
      to the first. */
  function BoundingBox(pts: seq<Coord>): (r: Box)
    requires pts != []
    decreases |pts|
  {
    var p := pts[0];
    if |pts| == 1 then Box(p.x, p.y, p.x, p.y)
    else
      var b := BoundingBox(pts[1..]);
      Box(Min(p.x, b.minX), Min(p.y, b.minY), Max(p.x, b.maxX), Max(p.y, b.maxY))
  }

  /** `getFeaturesExtent`: no extent for an empty set. */
  function Extent(pts: seq<Coord>): Option<Box>
  {
    if pts == [] then None else Some(BoundingBox(pts))
  }

  /** The centre of an extent (`getCenter` of `ol/extent`). */
  function Center(b: Box): Coord
  {
    Coord((b.minX + b.maxX) / 2.0, (b.minY + b.maxY) / 2.0)
  }

  /** `getFeaturesCentroid`: the centre of the extent of all points, and
      undefined for an empty set. */
  function Centroid(pts: seq<Coord>): (r: Option<Coord>)
    ensures r.None? <==> pts == []
  {
    match Extent(pts)
    case None => None
    case Some(b) => Some(Center(b))
  }

  /** Every point lies inside `b`. */
  ghost predicate Encloses(b: Box, pts: seq<Coord>)
  {
    forall i :: 0 <= i < |pts| ==>
      b.minX <= pts[i].x <= b.maxX && b.minY <= pts[i].y <= b.maxY
  }

  /** Each of the four bounds of `b` is reached by some point. */
  ghost predicate Attains(b: Box, pts: seq<Coord>)
  {
    && (exists i :: 0 <= i < |pts| && pts[i].x == b.minX)
    && (exists i :: 0 <= i < |pts| && pts[i].x == b.maxX)
    && (exists i :: 0 <= i < |pts| && pts[i].y == b.minY)
    && (exists i :: 0 <= i < |pts| && pts[i].y == b.maxY)
  }

  /** The extent is the smallest box holding every point: it encloses them
      all and each of its sides touches one of them. */
  lemma {:induction false} BoundingBoxIsTightest(pts: seq<Coord>)
    requires pts != []
    ensures Encloses(BoundingBox(pts), pts)
    ensures Attains(BoundingBox(pts), pts)
    decreases |pts|
  {
    if |pts| > 1 {
      var rest := pts[1..];
      BoundingBoxIsTightest(rest);
      var b := BoundingBox(rest);
      assert forall i :: 1 <= i < |pts| ==> pts[i] == rest[i - 1];
      var i0 :| 0 <= i0 < |rest| && rest[i0].x == b.minX;
      var i1 :| 0 <= i1 < |rest| && rest[i1].x == b.maxX;
      var i2 :| 0 <= i2 < |rest| && rest[i2].y == b.minY;
      var i3 :| 0 <= i3 < |rest| && rest[i3].y == b.maxY;
      assert pts[i0 + 1] == rest[i0] && pts[i1 + 1] == rest[i1];
      assert pts[i2 + 1] == rest[i2] && pts[i3 + 1] == rest[i3];
    }
  }

  /** `getFeaturesExtent` is undefined exactly for an empty set, and
      otherwise the tight box around every point. */
  lemma ExtentDefined(pts: seq<Coord>)
    ensures Extent(pts).None? <==> pts == []
    ensures Extent(pts).Some? ==> Encloses(Extent(pts).value, pts) && Attains(Extent(pts).value, pts)
  {
    if pts != [] {
      BoundingBoxIsTightest(pts);
    }
  }

  /** Any box holding every point contains the extent. */
  lemma BoundingBoxIsSmallest(pts: seq<Coord>, b: Box)
    requires pts != [] && Encloses(b, pts)
    ensures var e := BoundingBox(pts);
      b.minX <= e.minX && e.maxX <= b.maxX && b.minY <= e.minY && e.maxY <= b.maxY
  {
    BoundingBoxIsTightest(pts);
  }

  /** The centroid lies between the leftmost and rightmost, and between the
      lowest and highest, points. */
  lemma CentroidWithinPoints(pts: seq<Coord>)
    requires pts != []
    ensures exists i, j ::
      (0 <= i < |pts| && 0 <= j < |pts| && pts[i].x <= Centroid(pts).value.x <= pts[j].x)
    ensures exists i, j ::
      (0 <= i < |pts| && 0 <= j < |pts| && pts[i].y <= Centroid(pts).value.y <= pts[j].y)
  {
    BoundingBoxIsTightest(pts);
    var b := BoundingBox(pts);
    assert b.minX <= b.maxX && b.minY <= b.maxY by {
      assert b.minX <= pts[0].x <= b.maxX;
    }
    var i0 :| 0 <= i0 < |pts| && pts[i0].x == b.minX;
    var i1 :| 0 <= i1 < |pts| && pts[i1].x == b.maxX;
    var i2 :| 0 <= i2 < |pts| && pts[i2].y == b.minY;
    var i3 :| 0 <= i3 < |pts| && pts[i3].y == b.maxY;
    assert pts[i0].x <= Centroid(pts).value.x <= pts[i1].x;
    assert pts[i2].y <= Centroid(pts).value.y <= pts[i3].y;
  }

  /** A single feature's centroid is its own position. */
  lemma CentroidOfOne(p: Coord)
    ensures Centroid([p]) == Some(p)
  {
  }

  /** The centroids the constructor computes for the sets used in the
      repository's unit tests. */
  lemma CentroidExamples()
    ensures Centroid([Coord(20.0, 20.0), Coord(0.0, 0.0)]) == Some(Coord(10.0, 10.0))
    ensures Centroid([Coord(10.0, 10.0), Coord(0.0, 0.0)]) == Some(Coord(5.0, 5.0))
    ensures Centroid([Coord(-10.0, -10.0), Coord(-5.0, -5.0)]) == Some(Coord(-7.5, -7.5))
    ensures Centroid([Coord(10.0, 10.0), Coord(5.0, 5.0)]) == Some(Coord(7.5, 7.5))
  {
    assert [Coord(20.0, 20.0), Coord(0.0, 0.0)][1..] == [Coord(0.0, 0.0)];
    assert [Coord(10.0, 10.0), Coord(0.0, 0.0)][1..] == [Coord(0.0, 0.0)];
    assert [Coord(-10.0, -10.0), Coord(-5.0, -5.0)][1..] == [Coord(-5.0, -5.0)];
    assert [Coord(10.0, 10.0), Coord(5.0, 5.0)][1..] == [Coord(5.0, 5.0)];
  }

  /** One coordinate of a scale by `s` about `c`. */
  function AxisScale(v: real, s: real, c: real): real
  {
    c + s * (v - c)
  }

  /** The low end of the image of `[lo, hi]` under a scale by `s` about
      `c`: a negative factor swaps the two ends. */
  function ScaleLow(lo: real, hi: real, s: real, c: real): real
  {
    if 0.0 <= s then AxisScale(lo, s, c) else AxisScale(hi, s, c)
  }

  /** The high end of the same image. */
  function ScaleHigh(lo: real, hi: real, s: real, c: real): real
  {
    if 0.0 <= s then AxisScale(hi, s, c) else AxisScale(lo, s, c)
  }

  /** The image of an extent under a scale by `s` about `a`. */
  function ScaleBox(b: Box, s: real, a: Coord): Box
  {
    Box(ScaleLow(b.minX, b.maxX, s, a.x), ScaleLow(b.minY, b.maxY, s, a.y),
        ScaleHigh(b.minX, b.maxX, s, a.x), ScaleHigh(b.minY, b.maxY, s, a.y))
  }

  /** A map on reals that keeps order. */
  ghost predicate Monotone(f: real -> real)
  {
    forall u, v :: u <= v ==> f(u) <= f(v)
  }

  /** A map on reals that reverses order. */
  ghost predicate Antitone(f: real -> real)
  {
    forall u, v :: u <= v ==> f(v) <= f(u)
  }

  /** Every point with each coordinate mapped separately. */
  function MapCoords(pts: seq<Coord>, fx: real -> real, fy: real -> real): seq<Coord>
  {
    seq(|pts|, i requires 0 <= i < |pts| => Coord(fx(pts[i].x), fy(pts[i].y)))
  }

  /** Order-keeping maps carry the extent's bounds to the new extent. */
  lemma {:induction false} BoundingBoxMonotone(pts: seq<Coord>, fx: real -> real, fy: real -> real)
    requires pts != [] && Monotone(fx) && Monotone(fy)
    ensures var b := BoundingBox(pts);
      BoundingBox(MapCoords(pts, fx, fy)) == Box(fx(b.minX), fy(b.minY), fx(b.maxX), fy(b.maxY))
    decreases |pts|
  {
    if |pts| > 1 {
      assert MapCoords(pts, fx, fy)[1..] == MapCoords(pts[1..], fx, fy);
      BoundingBoxMonotone(pts[1..], fx, fy);
    }
  }

  /** Order-reversing maps swap the extent's low and high bounds. */
  lemma {:induction false} BoundingBoxAntitone(pts: seq<Coord>, fx: real -> real, fy: real -> real)
    requires pts != [] && Antitone(fx) && Antitone(fy)
    ensures var b := BoundingBox(pts);
      BoundingBox(MapCoords(pts, fx, fy)) == Box(fx(b.maxX), fy(b.maxY), fx(b.minX), fy(b.minY))
    decreases |pts|
  {
    if |pts| > 1 {
      assert MapCoords(pts, fx, fy)[1..] == MapCoords(pts[1..], fx, fy);
      BoundingBoxAntitone(pts[1..], fx, fy);
    }
  }

  lemma ProductSign(s: real, t: real)
    ensures 0.0 <= s && 0.0 <= t ==> 0.0 <= s * t
    ensures s <= 0.0 && 0.0 <= t ==> s * t <= 0.0
  {
  }

  /** One axis of a scale about `c`: order-keeping for a non-negative
      scale and order-reversing for a negative one. */
  lemma AxisScaleOrder(f: real -> real, s: real, c: real)
    requires forall v :: f(v) == AxisScale(v, s, c)
    ensures 0.0 <= s ==> Monotone(f)
    ensures s < 0.0 ==> Antitone(f)
  {
    forall u: real, v: real | u <= v
      ensures 0.0 <= s ==> f(u) <= f(v)
      ensures s < 0.0 ==> f(v) <= f(u)
    {
      assert f(v) - f(u) == s * (v - u);
      ProductSign(s, v - u);
    }
  }

  /** Scaling every point about `a` maps each axis separately. */
  lemma ScaleAllByAxis(pts: seq<Coord>, s: real, a: Coord, fx: real -> real, fy: real -> real)
    requires forall v :: fx(v) == AxisScale(v, s, a.x)
    requires forall v :: fy(v) == AxisScale(v, s, a.y)
    ensures ScaleAll(pts, s, Some(a)) == MapCoords(pts, fx, fy)
  {
    var scaled, mapped := ScaleAll(pts, s, Some(a)), MapCoords(pts, fx, fy);
    assert |scaled| == |mapped|;
    forall i | 0 <= i < |pts|
      ensures scaled[i] == mapped[i]
    {
      var p := pts[i];
      assert scaled[i] == Coord(AxisScale(p.x, s, a.x), AxisScale(p.y, s, a.y));
      assert mapped[i] == Coord(fx(p.x), fy(p.y));
    }
  }

  /** The extent of the scaled points, axis by axis. */
  lemma BoundingBoxByAxis(pts: seq<Coord>, s: real, a: Coord, fx: real -> real, fy: real -> real)
    requires pts != []
    requires forall v :: fx(v) == AxisScale(v, s, a.x)
    requires forall v :: fy(v) == AxisScale(v, s, a.y)
    ensures ScaleBox(BoundingBox(pts), s, a) == BoundingBox(MapCoords(pts, fx, fy))
  {
    AxisScaleOrder(fx, s, a.x);
    AxisScaleOrder(fy, s, a.y);
    if 0.0 <= s {
      BoundingBoxMonotone(pts, fx, fy);
    } else {
      BoundingBoxAntitone(pts, fx, fy);
    }
  }

  /** The extent of the scaled features is the scaled extent: a scale by a
      negative factor swaps which bound is low. */
  lemma BoundingBoxScaled(pts: seq<Coord>, s: real, a: Coord)
    requires pts != []
    ensures BoundingBox(ScaleAll(pts, s, Some(a))) == ScaleBox(BoundingBox(pts), s, a)
  {
    var fx := v => AxisScale(v, s, a.x);
    var fy := v => AxisScale(v, s, a.y);
    ScaleAllByAxis(pts, s, a, fx, fy);
    BoundingBoxByAxis(pts, s, a, fx, fy);
  }

  /** Scaling every feature about `a` moves their centroid by the same
      scale; in particular a scale about the centroid keeps it in place. */
  lemma CentroidScaled(pts: seq<Coord>, s: real, a: Coord)
    requires pts != []
    ensures Centroid(ScaleAll(pts, s, Some(a))) == Some(ScaleAbout(Centroid(pts).value, s, Some(a)))
  {
    BoundingBoxScaled(pts, s, a);
    CenterScaled(BoundingBox(pts), s, a);
  }

  /** The centre of a scaled extent is the scaled centre. */
  lemma CenterScaled(b: Box, s: real, a: Coord)
    ensures Center(ScaleBox(b, s, a)) == ScaleAbout(Center(b), s, Some(a))
  {
    var e := ScaleBox(b, s, a);
    var c := Center(b);
    assert (e.minX + e.maxX) / 2.0 == a.x + s * (c.x - a.x) by {
      MidpointScaled(b.minX, b.maxX, s, a.x);
    }
    assert (e.minY + e.maxY) / 2.0 == a.y + s * (c.y - a.y) by {
      MidpointScaled(b.minY, b.maxY, s, a.y);
    }
  }

  /** The midpoint of the scaled ends of a range is the scaled midpoint. */
  lemma MidpointScaled(lo: real, hi: real, s: real, c: real)
    ensures (ScaleLow(lo, hi, s, c) + ScaleHigh(lo, hi, s, c)) / 2.0 == c + s * ((lo + hi) / 2.0 - c)
  {
    var m := (lo + hi) / 2.0;
    assert (lo - c) + (hi - c) == 2.0 * (m - c);
    assert s * (lo - c) + s * (hi - c) == s * ((lo - c) + (hi - c));
    assert s * (2.0 * (m - c)) == 2.0 * (s * (m - c));
  }

  /** A scale about the current centroid leaves the centroid where it is. */
  lemma CentroidFixedByScaleAboutIt(pts: seq<Coord>, s: real)
    requires pts != []
    ensures Centroid(ScaleAll(pts, s, Centroid(pts))) == Centroid(pts)
  {
    CentroidScaled(pts, s, Centroid(pts).value);
    ScaleFixesAnchor(Centroid(pts).value, s);
  }
}
