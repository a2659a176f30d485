/** The parts of the mapping toolkit the interaction relies on: planar
    coordinates, the distance between them, scaling a point geometry about
    an anchor, and a shared collection of point features. */
module Geometry {
  import opened Wrappers

  /** A map coordinate `[x, y]`. */
  datatype Coord = Coord(x: real, y: real)

  function Abs(r: real): real { if r < 0.0 then -r else r }

  /** The taxicab distance; it only shows that `Metric` is inhabited. */
  function Taxicab(a: Coord, b: Coord): (r: real)
    ensures 0.0 <= r && (r == 0.0 <==> a == b)
  {
    Abs(a.x - b.x) + Abs(a.y - b.y)
  }

  /** The toolkit's `distance`, left abstract: any function that is
      non-negative and zero exactly on equal coordinates. */
  type Metric = d: (Coord, Coord) -> real
    | forall a: Coord, b: Coord :: 0.0 <= d(a, b) && (d(a, b) == 0.0 <==> a == b)
    witness Taxicab

  /** `Point.scale(s, s, anchor)`: without an anchor a geometry scales about
      the centre of its own extent, which for a point is the point itself. */
  function ScaleAbout(p: Coord, s: real, anchor: Option<Coord>): Coord
  {
    match anchor
    case None => p
    case Some(c) => Coord(c.x + s * (p.x - c.x), c.y + s * (p.y - c.y))
  }

  /** Every feature geometry scaled by `(s, s)` about `anchor`, in order. */
  function ScaleAll(pts: seq<Coord>, s: real, anchor: Option<Coord>): (r: seq<Coord>)
    ensures |r| == |pts|
    ensures anchor.None? ==> r == pts
  {
    seq(|pts|, i requires 0 <= i < |pts| => ScaleAbout(pts[i], s, anchor))
  }

  /** A scale by 1 leaves every point where it is. */
  lemma ScaleByOneFixes(pts: seq<Coord>, anchor: Option<Coord>)
    ensures ScaleAll(pts, 1.0, anchor) == pts
  {
  }

  /** The anchor is a fixed point of every scale about it. */
  lemma ScaleFixesAnchor(a: Coord, s: real)
    ensures ScaleAbout(a, s, Some(a)) == a
  {
  }

  /** Two scales about the same anchor compose into one scale by the
      product of the factors. */
  lemma ScaleCompose(p: Coord, s: real, t: real, anchor: Option<Coord>)
    ensures ScaleAbout(ScaleAbout(p, s, anchor), t, anchor) == ScaleAbout(p, s * t, anchor)
  {
    if anchor.Some? {
      var c := anchor.value;
      var q := ScaleAbout(p, s, anchor);
      calc {
        c.x + t * (q.x - c.x);
        c.x + t * (s * (p.x - c.x));
        { assert t * (s * (p.x - c.x)) == (s * t) * (p.x - c.x); }
        c.x + (s * t) * (p.x - c.x);
      }
      calc {
        c.y + t * (q.y - c.y);
        c.y + t * (s * (p.y - c.y));
        { assert t * (s * (p.y - c.y)) == (s * t) * (p.y - c.y); }
        c.y + (s * t) * (p.y - c.y);
      }
    }
  }

  /** The same, for a whole feature set. */
  lemma ScaleAllCompose(pts: seq<Coord>, s: real, t: real, anchor: Option<Coord>)
    ensures ScaleAll(ScaleAll(pts, s, anchor), t, anchor) == ScaleAll(pts, s * t, anchor)
  {
    forall i | 0 <= i < |pts|
      ensures ScaleAll(ScaleAll(pts, s, anchor), t, anchor)[i] == ScaleAll(pts, s * t, anchor)[i]
    {
      ScaleCompose(pts[i], s, t, anchor);
    }
  }

  /** A scale by a non-zero factor is undone by a scale by its inverse. */
  lemma ScaleAllInverse(pts: seq<Coord>, s: real, anchor: Option<Coord>)
    requires s != 0.0
    ensures ScaleAll(ScaleAll(pts, s, anchor), 1.0 / s, anchor) == pts
  {
    var inv := 1.0 / s;
    ScaleAllCompose(pts, s, inv, anchor);
    assert s * inv == 1.0;
    ScaleByOneFixes(pts, anchor);
  }

  /** A mutable collection of point features shared with the caller
      (`ol/Collection`); each entry is the coordinate of one point geometry. */
  class FeatureCollection {
    var points: seq<Coord>

    constructor (points: seq<Coord>)
      ensures this.points == points
    {
      this.points := points;
    }
  }
}
