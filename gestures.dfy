/** Feature drags over several pointer positions, and the interaction's
    documented scenarios as sequences of calls. */
module Gestures {
  import opened Wrappers
  import opened Geometry
  import opened FeatureExtent
  import opened RescaleEvent
  import opened Interaction

  /** No position of a pointer path is the anchor itself. */
  predicate AvoidsAnchor(path: seq<Coord>, a: Coord)
  {
    forall k :: 0 <= k < |path| ==> path[k] != a
  }

  /** The feature points after a feature drag pressed at `path[0]` and
      then dragged through the rest of `path`, one drag event per
      position: each event scales by its distance ratio about `a`. */
  function DraggedPoints(pts: seq<Coord>, dist: Metric, path: seq<Coord>, a: Coord): seq<Coord>
    requires |path| >= 1 && AvoidsAnchor(path, a)
    decreases |path|
  {
    if |path| == 1 then pts
    else
      var n := |path|;
      ScaleAll(DraggedPoints(pts, dist, path[..n - 1], a),
               DragRatio(dist, path[n - 1], path[n - 2], a), Some(a))
  }

  /** The factor after the same drag: each event adds its ratio. */
  function DraggedFactor(f: real, dist: Metric, path: seq<Coord>, a: Coord): real
    requires |path| >= 1 && AvoidsAnchor(path, a)
    decreases |path|
  {
    if |path| == 1 then f
    else
      var n := |path|;
      DraggedFactor(f, dist, path[..n - 1], a) + DragRatio(dist, path[n - 1], path[n - 2], a)
  }

  /** Consecutive drag ratios multiply to the ratio between the last
      and the first position. */
  lemma RatioChain(dist: Metric, p: Coord, q: Coord, r: Coord, a: Coord)
    requires p != a && q != a
    ensures DragRatio(dist, q, p, a) * DragRatio(dist, r, q, a) == DragRatio(dist, r, p, a)
  {
    var x, y, z := dist(p, a), dist(q, a), dist(r, a);
    assert x != 0.0 && y != 0.0;
    calc {
      (y / x) * (z / y);
      (y * z) / (x * y);
      { assert y * z == z * y; }
      (z * y) / (x * y);
      z / x;
    }
  }

  /** The scalings of a drag telescope: whatever path the pointer takes,
      the features end up scaled about the anchor by the ratio of the
      final distance to the distance at the press. */
  lemma {:induction false} DragNetScale(pts: seq<Coord>, dist: Metric, path: seq<Coord>, a: Coord)
    requires |path| >= 1 && AvoidsAnchor(path, a)
    ensures DraggedPoints(pts, dist, path, a) ==
      ScaleAll(pts, DragRatio(dist, path[|path| - 1], path[0], a), Some(a))
    decreases |path|
  {
    var n := |path|;
    if n == 1 {
      assert DragRatio(dist, path[0], path[0], a) == 1.0;
      ScaleByOneFixes(pts, Some(a));
    } else {
      var prefix := path[..n - 1];
      assert AvoidsAnchor(prefix, a);
      assert prefix[0] == path[0] && prefix[|prefix| - 1] == path[n - 2];
      DragNetScale(pts, dist, prefix, a);
      var s, t := DragRatio(dist, path[n - 2], path[0], a), DragRatio(dist, path[n - 1], path[n - 2], a);
      assert DraggedPoints(pts, dist, path, a) == ScaleAll(ScaleAll(pts, s, Some(a)), t, Some(a));
      ScaleAllCompose(pts, s, t, Some(a));
      RatioChain(dist, path[0], path[n - 2], path[n - 1], a);
      assert s * t == DragRatio(dist, path[n - 1], path[0], a);
    }
  }

  /** Every drag event raises the factor, even one that shrinks the
      features: the ratio is added, never multiplied. */
  lemma {:induction false} DraggedFactorGrows(f: real, dist: Metric, path: seq<Coord>, a: Coord)
    requires |path| >= 1 && AvoidsAnchor(path, a)
    ensures DraggedFactor(f, dist, path, a) >= f
    ensures |path| >= 2 ==> DraggedFactor(f, dist, path, a) > f
    decreases |path|
  {
    var n := |path|;
    if n > 1 {
      var prefix := path[..n - 1];
      assert AvoidsAnchor(prefix, a);
      DraggedFactorGrows(f, dist, prefix, a);
    }
  }

  /** A drag along a circle about the anchor leaves every feature where
      it was, yet adds exactly 1 to the factor per drag event. */
  lemma {:induction false} CircularDrag(pts: seq<Coord>, f: real, dist: Metric, path: seq<Coord>, a: Coord)
    requires |path| >= 1 && AvoidsAnchor(path, a)
    requires forall k :: 0 <= k < |path| ==> dist(path[k], a) == dist(path[0], a)
    ensures DraggedPoints(pts, dist, path, a) == pts
    ensures DraggedFactor(f, dist, path, a) == f + (|path| - 1) as real
    decreases |path|
  {
    var n := |path|;
    if n == 1 {
    } else {
      var prefix := path[..n - 1];
      assert AvoidsAnchor(prefix, a);
      CircularDrag(pts, f, dist, prefix, a);
      assert dist(path[n - 1], a) == dist(path[n - 2], a);
      ScaleByOneFixes(pts, Some(a));
    }
  }

  /** Drag events at `path[1]`, `path[2]`, ... during a feature drag last
      at `path[0]`: the features and the factor follow `DraggedPoints` and
      `DraggedFactor` for any path that avoids the anchor, so the features
      end up scaled by the final distance over the first; the log only
      grows and each event ends with `rescaling`. */
  method DragAlong(rescale: RescaleInteraction, dist: Metric, path: seq<Coord>)
    requires rescale.Valid() && rescale.features.points != []
    requires |path| >= 1 && rescale.lastCoordinate == Some(path[0])
    requires AvoidsAnchor(path, rescale.anchor.value)
    modifies rescale, rescale.features
    ensures rescale.Valid()
    ensures rescale.anchor == old(rescale.anchor) && rescale.lastCoordinate == Some(path[|path| - 1])
    ensures var a := old(rescale.anchor).value;
      && rescale.features.points == DraggedPoints(old(rescale.features.points), dist, path, a)
      && rescale.features.points ==
           ScaleAll(old(rescale.features.points), DragRatio(dist, path[|path| - 1], path[0], a), Some(a))
      && rescale.factor == DraggedFactor(old(rescale.factor), dist, path, a)
    ensures |rescale.log| >= |old(rescale.log)| && rescale.log[..|old(rescale.log)|] == old(rescale.log)
    ensures |path| >= 2 ==> |rescale.log| > |old(rescale.log)| && EntryName(rescale.log[|rescale.log| - 1]) == RESCALING
  {
    ghost var a := rescale.anchor.value;
    ghost var pts, f, log0 := rescale.features.points, rescale.factor, rescale.log;
    var k := 1;
    assert path[..1] == [path[0]];
    while k < |path|
      invariant 1 <= k <= |path|
      invariant AvoidsAnchor(path[..k], a)
      invariant rescale.Valid() && rescale.anchor == Some(a) && |rescale.features.points| == |pts|
      invariant rescale.lastCoordinate == Some(path[k - 1])
      invariant rescale.features.points == DraggedPoints(pts, dist, path[..k], a)
      invariant rescale.factor == DraggedFactor(f, dist, path[..k], a)
      invariant |rescale.log| >= |log0| && rescale.log[..|log0|] == log0
      invariant k >= 2 ==> |rescale.log| > |log0| && EntryName(rescale.log[|rescale.log| - 1]) == RESCALING
    {
      DragStep(pts, f, dist, path, k, a);
      DragOnce(rescale, dist, path[k - 1], path[k]);
      k := k + 1;
    }
    assert path[..k] == path;
    DragNetScale(pts, dist, path, a);
  }

  /** One drag event at `q` during a feature drag last at `p`, both off
      the anchor: the features are scaled by the step's ratio, which the
      factor gains, and the log gains entries ending with `rescaling`. */
  method DragOnce(rescale: RescaleInteraction, dist: Metric, p: Coord, q: Coord)
    requires rescale.Valid() && rescale.features.points != []
    requires rescale.lastCoordinate == Some(p) && p != rescale.anchor.value && q != rescale.anchor.value
    modifies rescale, rescale.features
    ensures rescale.Valid() && rescale.anchor == old(rescale.anchor) && rescale.lastCoordinate == Some(q)
    ensures var a := old(rescale.anchor).value;
      && rescale.features.points == ScaleAll(old(rescale.features.points), DragRatio(dist, q, p, a), Some(a))
      && rescale.factor == old(rescale.factor) + DragRatio(dist, q, p, a)
    ensures |rescale.log| > |old(rescale.log)| && rescale.log[..|old(rescale.log)|] == old(rescale.log)
    ensures EntryName(rescale.log[|rescale.log| - 1]) == RESCALING
  {
    assert rescale.anchorMarker.value.position == rescale.anchor.value;
    ghost var before := rescale.log;
    var ok := rescale.HandleDragEvent(q, dist);
    assert rescale.log[..|before|] == before;
  }

  /** One more position of a path extends the drag by one event. */
  lemma DragStep(pts: seq<Coord>, f: real, dist: Metric, path: seq<Coord>, k: nat, a: Coord)
    requires 1 <= k < |path| && AvoidsAnchor(path, a)
    ensures AvoidsAnchor(path[..k], a) && AvoidsAnchor(path[..k + 1], a)
    ensures DraggedPoints(pts, dist, path[..k + 1], a) ==
      ScaleAll(DraggedPoints(pts, dist, path[..k], a), DragRatio(dist, path[k], path[k - 1], a), Some(a))
    ensures DraggedFactor(f, dist, path[..k + 1], a) ==
      DraggedFactor(f, dist, path[..k], a) + DragRatio(dist, path[k], path[k - 1], a)
  {
    assert path[..k + 1][..k] == path[..k];
  }

  /** A press on a feature at `p0` and one drag event at `p1`, on a valid
      interaction with features and no feature drag under way: the log
      gains the start, one change per feature and `rescaling`. */
  method PressAndDrag(rescale: RescaleInteraction, dist: Metric, p0: Coord, p1: Coord)
    requires rescale.Valid() && rescale.features.points != []
    requires rescale.lastCoordinate.None?
    requires p0 != rescale.anchor.value && p1 != rescale.anchor.value
    modifies rescale, rescale.features
    ensures rescale.Valid()
    ensures rescale.anchor == old(rescale.anchor) && rescale.lastCoordinate == Some(p1)
    ensures var a := old(rescale.anchor).value;
      && rescale.features.points == DraggedPoints(old(rescale.features.points), dist, [p0, p1], a)
      && rescale.factor == DraggedFactor(old(rescale.factor), dist, [p0, p1], a)
    ensures var n, m := |old(rescale.log)|, |rescale.features.points|;
      && |rescale.log| == n + m + 2
      && rescale.log == old(rescale.log) + [rescale.log[n]] + GeometryChanges(m) + [rescale.log[n + m + 1]]
      && EntryName(rescale.log[n]) == START && EntryName(rescale.log[n + m + 1]) == RESCALING
  {
    ghost var a := rescale.anchor.value;
    ghost var log0 := rescale.log;
    assert rescale.anchorMarker.value.position == a;
    var press := DownEvent(true, true, true, "pointerdown", MemberFeature, p0);
    var handled := rescale.HandleDownEvent(press);
    assert handled;
    ghost var log1 := rescale.log;
    assert log1 == log0 + [log1[|log0|]];
    var ok := rescale.HandleDragEvent(p1, dist);
    assert [p0, p1][..1] == [p0];
  }

  /** One more drag event at `p2` during a feature drag last at `p1`, then
      the release: the features are scaled by the step's ratio, and the
      log gains one change per feature, `rescaling` and the end. */
  method DragAndRelease(rescale: RescaleInteraction, dist: Metric, p1: Coord, p2: Coord)
    requires rescale.Valid() && rescale.features.points != []
    requires rescale.lastCoordinate == Some(p1)
    requires p1 != rescale.anchor.value && p2 != rescale.anchor.value
    modifies rescale, rescale.features
    ensures rescale.Valid()
    ensures rescale.anchor == old(rescale.anchor) && rescale.lastCoordinate.None?
    ensures var a := old(rescale.anchor).value;
      && rescale.features.points == ScaleAll(old(rescale.features.points), DragRatio(dist, p2, p1, a), Some(a))
      && rescale.factor == old(rescale.factor) + DragRatio(dist, p2, p1, a)
    ensures var n, m := |old(rescale.log)|, |rescale.features.points|;
      && |rescale.log| == n + m + 2
      && rescale.log == old(rescale.log) + GeometryChanges(m) + [rescale.log[n + m]] + [rescale.log[n + m + 1]]
      && EntryName(rescale.log[n + m]) == RESCALING && EntryName(rescale.log[n + m + 1]) == END
  {
    assert rescale.anchorMarker.value.position == rescale.anchor.value;
    var ok := rescale.HandleDragEvent(p2, dist);
    ghost var log2 := rescale.log;
    var handled := rescale.HandleUpEvent();
    assert rescale.log == log2 + [rescale.log[|log2|]];
  }

  /** A press on the first feature, two drag events and a release, on a
      valid interaction with features and no gesture under way: the log
      shows the start, the changes of each step, the two `rescaling`
      events and the end, and the features end up as the path's net
      scale predicts. */
  method PressDragDragRelease(rescale: RescaleInteraction, dist: Metric, p0: Coord, p1: Coord, p2: Coord)
    requires rescale.Valid() && rescale.features.points != []
    requires rescale.lastCoordinate.None?
    requires p0 != rescale.anchor.value && p1 != rescale.anchor.value && p2 != rescale.anchor.value
    modifies rescale, rescale.features
    ensures rescale.Valid()
    ensures var a := old(rescale.anchor).value;
      && rescale.anchor == old(rescale.anchor)
      && rescale.features.points == DraggedPoints(old(rescale.features.points), dist, [p0, p1, p2], a)
      && rescale.features.points == ScaleAll(old(rescale.features.points), DragRatio(dist, p2, p0, a), Some(a))
      && rescale.factor == DraggedFactor(old(rescale.factor), dist, [p0, p1, p2], a)
    ensures var n, m := |old(rescale.log)|, |rescale.features.points|;
      && |rescale.log| == n + 2 * m + 4
      && rescale.log[..n] == old(rescale.log)
      && EntryName(rescale.log[n]) == START
      && rescale.log[n + 1..n + 1 + m] == GeometryChanges(m)
      && EntryName(rescale.log[n + 1 + m]) == RESCALING
      && rescale.log[n + 2 + m..n + 2 + 2 * m] == GeometryChanges(m)
      && EntryName(rescale.log[n + 2 + 2 * m]) == RESCALING
      && EntryName(rescale.log[n + 3 + 2 * m]) == END
    ensures rescale.lastCoordinate.None?
  {
    ghost var a := rescale.anchor.value;
    ghost var pts := rescale.features.points;
    ghost var log0 := rescale.log;
    ghost var m := |pts|;
    PressAndDrag(rescale, dist, p0, p1);
    ghost var log2 := rescale.log;
    DragAndRelease(rescale, dist, p1, p2);
    ghost var path := [p0, p1, p2];
    assert path[..2] == [p0, p1];
    DragNetScale(pts, dist, path, a);
    ghost var n := |log0|;
    GestureLogShape(log0, log2[n], log2[n + m + 1], rescale.log[n + 2 * m + 2], rescale.log[n + 2 * m + 3], m,
                    rescale.log);
  }

  /** Where each part of a two-step gesture's records sits in the log. */
  lemma GestureLogShape(log0: seq<LogEntry>, start: LogEntry, step1: LogEntry, step2: LogEntry,
                        end: LogEntry, m: nat, log: seq<LogEntry>)
    requires log == log0 + [start] + GeometryChanges(m) + [step1] + GeometryChanges(m) + [step2] + [end]
    ensures var n := |log0|;
      && |log| == n + 2 * m + 4
      && log[..n] == log0
      && log[n] == start
      && log[n + 1..n + 1 + m] == GeometryChanges(m)
      && log[n + 1 + m] == step1
      && log[n + 2 + m..n + 2 + 2 * m] == GeometryChanges(m)
      && log[n + 2 + 2 * m] == step2
      && log[n + 3 + 2 * m] == end
  {
    var n := |log0|;
    assert log[n + 1..n + 1 + m] == GeometryChanges(m);
    assert log[n + 2 + m..n + 2 + 2 * m] == GeometryChanges(m);
  }

  /** The factor setter scenario: a feature at [10, 10], anchor [0, 0],
      factor 2 leaves the point in place; setting 4 scales by 2 and moves
      it to [20, 20], and the arrow marker shows each factor. */
  method FactorTwoToFour() returns (before: real, pointBefore: Coord, arrowBefore: real,
                                    after: real, point: Coord, arrowFactor: real)
    ensures before == 2.0 && pointBefore == Coord(10.0, 10.0) && arrowBefore == 2.0
    ensures after == 4.0 && point == Coord(20.0, 20.0) && arrowFactor == 4.0
  {
    var opts := Options(FeatureArray([Coord(10.0, 10.0)]), Number(2.0), Array([0.0, 0.0]), None);
    var r := RescaleInteraction.Create(opts);
    if r.Failure? {
      assert false;
      return;
    }
    var rescale := r.value;
    assert rescale.features.points == [Coord(10.0, 10.0)];
    assert rescale.arrowMarker == Some(Marker(Coord(0.0, 0.0), 2.0));
    before, pointBefore, arrowBefore := rescale.factor, rescale.features.points[0], rescale.arrowMarker.value.factor;
    var _ := rescale.SetFactor(Number(4.0));
    after := rescale.factor;
    point := rescale.features.points[0];
    arrowFactor := rescale.arrowMarker.value.factor;
  }

  /** The gesture scenario: features at [20, 20] and [0, 0] around their
      centroid [10, 10]; a press on the first, one drag to [0, 20], which
      is as far from the anchor, and a release. The factor goes from 1 to
      2, the scale by the difference 1 leaves both points in place, and
      the log holds the start, one change per feature, `rescaling` and
      the end, all carrying the anchor [10, 10]. */
  method RescaleFromCollection(dist: Metric) returns (rescale: RescaleInteraction)
    requires dist(Coord(0.0, 20.0), Coord(10.0, 10.0)) == dist(Coord(20.0, 20.0), Coord(10.0, 10.0))
    ensures rescale.features.points == [Coord(20.0, 20.0), Coord(0.0, 0.0)]
    ensures rescale.anchor == Some(Coord(10.0, 10.0)) && rescale.factor == 2.0
    ensures |rescale.log| == 5
    ensures Emits(rescale.log[0], START, rescale.features, 1.0, Some(Coord(10.0, 10.0)))
    ensures rescale.log[1] == GeometryChanged(0) && rescale.log[2] == GeometryChanged(1)
    ensures Emits(rescale.log[3], RESCALING, rescale.features, 2.0, Some(Coord(10.0, 10.0)))
    ensures Emits(rescale.log[4], END, rescale.features, 2.0, Some(Coord(10.0, 10.0)))
  {
    var a := Coord(10.0, 10.0);
    rescale := AroundCentroid();
    var press := DownEvent(true, true, true, "pointerdown", MemberFeature, Coord(20.0, 20.0));
    var handled := rescale.HandleDownEvent(press);
    assert handled;
    var ok := rescale.HandleDragEvent(Coord(0.0, 20.0), dist);
    assert DragRatio(dist, Coord(0.0, 20.0), Coord(20.0, 20.0), a) == 1.0;
    ScaleByOneFixes([Coord(20.0, 20.0), Coord(0.0, 0.0)], Some(a));
    handled := rescale.HandleUpEvent();
    assert GeometryChanges(2) == [GeometryChanged(0), GeometryChanged(1)];
  }

  /** The gesture scenario's set-up: a collection of [20, 20] and [0, 0]
      with no options gets factor 1 and the centroid [10, 10] as anchor. */
  method AroundCentroid() returns (rescale: RescaleInteraction)
    ensures fresh(rescale) && fresh(rescale.features) && rescale.Valid()
    ensures rescale.features.points == [Coord(20.0, 20.0), Coord(0.0, 0.0)]
    ensures rescale.anchor == Some(Coord(10.0, 10.0)) && rescale.factor == 1.0
    ensures rescale.lastCoordinate.None? && !rescale.anchorMoving && rescale.log == []
  {
    var features := new FeatureCollection([Coord(20.0, 20.0), Coord(0.0, 0.0)]);
    CentroidExamples();
    var r := RescaleInteraction.Create(Options(Collection(features), Nullish, NoAnchor, None));
    assert r.Success?;
    rescale := r.value;
  }

  /** The anchor scenario: an anchor option [5, 10] with a feature at
      [10, 10] is kept as given and the anchor marker sits on it; setting
      [-5, 0] moves the anchor and the marker there. */
  method AnchorSetterScenario() returns (first: Option<Coord>, firstMarker: Coord,
                                         second: Option<Coord>, secondMarker: Coord)
    ensures first == Some(Coord(5.0, 10.0)) && firstMarker == Coord(5.0, 10.0)
    ensures second == Some(Coord(-5.0, 0.0)) && secondMarker == Coord(-5.0, 0.0)
  {
    var opts := Options(FeatureArray([Coord(10.0, 10.0)]), Nullish, Array([5.0, 10.0]), None);
    var r := RescaleInteraction.Create(opts);
    assert r.Success?;
    var rescale := r.value;
    first, firstMarker := rescale.anchor, rescale.anchorMarker.value.position;
    var _ := rescale.SetAnchor(Array([-5.0, 0.0]));
    second, secondMarker := rescale.anchor, rescale.anchorMarker.value.position;
  }

  /** The membership scenario for additions: an interaction without
      features has factor 1, no anchor and no markers; pushing [10, 10]
      puts anchor and markers there with factor 1; the second half is
      `FactorThenPush`. */
  method AddScenario() returns (empty: bool, firstAnchor: Option<Coord>, firstAnchorMarker: Option<Marker>,
                                firstMarker: Option<Marker>, factor: real, secondAnchor: Option<Coord>,
                                secondMarker: Option<Marker>)
    ensures empty
    ensures firstAnchor == Some(Coord(10.0, 10.0))
    ensures firstAnchorMarker == Some(Marker(Coord(10.0, 10.0), 1.0))
    ensures firstMarker == Some(Marker(Coord(10.0, 10.0), 1.0))
    ensures factor == 1.0
    ensures secondAnchor == Some(Coord(7.5, 7.5)) && secondMarker == Some(Marker(Coord(7.5, 7.5), 1.0))
  {
    var r := RescaleInteraction.Create(Options(NoFeatures, Nullish, NoAnchor, None));
    assert r.Success?;
    var rescale := r.value;
    empty := rescale.factor == 1.0 && rescale.anchor.None? &&
             rescale.anchorMarker.None? && rescale.arrowMarker.None?;
    rescale.PushFeature(Coord(10.0, 10.0));
    CentroidOfOne(Coord(10.0, 10.0));
    firstAnchor, firstAnchorMarker, firstMarker := rescale.anchor, rescale.anchorMarker, rescale.arrowMarker;
    FactorThenPush(rescale);
    factor, secondAnchor, secondMarker := rescale.factor, rescale.anchor, rescale.arrowMarker;
  }

  /** With one feature at [10, 10] as its anchor, setting factor 2 and
      pushing [5, 5] brings the factor back to 1 and the anchor and
      markers to the centroid [7.5, 7.5]. */
  method FactorThenPush(rescale: RescaleInteraction)
    requires rescale.Valid()
    requires rescale.features.points == [Coord(10.0, 10.0)] && rescale.anchor == Some(Coord(10.0, 10.0))
    modifies rescale, rescale.features
    ensures rescale.factor == 1.0 && rescale.anchor == Some(Coord(7.5, 7.5))
    ensures rescale.arrowMarker == Some(Marker(Coord(7.5, 7.5), 1.0)) && rescale.anchorMarker == rescale.arrowMarker
  {
    var c := Coord(10.0, 10.0);
    var previous := rescale.factor;
    assert ScaleAll([c], 2.0 - previous, Some(c)) == [c] by {
      ScaleFixesAnchor(c, 2.0 - previous);
    }
    var _ := rescale.SetFactor(Number(2.0));
    assert rescale.features.points == [c];
    rescale.PushFeature(Coord(5.0, 5.0));
    assert rescale.features.points == [c, Coord(5.0, 5.0)];
    assert Centroid([c, Coord(5.0, 5.0)]) == Some(Coord(7.5, 7.5)) by {
      CentroidExamples();
    }
  }

  /** The membership scenario for removals: two features [10, 10] and
      [5, 5] start at factor 1 about [7.5, 7.5]; after factor 2 and
      removing the last one, the factor is 1 and anchor and markers are at
      [10, 10]; removing the other one leaves no anchor and no markers. */
  method RemoveScenario() returns (start: Option<Coord>, middle: Option<Coord>,
                                   middleMarker: Option<Marker>, emptied: bool)
    ensures start == Some(Coord(7.5, 7.5))
    ensures middle == Some(Coord(10.0, 10.0)) && middleMarker == Some(Marker(Coord(10.0, 10.0), 1.0))
    ensures emptied
  {
    var opts := Options(FeatureArray([Coord(10.0, 10.0), Coord(5.0, 5.0)]), Nullish, NoAnchor, None);
    CentroidExamples();
    var r := RescaleInteraction.Create(opts);
    assert r.Success?;
    var rescale := r.value;
    start := rescale.anchor;
    var _ := rescale.SetFactor(Number(2.0));
    rescale.RemoveFeatureAt(1);
    CentroidOfOne(Coord(10.0, 10.0));
    assert rescale.features.points == [Coord(10.0, 10.0)];
    middle, middleMarker := rescale.anchor, rescale.anchorMarker;
    var _ := rescale.SetFactor(Number(1.0));
    rescale.RemoveFeatureAt(0);
    emptied := rescale.factor == 1.0 && rescale.anchor.None? &&
               rescale.anchorMarker.None? && rescale.arrowMarker.None?;
  }

  /** The refused options and values, with their messages. */
  method InvalidValues() returns (features: string, factor: string, anchor: string,
                                  setFactor: Outcome<Error>, setAnchor: Outcome<Error>)
    ensures features == "Features option should be an array or collection of features, got string"
    ensures factor == "Numeric value passed" && anchor == "Array of two elements passed"
    ensures setFactor == Fail(NotNumeric) && setAnchor == Fail(NotCoordinatePair)
  {
    var r := RescaleInteraction.Create(Options(NotFeatures("string"), Nullish, NoAnchor, None));
    features := if r.Failure? then Message(r.error) else "";
    r := RescaleInteraction.Create(Options(NoFeatures, NonNumeric, NoAnchor, None));
    factor := if r.Failure? then Message(r.error) else "";
    r := RescaleInteraction.Create(Options(NoFeatures, Nullish, NotArray(true), None));
    anchor := if r.Failure? then Message(r.error) else "";
    r := RescaleInteraction.Create(Options(NoFeatures, Nullish, NoAnchor, None));
    assert r.Success?;
    var rescale := r.value;
    setFactor := rescale.SetFactor(NonNumeric);
    setAnchor := rescale.SetAnchor(NotArray(true));
  }
}
