/** The rescale interaction: its options and their validation, the factor
    and anchor properties, the two marker features, the reactions to
    property and membership changes, and the pointer gesture handlers. */
module Interaction {
  import opened Wrappers
  import opened Geometry
  import opened FeatureExtent
  import opened RescaleEvent

  /** The errors the interaction throws. */
  datatype Error =
    | FeaturesNotCollection(got: string)
    | NotNumeric
    | NotCoordinatePair

  /** The message each error carries. */
  function Message(e: Error): string
  {
    match e
    case FeaturesNotCollection(got) =>
      "Features option should be an array or collection of features, got " + got
    case NotNumeric => "Numeric value passed"
    case NotCoordinatePair => "Array of two elements passed"
  }

  /** A factor value as `parseFloat` and JavaScript truthiness see it. */
  datatype NumberArg =
    | Nullish            // undefined, null, NaN or '': falsy, and not a number
    | Number(value: real)  // a number or a numeric string; falsy exactly when it is the number 0
    | ZeroString         // a non-empty string `parseFloat` reads as 0, such as '0': truthy, yet 0
    | NonNumeric         // a truthy value `parseFloat` cannot read, such as 'qwerty'

  /** An anchor value as `setAnchor` sees it. */
  datatype AnchorArg =
    | NoAnchor                    // undefined or null
    | Array(elements: seq<real>)  // an array of numbers
    | NotArray(truthy: bool)      // any other value

  /** The `features` option. */
  datatype FeaturesArg =
    | NoFeatures                              // absent or falsy
    | FeatureArray(points: seq<Coord>)        // a plain array of features
    | Collection(collection: FeatureCollection)
    | NotFeatures(typeName: string)           // any other truthy value, with its `typeof`

  /** Constructor options; `style` and `condition` only reach rendering and
      the pointer gate, so they are not part of the model. */
  datatype Options = Options(
    features: FeaturesArg,
    factor: NumberArg,
    anchor: AnchorArg,
    allowAnchorMovement: Option<bool>)

  /** The property values a successful construction starts from. */
  datatype Config = Config(factor: real, anchor: Option<Coord>, allowAnchorMovement: bool)

  /** `setFactor`'s check: only a numeric value is accepted, and it is
      stored as it was parsed. */
  function ParseFactor(arg: NumberArg): (r: Result<real, Error>)
    ensures r.Success? <==> arg.Number? || arg.ZeroString?
    ensures arg.Number? ==> r == Success(arg.value)
    ensures arg.ZeroString? ==> r == Success(0.0)
    ensures r.Failure? ==> Message(r.error) == "Numeric value passed"
  {
    match arg
    case Number(v) => Success(v)
    case ZeroString => Success(0.0)
    case _ => Failure(NotNumeric)
  }

  /** `options.factor || 1`, then `setFactor`: a falsy factor, the number
      0 included, becomes 1; only a truthy string that reads as 0, such as
      '0', gets past the `||` and starts the interaction at factor 0. */
  function InitialFactor(arg: NumberArg): (r: Result<real, Error>)
    ensures r.Failure? <==> arg.NonNumeric?
    ensures r.Success? ==> (r.value == 0.0 <==> arg.ZeroString?)
    ensures arg.ZeroString? ==> r == Success(0.0)
    ensures arg.Nullish? || arg == Number(0.0) ==> r == Success(1.0)
    ensures arg.Number? && arg.value != 0.0 ==> r == Success(arg.value)
  {
    var given := if arg.Nullish? || arg == Number(0.0) then Number(1.0) else arg;
    ParseFactor(given)
  }

  /** `setAnchor`'s check and value: null or undefined gives the centroid of
      the current features, a two-element array gives a copy of it, and
      anything else is refused. */
  function ParseAnchor(arg: AnchorArg, centroid: Option<Coord>): (r: Result<Option<Coord>, Error>)
    ensures r.Success? <==> arg.NoAnchor? || (arg.Array? && |arg.elements| == 2)
    ensures r.Failure? ==> Message(r.error) == "Array of two elements passed"
    ensures arg.NoAnchor? ==> r == Success(centroid)
    ensures arg.Array? && |arg.elements| == 2 ==>
      r == Success(Some(Coord(arg.elements[0], arg.elements[1])))
  {
    match arg
    case NoAnchor => Success(centroid)
    case Array(e) => if |e| == 2 then Success(Some(Coord(e[0], e[1]))) else Failure(NotCoordinatePair)
    case NotArray(_) => Failure(NotCoordinatePair)
  }

  /** `options.anchor || getFeaturesCentroid(features)`, then `setAnchor`:
      a falsy anchor option means the centroid, so with features present
      the anchor is always defined. */
  function InitialAnchor(arg: AnchorArg, pts: seq<Coord>): (r: Result<Option<Coord>, Error>)
    ensures r.Failure? <==> arg == NotArray(true) || (arg.Array? && |arg.elements| != 2)
    ensures r.Success? && !arg.Array? ==> r.value == Centroid(pts)
    ensures arg.Array? && |arg.elements| == 2 ==> r == Success(Some(Coord(arg.elements[0], arg.elements[1])))
    ensures r.Success? && pts != [] ==> r.value.Some?
  {
    var given :=
      if arg.NoAnchor? || arg == NotArray(false) then
        match Centroid(pts)
        case None => NoAnchor
        case Some(c) => Array([c.x, c.y])
      else arg;
    ParseAnchor(given, Centroid(pts))
  }

  /** The checks of the constructor, in its order: the features option,
      then the anchor, then the factor. */
  function Configure(opts: Options, pts: seq<Coord>): (r: Result<Config, Error>)
    ensures opts.features.NotFeatures? ==> r == Failure(FeaturesNotCollection(opts.features.typeName))
    ensures !opts.features.NotFeatures? && InitialAnchor(opts.anchor, pts).Failure? ==>
      r == Failure(NotCoordinatePair)
    ensures (!opts.features.NotFeatures? && InitialAnchor(opts.anchor, pts).Success? &&
             InitialFactor(opts.factor).Failure?) ==> r == Failure(NotNumeric)
    ensures r.Success? <==>
      !opts.features.NotFeatures? && InitialAnchor(opts.anchor, pts).Success? &&
      InitialFactor(opts.factor).Success?
    ensures r.Success? ==> r.value.factor == InitialFactor(opts.factor).value
    ensures r.Success? ==> r.value.anchor == InitialAnchor(opts.anchor, pts).value
    ensures r.Success? ==> (r.value.factor == 0.0 <==> opts.factor.ZeroString?)
    ensures r.Success? && pts != [] ==> r.value.anchor.Some?
    ensures r.Success? ==> r.value.allowAnchorMovement == opts.allowAnchorMovement.GetOr(true)
  {
    if opts.features.NotFeatures? then Failure(FeaturesNotCollection(opts.features.typeName))
    else
      match InitialAnchor(opts.anchor, pts)
      case Failure(e) => Failure(e)
      case Success(a) =>
        match InitialFactor(opts.factor)
        case Failure(e) => Failure(e)
        case Success(f) => Success(Config(f, a, opts.allowAnchorMovement.GetOr(true)))
  }

  /** The features the interaction starts with. */
  function InitialPoints(arg: FeaturesArg): seq<Coord>
    reads if arg.Collection? then {arg.collection} else {}
  {
    match arg
    case FeatureArray(pts) => pts
    case Collection(c) => c.points
    case _ => []
  }

  /** A marker feature: its point geometry and its `factor` attribute. */
  datatype Marker = Marker(position: Coord, factor: real)

  /** `createOrUpdate{Anchor,Arrow}Feature_`: without an anchor nothing
      happens; otherwise the marker, new or existing, sits at the anchor
      and carries the factor. */
  function Refreshed(m: Option<Marker>, factor: real, anchor: Option<Coord>): Option<Marker>
  {
    if anchor.None? then m else Some(Marker(anchor.value, factor))
  }

  /** An existing marker moved to a defined anchor. */
  function Moved(m: Option<Marker>, anchor: Option<Coord>): Option<Marker>
  {
    if m.Some? && anchor.Some? then Some(m.value.(position := anchor.value)) else m
  }

  /** An existing marker with a new `factor` attribute. */
  function Relabelled(m: Option<Marker>, factor: real): Option<Marker>
  {
    if m.Some? then Some(m.value.(factor := factor)) else m
  }

  /** One record of what listeners observe: an event the interaction
      dispatched, or a `change` of the geometry of the feature at `index`. */
  datatype LogEntry = Emitted(event: RescaleFeatureEvent) | GeometryChanged(index: nat)

  /** The name a listener sees for an entry. */
  function EntryName(e: LogEntry): string
  {
    if e.Emitted? then e.event.eventType else "change"
  }

  /** The `change` records of scaling every one of `n` features, in order. */
  function GeometryChanges(n: nat): seq<LogEntry>
  {
    seq(n, i requires 0 <= i < n => GeometryChanged(i))
  }

  /** `e` is an event of type `t` carrying this snapshot. */
  predicate Emits(e: LogEntry, t: string, fs: FeatureCollection, angle: real, anchor: Option<Coord>)
  {
    e.Emitted? && e.event.eventType == t && e.event.features == fs &&
    e.event.angle == angle && e.event.anchor == anchor
  }

  /** What the host's hit test found under the pointer. */
  datatype Hit =
    | NoFeature
    | MemberFeature   // one of the interaction's features
    | ArrowFeature    // the arrow marker
    | AnchorFeature   // the anchor marker
    | OtherFeature

  /** A pointer-down event, with the results of the host's gate checks
      (`mouseOnly`, `mouseActionButton`, the `condition` option) and hit test. */
  datatype DownEvent = DownEvent(
    mouseOnly: bool,
    actionButton: bool,
    conditionHolds: bool,
    eventType: string,
    hit: Hit,
    coordinate: Coord)

  datatype DownResult = Rejected | BeginFeatureDrag | BeginAnchorDrag

  predicate IsClickType(t: string)
  {
    t == "click" || t == "singleclick" || t == "dblclick"
  }

  /** `includes([anchorFeature_, arrowFeature_], foundFeature)`; an absent
      marker is `undefined`, which an empty hit equals. */
  predicate FoundMarker(hit: Hit, hasAnchorMarker: bool, hasArrowMarker: bool)
  {
    || (hit == AnchorFeature && hasAnchorMarker)
    || (hit == ArrowFeature && hasArrowMarker)
    || (hit == NoFeature && (!hasAnchorMarker || !hasArrowMarker))
  }

  /** What `handleDownEvent` does with an event, given whether a feature
      drag is under way, which markers exist and whether the anchor may
      move. */
  function DownDecision(ev: DownEvent, dragging: bool, hasAnchorMarker: bool,
                        hasArrowMarker: bool, allowAnchorMovement: bool): (r: DownResult)
    ensures !(ev.mouseOnly && ev.actionButton && ev.conditionHolds) ==> r == Rejected
    ensures IsClickType(ev.eventType) && FoundMarker(ev.hit, hasAnchorMarker, hasArrowMarker) ==>
      r == Rejected
    ensures r == BeginFeatureDrag <==>
      && ev.mouseOnly && ev.actionButton && ev.conditionHolds
      && !(IsClickType(ev.eventType) && FoundMarker(ev.hit, hasAnchorMarker, hasArrowMarker))
      && !dragging
      && (ev.hit == MemberFeature || (ev.hit == ArrowFeature && hasArrowMarker))
    ensures r == BeginAnchorDrag <==>
      && ev.mouseOnly && ev.actionButton && ev.conditionHolds
      && !IsClickType(ev.eventType)
      && ev.hit == AnchorFeature && hasAnchorMarker && allowAnchorMovement
  {
    if !ev.mouseOnly then Rejected
    else if !(ev.actionButton && ev.conditionHolds) then Rejected
    else if IsClickType(ev.eventType) && FoundMarker(ev.hit, hasAnchorMarker, hasArrowMarker) then Rejected
    else if ev.hit != NoFeature && !dragging &&
            (ev.hit == MemberFeature || (ev.hit == ArrowFeature && hasArrowMarker)) then BeginFeatureDrag
    else if ev.hit == AnchorFeature && hasAnchorMarker && allowAnchorMovement then BeginAnchorDrag
    else Rejected
  }

  /** The amount a drag step adds to the factor: the ratio of the pointer's
      distances from the anchor now and at the previous step. It is never
      negative, vanishes only on the anchor itself, and is exactly 1 for a
      step that keeps the distance, so the factor grows by 1 even then. */
  function DragRatio(dist: Metric, current: Coord, last: Coord, anchor: Coord): (r: real)
    requires last != anchor
    ensures 0.0 <= r
    ensures r == 0.0 <==> current == anchor
    ensures dist(current, anchor) == dist(last, anchor) ==> r == 1.0
  {
    var num, den := dist(current, anchor), dist(last, anchor);
    assert den != 0.0;
    assert num == den ==> num / den == 1.0;
    num / den
  }

  class RescaleInteraction {
    /** The features, shared with the caller when given as a collection. */
    const features: FeatureCollection
    var factor: real
    var anchor: Option<Coord>
    /** Where the last feature-drag step ended; set while features are dragged. */
    var lastCoordinate: Option<Coord>
    /** Set while the anchor marker is dragged. */
    var anchorMoving: bool
    var allowAnchorMovement: bool
    var anchorMarker: Option<Marker>
    var arrowMarker: Option<Marker>
    /** Everything dispatched to listeners, oldest first. */
    var log: seq<LogEntry>

    /** The two markers exist together. */
    ghost predicate MarkersPaired()
      reads this
    {
      anchorMarker.Some? <==> arrowMarker.Some?
    }

    /** Existing markers sit at the anchor whenever it is defined. */
    ghost predicate MarkersAtAnchor()
      reads this
    {
      anchor.Some? ==>
        (anchorMarker.Some? ==> anchorMarker.value.position == anchor.value) &&
        (arrowMarker.Some? ==> arrowMarker.value.position == anchor.value)
    }

    /** Existing markers carry the current factor. */
    ghost predicate MarkersShowFactor()
      reads this
    {
      (anchorMarker.Some? ==> anchorMarker.value.factor == factor) &&
      (arrowMarker.Some? ==> arrowMarker.value.factor == factor)
    }

    /** While there are features, the anchor is defined and marked. */
    ghost predicate FeaturesAnchored()
      reads this, features
    {
      features.points != [] ==> anchor.Some? && anchorMarker.Some?
    }

    /** The invariant every public method keeps. */
    ghost predicate Valid()
      reads this, features
    {
      MarkersPaired() && MarkersAtAnchor() && MarkersShowFactor() && FeaturesAnchored()
    }

    /** What `Valid` means for a non-empty feature set: both markers exist,
        at the anchor, showing the factor. */
    lemma ValidMarkers()
      requires Valid() && features.points != []
      ensures anchor.Some? && anchorMarker == Some(Marker(anchor.value, factor)) && arrowMarker == anchorMarker
    {
    }

    /** The part of the constructor that runs once the options are known
        to be valid: both properties are set before any listener is
        attached, so the features are not scaled, and the markers are
        created at the anchor when there is one. */
    constructor Init(features: FeatureCollection, factor: real, anchor: Option<Coord>,
                     allowAnchorMovement: bool)
      requires features.points != [] ==> anchor.Some?
      ensures Valid()
      ensures this.features == features && this.factor == factor && this.anchor == anchor
      ensures this.allowAnchorMovement == allowAnchorMovement
      ensures lastCoordinate.None? && !anchorMoving && log == []
      ensures anchorMarker == Refreshed(None, factor, anchor) && arrowMarker == anchorMarker
    {
      this.features := features;
      this.factor := factor;
      this.anchor := anchor;
      this.allowAnchorMovement := allowAnchorMovement;
      lastCoordinate := None;
      anchorMoving := false;
      log := [];
      anchorMarker := Refreshed(None, factor, anchor);
      arrowMarker := Refreshed(None, factor, anchor);
    }

    /** `new RescaleFeatureInteraction(options)`: an array of features is
        wrapped in a new collection with the same points in the same order,
        a collection is shared, anything else truthy is refused; then the
        anchor and the factor are checked and set. */
    static method Create(opts: Options) returns (r: Result<RescaleInteraction, Error>)
      ensures var c := Configure(opts, InitialPoints(opts.features));
        && (r.Failure? <==> c.Failure?)
        && (r.Failure? ==> r.error == c.error)
        && (r.Success? ==>
              && r.value.Valid()
              && r.value.features.points == InitialPoints(opts.features)
              && r.value.factor == c.value.factor
              && r.value.anchor == c.value.anchor
              && r.value.allowAnchorMovement == c.value.allowAnchorMovement
              && r.value.lastCoordinate.None? && !r.value.anchorMoving && r.value.log == []
              && r.value.anchorMarker == Refreshed(None, c.value.factor, c.value.anchor)
              && r.value.arrowMarker == r.value.anchorMarker)
      ensures r.Success? ==> fresh(r.value)
      ensures r.Success? && opts.features.Collection? ==> r.value.features == opts.features.collection
      ensures r.Success? && !opts.features.Collection? ==> fresh(r.value.features)
    {
      var fs: FeatureCollection;
      match opts.features {
        case NotFeatures(t) =>
          return Failure(FeaturesNotCollection(t));
        case NoFeatures =>
          fs := new FeatureCollection([]);
        case FeatureArray(pts) =>
          fs := new FeatureCollection(pts);
        case Collection(c) =>
          fs := c;
      }
      var allow := opts.allowAnchorMovement.GetOr(true);
      var a := InitialAnchor(opts.anchor, fs.points);
      if a.Failure? {
        return Failure(a.error);
      }
      var f := InitialFactor(opts.factor);
      if f.Failure? {
        return Failure(f.error);
      }
      var interaction := new RescaleInteraction.Init(fs, f.value, a.value, allow);
      return Success(interaction);
    }

    /** `dispatch{RescaleStart,Rescaling,RescaleEnd}Event_`: a new event
        carrying the features, the factor and the anchor is dispatched. */
    method Dispatch(eventType: string)
      modifies this`log
      ensures |log| == |old(log)| + 1 && log[..|old(log)|] == old(log)
      ensures Emits(log[|old(log)|], eventType, features, factor, anchor)
      ensures log[|old(log)|].Emitted? && fresh(log[|old(log)|].event)
      ensures !log[|old(log)|].event.propagationStopped
    {
      var e := new RescaleFeatureEvent(eventType, features, factor, anchor);
      log := log + [Emitted(e)];
    }

    /** `onFactorChange_`: every feature is scaled in place about the
        anchor by the DIFFERENCE between the new and the old factor (so
        1 to 2 leaves the points where they are and 2 to 4 doubles their
        offsets), each geometry reporting a `change`; then both markers
        take the new factor. */
    method OnFactorChange(oldValue: real)
      requires MarkersPaired() && MarkersAtAnchor() && FeaturesAnchored()
      modifies this`log, this`anchorMarker, this`arrowMarker, features
      ensures Valid()
      ensures features.points == ScaleAll(old(features.points), factor - oldValue, anchor)
      ensures log == old(log) + GeometryChanges(|features.points|)
      ensures anchorMarker == Relabelled(old(anchorMarker), factor)
      ensures arrowMarker == Relabelled(old(arrowMarker), factor)
    {
      var s := factor - oldValue;
      ghost var before := features.points;
      var n := |features.points|;
      var i := 0;
      while i < n
        modifies this`log, features
        invariant 0 <= i <= n == |features.points|
        invariant features.points[..i] == ScaleAll(before[..i], s, anchor)
        invariant features.points[i..] == before[i..]
        invariant log == old(log) + GeometryChanges(i)
      {
        features.points := features.points[i := ScaleAbout(features.points[i], s, anchor)];
        log := log + [GeometryChanged(i)];
        assert GeometryChanges(i + 1) == GeometryChanges(i) + [GeometryChanged(i)];
        assert before[..i + 1] == before[..i] + [before[i]];
        i := i + 1;
      }
      assert features.points == features.points[..n] && before == before[..n];
      anchorMarker := Relabelled(anchorMarker, factor);
      arrowMarker := Relabelled(arrowMarker, factor);
    }

    /** `setFactor`: a non-numeric value throws and changes nothing; a
        numeric one becomes the factor, and when it differs from the old
        one the change reaction scales the features and relabels the
        markers. */
    method SetFactor(arg: NumberArg) returns (r: Outcome<Error>)
      requires Valid()
      modifies this, features
      ensures Valid()
      ensures r.Fail? <==> ParseFactor(arg).Failure?
      ensures r.Fail? ==> r.error == NotNumeric && unchanged(this) && unchanged(features)
      ensures r.Pass? ==> factor == ParseFactor(arg).value
      ensures anchor == old(anchor) && lastCoordinate == old(lastCoordinate)
      ensures anchorMoving == old(anchorMoving) && allowAnchorMovement == old(allowAnchorMovement)
      ensures factor != old(factor) ==>
        && features.points == ScaleAll(old(features.points), factor - old(factor), anchor)
        && log == old(log) + GeometryChanges(|features.points|)
        && anchorMarker == Relabelled(old(anchorMarker), factor)
        && arrowMarker == Relabelled(old(arrowMarker), factor)
      ensures factor == old(factor) ==>
        unchanged(features) && log == old(log) &&
        anchorMarker == old(anchorMarker) && arrowMarker == old(arrowMarker)
    {
      var parsed := ParseFactor(arg);
      if parsed.Failure? {
        return Fail(parsed.error);
      }
      var previous := factor;
      factor := parsed.value;
      if factor != previous {
        OnFactorChange(previous);
      }
      return Pass;
    }

    /** `onAnchorChange_`: existing markers move to a defined anchor; the
        features and the factor are not touched. */
    method OnAnchorChange()
      modifies this`anchorMarker, this`arrowMarker
      ensures anchorMarker == Moved(old(anchorMarker), anchor)
      ensures arrowMarker == Moved(old(arrowMarker), anchor)
    {
      if anchor.Some? {
        anchorMarker := Moved(anchorMarker, anchor);
        arrowMarker := Moved(arrowMarker, anchor);
      }
    }

    /** `setAnchor`: a malformed value throws and changes nothing;
        otherwise the anchor becomes a copy of the given pair, or the
        current centroid for null or undefined, and only the markers
        follow it. Setting the anchor to its own value moves nothing. */
    method SetAnchor(arg: AnchorArg) returns (r: Outcome<Error>)
      requires Valid()
      modifies this
      ensures Valid()
      ensures r.Fail? <==> ParseAnchor(arg, Centroid(features.points)).Failure?
      ensures r.Fail? ==> r.error == NotCoordinatePair && unchanged(this)
      ensures r.Pass? ==>
        && anchor == ParseAnchor(arg, Centroid(features.points)).value
        && anchorMarker == Moved(old(anchorMarker), anchor)
        && arrowMarker == Moved(old(arrowMarker), anchor)
      ensures features.points == old(features.points)
      ensures factor == old(factor) && log == old(log) && lastCoordinate == old(lastCoordinate)
      ensures anchorMoving == old(anchorMoving) && allowAnchorMovement == old(allowAnchorMovement)
      ensures old(anchor).Some? && anchor == old(anchor) ==>
        anchorMarker == old(anchorMarker) && arrowMarker == old(arrowMarker)
    {
      var parsed := ParseAnchor(arg, Centroid(features.points));
      if parsed.Failure? {
        return Fail(parsed.error);
      }
      anchor := parsed.value;
      OnAnchorChange();
      return Pass;
    }

    /** `createOrUpdateAnchorFeature_` and `createOrUpdateArrowFeature_`. */
    method CreateOrUpdateMarkers()
      modifies this`anchorMarker, this`arrowMarker
      ensures anchorMarker == Refreshed(old(anchorMarker), factor, anchor)
      ensures arrowMarker == Refreshed(old(arrowMarker), factor, anchor)
    {
      anchorMarker := Refreshed(anchorMarker, factor, anchor);
      arrowMarker := Refreshed(arrowMarker, factor, anchor);
    }

    /** `resetFactorAndAnchor_`: the factor silently becomes 1 and the
        anchor the centroid of the features, with no scaling; existing
        markers take the factor, and move when the anchor is defined. */
    method ResetFactorAndAnchor()
      modifies this`factor, this`anchor, this`anchorMarker, this`arrowMarker
      ensures factor == 1.0 && anchor == Centroid(features.points)
      ensures anchorMarker == Moved(Relabelled(old(anchorMarker), 1.0), anchor)
      ensures arrowMarker == Moved(Relabelled(old(arrowMarker), 1.0), anchor)
    {
      factor := 1.0;
      arrowMarker := Relabelled(arrowMarker, factor);
      anchorMarker := Relabelled(anchorMarker, factor);
      anchor := Centroid(features.points);
      if anchor.Some? {
        arrowMarker := Moved(arrowMarker, anchor);
        anchorMarker := Moved(anchorMarker, anchor);
      }
    }

    /** `onFeatureAdd_`, run once the collection holds the new feature:
        factor 1, anchor at the new centroid, no geometry scaled, and both
        markers at the anchor showing factor 1. */
    method OnFeatureAdd()
      requires MarkersPaired()
      modifies this`factor, this`anchor, this`anchorMarker, this`arrowMarker
      ensures Valid()
      ensures factor == 1.0 && anchor == Centroid(features.points)
      ensures anchor.Some? ==>
        anchorMarker == Some(Marker(anchor.value, 1.0)) && arrowMarker == anchorMarker
      ensures anchor.None? ==>
        anchorMarker == Relabelled(old(anchorMarker), 1.0) && arrowMarker == Relabelled(old(arrowMarker), 1.0)
    {
      ResetFactorAndAnchor();
      CreateOrUpdateMarkers();
    }

    /** `onFeatureRemove_`, run once the feature has left the collection:
        the same reset; with features left both markers sit at the new
        centroid, and with none left the anchor is undefined and both
        markers are gone. */
    method OnFeatureRemove()
      requires MarkersPaired()
      modifies this`factor, this`anchor, this`anchorMarker, this`arrowMarker
      ensures Valid()
      ensures factor == 1.0 && anchor == Centroid(features.points)
      ensures features.points != [] ==>
        anchorMarker == Some(Marker(anchor.value, 1.0)) && arrowMarker == anchorMarker
      ensures features.points == [] ==>
        anchor.None? && anchorMarker.None? && arrowMarker.None?
    {
      ResetFactorAndAnchor();
      if |features.points| > 0 {
        CreateOrUpdateMarkers();
      } else {
        anchorMarker, arrowMarker := None, None;
      }
    }

    /** `features.push(feature)`: the collection grows and then reports the
        addition to the interaction. */
    method PushFeature(p: Coord)
      requires Valid()
      modifies this`factor, this`anchor, this`anchorMarker, this`arrowMarker, features
      ensures Valid()
      ensures features.points == old(features.points) + [p]
      ensures factor == 1.0 && anchor == Centroid(features.points) && anchor.Some?
      ensures anchorMarker == Some(Marker(anchor.value, 1.0)) && arrowMarker == anchorMarker
      ensures log == old(log) && lastCoordinate == old(lastCoordinate) && anchorMoving == old(anchorMoving)
    {
      features.points := features.points + [p];
      OnFeatureAdd();
    }

    /** `features.removeAt(i)`: the collection shrinks and then reports the
        removal to the interaction. */
    method RemoveFeatureAt(i: nat)
      requires Valid() && i < |features.points|
      modifies this`factor, this`anchor, this`anchorMarker, this`arrowMarker, features
      ensures Valid()
      ensures features.points == old(features.points)[..i] + old(features.points)[i + 1..]
      ensures factor == 1.0 && anchor == Centroid(features.points)
      ensures features.points != [] ==>
        anchorMarker == Some(Marker(anchor.value, 1.0)) && arrowMarker == anchorMarker
      ensures features.points == [] ==> anchor.None? && anchorMarker.None? && arrowMarker.None?
      ensures log == old(log) && lastCoordinate == old(lastCoordinate) && anchorMoving == old(anchorMoving)
    {
      features.points := features.points[..i] + features.points[i + 1..];
      OnFeatureRemove();
    }

    /** `handleDownEvent`: a press on a feature or on the arrow starts a
        feature drag from the pressed coordinate and dispatches
        `rescalestart`; a press on the anchor marker, when allowed, starts
        an anchor drag; everything else is declined and changes nothing. */
    method HandleDownEvent(ev: DownEvent) returns (handled: bool)
      requires Valid()
      modifies this`lastCoordinate, this`anchorMoving, this`log
      ensures Valid()
      ensures var d := DownDecision(ev, old(lastCoordinate).Some?, anchorMarker.Some?,
                                    arrowMarker.Some?, allowAnchorMovement);
        && (handled <==> d != Rejected)
        && (d == Rejected ==> unchanged(this))
        && (d == BeginFeatureDrag ==>
              && lastCoordinate == Some(ev.coordinate) && anchorMoving == old(anchorMoving)
              && |log| == |old(log)| + 1 && log[..|old(log)|] == old(log)
              && Emits(log[|old(log)|], START, features, factor, anchor))
        && (d == BeginAnchorDrag ==>
              anchorMoving && lastCoordinate == old(lastCoordinate) && log == old(log))
    {
      if !ev.mouseOnly {
        return false;
      }
      if ev.actionButton && ev.conditionHolds {
        if IsClickType(ev.eventType) && FoundMarker(ev.hit, anchorMarker.Some?, arrowMarker.Some?) {
          return false;
        }
        if ev.hit != NoFeature && lastCoordinate.None? &&
           (ev.hit == MemberFeature || (ev.hit == ArrowFeature && arrowMarker.Some?)) {
          lastCoordinate := Some(ev.coordinate);
          Dispatch(START);
          return true;
        } else if ev.hit == AnchorFeature && anchorMarker.Some? && allowAnchorMovement {
          anchorMoving := true;
          return true;
        }
      }
      return false;
    }

    /** `handleDragEvent`. The anchor marker's position is read first, so
        without markers the handler throws (ok is false) before changing
        anything. During a feature drag the factor grows by the distance
        ratio, which scales the features by that ratio about the anchor,
        then `rescaling` is dispatched and the step's end is remembered.
        During an anchor drag the anchor follows the pointer. */
    method HandleDragEvent(coordinate: Coord, dist: Metric) returns (ok: bool)
      requires Valid()
      requires lastCoordinate.Some? && anchorMarker.Some? ==>
        lastCoordinate.value != anchorMarker.value.position
      modifies this, features
      ensures Valid()
      ensures ok <==> old(anchorMarker).Some?
      ensures allowAnchorMovement == old(allowAnchorMovement)
      ensures !ok ==> unchanged(this) && unchanged(features)
      ensures ok && old(lastCoordinate).Some? ==>
        && factor == old(factor) + DragRatio(dist, coordinate, old(lastCoordinate).value,
                                             old(anchorMarker).value.position)
        && lastCoordinate == Some(coordinate)
        && anchor == old(anchor) && anchorMoving == old(anchorMoving)
        && anchorMarker == Relabelled(old(anchorMarker), factor)
        && arrowMarker == Relabelled(old(arrowMarker), factor)
        && |log| > |old(log)|
        && Emits(log[|log| - 1], RESCALING, features, factor, anchor)
      ensures ok && old(lastCoordinate).Some? && coordinate != old(anchorMarker).value.position ==>
        && features.points == ScaleAll(old(features.points), factor - old(factor), anchor)
        && log == old(log) + GeometryChanges(|features.points|) + [log[|log| - 1]]
      ensures ok && old(lastCoordinate).Some? && coordinate == old(anchorMarker).value.position ==>
        features.points == old(features.points) && log == old(log) + [log[|log| - 1]]
      ensures ok && old(lastCoordinate).None? && old(anchorMoving) ==>
        && anchor == Some(coordinate)
        && anchorMarker == Moved(old(anchorMarker), anchor)
        && arrowMarker == Moved(old(arrowMarker), anchor)
        && factor == old(factor) && log == old(log) && features.points == old(features.points)
        && anchorMoving && lastCoordinate.None?
      ensures ok && old(lastCoordinate).None? && !old(anchorMoving) ==>
        unchanged(this) && unchanged(features)
    {
      if anchorMarker.None? {
        return false;
      }
      var anchorCoordinate := anchorMarker.value.position;
      if lastCoordinate.Some? {
        var ratio := DragRatio(dist, coordinate, lastCoordinate.value, anchorCoordinate);
        var _ := SetFactor(Number(factor + ratio));
        Dispatch(RESCALING);
        lastCoordinate := Some(coordinate);
      } else if anchorMoving {
        var _ := SetAnchor(Array([coordinate.x, coordinate.y]));
      }
      return true;
    }

    /** `handleUpEvent`: a feature drag ends first, dispatching
        `rescaleend`; otherwise an anchor drag ends; with neither under
        way the event is declined. */
    method HandleUpEvent() returns (handled: bool)
      requires Valid()
      modifies this`lastCoordinate, this`anchorMoving, this`log
      ensures Valid()
      ensures handled <==> old(lastCoordinate).Some? || old(anchorMoving)
      ensures old(lastCoordinate).Some? ==>
        && lastCoordinate.None? && anchorMoving == old(anchorMoving)
        && |log| == |old(log)| + 1 && log[..|old(log)|] == old(log)
        && Emits(log[|old(log)|], END, features, factor, anchor)
      ensures old(lastCoordinate).None? && old(anchorMoving) ==>
        !anchorMoving && lastCoordinate.None? && log == old(log)
      ensures !handled ==> unchanged(this)
    {
      if lastCoordinate.Some? {
        lastCoordinate := None;
        Dispatch(END);
        return true;
      } else if anchorMoving {
        anchorMoving := false;
        return true;
      }
      return false;
    }
  }
}
