# Rescale feature interaction, modelled in Dafny

This project models the core of `ol-rescale-feature`, an OpenLayers
interaction that rescales a set of vector features about an anchor point.
A user presses on one of the features or on the arrow marker and drags;
each drag step changes the interaction's `factor`, and the change of
factor rescales every feature geometry in place about the `anchor`. Two
marker features, the anchor marker and the arrow marker, sit at the anchor
and show the factor. The anchor marker can itself be dragged to move the
anchor. Adding a feature to the set, or removing one, silently resets the
factor to 1 and the anchor to the centroid of the set. The interaction
dispatches `rescalestart`, `rescaling` and `rescaleend` events, instances
of a small event class whose propagation flag can be set.

Layout:

- `wrappers.dfy`: `Option`, `Result` and `Outcome`, the shapes of absent
  values and of thrown errors.
- `geometry.dfy`: coordinates; `Metric`, the distance function behind a
  drag ratio, kept abstract as any function that is non-negative and zero
  exactly on equal points; `ScaleAbout`/`ScaleAll`, the effect of
  `Geometry.scale(s, s, anchor)` on point geometries, with its algebra; the
  `FeatureCollection` class whose point list the interaction mutates.
- `extent.dfy`: `getFeaturesExtent` and `getFeaturesCentroid`, and how
  both behave under a scale.
- `event.dfy`: the event type names and the `RescaleFeatureEvent` class.
- `interaction.dfy`: the option and value checks as functions, the
  pointer-down decision as a function, and the `RescaleInteraction` class
  with the setters, the change reactions, the membership reactions and the
  three pointer handlers as methods.
- `gestures.dfy`: what a whole drag over many pointer positions does, and
  the scenarios of the unit tests as sequences of method calls.

The state of the interaction is a class: `factor`, `anchor`,
`lastCoordinate` (set while features are dragged), `anchorMoving`,
`allowAnchorMovement`, the two markers (each a position and a `factor`
attribute, absent or present), the shared feature collection and `log`,
the append-only list of what listeners observe: dispatched events and
one `change` per scaled feature geometry. `Valid` is the invariant every public
method keeps: the markers exist together, sit at the anchor when it is
defined and show the current factor, and a non-empty feature set has an
anchor and markers.

Choices where the source leaves room:

- Property notification. OpenLayers' `BaseObject.set` fires
  `change:<key>` only when the new value differs from the old one
  (`!==`). `SetFactor` therefore runs the factor reaction only for a
  different value. Setting the same factor changes nothing; a
  notification would scale every feature by 0 onto the anchor. `setAnchor`
  always stores a new array, so its reaction always runs; for an undefined
  anchor the reaction does nothing.
- The factor reaction scales by the difference `new - old`, used as a
  multiplicative scale, exactly as `src/interaction.js:351` does. During
  a drag the factor grows by the distance ratio, so that difference is the
  ratio itself: over a whole drag the features end up scaled by the final
  distance over the initial distance (`Gestures.DragNetScale`, tied to
  the handler itself by `Gestures.DragAlong`), while the
  factor is the sum of the step ratios (`Gestures.DraggedFactorGrows`,
  `Gestures.CircularDrag`). Outside a drag, setting the factor from 1 to
  1.5 scales the features by 0.5.
- Division by zero in the drag ratio. The code has no guard when the
  previous pointer position is the anchor; `DragRatio` and
  `HandleDragEvent` require that it is not, instead of inventing a guard.
- Gesture states are not exclusive in the code: a press on the anchor
  marker during a feature drag still sets `anchorMoving`. The model keeps
  this (`Interaction.DownDecision` does not look at `lastCoordinate` for
  the anchor case).
- A drag event without an anchor marker throws a `TypeError` on reading
  its geometry (`src/interaction.js:514`); `HandleDragEvent` then returns
  `ok == false` and changes nothing.
- The JSDoc in `src/typedefs.js` documents a default factor of 0; the
  code uses `options.factor || 1` (`src/interaction.js:117`). The model
  follows the code. The `||` looks at truthiness before `parseFloat`
  runs, so the number 0 becomes 1 but the string '0' survives and is
  stored as factor 0; `NumberArg` keeps that case apart.

## Model

| member | source | states |
|---|---|---|
| Geometry.ScaleAll | src/interaction.js:350-353 | the factor reaction scales each feature geometry once, so there is one scaled point per feature; without an anchor no point moves |
| Geometry.ScaleByOneFixes | src/interaction.js:350-352 | a factor change by exactly 1 (the difference used as the scale) leaves every point where it was |
| Geometry.ScaleFixesAnchor | src/interaction.js:352 | scaling about the anchor never moves the anchor itself |
| Geometry.ScaleCompose | src/interaction.js:352 | two successive scales of a point about the same anchor are one scale by the product |
| Geometry.ScaleAllCompose | src/interaction.js:352 | two successive factor reactions on the whole set amount to one scale by the product of the differences |
| Geometry.ScaleAllInverse | src/interaction.js:352 | a scale by a non-zero s followed by a scale by 1/s restores every point |
| Geometry.FeatureCollection.constructor | src/interaction.js:97-108 | a new collection holds exactly the given points in the given order |
| FeatureExtent.ExtentDefined | src/interaction.js:652-657 | the extent is undefined exactly for an empty set; otherwise it encloses every point and each bound is reached by a point |
| FeatureExtent.Centroid | src/interaction.js:663-668 | the centroid is undefined exactly when the feature set is empty |
| FeatureExtent.BoundingBoxIsTightest | src/interaction.js:652-657 | the extent encloses every point and each of its four bounds is reached by a point |
| FeatureExtent.BoundingBoxIsSmallest | src/interaction.js:652-657 | every box enclosing all points contains the extent |
| FeatureExtent.CentroidWithinPoints | src/interaction.js:663-668 | each coordinate of the centroid lies between the smallest and largest value of that coordinate among the points |
| FeatureExtent.CentroidOfOne | src/interaction.js:663-668 | the centroid of a single feature is its position |
| FeatureExtent.CentroidExamples | test/unit/specs/rescale-feature-interaction.spec.js:82-106 | the centroids of the test sets: [10,10], [5,5], [-7.5,-7.5] and [7.5,7.5] |
| FeatureExtent.BoundingBoxMonotone | src/interaction.js:652-657 | an order-keeping map of each axis carries the extent's low and high bounds to those of the mapped points |
| FeatureExtent.BoundingBoxAntitone | src/interaction.js:652-657 | an order-reversing map of each axis carries the extent's high bounds to the low bounds of the mapped points and the low to the high |
| FeatureExtent.BoundingBoxScaled | src/interaction.js:652-657 | the extent of the scaled points is the scaled extent, with the bounds swapped for a negative scale |
| FeatureExtent.CentroidScaled | src/interaction.js:663-668 | scaling every feature about a point moves the centroid by the same scale about that point |
| FeatureExtent.CentroidFixedByScaleAboutIt | src/interaction.js:350-352 | a factor change about an anchor at the centroid keeps the centroid in place |
| RescaleEvent.EventTypeNames | src/event.js:10-26 | the three event type names `rescalestart`, `rescaling` and `rescaleend` are distinct |
| RescaleEvent.RescaleFeatureEvent.constructor | src/event.js:41-73 | the type, features, angle and anchor are the given ones and propagation is not stopped |
| RescaleEvent.RescaleFeatureEvent.PreventDefault | src/event.js:113-115 | propagation is stopped and nothing else changes |
| RescaleEvent.RescaleFeatureEvent.StopPropagation | src/event.js:120-122 | propagation is stopped and nothing else changes |
| Interaction.ParseFactor | src/interaction.js:215-219 | accepted exactly for a value `parseFloat` reads, which is stored as parsed (0 for a string such as '0'); otherwise the error "Numeric value passed" |
| Interaction.InitialFactor | src/interaction.js:117 | a falsy factor option, the number 0 included, gives 1; a non-zero number is kept; a truthy string that reads as 0, such as '0', passes the `||` and gives 0, the only way to start at factor 0; only a non-numeric truthy value fails |
| Interaction.ParseAnchor | src/interaction.js:235-239 | accepted exactly for null/undefined or a two-element array; an array gives that pair, null/undefined gives the centroid; otherwise "Array of two elements passed" |
| Interaction.InitialAnchor | src/interaction.js:116 | a two-element array option gives that pair; a falsy anchor option gives the centroid, so a non-empty feature set always gets an anchor; malformed truthy values fail |
| Interaction.Configure | src/interaction.js:97-117 | the constructor's checks in order (features option, then anchor, then factor), each failure with its own error; on success the factor and anchor are the values `InitialFactor` and `InitialAnchor` give, the factor is 0 only for a string option reading as 0, the anchor is defined when there are features, and `allowAnchorMovement` defaults to true |
| Interaction.DownDecision | src/interaction.js:440-478 | a press starts a feature drag exactly when the gates pass, it is not a click on a marker, no feature drag is under way and it hits a feature or the arrow; it starts an anchor drag exactly when the gates pass, it is not a click, it hits the anchor marker and anchor movement is allowed |
| Interaction.DragRatio | src/interaction.js:518 | the ratio is non-negative, zero exactly when the pointer is on the anchor, and 1 when the distance to the anchor is kept |
| Interaction.RescaleInteraction.ValidMarkers | src/interaction.js:114-125 | under the invariant, a non-empty feature set has an anchor and both markers sit at it showing the factor, as the constructor, the marker updates and the removal reaction arrange |
| Interaction.RescaleInteraction.Init | src/interaction.js:114-125 | the properties are stored without scaling anything, no gesture is under way, the log is empty, and the markers exist exactly when the anchor does, at the anchor with the factor |
| Interaction.RescaleInteraction.Create | src/interaction.js:44-126 | fails exactly when `Configure` fails, with its error; otherwise an array option gives a new collection with the same points, a collection is shared, the features are not moved and the invariant holds |
| Interaction.RescaleInteraction.Dispatch | src/interaction.js:373-412 | appends one event of the given type carrying the features, the factor (as `angle`) and the anchor; the event is new and its propagation is not stopped |
| Interaction.RescaleInteraction.OnFactorChange | src/interaction.js:350-355 | every feature point is scaled about the anchor by new minus old factor, one `change` per feature in order, and both markers show the new factor |
| Interaction.RescaleInteraction.SetFactor | src/interaction.js:215-219 | a non-numeric value fails and changes nothing; otherwise the factor is the parsed value and, when it differs, the features are scaled by the difference and the markers relabelled; an equal value changes nothing else |
| Interaction.RescaleInteraction.OnAnchorChange | src/interaction.js:360-367 | existing markers move to a defined anchor; nothing else changes |
| Interaction.RescaleInteraction.SetAnchor | src/interaction.js:235-239 | a malformed value fails and changes nothing; otherwise the anchor is the given pair or the centroid, only the markers follow, and setting the current anchor again moves nothing |
| Interaction.RescaleInteraction.CreateOrUpdateMarkers | src/interaction.js:253-292 | with an anchor both markers are at it with the current factor, created if absent; without one they are left as they were |
| Interaction.RescaleInteraction.ResetFactorAndAnchor | src/interaction.js:297-321 | the factor becomes 1 and the anchor the centroid without scaling any feature; existing markers take factor 1 and move to a defined anchor |
| Interaction.RescaleInteraction.OnFeatureAdd | src/interaction.js:326-330 | factor 1, anchor at the new centroid, both markers there with factor 1, no feature moved |
| Interaction.RescaleInteraction.OnFeatureRemove | src/interaction.js:335-345 | factor 1 and anchor at the new centroid with both markers there; with no feature left the anchor is undefined and both markers are gone |
| Interaction.RescaleInteraction.PushFeature | src/interaction.js:119 | the collection gains the point at its end, then the addition reaction runs |
| Interaction.RescaleInteraction.RemoveFeatureAt | src/interaction.js:120 | the collection loses the point at the index, then the removal reaction runs |
| Interaction.RescaleInteraction.HandleDownEvent | src/interaction.js:440-478 | handled exactly when `DownDecision` accepts; a feature drag records the pressed coordinate and appends `rescalestart`; an anchor drag sets `anchorMoving`; a refused press changes nothing |
| Interaction.RescaleInteraction.HandleDragEvent | src/interaction.js:513-528 | without markers it throws and changes nothing; in a feature drag the factor grows by the distance ratio, the features are scaled by it (one `change` each) unless the pointer is on the anchor, then `rescaling` is appended and the coordinate remembered; in an anchor drag the anchor and markers move to the pointer |
| Interaction.RescaleInteraction.HandleUpEvent | src/interaction.js:486-505 | a feature drag ends first and appends `rescaleend`; otherwise an anchor drag ends; with neither it is declined and changes nothing |
| Gestures.RatioChain | src/interaction.js:518 | the ratios of two consecutive drag steps multiply to the ratio between the last and the first position |
| Gestures.DragNetScale | src/interaction.js:517-522 | over any path of drag events the features end up scaled about the anchor by the final distance over the distance at the press |
| Gestures.DraggedFactorGrows | src/interaction.js:518-519 | every drag event raises the factor, including one that shrinks the features |
| Gestures.CircularDrag | src/interaction.js:518-519 | a drag keeping the distance to the anchor moves no feature yet adds 1 to the factor per event |
| Gestures.DragStep | src/interaction.js:517-519 | one more position of a path extends the dragged points by one scale by the step's ratio and the dragged factor by that ratio |
| Gestures.DragOnce | src/interaction.js:513-522 | one drag event off the anchor during a feature drag scales the features by the step's ratio, adds it to the factor, keeps the anchor and ends the log with `rescaling` |
| Gestures.DragAlong | src/interaction.js:513-522 | `HandleDragEvent` called along any path that avoids the anchor leaves the features and the factor exactly as `DraggedPoints` and `DraggedFactor` say, hence scaled by the final distance over the first |
| Gestures.PressAndDrag | src/interaction.js:440-528 | a press on a feature and one drag event log the start, one change per feature and `rescaling`, and leave the features and factor as the one-step path predicts |
| Gestures.DragAndRelease | src/interaction.js:486-528 | one more drag event and the release scale the features by the step's ratio, add it to the factor and log the changes, `rescaling` and the end |
| Gestures.PressDragDragRelease | src/interaction.js:440-528 | a press, two drags and a release log start, the changes, `rescaling`, the changes, `rescaling` and end, and leave the features scaled by the net ratio |
| Gestures.FactorTwoToFour | test/unit/specs/rescale-feature-interaction.spec.js:235-255 | factor 2 leaves [10,10] in place with the arrow marker showing 2; setting 4 scales it about [0,0] to [20,20] and the arrow marker shows 4 |
| Gestures.RescaleFromCollection | test/unit/specs/rescale-feature-interaction.spec.js:347-391 | the gesture about [10,10] logs start, a change per feature, `rescaling` and end, all with anchor [10,10]; the factor goes from 1 to 2 |
| Gestures.AroundCentroid | test/unit/specs/rescale-feature-interaction.spec.js:336-351 | a collection of [20,20] and [0,0] without options gets factor 1 and anchor [10,10] with no gesture under way and nothing logged |
| Gestures.AnchorSetterScenario | test/unit/specs/rescale-feature-interaction.spec.js:270-281 | the anchor and the anchor marker are at [5,10], then at [-5,0] |
| Gestures.AddScenario | test/unit/specs/rescale-feature-interaction.spec.js:285-297 | no anchor or markers without features; after pushing [10,10] the anchor, the anchor marker and the arrow marker are there with factor 1 |
| Gestures.FactorThenPush | test/unit/specs/rescale-feature-interaction.spec.js:298-303 | after factor 2 and a push of [5,5] the factor is 1 and anchor and markers are at [7.5,7.5] |
| Gestures.RemoveScenario | test/unit/specs/rescale-feature-interaction.spec.js:306-331 | removals move the anchor from [7.5,7.5] to [10,10] and then leave no anchor and no markers |
| Gestures.InvalidValues | test/unit/specs/rescale-feature-interaction.spec.js:67-71 | the refused features, factor and anchor options and setter values fail with their messages |

## Left out

- Rendering: the overlay layer, `getDefaultStyle`, `setMap` and `setActive` only draw the markers and attach a layer to a map.
- `handleMoveEvent` only sets the DOM cursor and `previousCursor`; its calls from the down and up handlers have no effect on the modelled state.
- Hit testing (`forEachFeatureAtPixel`), `mouseOnly`, `mouseActionButton` and the `condition` option are calls into the host; their results are fields of `DownEvent`.
- `distance` from `ol/coordinate` is the abstract `Metric`; Dafny has no square root, so the drag scenario states the one distance fact it needs as a precondition.
- Floating point: coordinates and factors are exact reals, so rounding (the test's `toPrecision(6)`) is not modelled.
- `parseFloat` is modelled by `NumberArg`: a value is a number, a truthy string that reads as 0, a falsy non-number or a truthy non-number. Other numeric strings are not distinguished from the numbers they parse to, since both are truthy and parse alike.
- Interaction.ParseAnchor: anchor array elements are taken as already-parsed reals; an element that `parseFloat` turns into NaN is not modelled.
- Feature identity: features are point positions, so a feature present twice in the collection, and non-point geometries, are not modelled; nor is the sharing of an array option's feature objects with the caller (the source keeps the caller's features, so scaling moves the caller's geometries, while the model copies their positions into a new collection).
- Marker identity: markers are values, so the overlay source holding them and its `clear` are not modelled.
- Collection changes other than `push` and `removeAt` (`pop` is `removeAt` of the last index); the other mutators fire the same `add` and `remove` events.
- The ES5 accessors `features`, `factor`, `anchor`, `map` and `active` only forward to the getters and setters.
- The commented-out `handleEvent` is dead code.
- Gestures.RescaleFromCollection: the test listens to the first geometry only, so it sees one `change`; the model logs the changes of all geometries.
