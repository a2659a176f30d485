/** The events a rescale interaction dispatches (`RescaleFeatureEvent`). */
module RescaleEvent {
  import opened Wrappers
  import opened Geometry

  /** `RescaleFeatureEventType`: the names listeners subscribe to. */
  const START: string := "rescalestart"
  const RESCALING: string := "rescaling"
  const END: string := "rescaleend"

  /** The three names are distinct, so a listener for one never receives
      another. */
  lemma EventTypeNames()
    ensures START != RESCALING && RESCALING != END && START != END
  {
  }

  /** A snapshot of one step of a rescale gesture. Its type, features,
      angle and anchor are fixed when it is built; only the propagation
      flag changes afterwards. The interaction passes its factor as
      `angle`, the only name under which the event exposes it. */
  class RescaleFeatureEvent {
    const eventType: string
    const features: FeatureCollection
    const angle: real
    const anchor: Option<Coord>
    var propagationStopped: bool

    constructor (eventType: string, features: FeatureCollection, angle: real, anchor: Option<Coord>)
      ensures this.eventType == eventType && this.features == features
      ensures this.angle == angle && this.anchor == anchor
      ensures !propagationStopped
    {
      this.eventType := eventType;
      this.features := features;
      this.angle := angle;
      this.anchor := anchor;
      propagationStopped := false;
    }

    /** Sets the propagation flag; the snapshot is untouched. */
    method PreventDefault()
      modifies this
      ensures propagationStopped
    {
      propagationStopped := true;
    }

    /** Sets the same flag as `PreventDefault`. */
    method StopPropagation()
      modifies this
      ensures propagationStopped
    {
      propagationStopped := true;
    }
  }
}
