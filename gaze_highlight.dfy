/** Gaze highlighting: the component that marks destination pins and the per-frame system that
    eases each pin's scale toward its target. */
module GazeHighlight {
  import opened Wrappers
  import opened Vectors

  datatype GazeHighlightComponent = GazeHighlightComponent(
    defaultRadius: real,
    highlightedRadius: real,
    destinationID: string,
    isHighlighted: bool)

  const DefaultRadius: real := 0.012
  const HighlightedRadius: real := 0.018

  /** The component's initialiser, with its default radii; a new component is not highlighted. */
  function NewComponent(destinationID: string, defaultRadius: real := DefaultRadius,
                        highlightedRadius: real := HighlightedRadius): (c: GazeHighlightComponent)
    ensures c.destinationID == destinationID && !c.isHighlighted
    ensures c.defaultRadius == defaultRadius && c.highlightedRadius == highlightedRadius
  {
    GazeHighlightComponent(defaultRadius, highlightedRadius, destinationID, false)
  }

  /** Left to its defaults the component gets radii 0.012 and 0.018. */
  lemma NewComponentDefaults(destinationID: string)
    ensures NewComponent(destinationID).defaultRadius == 0.012
    ensures NewComponent(destinationID).highlightedRadius == 0.018
  {
  }

  /** A scene entity, as far as the input and highlight code uses it: its optional gaze
      component, its scale, and its rotation as a product of axis-angle factors, front first. */
  class Entity {
    var highlight: Option<GazeHighlightComponent>
    var scale: Vec3
    var rotation: seq<AxisAngle>

    constructor (highlight: Option<GazeHighlightComponent>)
      ensures this.highlight == highlight && scale == Uniform(1.0) && rotation == []
    {
      this.highlight := highlight;
      scale := Uniform(1.0);
      rotation := [];
    }
  }

  const SmoothingFactor: real := 0.12
  const HighlightedScale: real := 1.5
  const RestingScale: real := 1.0

  function TargetScale(isHighlighted: bool): real
  {
    if isHighlighted then HighlightedScale else RestingScale
  }

  /** One easing step, `current + (target - current) * 0.12`. */
  function Eased(current: real, target: real): real
  {
    current + (target - current) * SmoothingFactor
  }

  /** One step never overshoots: the new scale lies between the old one and the target, the
      remaining distance shrinks to 0.88 of what it was, and a scale at its target stays put. */
  lemma EasedApproaches(current: real, target: real)
    ensures current <= target ==> current <= Eased(current, target) <= target
    ensures target <= current ==> target <= Eased(current, target) <= current
    ensures target - Eased(current, target) == 0.88 * (target - current)
    ensures current == target ==> Eased(current, target) == target
    ensures current != target ==> Eased(current, target) != current
  {
  }

  /** From rest, one frame of highlighting gives 1.06. */
  lemma FirstHighlightedFrame()
    ensures Eased(RestingScale, TargetScale(true)) == 1.06
  {
  }

  /** `n` frames of easing toward a fixed target. */
  function EasedFrames(current: real, target: real, n: nat): real
    decreases n
  {
    if n == 0 then current else EasedFrames(Eased(current, target), target, n - 1)
  }

  function Power(base: real, n: nat): real
  {
    if n == 0 then 1.0 else base * Power(base, n - 1)
  }

  /** After `n` frames the distance to the target is 0.88^n of the starting distance. */
  lemma {:induction false} EasedFramesDistance(current: real, target: real, n: nat)
    ensures target - EasedFrames(current, target, n) == Power(0.88, n) * (target - current)
    decreases n
  {
    if n > 0 {
      var next := Eased(current, target);
      EasedFramesDistance(next, target, n - 1);
      EasedApproaches(current, target);
      calc {
        target - EasedFrames(current, target, n);
        target - EasedFrames(next, target, n - 1);
        Power(0.88, n - 1) * (target - next);
        Power(0.88, n - 1) * (0.88 * (target - current));
        Power(0.88, n) * (target - current);
      }
    }
  }

  /** Repeated frames approach the target monotonically and never pass it. */
  lemma {:induction false} EasedFramesMonotone(current: real, target: real, n: nat)
    requires current <= target
    ensures current <= EasedFrames(current, target, n) <= EasedFrames(current, target, n + 1) <= target
    decreases n
  {
    EasedApproaches(current, target);
    if n > 0 {
      EasedFramesMonotone(Eased(current, target), target, n - 1);
    }
  }

  /** Easing down, as after the gaze leaves a pin: frames approach the lower target
      monotonically and never pass it. */
  lemma {:induction false} EasedFramesMonotoneDown(current: real, target: real, n: nat)
    requires target <= current
    ensures target <= EasedFrames(current, target, n + 1) <= EasedFrames(current, target, n) <= current
    decreases n
  {
    EasedApproaches(current, target);
    if n > 0 {
      EasedFramesMonotoneDown(Eased(current, target), target, n - 1);
    }
  }

  /** The new scale of an entity with a component: eased from the scale's x, on all three axes. */
  function NextScale(scale: Vec3, c: GazeHighlightComponent): Vec3
  {
    Uniform(Eased(scale.x, TargetScale(c.isHighlighted)))
  }

  /** `GazeHighlightSystem.update(context:)` over the queried entities, each listed once. */
  method Update(entities: seq<Entity>)
    requires forall i, j :: 0 <= i < j < |entities| ==> entities[i] != entities[j]
    modifies set e | e in entities
    ensures forall i :: 0 <= i < |entities| ==>
      entities[i].scale == (match entities[i].highlight
                            case Some(c) => NextScale(old(entities[i].scale), c)
                            case None => old(entities[i].scale))
    ensures forall e :: e in entities ==> e.highlight == old(e.highlight) && e.rotation == old(e.rotation)
  {
    for k := 0 to |entities|
      invariant forall i :: 0 <= i < k ==>
        entities[i].scale == (match entities[i].highlight
                              case Some(c) => NextScale(old(entities[i].scale), c)
                              case None => old(entities[i].scale))
      invariant forall i :: k <= i < |entities| ==> entities[i].scale == old(entities[i].scale)
      invariant forall e :: e in entities ==> e.highlight == old(e.highlight) && e.rotation == old(e.rotation)
    {
      var entity := entities[k];
      match entity.highlight {
        case None =>
        case Some(component) =>
          var targetScale := TargetScale(component.isHighlighted);
          var currentScale := entity.scale.x;
          var lerped := currentScale + (targetScale - currentScale) * SmoothingFactor;
          entity.scale := Uniform(lerped);
      }
    }
  }
}
