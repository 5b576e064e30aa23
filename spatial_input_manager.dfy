/** The spatial input coordinator: turns taps and drags on globe entities into selections and
    rotations, and records which input method was used last. */
module SpatialInput {
  import opened Wrappers
  import opened Vectors
  import opened Destinations
  import opened App
  import opened GazeHighlight
  import HandTracking

  datatype InputMethod = Indirect | Direct | Gesture

  /** The enum's raw strings. */
  function RawValue(m: InputMethod): (r: string)
    ensures m == Indirect <==> r == "indirect"
    ensures m == Direct <==> r == "direct"
    ensures m == Gesture <==> r == "gesture"
  {
    match m
    case Indirect => "indirect"
    case Direct => "direct"
    case Gesture => "gesture"
  }

  /** Radians of yaw per metre of horizontal drag. */
  const DragSensitivity: real := 0.005

  /** `selectDestination(id:in:)`'s lookup: the first destination whose id string is `id`. */
  function SelectionTarget(destinations: seq<Destination>, id: string): (r: Option<Destination>)
    ensures r.None? <==> forall i :: 0 <= i < |destinations| ==> destinations[i].id.uuidString != id
    ensures r.Some? ==>
      exists i :: (0 <= i < |destinations| && destinations[i] == r.value && r.value.id.uuidString == id &&
                   forall j :: 0 <= j < i ==> destinations[j].id.uuidString != id)
  {
    FirstWhere(destinations, (d: Destination) => d.id.uuidString == id)
  }

  /** The app state after `selectDestination(id:in:)`: the target is selected; a miss changes nothing. */
  function AfterSelectId(s: AppState, id: string): AppState
  {
    match SelectionTarget(s.destinations, id)
    case None => s
    case Some(d) => Select(s, d)
  }

  /** The destination a tap selects: the first loaded destination whose id string is the
      tapped entity's highlight tag. Nothing when the entity has no tag or no destination has it. */
  function TapTarget(destinations: seq<Destination>, highlight: Option<GazeHighlightComponent>): (r: Option<Destination>)
    ensures highlight.None? ==> r.None?
    ensures highlight.Some? ==>
      (r.None? <==> forall i :: 0 <= i < |destinations| ==> destinations[i].id.uuidString != highlight.value.destinationID)
    ensures r.Some? ==>
      exists i :: (0 <= i < |destinations| && destinations[i] == r.value &&
                   r.value.id.uuidString == highlight.value.destinationID &&
                   forall j :: 0 <= j < i ==> destinations[j].id.uuidString != highlight.value.destinationID)
  {
    match highlight
    case None => None
    case Some(c) => SelectionTarget(destinations, c.destinationID)
  }

  /** The app state after a tap: the tap target is selected; otherwise nothing changes. */
  function AfterTap(s: AppState, highlight: Option<GazeHighlightComponent>): AppState
  {
    match highlight
    case None => s
    case Some(c) => AfterSelectId(s, c.destinationID)
  }

  /** Tapping the sphere tagged with the id of a loaded destination opens that destination,
      when the loaded destinations have distinct ids. */
  lemma {:induction false} TapSelectsTaggedDestination(s: AppState, k: nat, c: GazeHighlightComponent)
    requires DistinctIds(s.destinations) && k < |s.destinations|
    requires c.destinationID == s.destinations[k].id.uuidString
    ensures var r := AfterTap(s, Some(c));
      r.selectedDestination == Some(s.destinations[k]) && r.isShowingDetail &&
      r.destinations == s.destinations && r.loadingState == s.loadingState
  {
    var t := SelectionTarget(s.destinations, c.destinationID);
    assert t.Some?;
    var i :| 0 <= i < |s.destinations| && s.destinations[i] == t.value &&
      t.value.id.uuidString == c.destinationID &&
      forall j :: 0 <= j < i ==> s.destinations[j].id.uuidString != c.destinationID;
  }

  /** A tap on an untagged entity, or on one whose tag names no loaded destination, leaves the
      app state as it was. */
  lemma TapWithoutTargetChangesNothing(s: AppState, highlight: Option<GazeHighlightComponent>)
    requires highlight.Some? ==> forall i :: 0 <= i < |s.destinations| ==> s.destinations[i].id.uuidString != highlight.value.destinationID
    ensures AfterTap(s, highlight) == s
  {
  }

  /** The rotation one drag applies: `translation.x * sensitivity` radians about the y axis. */
  function DragRotation(translation: Vec3): (q: AxisAngle)
    ensures q.axis == YAxis
    ensures q.angle == translation.x * DragSensitivity
  {
    AxisAngle(translation.x * DragSensitivity, YAxis)
  }

  /** The rotation after a sequence of drags, each pre-multiplied onto the current one. */
  function AfterDrags(rotation: seq<AxisAngle>, translations: seq<Vec3>): seq<AxisAngle>
    decreases |translations|
  {
    if translations == [] then rotation
    else AfterDrags([DragRotation(translations[0])] + rotation, translations[1..])
  }

  /** A product of rotations all about the y axis. */
  predicate YawOnly(rotation: seq<AxisAngle>)
  {
    forall i :: 0 <= i < |rotation| ==> rotation[i].axis == YAxis
  }

  /** The total angle of a product of yaw rotations. */
  function Yaw(rotation: seq<AxisAngle>): real
    decreases |rotation|
  {
    if rotation == [] then 0.0 else rotation[0].angle + Yaw(rotation[1..])
  }

  function SumX(translations: seq<Vec3>): real
    decreases |translations|
  {
    if translations == [] then 0.0 else translations[0].x + SumX(translations[1..])
  }

  /** Drags only ever add yaw: starting from a yaw-only orientation, a sequence of drags keeps
      it yaw-only and turns the globe by the sensitivity times the total horizontal drag. */
  lemma {:induction false} DragsAccumulateYaw(rotation: seq<AxisAngle>, translations: seq<Vec3>)
    requires YawOnly(rotation)
    ensures YawOnly(AfterDrags(rotation, translations))
    ensures Yaw(AfterDrags(rotation, translations)) == Yaw(rotation) + DragSensitivity * SumX(translations)
    decreases |translations|
  {
    if translations != [] {
      var next := [DragRotation(translations[0])] + rotation;
      assert next[1..] == rotation;
      DragsAccumulateYaw(next, translations[1..]);
    }
  }

  class SpatialInputManager {
    const handTracking: HandTracking.HandTrackingManager
    /** `Date?`: the clock reading of the last tap or drag, in seconds. */
    var lastInteractionTime: Option<real>
    var activeInputMethod: InputMethod

    constructor ()
      ensures lastInteractionTime == None && activeInputMethod == Indirect
      ensures fresh(handTracking) && handTracking.State() == HandTracking.Initial()
    {
      handTracking := new HandTracking.HandTrackingManager();
      lastInteractionTime := None;
      activeInputMethod := Indirect;
    }

    /** `handleTap(on:in:)`, with the clock reading `now` as a parameter. */
    method HandleTap(entity: Entity, app: AppModel, now: real)
      modifies this, app
      ensures lastInteractionTime == Some(now) && activeInputMethod == Gesture
      ensures app.State() == AfterTap(old(app.State()), entity.highlight)
    {
      lastInteractionTime := Some(now);
      activeInputMethod := Gesture;
      if entity.highlight.Some? {
        SelectDestination(entity.highlight.value.destinationID, app);
      }
    }

    /** `handleDrag(translation:on:)`: the drag rotation is pre-multiplied onto the entity's. */
    method HandleDrag(translation: Vec3, entity: Entity, now: real)
      modifies this, entity
      ensures lastInteractionTime == Some(now) && activeInputMethod == Gesture
      ensures entity.rotation == [DragRotation(translation)] + old(entity.rotation)
      ensures entity.scale == old(entity.scale) && entity.highlight == old(entity.highlight)
    {
      lastInteractionTime := Some(now);
      activeInputMethod := Gesture;
      var rotation := AxisAngle(translation.x * DragSensitivity, YAxis);
      entity.rotation := [rotation] + entity.rotation;
    }

    method SelectDestination(id: string, app: AppModel)
      modifies app
      ensures app.State() == AfterSelectId(old(app.State()), id)
    {
      var target := SelectionTarget(app.destinations, id);
      if target.Some? {
        app.SelectDestination(target.value);
      }
    }
  }
}
