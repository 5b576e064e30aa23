/** Hand tracking: stores the latest tracked anchor of each hand and detects a pinch between the
    thumb tip and the index-finger tip. */
module HandTracking {
  import opened Wrappers
  import opened Vectors

  datatype Chirality = Left | Right

  /** The joints the detector reads by name; every other skeleton joint is `OtherJoint`. */
  datatype JointName = ThumbTip | IndexFingerTip | OtherJoint(name: string)

  /** A skeleton joint: whether it is tracked, and its world position (the translation of
      `originFromAnchorTransform * anchorFromJointTransform`, taken as given). */
  datatype Joint = Joint(isTracked: bool, worldPosition: Vec3)

  datatype HandSkeleton = HandSkeleton(joints: map<JointName, Joint>)

  datatype HandAnchor = HandAnchor(chirality: Chirality, isTracked: bool, handSkeleton: Option<HandSkeleton>)

  /** `pinchThreshold`, in metres, and its square, which the model compares against. */
  const PinchThreshold: real := 0.02
  const PinchThresholdSquared: real := 0.0004

  /** Comparing squared distances is the same test as comparing distances. */
  lemma SquaredThresholdIsThreshold(distance: real)
    requires distance >= 0.0
    ensures distance * distance < PinchThresholdSquared <==> distance < PinchThreshold
  {
    if distance < PinchThreshold {
      assert distance * distance <= distance * PinchThreshold;
      assert distance * PinchThreshold < PinchThreshold * PinchThreshold;
    } else {
      assert distance * distance >= distance * PinchThreshold;
      assert distance * PinchThreshold >= PinchThreshold * PinchThreshold;
    }
  }

  /** The observable fields of a `HandTrackingManager`, as one value. */
  datatype HandState = HandState(
    leftHandAnchor: Option<HandAnchor>,
    rightHandAnchor: Option<HandAnchor>,
    isPinching: bool,
    pinchPosition: Option<Vec3>,
    isRunning: bool)

  function Initial(): (s: HandState)
    ensures s.leftHandAnchor == None && s.rightHandAnchor == None
    ensures !s.isPinching && s.pinchPosition == None && !s.isRunning
  {
    HandState(None, None, false, None, false)
  }

  /** A joint of the anchor's skeleton, if the skeleton has it. */
  function SkeletonJoint(a: HandAnchor, name: JointName): Option<Joint>
  {
    match a.handSkeleton
    case None => None
    case Some(skeleton) => if name in skeleton.joints then Some(skeleton.joints[name]) else None
  }

  /** The two fingertips of a pinch reading. */
  datatype Tips = Tips(thumb: Vec3, index: Vec3)

  /** The positions of the thumb tip and the index tip, when the skeleton is present and both
      joints are present and tracked. */
  function PinchTips(a: HandAnchor): (r: Option<Tips>)
    ensures r.Some? <==>
      SkeletonJoint(a, ThumbTip).Some? && SkeletonJoint(a, ThumbTip).value.isTracked &&
      SkeletonJoint(a, IndexFingerTip).Some? && SkeletonJoint(a, IndexFingerTip).value.isTracked
  {
    match (SkeletonJoint(a, ThumbTip), SkeletonJoint(a, IndexFingerTip))
    case (Some(thumb), Some(index)) =>
      if thumb.isTracked && index.isTracked then Some(Tips(thumb.worldPosition, index.worldPosition)) else None
    case _ => None
  }

  predicate IsPinch(t: Tips)
  {
    SquaredDistance(t.thumb, t.index) < PinchThresholdSquared
  }

  /** `updatePinchState(_:)`. */
  function UpdatePinch(s: HandState, a: HandAnchor): (r: HandState)
    ensures r.leftHandAnchor == s.leftHandAnchor && r.rightHandAnchor == s.rightHandAnchor
    ensures r.isRunning == s.isRunning
    ensures PinchTips(a).None? ==> r == s
    ensures PinchTips(a).Some? ==> r.isPinching == IsPinch(PinchTips(a).value)
    ensures PinchTips(a).Some? ==>
      r.pinchPosition == (if IsPinch(PinchTips(a).value)
                          then Some(Midpoint(PinchTips(a).value.thumb, PinchTips(a).value.index))
                          else s.pinchPosition)
  {
    match PinchTips(a)
    case None => s
    case Some(t) =>
      var pinching := IsPinch(t);
      s.(isPinching := pinching, pinchPosition := if pinching then Some(Midpoint(t.thumb, t.index)) else s.pinchPosition)
  }

  /** The slot assignment: a tracked anchor replaces the stored anchor of its hand. */
  function StoreAnchor(s: HandState, a: HandAnchor): HandState
  {
    match a.chirality
    case Left => s.(leftHandAnchor := Some(a))
    case Right => s.(rightHandAnchor := Some(a))
  }

  /** One pass of the `processUpdates` loop. */
  function ProcessAnchor(s: HandState, a: HandAnchor): HandState
  {
    if !a.isTracked then s else UpdatePinch(StoreAnchor(s, a), a)
  }

  /** The `processUpdates` loop over a finite stream of anchor updates. */
  function ProcessAll(s: HandState, updates: seq<HandAnchor>): HandState
    decreases |updates|
  {
    if updates == [] then s
    else ProcessAnchor(ProcessAll(s, updates[..|updates| - 1]), updates[|updates| - 1])
  }

  /** An untracked anchor is skipped: nothing changes. */
  lemma UntrackedAnchorIgnored(s: HandState, a: HandAnchor)
    requires !a.isTracked
    ensures ProcessAnchor(s, a) == s
  {
  }

  /** A tracked anchor goes into the slot of its own hand; the other slot and the running flag
      keep their values; the pinch fields are unchanged unless both fingertips are tracked. */
  lemma TrackedAnchorStored(s: HandState, a: HandAnchor)
    requires a.isTracked
    ensures var r := ProcessAnchor(s, a);
      && (a.chirality == Left ==> r.leftHandAnchor == Some(a) && r.rightHandAnchor == s.rightHandAnchor)
      && (a.chirality == Right ==> r.rightHandAnchor == Some(a) && r.leftHandAnchor == s.leftHandAnchor)
      && r.isRunning == s.isRunning
      && (PinchTips(a).None? ==> r.isPinching == s.isPinching && r.pinchPosition == s.pinchPosition)
  {
  }

  /** A tracked anchor whose thumb tip is at the origin and whose index tip is `gap` along x. */
  function TwoTipAnchor(c: Chirality, gap: real): HandAnchor
  {
    HandAnchor(c, true, Some(HandSkeleton(map[ThumbTip := Joint(true, Vec3(0.0, 0.0, 0.0)),
                                              IndexFingerTip := Joint(true, Vec3(gap, 0.0, 0.0))])))
  }

  lemma TwoTipReading(c: Chirality, gap: real)
    ensures PinchTips(TwoTipAnchor(c, gap)) == Some(Tips(Vec3(0.0, 0.0, 0.0), Vec3(gap, 0.0, 0.0)))
  {
    var joints := TwoTipAnchor(c, gap).handSkeleton.value.joints;
    assert joints[ThumbTip] == Joint(true, Vec3(0.0, 0.0, 0.0));
    assert joints[IndexFingerTip] == Joint(true, Vec3(gap, 0.0, 0.0));
  }

  /** Two sample readings: fingertips 0.01 apart pinch, 0.05 apart do not. */
  lemma PinchExamples(s: HandState, c: Chirality)
    ensures ProcessAnchor(s, TwoTipAnchor(c, 0.01)).isPinching
    ensures !ProcessAnchor(s, TwoTipAnchor(c, 0.05)).isPinching
  {
    TwoTipReading(c, 0.01);
    TwoTipReading(c, 0.05);
    assert SquaredDistance(Vec3(0.0, 0.0, 0.0), Vec3(0.01, 0.0, 0.0)) == 0.0001;
    assert SquaredDistance(Vec3(0.0, 0.0, 0.0), Vec3(0.05, 0.0, 0.0)) == 0.0025;
  }

  /** The last update in `updates` that yields a pinch reading: tracked, with both fingertips tracked. */
  function LastReading(updates: seq<HandAnchor>): Option<Tips>
    decreases |updates|
  {
    if updates == [] then None
    else
      var a := updates[|updates| - 1];
      if a.isTracked && PinchTips(a).Some? then PinchTips(a) else LastReading(updates[..|updates| - 1])
  }

  /** The last reading in `updates` that was a pinch. */
  function LastPinch(updates: seq<HandAnchor>): Option<Tips>
    decreases |updates|
  {
    if updates == [] then None
    else
      var a := updates[|updates| - 1];
      if a.isTracked && PinchTips(a).Some? && IsPinch(PinchTips(a).value) then PinchTips(a)
      else LastPinch(updates[..|updates| - 1])
  }

  /** The last tracked anchor of the given hand in `updates`. */
  function LastTracked(updates: seq<HandAnchor>, c: Chirality): Option<HandAnchor>
    decreases |updates|
  {
    if updates == [] then None
    else
      var a := updates[|updates| - 1];
      if a.isTracked && a.chirality == c then Some(a) else LastTracked(updates[..|updates| - 1], c)
  }

  /** After a stream of updates: each slot holds the last tracked anchor of its hand; the one
      shared pinch flag is decided by the last complete reading, whichever hand it came from;
      the pinch position is the midpoint of the last reading that was a pinch, or the old one.
      Where the stream has no such update the old value stays. */
  lemma {:induction false} ProcessAllSummary(s: HandState, updates: seq<HandAnchor>)
    ensures var r := ProcessAll(s, updates);
      && r.leftHandAnchor == (match LastTracked(updates, Left) case None => s.leftHandAnchor case Some(a) => Some(a))
      && r.rightHandAnchor == (match LastTracked(updates, Right) case None => s.rightHandAnchor case Some(a) => Some(a))
      && r.isPinching == (match LastReading(updates) case None => s.isPinching case Some(t) => IsPinch(t))
      && r.pinchPosition == (match LastPinch(updates) case None => s.pinchPosition
                             case Some(t) => Some(Midpoint(t.thumb, t.index)))
      && r.isRunning == s.isRunning
    decreases |updates|
  {
    if updates != [] {
      ProcessAllSummary(s, updates[..|updates| - 1]);
    }
  }

  /** `stop()`: both anchors, the pinch flag and position, and the running flag are reset. */
  function Stopped(s: HandState): (r: HandState)
    ensures r.leftHandAnchor == None && r.rightHandAnchor == None
    ensures !r.isPinching && r.pinchPosition == None && !r.isRunning
  {
    s.(isRunning := false, leftHandAnchor := None, rightHandAnchor := None,
       isPinching := false, pinchPosition := None)
  }

  /** Stopping twice is the same as stopping once, and a stopped detector reports no joints. */
  lemma StopIdempotent(s: HandState, joint: JointName, c: Chirality)
    ensures Stopped(Stopped(s)) == Stopped(s)
    ensures JointPositionIn(Stopped(s), joint, c) == None
  {
  }

  /** `start()` with the host's answers as parameters: whether hand tracking is supported,
      whether the session started, and the stream it then delivers. */
  function Started(s: HandState, supported: bool, runSucceeded: bool, updates: seq<HandAnchor>): HandState
  {
    if !supported then s
    else if !runSucceeded then s.(isRunning := false)
    else ProcessAll(s.(isRunning := true), updates)
  }

  /** An unsupported host leaves everything as it was; a failed session start leaves the
      detector not running; a fresh detector that could not start is not running. */
  lemma StartFailures(s: HandState, updates: seq<HandAnchor>)
    ensures forall ok :: Started(s, false, ok, updates) == s
    ensures !Started(s, true, false, updates).isRunning
    ensures forall supported, ok :: !(supported && ok) ==> !Started(Initial(), supported, ok, updates).isRunning
  {
  }

  /** A successful start leaves the detector running through the whole stream. */
  lemma {:induction false} StartedRuns(s: HandState, updates: seq<HandAnchor>)
    ensures Started(s, true, true, updates).isRunning
  {
    ProcessAllSummary(s.(isRunning := true), updates);
  }

  /** `jointPosition(for:chirality:)` against a state. */
  function JointPositionIn(s: HandState, joint: JointName, c: Chirality): (r: Option<Vec3>)
    ensures var anchor := if c == Left then s.leftHandAnchor else s.rightHandAnchor;
      && (r.Some? <==> anchor.Some? && SkeletonJoint(anchor.value, joint).Some? &&
                       SkeletonJoint(anchor.value, joint).value.isTracked)
      && (r.Some? ==> r.value == SkeletonJoint(anchor.value, joint).value.worldPosition)
  {
    var anchor := if c == Left then s.leftHandAnchor else s.rightHandAnchor;
    match anchor
    case None => None
    case Some(a) =>
      match SkeletonJoint(a, joint)
      case None => None
      case Some(target) => if target.isTracked then Some(target.worldPosition) else None
  }

  class HandTrackingManager {
    var leftHandAnchor: Option<HandAnchor>
    var rightHandAnchor: Option<HandAnchor>
    var isPinching: bool
    var pinchPosition: Option<Vec3>
    var isRunning: bool

    function State(): HandState
      reads this
    {
      HandState(leftHandAnchor, rightHandAnchor, isPinching, pinchPosition, isRunning)
    }

    constructor ()
      ensures State() == Initial()
    {
      leftHandAnchor := None;
      rightHandAnchor := None;
      isPinching := false;
      pinchPosition := None;
      isRunning := false;
    }

    method Start(supported: bool, runSucceeded: bool, updates: seq<HandAnchor>)
      modifies this
      ensures State() == Started(old(State()), supported, runSucceeded, updates)
    {
      if !supported {
        return;
      }
      if runSucceeded {
        isRunning := true;
        ProcessUpdates(updates);
      } else {
        isRunning := false;
      }
    }

    method Stop()
      modifies this
      ensures State() == Stopped(old(State()))
    {
      isRunning := false;
      leftHandAnchor := None;
      rightHandAnchor := None;
      isPinching := false;
      pinchPosition := None;
    }

    method ProcessUpdates(updates: seq<HandAnchor>)
      modifies this
      ensures State() == ProcessAll(old(State()), updates)
    {
      for i := 0 to |updates|
        invariant State() == ProcessAll(old(State()), updates[..i])
      {
        var anchor := updates[i];
        assert updates[..i + 1][..i] == updates[..i];
        if !anchor.isTracked {
          continue;
        }
        match anchor.chirality {
          case Left => leftHandAnchor := Some(anchor);
          case Right => rightHandAnchor := Some(anchor);
        }
        UpdatePinchState(anchor);
      }
      assert updates[..|updates|] == updates;
    }

    method UpdatePinchState(anchor: HandAnchor)
      modifies this
      ensures State() == UpdatePinch(old(State()), anchor)
    {
      if anchor.handSkeleton.None? {
        return;
      }
      var skeleton := anchor.handSkeleton.value;
      if ThumbTip !in skeleton.joints || IndexFingerTip !in skeleton.joints {
        return;
      }
      var thumbTip := skeleton.joints[ThumbTip];
      var indexTip := skeleton.joints[IndexFingerTip];
      if !(thumbTip.isTracked && indexTip.isTracked) {
        return;
      }
      var thumbPos := thumbTip.worldPosition;
      var indexPos := indexTip.worldPosition;
      isPinching := SquaredDistance(thumbPos, indexPos) < PinchThresholdSquared;
      if isPinching {
        pinchPosition := Some(Midpoint(thumbPos, indexPos));
      }
    }

    function JointPosition(joint: JointName, c: Chirality): (r: Option<Vec3>)
      reads this
      ensures r == JointPositionIn(State(), joint, c)
    {
      var anchor := if c == Left then leftHandAnchor else rightHandAnchor;
      if anchor.None? || anchor.value.handSkeleton.None? then None
      else
        var skeleton := anchor.value.handSkeleton.value;
        if joint !in skeleton.joints then None
        else
          var target := skeleton.joints[joint];
          if !target.isTracked then None else Some(target.worldPosition)
    }
  }
}
