/** The per-frame logic of the hand-tracking hook: the wrist's vertical
    position is mapped to a volume level, and the change of that position
    since the previous detected frame to a movement direction. The detector
    itself is an input: each frame brings a `Detection`. */
module HandTracking {
  import opened Common

  /** Top of the control band: a wrist at or above it means full volume. */
  const MinY: real := 0.1
  /** Bottom of the control band: a wrist at or below it means silence. */
  const MaxY: real := 0.9
  /** The least vertical movement between frames that counts as a direction. */
  const MovementThreshold: real := 0.02

  /** One normalized landmark point; y grows downwards (0 = top of frame). */
  datatype Landmark = Landmark(x: real, y: real, z: real)

  datatype Direction = Up | Down | Neutral

  datatype HandTrackingResult = HandTrackingResult(
    landmarks: seq<Landmark>,
    handPosition: real,
    volumeLevel: real,
    movementDirection: Direction,
    isHandDetected: bool)

  /** What one call of the detector yields. `NotReady` is the landmarker
      not (yet) created or initialized; `Threw` is an exception raised by
      the detector; `Detected` carries the landmark lists of all hands found
      (possibly none). */
  datatype Detection =
    | NotReady
    | Threw
    | Detected(hands: seq<seq<Landmark>>)

  /** The hook's state: the published result and the previous frame's raw
      wrist Y. */
  datatype Tracker = Tracker(result: Option<HandTrackingResult>, previousY: Option<real>)

  function InitialTracker(): (t: Tracker)
    ensures t.result.None? && t.previousY.None?
  {
    Tracker(None, None)
  }

  /** Volume from the wrist height: clamp to the band, then map it linearly
      and inversely onto [0, 1]. */
  function VolumeLevel(handY: real): (v: real)
    ensures 0.0 <= v <= 1.0
    ensures handY <= MinY ==> v == 1.0
    ensures handY >= MaxY ==> v == 0.0
  {
    1.0 - (Clamp(handY, MinY, MaxY) - MinY) / (MaxY - MinY)
  }

  /** A higher hand (smaller y) is never quieter. */
  lemma VolumeLevelAntitone(y1: real, y2: real)
    requires y1 <= y2
    ensures VolumeLevel(y2) <= VolumeLevel(y1)
  {
    ClampMonotone(y1, y2, MinY, MaxY);
  }

  /** Inside the band the mapping is strictly decreasing: distinct heights
      give distinct volumes. */
  lemma VolumeLevelStrictInBand(y1: real, y2: real)
    requires MinY <= y1 < y2 <= MaxY
    ensures VolumeLevel(y2) < VolumeLevel(y1)
  {
  }

  /** The wrist height, inside the band, that yields a given volume. */
  function PositionForVolume(v: real): (y: real)
    requires 0.0 <= v <= 1.0
    ensures MinY <= y <= MaxY
  {
    MinY + (1.0 - v) * (MaxY - MinY)
  }

  /** Every volume in [0, 1] is reached, by exactly the band position
      `PositionForVolume` names. */
  lemma VolumeOfPosition(v: real)
    requires 0.0 <= v <= 1.0
    ensures VolumeLevel(PositionForVolume(v)) == v
  {
  }

  /** Going back from the volume recovers the clamped wrist height, so the
      volume forgets exactly the part of y outside the band. */
  lemma PositionOfVolume(handY: real)
    ensures PositionForVolume(VolumeLevel(handY)) == Clamp(handY, MinY, MaxY)
  {
  }

  /** Direction of motion since the previous detected frame. With no
      previous frame it is neutral; otherwise the wrist must have moved by
      strictly more than the threshold. */
  function MovementDirection(previousY: Option<real>, handY: real): (d: Direction)
    ensures previousY.None? ==> d == Neutral
    ensures previousY.Some? ==> (d == Up <==> previousY.value - handY > MovementThreshold)
    ensures previousY.Some? ==> (d == Down <==> handY - previousY.value > MovementThreshold)
    ensures previousY.Some? ==>
              (d == Neutral <==> -MovementThreshold <= handY - previousY.value <= MovementThreshold)
  {
    match previousY
    case None => Neutral
    case Some(prev) =>
      var deltaY := prev - handY;
      if Abs(deltaY) > MovementThreshold then
        (if deltaY > 0.0 then Up else Down)
      else
        Neutral
  }

  /** A movement of exactly the threshold is not yet a direction. */
  lemma ThresholdMoveIsNeutral(prev: real)
    ensures MovementDirection(Some(prev), prev - MovementThreshold) == Neutral
    ensures MovementDirection(Some(prev), prev + MovementThreshold) == Neutral
  {
  }

  /** One call of `detectHands`. */
  function DetectHands(t: Tracker, detection: Detection): (t': Tracker)
    // an unready detector or a thrown error changes nothing
    ensures detection.NotReady? || detection.Threw? ==> t' == t
    // a frame without hands drops the result and forgets the previous Y
    ensures detection.Detected? && |detection.hands| == 0 ==> t'.result.None? && t'.previousY.None?
    // a detected hand publishes a result built from the first hand's wrist
    ensures detection.Detected? && |detection.hands| > 0 && |detection.hands[0]| > 0 ==>
              var wristY := detection.hands[0][0].y;
              && t'.previousY == Some(wristY)
              && t'.result.Some?
              && t'.result.value.isHandDetected
              && t'.result.value.handPosition == wristY
              && t'.result.value.landmarks == detection.hands[0]
              && 0.0 <= t'.result.value.volumeLevel <= 1.0
              && t'.result.value.volumeLevel == VolumeLevel(wristY)
              && t'.result.value.movementDirection == MovementDirection(t.previousY, wristY)
    // a first hand with no points fails on reading its wrist; the error is caught
    ensures detection.Detected? && |detection.hands| > 0 && |detection.hands[0]| == 0 ==> t' == t
  {
    match detection
    case NotReady => t
    case Threw => t
    case Detected(hands) =>
      if |hands| > 0 then
        var landmarks := hands[0];
        if |landmarks| == 0 then
          t
        else
          var handY := landmarks[0].y;
          var result := HandTrackingResult(
            landmarks, handY, VolumeLevel(handY), MovementDirection(t.previousY, handY), true);
          Tracker(Some(result), Some(handY))
      else
        Tracker(None, None)
  }

  /** The frame right after a frame without hands has no previous position
      to compare with, so its direction is neutral whatever the hand does. */
  lemma FirstFrameAfterLossIsNeutral(t: Tracker, hands: seq<seq<Landmark>>)
    requires |hands| > 0 && |hands[0]| > 0
    ensures DetectHands(DetectHands(t, Detected([])), Detected(hands)).result
              == Some(HandTrackingResult(hands[0], hands[0][0].y, VolumeLevel(hands[0][0].y), Neutral, true))
  {
  }

  /** The position reported is the raw wrist y even outside the band, while
      the volume is saturated: a wrist below the frame still reports its
      own position with volume 0. */
  lemma RawPositionClampedVolume(t: Tracker, wrist: Landmark)
    requires wrist.y > MaxY
    ensures DetectHands(t, Detected([[wrist]])).result.value.handPosition == wrist.y
    ensures DetectHands(t, Detected([[wrist]])).previousY == Some(wrist.y)
    ensures DetectHands(t, Detected([[wrist]])).result.value.volumeLevel == 0.0
  {
  }

  /** The hook's invariant: the stored previous Y is the published result's
      position, and it is absent exactly when no result is published; a
      published result describes a detected hand whose first point is the
      wrist it was computed from. */
  predicate Consistent(t: Tracker) {
    && (t.result.None? ==> t.previousY.None?)
    && (t.result.Some? ==>
          var r := t.result.value;
          && t.previousY == Some(r.handPosition)
          && r.isHandDetected
          && |r.landmarks| > 0
          && r.landmarks[0].y == r.handPosition
          && r.volumeLevel == VolumeLevel(r.handPosition))
  }

  /** The hook's initial state satisfies the invariant. */
  lemma InitialConsistent()
    ensures Consistent(InitialTracker())
  {
  }

  /** The tracker after a run of frames. */
  function Track(t: Tracker, detections: seq<Detection>): Tracker
    decreases |detections|
  {
    if |detections| == 0 then t
    else Track(DetectHands(t, detections[0]), detections[1..])
  }

  /** Every frame keeps the invariant. */
  lemma DetectHandsKeepsConsistent(t: Tracker, detection: Detection)
    requires Consistent(t)
    ensures Consistent(DetectHands(t, detection))
  {
  }

  /** From the start, any sequence of frames keeps the invariant; in
      particular the published volume is always in [0, 1]. */
  lemma {:induction false} TrackKeepsConsistent(t: Tracker, detections: seq<Detection>)
    requires Consistent(t)
    ensures Consistent(Track(t, detections))
    ensures Track(t, detections).result.Some? ==>
              0.0 <= Track(t, detections).result.value.volumeLevel <= 1.0
    decreases |detections|
  {
    if |detections| > 0 {
      DetectHandsKeepsConsistent(t, detections[0]);
      TrackKeepsConsistent(DetectHands(t, detections[0]), detections[1..]);
    }
  }
}
