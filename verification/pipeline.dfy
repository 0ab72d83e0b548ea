/** How the pieces meet: the camera view reports the tracker's volume level
    to the session after each frame, and the session's volume is what the
    volume display shows. The page mounts neither the system-volume hook
    nor the test-tone player; the lemmas about the gain say what it would
    be were the session volume handed to that hook. */
module Pipeline {
  import opened Common
  import HandTracking
  import AppSession
  import SystemVolume

  /** The wrist height below which (larger y) a hand no longer keeps the
      session active: the band position whose volume is the activity
      threshold. */
  const ActivityEdgeY: real := 0.82

  /** The volume report the camera view makes in a frame: the level of the
      published result, if there is one. `t` is the tracker state BEFORE
      that frame's detection: the frame loop reads the result held by its
      closure, committed by an earlier frame, so reports lag one frame and a
      frame that loses the hand still reports the last level. */
  function Report(t: HandTracking.Tracker): (e: Option<AppSession.Event>)
    ensures t.result.None? <==> e.None?
    ensures t.result.Some? ==> e == Some(AppSession.VolumeChange(t.result.value.volumeLevel))
  {
    match t.result
    case None => None
    case Some(r) => Some(AppSession.VolumeChange(r.volumeLevel))
  }

  /** In the frame that loses the hand, the report is still made from the
      state before the detection, so it repeats the last level although
      the detection clears the result. */
  lemma LossFrameReportsLastLevel(t: HandTracking.Tracker)
    requires t.result.Some?
    ensures Report(t) == Some(AppSession.VolumeChange(t.result.value.volumeLevel))
    ensures Report(HandTracking.DetectHands(t, HandTracking.Detected([]))).None?
  {
  }

  /** A detected hand keeps the session active exactly when the wrist is
      strictly above the activity edge. This holds over exact reals; in
      double-precision arithmetic Y = 0.82 itself yields a level slightly
      above 0.1, so the edge is not sharp in the running app. */
  lemma ActiveIffAboveEdge(handY: real)
    ensures HandTracking.VolumeLevel(handY) > AppSession.ActivityThreshold <==> handY < ActivityEdgeY
    ensures HandTracking.PositionForVolume(AppSession.ActivityThreshold) == ActivityEdgeY
  {
  }

  /** Every volume report carries a level in [0, 1], as the tracker
      produces. */
  predicate LevelsInRange(events: seq<AppSession.Event>) {
    forall i :: 0 <= i < |events| && events[i].VolumeChange? ==> 0.0 <= events[i].newVolume <= 1.0
  }

  /** Fed by the tracker, the session volume stays in (0.1, 1]; were it
      handed to the system-volume hook, its gain would be the volume itself. */
  lemma {:induction false} SessionVolumeInRange(s: AppSession.Session, events: seq<AppSession.Event>)
    requires AppSession.Valid(s) && s.volume <= 1.0
    requires LevelsInRange(events)
    ensures AppSession.ActivityThreshold < AppSession.Run(s, events).volume <= 1.0
    ensures SystemVolume.AppliedGain(AppSession.Run(s, events).volume) == AppSession.Run(s, events).volume
    decreases |events|
  {
    if |events| > 0 {
      AppSession.DispatchKeepsValid(s, events[0]);
      assert LevelsInRange(events[1..]) by {
        forall i | 0 <= i < |events[1..]| && events[1..][i].VolumeChange?
          ensures 0.0 <= events[1..][i].newVolume <= 1.0
        {
          assert events[1..][i] == events[i + 1];
        }
      }
      SessionVolumeInRange(AppSession.Dispatch(s, events[0]), events[1..]);
    }
  }

  /** A report made from a tracker state always meets the range the lemma
      above asks of its events. */
  lemma ReportInRange(t: HandTracking.Tracker)
    requires HandTracking.Consistent(t)
    ensures Report(t).Some? ==> LevelsInRange([Report(t).value])
  {
  }
}
