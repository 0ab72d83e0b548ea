# Gesture Control Player — a Dafny model of its control logic

Gesture Control Player is a browser app. A webcam hand tracker reads the
height of the user's wrist, and that height sets a volume. This project
models the app's pure control logic as Dafny functions over `real` and
option/boolean state, and proves properties of each piece:

- **HandTracking** (`hooks/useHandTracking.ts`): one call of `detectHands`.
  The wrist Y is clamped to the band [0.1, 0.9] and mapped linearly and
  inversely to a volume in [0, 1]. The direction is `up`, `down` or
  `neutral`, decided by the raw wrist-Y change since the previous detected
  frame against a strict 0.02 threshold. The previous Y is optional and is
  forgotten when no hand is seen. The detector is an input:
  `NotReady | Threw | Detected(hands)`.
- **AppSession** (`app/page.tsx`): the page state `{volume, isActive,
  appEnabled}`. It changes on three events: turn on, turn off, and a volume
  report gated at 0.1. The status label is derived from it.
- **SystemVolume** (`hooks/useSystemVolume.ts`): the gain given to the gain
  node. Building the node writes the raw volume, but the update effect
  runs right after it on mount and on every later change, setting
  `max(0.0001, clamp(v, 0, 1))`.
- **TestTone** (`components/VideoPlayer.tsx`): the test-tone player. It has
  the gain conversion `clamp(v, 0, 1) * 0.3` and the start/stop/toggle
  lifecycle. A count of sounding oscillators states that a second one is
  never created.
- **VolumeControl** (`components/VolumeControl.tsx`): the percentage
  read-out, `isIncreasing`, and the indicator effect as a step on
  `(previousVolume, showIndicator)` plus whether its 500 ms timer is
  pending; every re-run cancels the timer, and its firing is an explicit
  `Expire` step. It also has the render condition and the bar heights,
  with `Math.random` as an input.
- **Pipeline**: the camera view hands the tracker's level to the session,
  one frame late. A session fed that way keeps its volume in (0.1, 1];
  were that volume handed to the system-volume hook, its gain would be the
  volume itself.

All quantities are Dafny `real`, so the constants 0.1, 0.9, 0.02, 0.05,
0.0001 and 0.3 are exact. JavaScript's `Math.round(x)` is modelled as
`floor(x + 0.5)`, which rounds halves upwards as JavaScript does.

There is no gesture classifier, hysteresis or integrating ticker in the
app: the volume is an absolute function of wrist height, and the direction
is a single frame-to-frame delta that is shown only in the overlay.

## Model

| member | source | states |
|---|---|---|
| HandTracking.InitialTracker | hooks/useHandTracking.ts:28-31 | the hook starts with no result and no previous Y |
| HandTracking.VolumeLevel | hooks/useHandTracking.ts:89-90 | the volume lies in [0,1] for any wrist Y; Y at or above the top of the band (Y ≤ 0.1) gives exactly 1; Y at or below the bottom (Y ≥ 0.9) gives exactly 0 |
| HandTracking.VolumeLevelAntitone | hooks/useHandTracking.ts:86-90 | the volume is non-increasing in Y: a higher hand is never quieter |
| HandTracking.VolumeLevelStrictInBand | hooks/useHandTracking.ts:89-90 | inside the band, distinct heights give distinct volumes (strictly decreasing) |
| HandTracking.VolumeOfPosition | hooks/useHandTracking.ts:89-90 | every volume in [0,1] is produced by the band position that maps back to it |
| HandTracking.PositionOfVolume | hooks/useHandTracking.ts:89-90 | mapping a volume back to a height recovers the clamped Y, so only the part of Y outside the band is lost |
| HandTracking.MovementDirection | hooks/useHandTracking.ts:92-99 | neutral with no previous Y; `up` exactly when prev − y > 0.02, `down` exactly when y − prev > 0.02, neutral exactly when \|y − prev\| ≤ 0.02 |
| HandTracking.ThresholdMoveIsNeutral | hooks/useHandTracking.ts:96 | a move of exactly ±0.02 is neutral: the threshold is strict |
| HandTracking.DetectHands | hooks/useHandTracking.ts:71-120 | an unready detector or a thrown error leaves the state unchanged; no hands clears the result and the previous Y; a detected hand sets the previous Y and the position to the raw wrist Y, sets isHandDetected, copies the landmarks, gives a volume in [0,1] and the direction against the old previous Y; a first hand without points fails reading its wrist inside the try, so nothing changes |
| HandTracking.FirstFrameAfterLossIsNeutral | hooks/useHandTracking.ts:93-115 | the first detected frame after a frame with no hand always reports `neutral` |
| HandTracking.RawPositionClampedVolume | hooks/useHandTracking.ts:83-108 | a wrist below the band keeps its raw, unclamped Y as the position and the previous Y, while the volume saturates at 0 |
| HandTracking.DetectHandsKeepsConsistent | hooks/useHandTracking.ts:100-115 | one frame preserves the invariant: the previous Y is the published position, and it is absent exactly when no result is published |
| HandTracking.InitialConsistent | hooks/useHandTracking.ts:28-31 | the hook's initial state (no result, no previous Y) satisfies the invariant |
| HandTracking.TrackKeepsConsistent | hooks/useHandTracking.ts:71-120 | any sequence of frames preserves that invariant and keeps the published volume in [0,1] |
| AppSession.Initial | app/page.tsx:27-31 | the page starts with volume 0.5, inactive and disabled |
| AppSession.HandleVolumeChange | app/page.tsx:44-51 | a level > 0.1 activates and becomes the volume; a level ≤ 0.1 deactivates and keeps the volume; the enabled flag is untouched |
| AppSession.TurnOnApp | app/page.tsx:96 | turning on changes only `appEnabled` |
| AppSession.TurnOffApp | app/page.tsx:197-201 | turning off disables, deactivates and resets the volume to 0.5, the initial state |
| AppSession.Dispatch | app/page.tsx:80-81 | volume reports reach the handler only while the app is enabled, because the camera view is mounted only then |
| AppSession.StatusLabel | app/page.tsx:188 | the three statuses have three distinct texts: "Active", "Idle" and "Off" |
| AppSession.StatusOf | app/page.tsx:188 | the status is Active exactly when active, Idle exactly when inactive but enabled, Off exactly when neither |
| AppSession.InitialValid | app/page.tsx:27-31 | the initial state satisfies the session invariant |
| AppSession.DispatchKeepsValid | app/page.tsx:44-51 | every event keeps the stored volume > 0.1, and keeps active implying enabled |
| AppSession.RunKeepsValid | app/page.tsx:45-49 | any sequence of button presses and reports preserves that invariant |
| AppSession.OffIffDisabled | app/page.tsx:188 | in a valid session the label reads "Off" exactly when the app is disabled |
| AppSession.LowReportKeepsLastVolume | app/page.tsx:44-51 | a high report followed by a low one leaves the session inactive, still enabled, at the high report's volume |
| SystemVolume.AppliedGain | hooks/useSystemVolume.ts:61-67 | the gain lies in [0.0001, 1] and is never 0; inputs in [0.0001, 1] pass through, inputs > 1 give 1, inputs ≤ 0.0001 (negatives too) give 0.0001 |
| SystemVolume.AppliedGainMonotone | hooks/useSystemVolume.ts:61-67 | the gain mapping is monotone non-decreasing |
| SystemVolume.AppliedGainIdempotent | hooks/useSystemVolume.ts:61-67 | applying the mapping to its own output changes nothing |
| SystemVolume.InitAudio | hooks/useSystemVolume.ts:30-32 | a successfully built gain node starts at the raw volume; a failed build leaves no node |
| SystemVolume.UpdateGain | hooks/useSystemVolume.ts:58-71 | with no gain node the update is a no-op; with one, the node's gain lies in [0.0001, 1], equals any volume already in that range, is exactly 1 for volumes > 1 and exactly 0.0001 for volumes ≤ 0.0001 |
| SystemVolume.Mount | hooks/useSystemVolume.ts:10-71 | after mount (the node built with the raw volume, then the update effect of the same commit) a built node's gain lies in [0.0001, 1], equals any volume already in that range, is exactly 1 for volumes > 1 and exactly 0.0001 for volumes ≤ 0.0001; a failed build leaves no node |
| SystemVolume.InitialGainIsUnbounded | hooks/useSystemVolume.ts:32 | the raw value the build writes may be outside [0.0001, 1] (e.g. 2 or 0), until the update effect that runs right after it on mount bounds it |
| SystemVolume.UpdateForgetsInitialGain | hooks/useSystemVolume.ts:58-71 | after one update, the gain no longer depends on the node's initial value |
| TestTone.Initial | components/VideoPlayer.tsx:11-14 | no context, no oscillator, no gain node, not playing, nothing sounding |
| TestTone.VolumeGain | components/VideoPlayer.tsx:70-73 | the gain on a volume change is clamp(v,0,1)·0.3, always within [0, 0.3] |
| TestTone.VolumeGainMonotone | components/VideoPlayer.tsx:71-72 | that gain is monotone non-decreasing in the volume |
| TestTone.StartGain | components/VideoPlayer.tsx:24 | the starting gain is proportional to the volume with factor 0.3 and unclamped: in [0, 0.3] for v ∈ [0,1], above 0.3 for v > 1, negative for v < 0 |
| TestTone.StartGainAgreesInRange | components/VideoPlayer.tsx:24 | the starting gain v·0.3 is not clamped: it agrees with the update on [0,1] and exceeds the 0.3 cap above 1 |
| TestTone.InitContext | components/VideoPlayer.tsx:45 | creating the context sets only `hasContext`; a failure changes nothing |
| TestTone.Start | components/VideoPlayer.tsx:16-38 | no-op without a context, with an oscillator already present, or on a thrown error; otherwise one more oscillator sounds, the player is playing, and the gain node holds v·0.3 |
| TestTone.Stop | components/VideoPlayer.tsx:76-83 | stopping clears the oscillator and the gain node, stops the sounding oscillator and clears `isPlaying`; with no oscillator it is a no-op |
| TestTone.Toggle | components/VideoPlayer.tsx:85-91 | toggling stops when playing and starts otherwise |
| TestTone.OnVolume | components/VideoPlayer.tsx:69-74 | the volume effect touches only an existing gain node, setting it to the clamped volume times 0.3, within [0, 0.3]; the context, oscillator, playing flag and sounding count are unchanged |
| TestTone.InitialValid | components/VideoPlayer.tsx:11-14 | the initial player satisfies the invariant |
| TestTone.StartTwiceIsStartOnce | components/VideoPlayer.tsx:17 | after a successful start, any further start is a no-op, so exactly one oscillator sounds |
| TestTone.StepKeepsValid | components/VideoPlayer.tsx:16-91 | start, stop, toggle, volume change and context creation each preserve: playing ⇔ an oscillator is held ⇔ a gain node is held, and exactly that oscillator sounds |
| TestTone.RunKeepsValid | components/VideoPlayer.tsx:16-91 | under any sequence of events the invariant holds and at most one oscillator ever sounds |
| TestTone.ToggleTwice | components/VideoPlayer.tsx:85-91 | two successful toggles restore the playing flag |
| VolumeControl.Percentage | components/VolumeControl.tsx:24 | the percentage is within ½ of v·100 (rounding halves upwards), and lies in [0,100] when v ∈ [0,1] |
| VolumeControl.PercentageMonotone | components/VolumeControl.tsx:24 | the percentage never decreases as the volume grows |
| VolumeControl.PercentageOfWholePercent | components/VolumeControl.tsx:24 | a volume of k/100 reads as exactly k percent |
| VolumeControl.InitialDisplay | components/VolumeControl.tsx:12-13 | the baseline starts at the initial volume with the indicator hidden |
| VolumeControl.Effect | components/VolumeControl.tsx:15-22 | the previous timer is cancelled; active with \|Δ\| > 0.05 raises the indicator, keeps the baseline and arms a timer; inactive or \|Δ\| ≤ 0.05 moves the baseline to the volume, leaves the indicator as it was and leaves no timer |
| VolumeControl.Expire | components/VolumeControl.tsx:18 | a pending timer hides the indicator and keeps the baseline; with no timer pending nothing happens |
| VolumeControl.IsIncreasing | components/VolumeControl.tsx:25 | "increasing" holds exactly when the volume is strictly above the baseline; an unchanged volume is not increasing |
| VolumeControl.IndicatorLabel | components/VolumeControl.tsx:58-61 | the indicator reads "Volume Up" exactly when the volume is strictly above the baseline, and "Volume Down" otherwise |
| VolumeControl.IndicatorVisible | components/VolumeControl.tsx:47 | the indicator is drawn only when raised and active |
| VolumeControl.EffectIdempotent | components/VolumeControl.tsx:15-22 | re-running the effect on its own output with the same inputs changes nothing, so the re-run after a baseline update settles |
| VolumeControl.RaisedIndicatorDirection | components/VolumeControl.tsx:25-61 | when a change raises the indicator it is visible, and reads "Volume Up" exactly when the volume rose by more than 0.05 (isIncreasing is a strict comparison with the baseline) |
| VolumeControl.BaselineStaysStale | components/VolumeControl.tsx:15-22 | while active and far from the baseline, the baseline is never refreshed: after expiry, the next change (a new volume, since React re-runs the effect only on a changed dependency) raises the indicator against the same old baseline |
| VolumeControl.CancelledTimerLeavesIndicatorUp | components/VolumeControl.tsx:16-21 | a raise followed, before the timer fires, by a return to within 0.05 of the baseline cancels the timer and leaves the indicator shown with no timer to hide it (until a later raise arms one), reading "Volume Down" |
| VolumeControl.InactiveHidesAndRebases | components/VolumeControl.tsx:16-21 | when inactive the indicator is not drawn and the baseline follows the volume |
| VolumeControl.BarHeight | components/VolumeControl.tsx:70-72 | an inactive bar is 20 high; an active one, for r ∈ [0,1), lies in [20, 20 + v·100), or is exactly 20 when v = 0 |
| VolumeControl.BarHeights | components/VolumeControl.tsx:69-81 | the 20 bars each get the height of their own random sample, all 20 when inactive, all in [20, 20 + v·100) when active with v > 0 |
| Pipeline.Report | components/CameraView.tsx:176-177 | the camera view reports a volume exactly when the tracker state before the frame's detection has a result, and it reports that result's level |
| Pipeline.LossFrameReportsLastLevel | components/CameraView.tsx:169-178 | the frame that loses the hand still reports the last level, because the report reads the result committed before the frame's detection |
| Pipeline.ActiveIffAboveEdge | app/page.tsx:45-49 | over exact reals, a tracked wrist keeps the session active exactly when Y < 0.82, the band position whose volume is 0.1 |
| Pipeline.SessionVolumeInRange | app/page.tsx:44-51 | fed with levels in [0,1], the session volume stays in (0.1, 1]; were it handed to the system-volume hook, its gain would be the volume itself |
| Pipeline.ReportInRange | components/CameraView.tsx:176-177 | every report made from a consistent tracker carries a level in [0,1] |

## Left out

- MediaPipe initialization (`FilesetResolver`, `HandLandmarker.createFromOptions`) and `detectForVideo` are a foreign library. Each frame's detector output is an input, and a failed initialization appears as the `NotReady` detection. The `isLoading`/`error` flags are UI state and are not modelled.
- components/CameraView.tsx is not modelled: it is canvas drawing, the `requestAnimationFrame` loop and webcam wiring. Only its report of `volumeLevel` to the page is kept, in `Pipeline.Report`.
- Web Audio objects and scheduling (`AudioContext`, `cancelScheduledValues`, `setValueAtTime`, oscillator frequency and type, autoplay of the silent audio element, closing the context on unmount) are not modelled. Only the numeric gain handed to them is modelled.
- React mechanics are not modelled: state updates are synchronous steps, and effect re-runs and the 500 ms `setTimeout`s are explicit steps. The auto-start timer is a `StartTone` event carrying the mount-time volume. The indicator timer is `Expire`, enabled only while the timer is pending, and each effect re-run cancels it.
- The page renders only `VolumeControl` with the session volume. It mounts neither `useSystemVolume` nor `VideoPlayer`, so the system gain and the test tone are modelled as standalone pieces, not driven by the session.
- The mobile-detection regex and resize listener, the help modal, animations and layout are presentation, so they are not modelled. app/layout.tsx, components/HowToUseModal.tsx and next.config.js are not part of this model.
- The Python scripts (main.py, main_simple.py, test_hand_tracking.py, find_camera.py) are not modelled. They are OpenCV capture loops tied to libraries outside this model.
- IEEE-754 rounding is not modelled: every quantity is an exact `real`.
- The landmarks are not checked for the detector's 21-point shape. Only the wrist (point 0) is read, and a first hand with no points is modelled as the caught read error it causes.
- The `VideoPlayer` "Volume: N%" read-out uses the same rounding as `VolumeControl.Percentage` and is not modelled separately.
