/** The volume display: the percentage read-out, the transient "Volume
    Up/Down" indicator and the visualizer bars. The indicator's state is
    (previousVolume, showIndicator) plus whether the 500 ms hide timer is
    pending. The effect runs whenever the volume, the activity flag or the
    previous volume changes, first cancelling the pending timer; the timer
    firing is an explicit `Expire` step. */
module VolumeControl {
  import opened Common

  /** The least change of volume that raises the indicator. */
  const IndicatorDelta: real := 0.05
  /** Height of an idle bar, and the floor of an active one. */
  const BaseBarHeight: real := 20.0
  /** Number of visualizer bars. */
  const BarCount: nat := 20

  /** `Math.round(volume * 100)`: the nearest integer, halves rounding up. */
  function Percentage(volume: real): (p: int)
    ensures volume * 100.0 - 0.5 < p as real <= volume * 100.0 + 0.5
    ensures 0.0 <= volume <= 1.0 ==> 0 <= p <= 100
  {
    (volume * 100.0 + 0.5).Floor
  }

  lemma PercentageMonotone(v1: real, v2: real)
    requires v1 <= v2
    ensures Percentage(v1) <= Percentage(v2)
  {
  }

  /** A volume that is a whole percentage reads back as that percentage. */
  lemma PercentageOfWholePercent(k: int)
    requires 0 <= k <= 100
    ensures Percentage(k as real / 100.0) == k
  {
  }

  datatype Display = Display(previousVolume: real, showIndicator: bool, timerPending: bool)

  function InitialDisplay(volume: real): (d: Display)
    ensures d.previousVolume == volume && !d.showIndicator && !d.timerPending
  {
    Display(volume, false, false)
  }

  /** The indicator's step. The previous run's timer is cancelled first. A
      large change while active then raises the indicator, keeps the old
      baseline and arms a new timer; anything else moves the baseline to the
      current volume and leaves the indicator as it was, with no timer. */
  function Effect(d: Display, volume: real, isActive: bool): (d': Display)
    ensures isActive && (volume - d.previousVolume > IndicatorDelta || d.previousVolume - volume > IndicatorDelta) ==>
              d'.showIndicator && d'.timerPending && d'.previousVolume == d.previousVolume
    ensures !isActive || -IndicatorDelta <= volume - d.previousVolume <= IndicatorDelta ==>
              d'.previousVolume == volume && d'.showIndicator == d.showIndicator && !d'.timerPending
  {
    if isActive && Abs(volume - d.previousVolume) > IndicatorDelta then
      d.(showIndicator := true, timerPending := true)
    else
      d.(previousVolume := volume, timerPending := false)
  }

  /** The timer firing hides the indicator; only a pending timer can fire. */
  function Expire(d: Display): (d': Display)
    ensures d.timerPending ==> !d'.showIndicator && !d'.timerPending
    ensures !d.timerPending ==> d' == d
    ensures d'.previousVolume == d.previousVolume
  {
    if d.timerPending then d.(showIndicator := false, timerPending := false) else d
  }

  /** Whether the sound is getting louder, compared with the baseline. The
      comparison is strict: an unchanged volume does not count as rising. */
  function IsIncreasing(d: Display, volume: real): (b: bool)
    ensures b <==> volume - d.previousVolume > 0.0
    ensures volume == d.previousVolume ==> !b
  {
    volume > d.previousVolume
  }

  /** The indicator is drawn only while raised and while active. */
  function IndicatorVisible(d: Display, isActive: bool): (b: bool)
    ensures b ==> isActive
    ensures !d.showIndicator ==> !b
  {
    d.showIndicator && isActive
  }

  /** The indicator's text, chosen by `IsIncreasing`. */
  function IndicatorLabel(d: Display, volume: real): (text: string)
    ensures text == "Volume Up" <==> IsIncreasing(d, volume)
    ensures text == "Volume Down" <==> !IsIncreasing(d, volume)
  {
    if IsIncreasing(d, volume) then "Volume Up" else "Volume Down"
  }

  /** The effect settles at once: running it again on its own output with
      the same inputs changes nothing, so React's re-run after the baseline
      update is a no-op. */
  lemma EffectIdempotent(d: Display, volume: real, isActive: bool)
    ensures Effect(Effect(d, volume, isActive), volume, isActive) == Effect(d, volume, isActive)
  {
  }

  /** When a change raises the indicator it is shown, and it says "Up"
      exactly when the volume rose by more than the threshold. */
  lemma RaisedIndicatorDirection(d: Display, volume: real)
    requires volume - d.previousVolume > IndicatorDelta || d.previousVolume - volume > IndicatorDelta
    ensures IndicatorVisible(Effect(d, volume, true), true)
    ensures (IndicatorLabel(Effect(d, volume, true), volume) == "Volume Up")
              <==> (volume - d.previousVolume > IndicatorDelta)
  {
  }

  /** While active and far from the baseline, the baseline is never
      refreshed: after the timer hides the indicator, the next effect raises
      it again against the same old baseline. `Effect` models one run of the
      effect, and React makes a run only when the volume, the activity flag
      or the baseline changed, so the run described here happens for a new
      volume v2 != v1; with v2 == v1 no run happens and the indicator stays
      hidden. */
  lemma BaselineStaysStale(d: Display, v1: real, v2: real)
    requires v1 - d.previousVolume > IndicatorDelta
    requires v2 - d.previousVolume > IndicatorDelta
    ensures Effect(Expire(Effect(d, v1, true)), v2, true) == Display(d.previousVolume, true, true)
  {
  }

  /** A raised indicator can get stuck: if the volume returns to within the
      threshold of the baseline before the timer fires, the re-run cancels
      the timer and rebases, leaving the indicator shown with no timer left
      to hide it. It reads "Volume Down": after the rebase the baseline
      equals the volume, and the strict comparison of `IsIncreasing` is
      false for an unchanged volume. */
  lemma CancelledTimerLeavesIndicatorUp(d: Display, v1: real, v2: real)
    requires v1 - d.previousVolume > IndicatorDelta
    requires -IndicatorDelta <= v2 - d.previousVolume <= IndicatorDelta
    ensures IndicatorVisible(Effect(Effect(d, v1, true), v2, true), true)
    ensures Expire(Effect(Effect(d, v1, true), v2, true)) == Effect(Effect(d, v1, true), v2, true)
    ensures IndicatorLabel(Effect(Effect(d, v1, true), v2, true), v2) == "Volume Down"
  {
  }

  /** Becoming inactive hides the indicator immediately and moves the
      baseline to the current volume. */
  lemma InactiveHidesAndRebases(d: Display, volume: real)
    ensures !IndicatorVisible(Effect(d, volume, false), false)
    ensures Effect(d, volume, false).previousVolume == volume
  {
  }

  /** One bar's height for a random sample in [0, 1). */
  function BarHeight(volume: real, isActive: bool, random: real): (h: real)
    requires 0.0 <= random < 1.0
    ensures !isActive ==> h == BaseBarHeight
    ensures isActive && volume >= 0.0 ==> BaseBarHeight <= h <= BaseBarHeight + volume * 100.0
    ensures isActive && volume > 0.0 ==> h < BaseBarHeight + volume * 100.0
  {
    if isActive then random * volume * 100.0 + BaseBarHeight else BaseBarHeight
  }

  /** Heights of the visualizer bars, one random sample per bar. */
  method BarHeights(volume: real, isActive: bool, randoms: seq<real>) returns (heights: seq<real>)
    requires |randoms| == BarCount
    requires forall i :: 0 <= i < |randoms| ==> 0.0 <= randoms[i] < 1.0
    ensures |heights| == BarCount
    ensures forall i :: 0 <= i < |heights| ==> heights[i] == BarHeight(volume, isActive, randoms[i])
    ensures !isActive ==> forall i :: 0 <= i < |heights| ==> heights[i] == BaseBarHeight
    ensures isActive && volume > 0.0 ==>
              forall i :: 0 <= i < |heights| ==> BaseBarHeight <= heights[i] < BaseBarHeight + volume * 100.0
  {
    heights := [];
    var i := 0;
    while i < BarCount
      invariant 0 <= i <= BarCount
      invariant |heights| == i
      invariant forall j :: 0 <= j < i ==> heights[j] == BarHeight(volume, isActive, randoms[j])
    {
      heights := heights + [BarHeight(volume, isActive, randoms[i])];
      i := i + 1;
    }
  }
}
