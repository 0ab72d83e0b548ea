/** The gain value the system-volume hook hands to its Web Audio gain node.
    The node itself is an `Option<real>`: absent until the audio graph has
    been built, then holding the current gain. */
module SystemVolume {
  import opened Common

  /** The least gain ever applied by an update: a gain of exactly zero is
      avoided. */
  const GainFloor: real := 0.0001

  /** The gain set for a volume: clamp to [0, 1], then lift to the floor. */
  function AppliedGain(volume: real): (g: real)
    ensures GainFloor <= g <= 1.0
    ensures g != 0.0
    ensures GainFloor <= volume <= 1.0 ==> g == volume
    ensures volume > 1.0 ==> g == 1.0
    ensures volume <= GainFloor ==> g == GainFloor
  {
    Max(GainFloor, Clamp(volume, 0.0, 1.0))
  }

  /** A louder volume never yields a smaller gain. */
  lemma AppliedGainMonotone(v1: real, v2: real)
    requires v1 <= v2
    ensures AppliedGain(v1) <= AppliedGain(v2)
  {
    ClampMonotone(v1, v2, 0.0, 1.0);
  }

  /** The mapping is a projection: applying it to its own output changes
      nothing. */
  lemma AppliedGainIdempotent(volume: real)
    ensures AppliedGain(AppliedGain(volume)) == AppliedGain(volume)
  {
  }

  /** Building the audio graph: when it succeeds the gain node starts at
      the volume as given, without clamping or flooring. */
  function InitAudio(volume: real, succeeds: bool): (node: Option<real>)
    ensures succeeds <==> node.Some?
    ensures succeeds ==> node.value == volume
  {
    if succeeds then Some(volume) else None
  }

  /** The update effect, run on mount and on every later volume change:
      without a gain node it does nothing, otherwise the node takes the
      applied gain. */
  function UpdateGain(node: Option<real>, volume: real): (node': Option<real>)
    ensures node.None? ==> node'.None?
    ensures node.Some? ==> node'.Some? && GainFloor <= node'.value <= 1.0
    ensures node.Some? && GainFloor <= volume <= 1.0 ==> node' == Some(volume)
    ensures node.Some? && volume > 1.0 ==> node' == Some(1.0)
    ensures node.Some? && volume <= GainFloor ==> node' == Some(GainFloor)
  {
    match node
    case None => None
    case Some(_) => Some(AppliedGain(volume))
  }

  /** Mounting the hook. `initAudio` is asynchronous, but everything up to
      its first `await` (building the node and writing the raw volume) runs
      synchronously inside the first effect; the update effect then runs in
      the same commit and overwrites that raw value. */
  function Mount(volume: real, succeeds: bool): (node: Option<real>)
    ensures !succeeds ==> node.None?
    ensures succeeds ==> node.Some? && GainFloor <= node.value <= 1.0
    ensures succeeds && GainFloor <= volume <= 1.0 ==> node == Some(volume)
    ensures succeeds && volume > 1.0 ==> node == Some(1.0)
    ensures succeeds && volume <= GainFloor ==> node == Some(GainFloor)
  {
    UpdateGain(InitAudio(volume, succeeds), volume)
  }

  /** The value the build writes may lie outside [0.0001, 1] (here 2 or 0),
      but the update effect that runs right after it on mount replaces it,
      so no out-of-range or zero gain survives the mount. */
  lemma InitialGainIsUnbounded()
    ensures InitAudio(2.0, true) == Some(2.0)
    ensures Mount(2.0, true) == Some(1.0)
    ensures InitAudio(0.0, true) == Some(0.0)
    ensures Mount(0.0, true) == Some(GainFloor)
  {
  }

  /** After the first update the gain no longer depends on how the node was
      initialised. */
  lemma UpdateForgetsInitialGain(v0: real, v1: real, volume: real)
    ensures UpdateGain(InitAudio(v0, true), volume) == UpdateGain(InitAudio(v1, true), volume)
  {
  }
}
