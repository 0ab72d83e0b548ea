/** The audio test-tone player: a 440 Hz oscillator routed through a gain
    node, started, stopped and toggled by the user, its gain following the
    volume. Web Audio objects are reduced to which of them exist, the
    numeric gain, and a count of oscillators that are sounding. */
module TestTone {
  import opened Common

  /** The tone's gain at full volume. */
  const ToneGainScale: real := 0.3

  /** `hasContext`: the audio context exists; `hasOscillator` and `gain`:
      the oscillator and gain-node refs (the gain node holding its value);
      `isPlaying`: the rendered state; `live`: oscillators started and not
      yet stopped. */
  datatype Tone = Tone(hasContext: bool, hasOscillator: bool, gain: Option<real>, isPlaying: bool, live: nat)

  /** `StartTone(ok)` and `ToggleTone(ok)`: `ok` is false when building or
      starting the oscillator raises. `ContextReady(ok)`: `ok` is false
      when creating the audio context raises. */
  datatype Event =
    | ContextReady(ok: bool)
    | StartTone(ok: bool)
    | StopTone
    | ToggleTone(ok: bool)
    | VolumeChanged

  function Initial(): (t: Tone)
    ensures !t.hasContext && !t.hasOscillator && !t.isPlaying && t.gain.None? && t.live == 0
  {
    Tone(false, false, None, false, 0)
  }

  /** Gain for a volume change: the clamped volume scaled to at most 30%. */
  function VolumeGain(volume: real): (g: real)
    ensures 0.0 <= g <= ToneGainScale
    ensures 0.0 <= volume <= 1.0 ==> g == volume * ToneGainScale
    ensures volume >= 1.0 ==> g == ToneGainScale
    ensures volume <= 0.0 ==> g == 0.0
  {
    Clamp(volume, 0.0, 1.0) * ToneGainScale
  }

  lemma VolumeGainMonotone(v1: real, v2: real)
    requires v1 <= v2
    ensures VolumeGain(v1) <= VolumeGain(v2)
  {
    ClampMonotone(v1, v2, 0.0, 1.0);
  }

  /** Gain given when a tone starts: the volume scaled, not clamped, so it
      is proportional to the volume over the whole line. */
  function StartGain(volume: real): (g: real)
    ensures g / ToneGainScale == volume
    ensures 0.0 <= volume <= 1.0 ==> 0.0 <= g <= ToneGainScale
    ensures volume > 1.0 ==> g > ToneGainScale
    ensures volume < 0.0 ==> g < 0.0
  {
    volume * ToneGainScale
  }

  /** Starting and changing volume agree on [0, 1]; above it the starting
      gain exceeds the 30% cap that a volume change enforces. */
  lemma StartGainAgreesInRange(volume: real)
    ensures 0.0 <= volume <= 1.0 ==> StartGain(volume) == VolumeGain(volume)
    ensures volume > 1.0 ==> StartGain(volume) > ToneGainScale >= VolumeGain(volume)
  {
  }

  /** Creating the audio context. */
  function InitContext(t: Tone, ok: bool): (t': Tone)
    ensures ok ==> t'.hasContext
    ensures !ok ==> t' == t
    ensures t'.hasOscillator == t.hasOscillator && t'.isPlaying == t.isPlaying
    ensures t'.gain == t.gain && t'.live == t.live
  {
    if ok then t.(hasContext := true) else t
  }

  /** `startTestTone`: only with a context and no oscillator yet; on success
      one oscillator is sounding at the starting gain. */
  function Start(t: Tone, volume: real, ok: bool): (t': Tone)
    ensures !t.hasContext || t.hasOscillator || !ok ==> t' == t
    ensures t.hasContext && !t.hasOscillator && ok ==>
              && t'.hasOscillator && t'.isPlaying
              && t'.gain == Some(StartGain(volume))
              && t'.live == t.live + 1
              && t'.hasContext
  {
    if t.hasContext && !t.hasOscillator then
      if ok then
        t.(hasOscillator := true, gain := Some(StartGain(volume)), isPlaying := true, live := t.live + 1)
      else
        t
    else
      t
  }

  /** `stopTestTone`: stops and releases the oscillator and its gain node;
      without an oscillator it does nothing. */
  function Stop(t: Tone): (t': Tone)
    ensures !t.hasOscillator ==> t' == t
    ensures t.hasOscillator ==>
              && !t'.hasOscillator && !t'.isPlaying && t'.gain.None?
              && t'.live == if t.live > 0 then t.live - 1 else 0
    ensures t'.hasContext == t.hasContext
  {
    if t.hasOscillator then
      t.(hasOscillator := false, gain := None, isPlaying := false,
         live := if t.live > 0 then t.live - 1 else 0)
    else
      t
  }

  /** `toggleTone`: stop when playing, start otherwise. */
  function Toggle(t: Tone, volume: real, ok: bool): (t': Tone)
    ensures t.isPlaying ==> t' == Stop(t)
    ensures !t.isPlaying ==> t' == Start(t, volume, ok)
  {
    if t.isPlaying then Stop(t) else Start(t, volume, ok)
  }

  /** The volume effect: only an existing gain node is updated. */
  function OnVolume(t: Tone, volume: real): (t': Tone)
    ensures t.gain.None? ==> t' == t
    ensures t.gain.Some? ==> t'.gain == Some(VolumeGain(volume)) && 0.0 <= t'.gain.value <= ToneGainScale
    ensures t'.hasOscillator == t.hasOscillator && t'.isPlaying == t.isPlaying && t'.live == t.live
    ensures t'.hasContext == t.hasContext
  {
    if t.gain.Some? then t.(gain := Some(VolumeGain(volume))) else t
  }

  /** One event at the given current volume. */
  function Step(t: Tone, volume: real, e: Event): Tone {
    match e
    case ContextReady(ok) => InitContext(t, ok)
    case StartTone(ok) => Start(t, volume, ok)
    case StopTone => Stop(t)
    case ToggleTone(ok) => Toggle(t, volume, ok)
    case VolumeChanged => OnVolume(t, volume)
  }

  /** A run of events, each paired with the volume its handler sees. That
      is the volume of the render whose closure runs the handler: for the
      delayed auto-start it is the volume at mount, not the current one. */
  function Run(t: Tone, events: seq<(real, Event)>): Tone
    decreases |events|
  {
    if |events| == 0 then t
    else Run(Step(t, events[0].0, events[0].1), events[1..])
  }

  /** The player's invariant: it is playing exactly when it holds an
      oscillator, which then has a gain node, and that oscillator is the
      only one sounding. */
  predicate Valid(t: Tone) {
    && (t.isPlaying <==> t.hasOscillator)
    && (t.gain.Some? <==> t.hasOscillator)
    && t.live == (if t.hasOscillator then 1 else 0)
  }

  lemma InitialValid()
    ensures Valid(Initial())
  {
  }

  /** Starting twice creates no second oscillator: once a start has
      succeeded, a further start is a no-op, whatever the volume. */
  lemma StartTwiceIsStartOnce(t: Tone, v1: real, v2: real, ok2: bool)
    requires Valid(t) && t.hasContext
    ensures Start(Start(t, v1, true), v2, ok2) == Start(t, v1, true)
    ensures Start(Start(t, v1, true), v2, ok2).live == 1
  {
  }

  lemma StepKeepsValid(t: Tone, volume: real, e: Event)
    requires Valid(t)
    ensures Valid(Step(t, volume, e))
  {
  }

  /** Under any interleaving of starts, stops, toggles and volume changes
      the invariant holds, so at most one oscillator ever sounds. */
  lemma {:induction false} RunKeepsValid(t: Tone, events: seq<(real, Event)>)
    requires Valid(t)
    ensures Valid(Run(t, events))
    ensures Run(t, events).live <= 1
    decreases |events|
  {
    if |events| > 0 {
      StepKeepsValid(t, events[0].0, events[0].1);
      RunKeepsValid(Step(t, events[0].0, events[0].1), events[1..]);
    }
  }

  /** Toggling twice from a valid state returns the playing flag to where it
      was whenever the start succeeds. */
  lemma ToggleTwice(t: Tone, volume: real)
    requires Valid(t) && t.hasContext
    ensures Toggle(Toggle(t, volume, true), volume, true).isPlaying == t.isPlaying
  {
  }
}
