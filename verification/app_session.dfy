/** The page-level session state of the app: the volume shown,
    whether a hand is currently driving it, and whether the app is switched
    on. It changes on three events: the "Turn On App" button, the "Turn Off
    App" button and a volume level reported by the camera view. */
module AppSession {

  /** Volume of a fresh or switched-off session. */
  const DefaultVolume: real := 0.5
  /** Reported levels at or below this count as "no active control". */
  const ActivityThreshold: real := 0.1

  datatype Session = Session(volume: real, isActive: bool, appEnabled: bool)

  datatype Status = Active | Idle | Off

  datatype Event = TurnOn | TurnOff | VolumeChange(newVolume: real)

  function Initial(): (s: Session)
    ensures s.volume == DefaultVolume && !s.isActive && !s.appEnabled
  {
    Session(DefaultVolume, false, false)
  }

  /** `handleVolumeChange`: a level above the threshold activates the
      session and becomes its volume; a lower one deactivates it and keeps
      the last volume. */
  function HandleVolumeChange(s: Session, newVolume: real): (s': Session)
    ensures newVolume > ActivityThreshold ==> s'.isActive && s'.volume == newVolume
    ensures newVolume <= ActivityThreshold ==> !s'.isActive && s'.volume == s.volume
    ensures s'.appEnabled == s.appEnabled
  {
    if newVolume > ActivityThreshold then
      s.(isActive := true, volume := newVolume)
    else
      s.(isActive := false)
  }

  /** "Turn On App" changes nothing but the enabled flag. */
  function TurnOnApp(s: Session): (s': Session)
    ensures s'.appEnabled
    ensures s'.volume == s.volume && s'.isActive == s.isActive
  {
    s.(appEnabled := true)
  }

  /** "Turn Off App" disables, deactivates and restores the default volume,
      forgetting everything about the session before it. */
  function TurnOffApp(s: Session): (s': Session)
    ensures !s'.appEnabled && !s'.isActive && s'.volume == DefaultVolume
    ensures s' == Initial()
  {
    Session(DefaultVolume, false, false)
  }

  /** Delivery of one event. The camera view, the only source of volume
      reports, is mounted only while the app is enabled, so a report never
      reaches a disabled session. */
  function Dispatch(s: Session, e: Event): (s': Session)
    ensures e.VolumeChange? && !s.appEnabled ==> s' == s
    ensures e.VolumeChange? && s.appEnabled ==> s' == HandleVolumeChange(s, e.newVolume)
    ensures e.TurnOn? ==> s' == TurnOnApp(s)
    ensures e.TurnOff? ==> s' == TurnOffApp(s)
  {
    match e
    case TurnOn => TurnOnApp(s)
    case TurnOff => TurnOffApp(s)
    case VolumeChange(v) => if s.appEnabled then HandleVolumeChange(s, v) else s
  }

  function Run(s: Session, events: seq<Event>): Session
    decreases |events|
  {
    if |events| == 0 then s else Run(Dispatch(s, events[0]), events[1..])
  }

  /** The status shown: active wins, then enabled, else off. */
  function StatusOf(s: Session): (st: Status)
    ensures st == Active <==> s.isActive
    ensures st == Idle <==> !s.isActive && s.appEnabled
    ensures st == Off <==> !s.isActive && !s.appEnabled
  {
    if s.isActive then Active else if s.appEnabled then Idle else Off
  }

  /** The status text; each status has its own label. */
  function StatusLabel(st: Status): (text: string)
    ensures text == "Active" <==> st == Active
    ensures text == "Idle" <==> st == Idle
    ensures text == "Off" <==> st == Off
  {
    match st
    case Active => "Active"
    case Idle => "Idle"
    case Off => "Off"
  }

  /** The session invariant: the stored volume is always above the
      activity threshold, and only an enabled session can be active. */
  predicate Valid(s: Session) {
    s.volume > ActivityThreshold && (s.isActive ==> s.appEnabled)
  }

  lemma InitialValid()
    ensures Valid(Initial())
  {
  }

  lemma DispatchKeepsValid(s: Session, e: Event)
    requires Valid(s)
    ensures Valid(Dispatch(s, e))
  {
  }

  /** Whatever the buttons and the hand do, the session stays valid. */
  lemma {:induction false} RunKeepsValid(s: Session, events: seq<Event>)
    requires Valid(s)
    ensures Valid(Run(s, events))
    decreases |events|
  {
    if |events| > 0 {
      DispatchKeepsValid(s, events[0]);
      RunKeepsValid(Dispatch(s, events[0]), events[1..]);
    }
  }

  /** In a valid session the label is "Off" exactly when the app is
      disabled: a disabled session is never active. */
  lemma OffIffDisabled(s: Session)
    requires Valid(s)
    ensures StatusOf(s) == Off <==> !s.appEnabled
    ensures StatusLabel(StatusOf(s)) == "Off" <==> !s.appEnabled
  {
  }

  /** A low report after a high one leaves the high one's volume in place:
      dropping the hand never lowers the stored volume below the threshold. */
  lemma LowReportKeepsLastVolume(s: Session, high: real, low: real)
    requires s.appEnabled
    requires high > ActivityThreshold >= low
    ensures Run(s, [VolumeChange(high), VolumeChange(low)]) == Session(high, false, true)
  {
    var afterHigh := Dispatch(s, VolumeChange(high));
    assert [VolumeChange(high), VolumeChange(low)][1..] == [VolumeChange(low)];
    assert Run(afterHigh, [VolumeChange(low)]) == Run(Dispatch(afterHigh, VolumeChange(low)), []);
  }
}
