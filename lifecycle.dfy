/** The engine's lifecycle as a state machine: visibility, ambient and mute mode,
    the time-zone receiver's guard flag, the update handler's queue of
    MSG_UPDATE_TIME messages, and counters of the effects the engine asks of the host
    (receiver registrations, unregistrations, invalidations). */
module Lifecycle {

  const INTERACTIVE_UPDATE_RATE_MS := 1000
  /** The framework's value of WatchFaceService.INTERRUPTION_FILTER_NONE. */
  const INTERRUPTION_FILTER_NONE := 3

  datatype State = State(
    visible: bool,          // the host's isVisible, as the super call leaves it
    ambient: bool,          // mAmbient
    mute: bool,             // mMuteMode
    registered: bool,       // mRegisteredTimeZoneReceiver
    zone: string,           // the calendar's time zone
    queue: seq<int>,        // delays (ms) of the MSG_UPDATE_TIME messages waiting in the handler
    registrations: nat,     // calls to the service's registerReceiver
    unregistrations: nat,   // calls to the service's unregisterReceiver
    invalidations: nat)     // calls to invalidate()

  /** The engine right after onCreate, with the calendar in the default time zone. */
  function Init(zone: string): State
  {
    State(false, false, false, false, zone, [], 0, 0, 0)
  }

  /** Kotlin's `now % INTERACTIVE_UPDATE_RATE_MS` on a Long: the remainder truncates toward
      zero, so it has the sign of now. */
  function RateRemainder(now: int): (r: int)
    ensures -INTERACTIVE_UPDATE_RATE_MS < r < INTERACTIVE_UPDATE_RATE_MS
    ensures (now - r) % INTERACTIVE_UPDATE_RATE_MS == 0
    ensures now >= 0 ==> r >= 0
    ensures now <= 0 ==> r <= 0
  {
    if now >= 0 then now % INTERACTIVE_UPDATE_RATE_MS else -((-now) % INTERACTIVE_UPDATE_RATE_MS)
  }

  /** The delay of the re-armed tick: the rest of the current second. It always ends on a
      second boundary; before the epoch the truncating remainder adds up to a second more. */
  function NextTickDelay(now: int): (d: int)
    ensures (now + d) % INTERACTIVE_UPDATE_RATE_MS == 0
    ensures now >= 0 ==> 1 <= d <= INTERACTIVE_UPDATE_RATE_MS
    ensures now < 0 ==> INTERACTIVE_UPDATE_RATE_MS <= d < 2 * INTERACTIVE_UPDATE_RATE_MS
  {
    INTERACTIVE_UPDATE_RATE_MS - RateRemainder(now)
  }

  predicate ShouldTimerBeRunning(s: State) { s.visible && !s.ambient }

  function Invalidate(s: State): (r: State)
    ensures r.invalidations == s.invalidations + 1 && r.(invalidations := s.invalidations) == s
  {
    s.(invalidations := s.invalidations + 1)
  }

  /** registerReceiver: registers only when the flag is clear, and leaves it set. */
  function RegisterReceiver(s: State): (r: State)
    ensures r.registered
    ensures s.registered ==> r == s
    ensures !s.registered ==> r.registrations == s.registrations + 1
    ensures r.(registered := s.registered, registrations := s.registrations) == s
  {
    if s.registered then s else s.(registered := true, registrations := s.registrations + 1)
  }

  /** unregisterReceiver: unregisters only when the flag is set, and leaves it clear. */
  function UnregisterReceiver(s: State): (r: State)
    ensures !r.registered
    ensures !s.registered ==> r == s
    ensures s.registered ==> r.unregistrations == s.unregistrations + 1
    ensures r.(registered := s.registered, unregistrations := s.unregistrations) == s
  {
    if !s.registered then s else s.(registered := false, unregistrations := s.unregistrations + 1)
  }

  /** updateTimer: remove every pending message, then send one without delay if the timer should run. */
  function UpdateTimer(s: State): (r: State)
    ensures (r.queue != []) == ShouldTimerBeRunning(s)
    ensures r.queue == [] || r.queue == [0]
    ensures r.(queue := s.queue) == s
  {
    s.(queue := if ShouldTimerBeRunning(s) then [0] else [])
  }

  /** handleUpdateTimeMessage: invalidate, and re-arm for the next second boundary if the timer should run. */
  function HandleUpdateTimeMessage(s: State, now: int): (r: State)
    ensures r.invalidations == s.invalidations + 1
    ensures r.queue == if ShouldTimerBeRunning(s) then s.queue + [NextTickDelay(now)] else s.queue
    ensures r.(queue := s.queue, invalidations := s.invalidations) == s
  {
    var t := Invalidate(s);
    if ShouldTimerBeRunning(s) then t.(queue := t.queue + [NextTickDelay(now)]) else t
  }

  /** The callbacks the host delivers. */
  datatype Event =
    | VisibilityChanged(visible: bool, defaultZone: string)
    | AmbientModeChanged(inAmbientMode: bool)
    | InterruptionFilterChanged(interruptionFilter: int)
    | TapCommand
    | TimeTick
    | TimeZoneChanged(defaultZone: string)   // the time-zone receiver's onReceive
    | UpdateTimeMessage(now: int)            // the handler delivers its first message
    | Destroy

  function Next(s: State, e: Event): State
  {
    match e
    case VisibilityChanged(v, z) =>
      var t := s.(visible := v);
      UpdateTimer(if v then Invalidate(RegisterReceiver(t).(zone := z)) else UnregisterReceiver(t))
    case AmbientModeChanged(a) => UpdateTimer(s.(ambient := a))
    case InterruptionFilterChanged(f) =>
      var inMuteMode := f == INTERRUPTION_FILTER_NONE;
      if s.mute != inMuteMode then Invalidate(s.(mute := inMuteMode)) else s
    case TapCommand => Invalidate(s)
    case TimeTick => Invalidate(s)
    case TimeZoneChanged(z) => Invalidate(s.(zone := z))
    case UpdateTimeMessage(now) =>
      if s.queue == [] then s else HandleUpdateTimeMessage(s.(queue := s.queue[1..]), now)
    case Destroy => s.(queue := [])
  }

  function Run(s: State, events: seq<Event>): State
    decreases |events|
  {
    if events == [] then s else Run(Next(s, events[0]), events[1..])
  }

  /** At most one tick is pending, a pending tick means the timer should run, and the guard
      flag says whether registrations outnumber unregistrations (by exactly one). */
  predicate Inv(s: State) {
    |s.queue| <= 1 &&
    (s.queue != [] ==> ShouldTimerBeRunning(s)) &&
    s.registrations == s.unregistrations + (if s.registered then 1 else 0)
  }

  lemma InitInv(zone: string)
    ensures Inv(Init(zone)) && Init(zone).queue == []
  {
  }

  lemma NextInv(s: State, e: Event)
    requires Inv(s)
    ensures Inv(Next(s, e))
  {
  }

  /** Over any sequence of callbacks the invariant holds: never two pending ticks, and the
      receiver registered exactly as many times more than unregistered as the flag says. */
  lemma {:induction false} RunInv(s: State, events: seq<Event>)
    requires Inv(s)
    ensures Inv(Run(s, events))
    decreases |events|
  {
    if events != [] {
      NextInv(s, events[0]);
      RunInv(Next(s, events[0]), events[1..]);
    }
  }

  /** After visibility or ambient mode changes, a tick is pending exactly when the timer should run. */
  lemma TimerFollowsMode(s: State, e: Event)
    requires e.VisibilityChanged? || e.AmbientModeChanged?
    ensures var r := Next(s, e); (r.queue != []) <==> r.visible && !r.ambient
    ensures |Next(s, e).queue| <= 1
  {
  }

  predicate Armed(s: State) { (s.queue != []) == ShouldTimerBeRunning(s) }

  lemma NextArmed(s: State, e: Event)
    requires Armed(s) && !e.Destroy?
    ensures Armed(Next(s, e))
  {
  }

  /** Until the engine is destroyed, a tick is pending exactly while the face is visible
      and not ambient. */
  lemma {:induction false} RunArmed(s: State, events: seq<Event>)
    requires Armed(s)
    requires forall i :: 0 <= i < |events| ==> !events[i].Destroy?
    ensures Armed(Run(s, events))
    decreases |events|
  {
    if events != [] {
      NextArmed(s, events[0]);
      RunArmed(Next(s, events[0]), events[1..]);
    }
  }

  /** Entering ambient mode cancels the tick, and no tick is pending again until ambient
      mode is left. */
  lemma {:induction false} AmbientStaysCancelled(s: State, events: seq<Event>)
    requires s.ambient && s.queue == []
    requires forall i :: 0 <= i < |events| ==> events[i] != AmbientModeChanged(false)
    ensures Run(s, events).ambient && Run(s, events).queue == []
    decreases |events|
  {
    if events != [] {
      AmbientStaysCancelled(Next(s, events[0]), events[1..]);
    }
  }

  lemma EnterAmbientCancels(s: State)
    ensures Next(s, AmbientModeChanged(true)).queue == []
    ensures Next(s, AmbientModeChanged(true)).invalidations == s.invalidations
  {
  }

  /** Registration is idempotent: a second registerReceiver changes nothing, and so does a second unregisterReceiver. */
  lemma ReceiverIdempotent(s: State)
    ensures RegisterReceiver(RegisterReceiver(s)) == RegisterReceiver(s)
    ensures UnregisterReceiver(UnregisterReceiver(s)) == UnregisterReceiver(s)
  {
  }

  /** Becoming visible twice registers the receiver once. */
  lemma VisibleTwiceRegistersOnce(s: State, z1: string, z2: string)
    ensures var once := Next(s, VisibilityChanged(true, z1));
      Next(once, VisibilityChanged(true, z2)).registrations == once.registrations &&
      once.registrations == s.registrations + (if s.registered then 0 else 1) &&
      once.registered
  {
  }

  /** A changed filter updates mute mode and invalidates; an unchanged one does nothing,
      so repeating a filter is a no-op. */
  lemma FilterChangesOnlyOnDifference(s: State, f: int)
    ensures var r := Next(s, InterruptionFilterChanged(f));
      r.mute == (f == INTERRUPTION_FILTER_NONE) &&
      (r != s <==> s.mute != (f == INTERRUPTION_FILTER_NONE)) &&
      (r != s ==> r.invalidations == s.invalidations + 1) &&
      Next(r, InterruptionFilterChanged(f)) == r
  {
  }

  /** A tick is only pending while the timer should run, so delivering it always invalidates
      and re-arms exactly one tick, at the next second boundary. */
  lemma TickDelivery(s: State, now: int)
    requires Inv(s) && s.queue != []
    ensures ShouldTimerBeRunning(s)
    ensures var r := Next(s, UpdateTimeMessage(now));
      r.invalidations == s.invalidations + 1 &&
      r.queue == [NextTickDelay(now)] &&
      (now + r.queue[0]) % 1000 == 0 &&
      (now >= 0 ==> 1 <= r.queue[0] <= 1000)
  {
  }

  lemma DestroyCancels(s: State)
    ensures Next(s, Destroy).queue == []
    ensures Next(s, Destroy).registered == s.registered
  {
  }
}
