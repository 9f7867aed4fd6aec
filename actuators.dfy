/** The three actuator models: the beam (with its blink timer), the horn
    (a timed pulse) and the turn signal (with its 1 Hz lamp cycle). Each
    class keeps its fields; the value of those fields is described by a
    datatype and every method by a function on that datatype. */
module Actuators {
  import opened Models

  // ---------------------------------------------------------------------
  // Beam
  // ---------------------------------------------------------------------

  datatype BeamState = BeamState(mode: BeamMode, blinking: bool, timer: real)

  const InitialBeam := BeamState(LowBeam, false, 0.0)

  function BeamSwitched(b: BeamState, mode: BeamMode): BeamState {
    b.(mode := mode)
  }

  function BlinkStarted(b: BeamState): BeamState {
    if !b.blinking then b.(blinking := true, timer := 0.0) else b
  }

  function BlinkStopped(b: BeamState): BeamState {
    b.(blinking := false, timer := 0.0)
  }

  function BeamAdvanced(b: BeamState, dt: real): BeamState {
    if b.blinking then b.(timer := b.timer + dt) else b
  }

  /** The lamp actually lit: the stored mode, or while blinking High during
      the first half of each period 1 / blinkingFrequency and Low after. */
  function PhysicalBeam(b: BeamState, config: Configuration): BeamMode
    requires config.Valid()
  {
    if b.blinking then
      var cycle := 1.0 / config.blinkingFrequency;
      var phase := FloorMod(b.timer, cycle);
      if phase < cycle / 2.0 then HighBeam else LowBeam
    else b.mode
  }

  /** Starting to blink is idempotent and never resets a running blink
      timer; stopping clears flag and timer and keeps the mode; switching
      changes the mode only; advancing moves the timer only while blinking. */
  lemma BeamOperations(b: BeamState, mode: BeamMode, dt: real)
    ensures BlinkStarted(BlinkStarted(b)) == BlinkStarted(b)
    ensures b.blinking ==> BlinkStarted(b) == b
    ensures BlinkStarted(b).blinking && BlinkStarted(b).mode == b.mode
    ensures BlinkStopped(b) == BeamState(b.mode, false, 0.0)
    ensures BeamSwitched(b, mode) == BeamState(mode, b.blinking, b.timer)
    ensures BeamAdvanced(b, dt).timer == if b.blinking then b.timer + dt else b.timer
    ensures BeamAdvanced(b, dt).mode == b.mode && BeamAdvanced(b, dt).blinking == b.blinking
  {
  }

  /** When the beam does not blink its timer rests at zero, and every
      operation keeps it so. */
  predicate BeamIdleAtZero(b: BeamState) {
    !b.blinking ==> b.timer == 0.0
  }

  lemma BeamOperationsKeepIdleAtZero(b: BeamState, mode: BeamMode, dt: real)
    requires BeamIdleAtZero(b)
    ensures BeamIdleAtZero(BeamSwitched(b, mode))
    ensures BeamIdleAtZero(BlinkStarted(b))
    ensures BeamIdleAtZero(BlinkStopped(b))
    ensures BeamIdleAtZero(BeamAdvanced(b, dt))
  {
  }

  /** Not blinking, the lamp shows the stored mode; so right after
      `stop_blinking` it shows the base mode. */
  lemma PhysicalBeamWhenSteady(b: BeamState, config: Configuration)
    requires config.Valid()
    ensures !b.blinking ==> PhysicalBeam(b, config) == b.mode
    ensures PhysicalBeam(BlinkStopped(b), config) == b.mode
  {
  }

  /** While blinking, the lamp pattern repeats every period. */
  lemma {:induction false} PhysicalBeamPeriodic(b: BeamState, config: Configuration)
    requires config.Valid() && b.blinking
    ensures PhysicalBeam(b.(timer := b.timer + 1.0 / config.blinkingFrequency), config) == PhysicalBeam(b, config)
  {
    FloorModPeriodic(b.timer, 1.0 / config.blinkingFrequency);
  }

  /** Within the first period the lamp is High exactly in the first half. */
  lemma {:induction false} PhysicalBeamFirstPeriod(b: BeamState, config: Configuration)
    requires config.Valid() && b.blinking
    requires 0.0 <= b.timer < 1.0 / config.blinkingFrequency
    ensures PhysicalBeam(b, config) == HighBeam <==> b.timer < (1.0 / config.blinkingFrequency) / 2.0
  {
    FloorModFirstPeriod(b.timer, 1.0 / config.blinkingFrequency);
  }

  /** At 2 Hz (period 0.5 s): High at 0.2 s, Low at 0.3 s, High again at 0.6 s. */
  lemma {:induction false} BlinkPatternAtTwoHertz(config: Configuration)
    requires config.Valid() && config.blinkingFrequency == 2.0
    ensures PhysicalBeam(BeamState(LowBeam, true, 0.2), config) == HighBeam
    ensures PhysicalBeam(BeamState(LowBeam, true, 0.3), config) == LowBeam
    ensures PhysicalBeam(BeamState(LowBeam, true, 0.6), config) == HighBeam
  {
    assert 1.0 / config.blinkingFrequency == 0.5;
    PhysicalBeamFirstPeriod(BeamState(LowBeam, true, 0.2), config);
    PhysicalBeamFirstPeriod(BeamState(LowBeam, true, 0.3), config);
    PhysicalBeamFirstPeriod(BeamState(LowBeam, true, 0.1), config);
    PhysicalBeamPeriodic(BeamState(LowBeam, true, 0.1), config);
    assert BeamState(LowBeam, true, 0.1).(timer := 0.1 + 0.5) == BeamState(LowBeam, true, 0.6);
  }

  // ---------------------------------------------------------------------
  // Horn
  // ---------------------------------------------------------------------

  datatype HornState = HornState(active: bool, timer: real, duration: real)

  const InitialHorn := HornState(false, 0.0, 0.0)

  function HornTriggered(h: HornState, duration: real): HornState {
    HornState(true, 0.0, duration)
  }

  function HornStopped(h: HornState): HornState {
    h.(active := false, timer := 0.0)
  }

  function HornAdvanced(h: HornState, dt: real): HornState {
    if h.active then
      var t := h.timer + dt;
      if t >= h.duration then h.(active := false, timer := 0.0) else h.(timer := t)
    else h
  }

  /** A pulse of length d stays on while the accumulated time is below d and
      goes off, its timer reset, once the time reaches d. */
  lemma HornPulse(h: HornState, d: real, dt1: real, dt2: real)
    ensures HornTriggered(h, d).active
    ensures HornAdvanced(HornTriggered(h, d), dt1).active <==> dt1 < d
    ensures HornAdvanced(HornAdvanced(HornTriggered(h, d), dt1), dt2).active <==> dt1 < d && dt1 + dt2 < d
    ensures !HornAdvanced(HornTriggered(h, d), dt1).active ==> HornAdvanced(HornTriggered(h, d), dt1).timer == 0.0
  {
  }

  /** trigger(0.3), then 0.2 s: still on; then 0.15 s more: off. */
  lemma HornPulseExample(h: HornState)
    ensures HornAdvanced(HornTriggered(h, 0.3), 0.2).active
    ensures !HornAdvanced(HornAdvanced(HornTriggered(h, 0.3), 0.2), 0.15).active
  {
    HornPulse(h, 0.3, 0.2, 0.15);
  }

  /** A silent horn stays silent, and stopping always silences it. */
  lemma HornStaysOff(h: HornState, dt: real)
    ensures !h.active ==> HornAdvanced(h, dt) == h
    ensures !HornStopped(h).active && HornStopped(h).timer == 0.0 && HornStopped(h).duration == h.duration
  {
  }

  // ---------------------------------------------------------------------
  // Turn signal
  // ---------------------------------------------------------------------

  datatype SignalState = SignalState(state: TurnSignalState, timer: real, lit: bool)

  const InitialSignal := SignalState(Off, 0.0, false)

  function SignalActivated(s: SignalState, state: TurnSignalState): SignalState {
    if state != s.state then SignalState(state, 0.0, true) else s
  }

  function SignalAdvanced(s: SignalState, dt: real): SignalState {
    if s.state != Off then
      var t := s.timer + dt;
      s.(timer := t, lit := FloorMod(t, 1.0) < 0.5)
    else s
  }

  /** The bulb is physically on. */
  function SignalLit(s: SignalState): bool {
    s.lit && s.state != Off
  }

  /** Re-activating the current state changes nothing; a new state starts
      its cycle lit with the timer at zero; an Off signal is never lit. */
  lemma SignalOperations(s: SignalState, state: TurnSignalState, dt: real)
    ensures SignalActivated(s, s.state) == s
    ensures state != s.state ==> SignalActivated(s, state) == SignalState(state, 0.0, true)
    ensures SignalActivated(s, state).state == state
    ensures s.state == Off ==> !SignalLit(s) && SignalAdvanced(s, dt) == s
    ensures s.state != Off ==>
      SignalAdvanced(s, dt).timer == s.timer + dt &&
      (SignalLit(SignalAdvanced(s, dt)) <==> FloorMod(s.timer + dt, 1.0) < 0.5)
  {
  }

  // ---------------------------------------------------------------------
  // The actuator objects
  // ---------------------------------------------------------------------

  class BeamActuator {
    const config: Configuration
    var currentMode: BeamMode
    var isBlinkingActive: bool
    var blinkingTimer: real

    function State(): BeamState
      reads this
    {
      BeamState(currentMode, isBlinkingActive, blinkingTimer)
    }

    constructor (config: Configuration)
      ensures this.config == config && State() == InitialBeam
    {
      this.config := config;
      currentMode := LowBeam;
      isBlinkingActive := false;
      blinkingTimer := 0.0;
    }

    method SwitchBeamMode(mode: BeamMode)
      modifies this
      ensures State() == BeamSwitched(old(State()), mode)
    {
      currentMode := mode;
    }

    method StartBlinking()
      modifies this
      ensures State() == BlinkStarted(old(State()))
    {
      if !isBlinkingActive {
        isBlinkingActive := true;
        blinkingTimer := 0.0;
      }
    }

    method StopBlinking()
      modifies this
      ensures State() == BlinkStopped(old(State()))
    {
      isBlinkingActive := false;
      blinkingTimer := 0.0;
    }

    method Update(dt: real)
      modifies this
      ensures State() == BeamAdvanced(old(State()), dt)
    {
      if isBlinkingActive {
        blinkingTimer := blinkingTimer + dt;
      }
    }

    /** The stored mode when steady; while blinking, High in the first half
        of each blink period and Low in the second. */
    function GetCurrentPhysicalBeam(): (r: BeamMode)
      reads this
      requires config.Valid()
      ensures !isBlinkingActive ==> r == currentMode
      ensures isBlinkingActive ==>
        (r == HighBeam <==> FloorMod(blinkingTimer, 1.0 / config.blinkingFrequency) < (1.0 / config.blinkingFrequency) / 2.0)
    {
      PhysicalBeam(State(), config)
    }

    /** Whether a blink started by `StartBlinking` is still running. */
    function IsBlinking(): (r: bool)
      reads this
      ensures r <==> State().blinking
      ensures !r ==> BeamAdvanced(State(), 1.0) == State()
    {
      isBlinkingActive
    }
  }

  class HornActuator {
    const config: Configuration
    var isActive: bool
    var activeTimer: real
    var duration: real

    function State(): HornState
      reads this
    {
      HornState(isActive, activeTimer, duration)
    }

    constructor (config: Configuration)
      ensures this.config == config && State() == InitialHorn
    {
      this.config := config;
      isActive := false;
      activeTimer := 0.0;
      duration := 0.0;
    }

    method TriggerHorn(duration: real)
      modifies this
      ensures State() == HornTriggered(old(State()), duration)
    {
      isActive := true;
      activeTimer := 0.0;
      this.duration := duration;
    }

    method StopHorn()
      modifies this
      ensures State() == HornStopped(old(State()))
    {
      isActive := false;
      activeTimer := 0.0;
    }

    method Update(dt: real)
      modifies this
      ensures State() == HornAdvanced(old(State()), dt)
    {
      if isActive {
        activeTimer := activeTimer + dt;
        if activeTimer >= duration {
          isActive := false;
          activeTimer := 0.0;
        }
      }
    }

    /** Whether a pulse started by `TriggerHorn` is still sounding. */
    function IsHornActive(): (r: bool)
      reads this
      ensures r <==> State().active
      ensures !r ==> HornAdvanced(State(), 1.0) == State()
    {
      isActive
    }
  }

  class TurnSignalActuator {
    const config: Configuration
    var state: TurnSignalState
    var blinkingTimer: real
    var isBlinkingOn: bool

    function State(): SignalState
      reads this
    {
      SignalState(state, blinkingTimer, isBlinkingOn)
    }

    constructor (config: Configuration)
      ensures this.config == config && State() == InitialSignal
    {
      this.config := config;
      state := Off;
      blinkingTimer := 0.0;
      isBlinkingOn := false;
    }

    method ActivateSignal(newState: TurnSignalState)
      modifies this
      ensures State() == SignalActivated(old(State()), newState)
    {
      if newState != state {
        state := newState;
        blinkingTimer := 0.0;
        isBlinkingOn := true;
      }
    }

    /** Advances the 1 Hz lamp cycle: on for the first 0.5 s of each second. */
    method Update(dt: real)
      modifies this
      ensures State() == SignalAdvanced(old(State()), dt)
    {
      if state != Off {
        blinkingTimer := blinkingTimer + dt;
        var cycleTime := 1.0;
        var phase := FloorMod(blinkingTimer, cycleTime);
        isBlinkingOn := phase < 0.5;
      }
    }

    /** The signal last activated. */
    function GetState(): (r: TurnSignalState)
      reads this
      ensures r == State().state
      ensures SignalActivated(State(), r) == State()
    {
      state
    }

    /** The lamp is lit only while a signal is on and in its lit phase. */
    function IsLit(): (r: bool)
      reads this
      ensures r <==> isBlinkingOn && state != Off
      ensures state == Off ==> !r
    {
      SignalLit(State())
    }
  }
}
