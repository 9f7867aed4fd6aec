/** The per-tick orchestrator. One call of `process_update` is described by
    the pure function `Tick` on a snapshot of every module's state; the class
    `HeadlightController` drives the module objects and is proved to move its
    snapshot exactly as `Tick` says. */
module Controller {
  import opened Models
  import opened VehicleDetection
  import opened OvertakingDetection
  import opened DecisionEngine
  import opened Actuators
  import opened ErrorHandling

  /** The state of the controller and of every module it drives. */
  datatype ControllerState = ControllerState(
    tracked: seq<DetectedVehicle>,
    overtaking: Overtaking,
    beam: BeamState,
    horn: HornState,
    signal: SignalState,
    errors: ErrorLog,
    state: SystemState,
    lastBlinkCycle: int,
    prevEgoPosition: Option<Position>)

  /** The arguments of one `process_update` call. */
  datatype TickInput = TickInput(
    egoPosition: Position,
    rawSensorData: seq<DetectedVehicle>,
    dt: real,
    steeringAngle: real,
    yawRate: real,
    egoVelocity: Velocity,
    engineRpm: real)

  const StallMessage: string := "ENGINE STALL DETECTED! Hazards Activated."
  const HazardHornDuration: real := 0.5

  function HazardText(m: HazardMessage): string {
    match m
    case NoHazardMessage => ""
    case OncomingInLane => "Oncoming Vehicle in Lane!"
    case RapidlyApproaching(_) => "Rapidly approaching vehicle ahead!"
    case CriticallyClose => "Vehicle ahead critically close!"
  }

  // ---------------------------------------------------------------------
  // The pieces of one tick
  // ---------------------------------------------------------------------

  /** Zero on the first call or when dt <= 0, the lateral displacement over
      dt otherwise. */
  function LateralVelocity(prev: Option<Position>, egoPosition: Position, dt: real): (r: real)
    ensures prev.None? || dt <= 0.0 ==> r == 0.0
    ensures prev.Some? && dt > 0.0 ==> r * dt == egoPosition.x - prev.value.x
    ensures prev.Some? && dt > 0.0 && egoPosition.x == prev.value.x ==> r == 0.0
  {
    if prev.Some? && dt > 0.0 then (egoPosition.x - prev.value.x) / dt else 0.0
  }

  /** Engine below 300 rpm while the speed exceeds 1 m/s (compared squared). */
  predicate Stalled(engineRpm: real, egoVelocity: Velocity) {
    engineRpm < 300.0 && egoVelocity.vx * egoVelocity.vx + egoVelocity.vy * egoVelocity.vy > 1.0
  }

  predicate TurningLeft(lateralVelocity: real, steeringAngle: real, yawRate: real) {
    lateralVelocity > 0.5 || steeringAngle > 15.0 || yawRate > 5.0
  }

  predicate TurningRight(lateralVelocity: real, steeringAngle: real, yawRate: real) {
    lateralVelocity < -0.5 || steeringAngle < -15.0 || yawRate < -5.0
  }

  predicate Straight(lateralVelocity: real, steeringAngle: real, yawRate: real) {
    Abs(lateralVelocity) < 0.2 && Abs(steeringAngle) < 5.0 && Abs(yawRate) < 2.0
  }

  /** The signal `_handle_turn_signals` asks for. */
  function TurnSignalDecision(current: TurnSignalState, lateralVelocity: real, steeringAngle: real, yawRate: real): TurnSignalState {
    var left := TurningLeft(lateralVelocity, steeringAngle, yawRate);
    var right := TurningRight(lateralVelocity, steeringAngle, yawRate);
    var requested := if left then Left else if right then Right else current;
    if (current == Left || current == Right) && !left && !right && Straight(lateralVelocity, steeringAngle, yawRate)
    then Off
    else requested
  }

  /** Left wins over right; without either, a Left or Right signal is
      cancelled exactly when the car is straight and any other signal is
      kept; Hazard is never switched off by inference. */
  lemma TurnSignalRules(current: TurnSignalState, lat: real, steer: real, yaw: real)
    ensures TurningLeft(lat, steer, yaw) ==> TurnSignalDecision(current, lat, steer, yaw) == Left
    ensures !TurningLeft(lat, steer, yaw) && TurningRight(lat, steer, yaw) ==> TurnSignalDecision(current, lat, steer, yaw) == Right
    ensures !TurningLeft(lat, steer, yaw) && !TurningRight(lat, steer, yaw) ==>
      TurnSignalDecision(current, lat, steer, yaw) ==
        if (current == Left || current == Right) && Straight(lat, steer, yaw) then Off else current
    ensures TurnSignalDecision(current, lat, steer, yaw) == Off ==> current != Hazard
    ensures TurnSignalDecision(current, lat, steer, yaw) == Off && current != Off ==> Straight(lat, steer, yaw)
  {
  }

  predicate HasOncoming(vehicles: seq<DetectedVehicle>) {
    exists i :: 0 <= i < |vehicles| && vehicles[i].kind == Oncoming
  }

  /** `_sync_horn`: a horn pulse of the mean configured length whenever the
      blink timer has entered a period index beyond the last one honked. */
  function WithHornSync(config: Configuration, s: ControllerState): ControllerState
    requires config.Valid()
  {
    var cycle := Trunc(s.beam.timer / config.BlinkPeriod());
    if cycle > s.lastBlinkCycle then
      s.(horn := HornTriggered(s.horn, (config.hornPulseDurationMin + config.hornPulseDurationMax) / 2.0),
         lastBlinkCycle := cycle)
    else s
  }

  /** The horn fires at most once per blink-period index: syncing never
      lowers the recorded index, fires only on a new index and records it,
      and a second sync at the same timer does nothing. */
  lemma HornFiresOncePerCycle(config: Configuration, s: ControllerState)
    requires config.Valid()
    ensures var r := WithHornSync(config, s);
      var cycle := Trunc(s.beam.timer / config.BlinkPeriod());
      r.lastBlinkCycle >= s.lastBlinkCycle &&
      (r.horn != s.horn ==> cycle > s.lastBlinkCycle && r.lastBlinkCycle == cycle) &&
      (cycle > s.lastBlinkCycle ==> r.horn.active && r.lastBlinkCycle == cycle) &&
      WithHornSync(config, r) == r &&
      r == s.(horn := r.horn, lastBlinkCycle := r.lastBlinkCycle)
  {
  }

  /** `_handle_overtaking_actions`. */
  function WithOvertakingActions(config: Configuration, s: ControllerState, status: OvertakingStatus, vehicles: seq<DetectedVehicle>): ControllerState
    requires config.Valid()
  {
    if status == InProgress then
      if HasOncoming(vehicles) then
        var b := if s.beam.blinking then BlinkStopped(s.beam) else s.beam;
        s.(beam := BeamSwitched(b, LowBeam))
      else
        var targetId := s.overtaking.target;
        var targetVehicle := if targetId.Some? && targetId.value != 0 then Lookup(s.tracked, targetId.value) else None;
        var s1 :=
          if targetVehicle.Some? && !s.beam.blinking then
            var b := BlinkStarted(s.beam);
            s.(beam := b, lastBlinkCycle := Trunc(b.timer / config.BlinkPeriod()) - 1)
          else s;
        if s1.beam.blinking then WithHornSync(config, s1) else s1
    else if s.beam.blinking then s.(beam := BlinkStopped(s.beam))
    else s
  }

  /** Outside an overtaking the beam stops blinking; during one, an oncoming
      vehicle stops the blinking and forces Low; otherwise blinking starts for
      a tracked target with a non-zero id (an id of 0 reads as "no target"),
      and a fresh blink sounds the horn at once for the mean pulse length. */
  lemma OvertakingActionRules(config: Configuration, s: ControllerState, status: OvertakingStatus, vehicles: seq<DetectedVehicle>)
    requires config.Valid()
    ensures var r := WithOvertakingActions(config, s, status, vehicles);
      r.overtaking == s.overtaking && r.tracked == s.tracked && r.signal == s.signal &&
      r.errors == s.errors && r.state == s.state && r.prevEgoPosition == s.prevEgoPosition &&
      (status != InProgress ==> !r.beam.blinking && r.beam.mode == s.beam.mode) &&
      (status == InProgress && HasOncoming(vehicles) ==> !r.beam.blinking && r.beam.mode == LowBeam) &&
      (status == InProgress && !HasOncoming(vehicles) ==>
        (r.beam.blinking <==>
          (s.beam.blinking ||
           (s.overtaking.target.Some? && s.overtaking.target.value != 0 && s.overtaking.target.value in IdsOf(s.tracked))))) &&
      (status == InProgress && !HasOncoming(vehicles) && !s.beam.blinking && r.beam.blinking ==>
        r.beam.timer == 0.0 && r.lastBlinkCycle == 0 && r.horn.active &&
        r.horn.duration == (config.hornPulseDurationMin + config.hornPulseDurationMax) / 2.0) &&
      ((status != InProgress || HasOncoming(vehicles)) ==>
        r.horn == s.horn && r.lastBlinkCycle == s.lastBlinkCycle) &&
      (status == InProgress && !HasOncoming(vehicles) && s.beam.blinking ==> r == WithHornSync(config, s))
  {
    if status == InProgress && !HasOncoming(vehicles) && !s.beam.blinking {
      var b := BlinkStarted(s.beam);
      assert b.timer / config.BlinkPeriod() == 0.0;
      assert Trunc(0.0) == 0;
    }
  }

  /** Steps 2-6: overtaking update, beam decision, overtaking actions, the
      decided mode when not blinking, turn-signal inference. */
  function NormalLogic(config: Configuration, s: ControllerState, input: TickInput, lateralVelocity: real): ControllerState
    requires config.Valid()
  {
    var o := OvertakingStep(s.overtaking, input.egoPosition.x, s.tracked);
    var targetMode := DetermineBeamMode(s.tracked, o.status, config);
    var s1 := WithOvertakingActions(config, s.(overtaking := o), o.status, s.tracked);
    var s2 := if !s1.beam.blinking then s1.(beam := BeamSwitched(s1.beam, targetMode)) else s1;
    s2.(signal := SignalActivated(s2.signal, TurnSignalDecision(s2.signal.state, lateralVelocity, input.steeringAngle, input.yawRate)))
  }

  /** Lines before the tracker runs: Low in ERROR, then stall protection. */
  function PreTracking(s: ControllerState, input: TickInput): ControllerState {
    var s1 := if s.state == Error then s.(beam := BeamSwitched(s.beam, LowBeam)) else s;
    if Stalled(input.engineRpm, input.egoVelocity) then
      s1.(signal := SignalActivated(s1.signal, Hazard),
          errors := Logged(s1.errors, StallMessage, 50),
          beam := BeamSwitched(s1.beam, LowBeam))
    else s1
  }

  /** Tracking, hazard pre-emption, and the normal logic when neither a
      hazard nor a stall is present. */
  function AfterTracking(config: Configuration, s: ControllerState, input: TickInput, lateralVelocity: real): ControllerState
    requires config.Valid()
  {
    var s1 := s.(tracked := Ingest(s.tracked, input.rawSensorData, config));
    HazardResponse(config, s1, ScanHazards(s1.tracked, input.egoVelocity), input, lateralVelocity)
  }

  /** A blocking hazard pre-empts everything with code 10, High and a horn
      blast; otherwise the normal logic runs unless the engine stalled. */
  function HazardResponse(config: Configuration, s: ControllerState, report: HazardReport, input: TickInput, lateralVelocity: real): ControllerState
    requires config.Valid()
  {
    if report.hazard == BlockingVehicle then
      s.(errors := Logged(s.errors, "HAZARD: " + HazardText(report.message), 10),
         beam := BeamSwitched(s.beam, HighBeam),
         horn := HornTriggered(s.horn, HazardHornDuration))
    else if !Stalled(input.engineRpm, input.egoVelocity) then NormalLogic(config, s, input, lateralVelocity)
    else s
  }

  /** The exception handler: log code 500, ERROR, Low, no blink, horn off,
      signal off. */
  function SafePosture(s: ControllerState, failure: string): ControllerState {
    s.(errors := Logged(s.errors, "System Failure: " + failure, 500),
       state := Error,
       beam := BlinkStopped(BeamSwitched(s.beam, LowBeam)),
       horn := HornStopped(s.horn),
       signal := SignalActivated(s.signal, Off))
  }

  /** The guarded block; `failure` is the exception the tracker raised. */
  function TryBlock(config: Configuration, s: ControllerState, input: TickInput, lateralVelocity: real, failure: Option<string>): ControllerState
    requires config.Valid()
  {
    var p := PreTracking(s, input);
    match failure
    case None => AfterTracking(config, p, input, lateralVelocity)
    case Some(e) => SafePosture(p, e)
  }

  function AdvanceActuators(s: ControllerState, dt: real): ControllerState {
    s.(beam := BeamAdvanced(s.beam, dt), horn := HornAdvanced(s.horn, dt), signal := SignalAdvanced(s.signal, dt))
  }

  /** Manual override: only the tracker and the overtaking machine move. */
  function ManualTick(config: Configuration, s: ControllerState, input: TickInput, failure: Option<string>): ControllerState {
    match failure
    case None =>
      var t := Ingest(s.tracked, input.rawSensorData, config);
      s.(tracked := t, overtaking := OvertakingStep(s.overtaking, input.egoPosition.x, t))
    case Some(e) => s.(errors := Logged(s.errors, "Error in manual tracking: " + e, 100))
  }

  /** One `process_update` call. */
  function Tick(config: Configuration, s: ControllerState, input: TickInput, failure: Option<string>): (r: ControllerState)
    requires config.Valid()
    ensures r.prevEgoPosition == Some(input.egoPosition)
  {
    var lateralVelocity := LateralVelocity(s.prevEgoPosition, input.egoPosition, input.dt);
    var s0 := s.(prevEgoPosition := Some(input.egoPosition));
    if s0.state == ManualOverride then ManualTick(config, s0, input, failure)
    else AdvanceActuators(TryBlock(config, s0, input, lateralVelocity, failure), input.dt)
  }

  /** `set_manual_override`. */
  function ManualOverrideSet(s: ControllerState, enabled: bool): ControllerState {
    if enabled then
      s.(state := ManualOverride, beam := BlinkStopped(s.beam), horn := HornStopped(s.horn),
         signal := SignalActivated(s.signal, Off))
    else s.(state := Normal)
  }

  // ---------------------------------------------------------------------
  // Properties of a tick
  // ---------------------------------------------------------------------

  /** In manual override the actuators are neither commanded nor advanced and
      the system state stays; a fault is logged with code 100 and leaves the
      tracker and the overtaking machine as they were. */
  lemma ManualTickRules(config: Configuration, s: ControllerState, input: TickInput, failure: Option<string>)
    requires config.Valid() && s.state == ManualOverride
    ensures var r := Tick(config, s, input, failure);
      r.beam == s.beam && r.horn == s.horn && r.signal == s.signal &&
      r.state == ManualOverride && r.lastBlinkCycle == s.lastBlinkCycle &&
      r.prevEgoPosition == Some(input.egoPosition) &&
      (failure.None? ==>
        r.errors == s.errors &&
        r.tracked == Ingest(s.tracked, input.rawSensorData, config) &&
        r.overtaking == OvertakingStep(s.overtaking, input.egoPosition.x, r.tracked)) &&
      (failure.Some? ==>
        r.tracked == s.tracked && r.overtaking == s.overtaking &&
        r.errors.logs == s.errors.logs + [LogEntry("Error in manual tracking: " + failure.value, 100)])
  {
  }

  /** A fault outside manual override ends the tick in the safe posture:
      ERROR, Low, not blinking, horn off, signal off, code 500 last. */
  lemma FaultTickRules(config: Configuration, s: ControllerState, input: TickInput, e: string)
    requires config.Valid() && s.state != ManualOverride
    ensures var r := Tick(config, s, input, Some(e));
      r.state == Error && r.beam.mode == LowBeam && !r.beam.blinking && r.beam.timer == 0.0 &&
      !r.horn.active && r.signal.state == Off && !SignalLit(r.signal) &&
      r.errors.activeError && r.errors.logs[|r.errors.logs| - 1] == LogEntry("System Failure: " + e, 500) &&
      r.tracked == s.tracked && r.overtaking == s.overtaking
  {
  }

  /** A stall with no hazard: Hazard lights, code 50, Low, and the overtaking
      machine, blinking and turn inference are skipped. */
  lemma StallTickRules(config: Configuration, s: ControllerState, input: TickInput)
    requires config.Valid() && s.state != ManualOverride
    requires Stalled(input.engineRpm, input.egoVelocity)
    requires ScanHazards(Ingest(s.tracked, input.rawSensorData, config), input.egoVelocity).hazard == NoHazard
    ensures var r := Tick(config, s, input, None);
      r.signal.state == Hazard && r.beam.mode == LowBeam &&
      r.beam.blinking == s.beam.blinking && r.overtaking == s.overtaking &&
      r.lastBlinkCycle == s.lastBlinkCycle && r.state == s.state &&
      r.errors.logs == s.errors.logs + [LogEntry(StallMessage, 50)]
  {
  }

  /** A blocking hazard: code 10, High, a 0.5 s horn blast; the overtaking
      machine, blinking flag and turn inference are left alone. With a stall
      on the same tick the beam still ends High and the lights on Hazard. */
  lemma HazardTickRules(config: Configuration, s: ControllerState, input: TickInput)
    requires config.Valid() && s.state != ManualOverride
    requires ScanHazards(Ingest(s.tracked, input.rawSensorData, config), input.egoVelocity).hazard == BlockingVehicle
    ensures var r := Tick(config, s, input, None);
      var report := ScanHazards(Ingest(s.tracked, input.rawSensorData, config), input.egoVelocity);
      r.beam.mode == HighBeam && r.beam.blinking == s.beam.blinking &&
      r.horn == HornAdvanced(HornState(true, 0.0, HazardHornDuration), input.dt) &&
      r.overtaking == s.overtaking && r.lastBlinkCycle == s.lastBlinkCycle && r.state == s.state &&
      r.errors.logs[|r.errors.logs| - 1] == LogEntry("HAZARD: " + HazardText(report.message), 10) &&
      (Stalled(input.engineRpm, input.egoVelocity) ==>
        r.signal.state == Hazard &&
        r.errors.logs == s.errors.logs + [LogEntry(StallMessage, 50), LogEntry("HAZARD: " + HazardText(report.message), 10)]) &&
      (!Stalled(input.engineRpm, input.egoVelocity) ==> r.signal.state == s.signal.state)
  {
  }

  /** Without hazard or stall: the overtaking machine steps; the beam blinks
      only while overtaking; an oncoming vehicle during an overtaking forces
      Low; when not blinking the beam shows the decided mode. */
  lemma NormalTickRules(config: Configuration, s: ControllerState, input: TickInput)
    requires config.Valid() && s.state != ManualOverride
    requires !Stalled(input.engineRpm, input.egoVelocity)
    requires ScanHazards(Ingest(s.tracked, input.rawSensorData, config), input.egoVelocity).hazard == NoHazard
    ensures var r := Tick(config, s, input, None);
      var t := Ingest(s.tracked, input.rawSensorData, config);
      var o := OvertakingStep(s.overtaking, input.egoPosition.x, t);
      r.tracked == t && r.overtaking == o && r.state == s.state && r.errors == s.errors &&
      (o.status != InProgress ==> !r.beam.blinking && r.beam.mode == DetermineBeamMode(t, o.status, config)) &&
      (o.status == InProgress && HasOncoming(t) ==> !r.beam.blinking && r.beam.mode == LowBeam) &&
      (!r.beam.blinking ==> r.beam.mode == DetermineBeamMode(t, o.status, config)) &&
      r.signal.state == TurnSignalDecision(s.signal.state,
        LateralVelocity(s.prevEgoPosition, input.egoPosition, input.dt), input.steeringAngle, input.yawRate)
  {
    var s0 := s.(prevEgoPosition := Some(input.egoPosition));
    var t := Ingest(s.tracked, input.rawSensorData, config);
    var p := PreTracking(s0, input).(tracked := t);
    var o := OvertakingStep(s.overtaking, input.egoPosition.x, t);
    OvertakingActionRules(config, p.(overtaking := o), o.status, t);
    if o.status == InProgress && HasOncoming(t) {
      assert DetermineBeamMode(t, o.status, config) == LowBeam;
    }
  }

  /** Overtaking a vehicle whose id is 0 never starts the blink. */
  lemma TargetIdZeroNeverBlinks(config: Configuration, s: ControllerState, input: TickInput, failure: Option<string>)
    requires config.Valid() && s.state != ManualOverride && !s.beam.blinking
    requires OvertakingStep(s.overtaking, input.egoPosition.x, Ingest(s.tracked, input.rawSensorData, config)).target == Some(0)
    ensures !Tick(config, s, input, failure).beam.blinking
  {
    var s0 := s.(prevEgoPosition := Some(input.egoPosition));
    var t := Ingest(s.tracked, input.rawSensorData, config);
    var p := PreTracking(s0, input).(tracked := t);
    var o := OvertakingStep(s.overtaking, input.egoPosition.x, t);
    OvertakingActionRules(config, p.(overtaking := o), o.status, t);
  }

  /** A tick in ERROR is the tick of a NORMAL controller whose beam was first
      switched to Low, and the state stays ERROR. */
  lemma ErrorTickRunsNormalPath(config: Configuration, s: ControllerState, input: TickInput, failure: Option<string>)
    requires config.Valid() && s.state == Error
    ensures Tick(config, s, input, failure) ==
      Tick(config, s.(state := Normal, beam := BeamSwitched(s.beam, LowBeam)), input, failure).(state := Error)
  {
    var n := s.(state := Normal, beam := BeamSwitched(s.beam, LowBeam));
    var lat := LateralVelocity(s.prevEgoPosition, input.egoPosition, input.dt);
    var s0 := s.(prevEgoPosition := Some(input.egoPosition));
    var n0 := n.(prevEgoPosition := Some(input.egoPosition));
    assert PreTracking(s0, input) == PreTracking(n0, input).(state := Error);
    if failure.None? {
      var p := PreTracking(n0, input);
      NormalLogicIgnoresSystemState(config, AfterTrackingInput(config, p, input), input, lat);
      assert AfterTracking(config, p.(state := Error), input, lat) == AfterTracking(config, p, input, lat).(state := Error);
    }
  }

  function AfterTrackingInput(config: Configuration, s: ControllerState, input: TickInput): ControllerState {
    s.(tracked := Ingest(s.tracked, input.rawSensorData, config))
  }

  /** The normal logic neither reads nor writes the system state. */
  lemma NormalLogicIgnoresSystemState(config: Configuration, s: ControllerState, input: TickInput, lat: real)
    requires config.Valid()
    ensures NormalLogic(config, s.(state := Error), input, lat) == NormalLogic(config, s, input, lat).(state := Error)
  {
    var o := OvertakingStep(s.overtaking, input.egoPosition.x, s.tracked);
    OvertakingActionRules(config, s.(overtaking := o), o.status, s.tracked);
    assert WithOvertakingActions(config, s.(state := Error).(overtaking := o), o.status, s.tracked) ==
      WithOvertakingActions(config, s.(overtaking := o), o.status, s.tracked).(state := Error);
  }

  /** A tick never leaves ERROR by itself, and reaches it only by a fault. */
  lemma TickSystemState(config: Configuration, s: ControllerState, input: TickInput, failure: Option<string>)
    requires config.Valid()
    ensures var r := Tick(config, s, input, failure);
      r.prevEgoPosition == Some(input.egoPosition) &&
      (s.state == Error ==> r.state == Error) &&
      (s.state == ManualOverride ==> r.state == ManualOverride) &&
      (s.state == Normal ==> (r.state == Error <==> failure.Some?) && (failure.None? ==> r.state == Normal))
  {
    if failure.None? && s.state != ManualOverride {
      var s0 := s.(prevEgoPosition := Some(input.egoPosition));
      var lat := LateralVelocity(s.prevEgoPosition, input.egoPosition, input.dt);
      var p := PreTracking(s0, input).(tracked := Ingest(s.tracked, input.rawSensorData, config));
      var o := OvertakingStep(p.overtaking, input.egoPosition.x, p.tracked);
      OvertakingActionRules(config, p.(overtaking := o), o.status, p.tracked);
    }
  }

  /** The error log is append-only: a tick keeps every earlier entry and adds
      at most two (a stall together with a hazard or a fault). */
  lemma TickOnlyAppendsToLog(config: Configuration, s: ControllerState, input: TickInput, failure: Option<string>)
    requires config.Valid()
    ensures var r := Tick(config, s, input, failure);
      |s.errors.logs| <= |r.errors.logs| <= |s.errors.logs| + 2 &&
      r.errors.logs[..|s.errors.logs|] == s.errors.logs
  {
    var s0 := s.(prevEgoPosition := Some(input.egoPosition));
    if s.state != ManualOverride {
      var p := PreTracking(s0, input);
      assert |p.errors.logs| <= |s.errors.logs| + 1 && p.errors.logs[..|s.errors.logs|] == s.errors.logs;
      if failure.None? {
        var s1 := p.(tracked := Ingest(p.tracked, input.rawSensorData, config));
        if ScanHazards(s1.tracked, input.egoVelocity).hazard != BlockingVehicle && !Stalled(input.engineRpm, input.egoVelocity) {
          var o := OvertakingStep(s1.overtaking, input.egoPosition.x, s1.tracked);
          OvertakingActionRules(config, s1.(overtaking := o), o.status, s1.tracked);
          assert NormalLogic(config, s1, input, LateralVelocity(s.prevEgoPosition, input.egoPosition, input.dt)).errors == p.errors;
        }
      }
    }
  }

  /** What every tick keeps: tracked ids unique, a target held exactly while
      overtaking, an idle beam timer at zero, and a blinking beam only during
      an overtaking outside manual override. */
  predicate ControllerInvariant(s: ControllerState) {
    UniqueIds(s.tracked) && Consistent(s.overtaking) && BeamIdleAtZero(s.beam) &&
    (s.beam.blinking ==> s.overtaking.status == InProgress && s.state != ManualOverride)
  }

  lemma InvariantAfterNormalLogic(config: Configuration, s: ControllerState, input: TickInput, lat: real)
    requires config.Valid() && ControllerInvariant(s) && s.state != ManualOverride
    ensures ControllerInvariant(NormalLogic(config, s, input, lat))
    ensures NormalLogic(config, s, input, lat).state == s.state
  {
    var o := OvertakingStep(s.overtaking, input.egoPosition.x, s.tracked);
    StepKeepsConsistent(s.overtaking, input.egoPosition.x, s.tracked);
    OvertakingActionRules(config, s.(overtaking := o), o.status, s.tracked);
  }

  lemma InvariantAfterTryBlock(config: Configuration, s: ControllerState, input: TickInput, lat: real, failure: Option<string>)
    requires config.Valid() && ControllerInvariant(s) && s.state != ManualOverride
    ensures ControllerInvariant(TryBlock(config, s, input, lat, failure))
    ensures TryBlock(config, s, input, lat, failure).state != ManualOverride
  {
    var p := PreTracking(s, input);
    assert ControllerInvariant(p) && p.state == s.state;
    if failure.None? {
      var t := Ingest(p.tracked, input.rawSensorData, config);
      IngestTracksExactlyTheFrame(p.tracked, input.rawSensorData, config);
      var s1 := p.(tracked := t);
      assert ControllerInvariant(s1);
      if ScanHazards(t, input.egoVelocity).hazard != BlockingVehicle && !Stalled(input.engineRpm, input.egoVelocity) {
        InvariantAfterNormalLogic(config, s1, input, lat);
      }
    }
  }

  lemma {:induction false} TickKeepsInvariant(config: Configuration, s: ControllerState, input: TickInput, failure: Option<string>)
    requires config.Valid() && ControllerInvariant(s)
    ensures ControllerInvariant(Tick(config, s, input, failure))
  {
    var s0 := s.(prevEgoPosition := Some(input.egoPosition));
    if s.state == ManualOverride {
      var t := Ingest(s.tracked, input.rawSensorData, config);
      IngestTracksExactlyTheFrame(s.tracked, input.rawSensorData, config);
      StepKeepsConsistent(s.overtaking, input.egoPosition.x, t);
    } else {
      var lat := LateralVelocity(s.prevEgoPosition, input.egoPosition, input.dt);
      InvariantAfterTryBlock(config, s0, input, lat, failure);
      var r := TryBlock(config, s0, input, lat, failure);
      BeamOperationsKeepIdleAtZero(r.beam, r.beam.mode, input.dt);
    }
  }

  /** Entering manual override silences everything; leaving it gives NORMAL,
      even from ERROR. Both keep the invariant. */
  lemma ManualOverrideRules(s: ControllerState, enabled: bool)
    requires ControllerInvariant(s)
    ensures var r := ManualOverrideSet(s, enabled);
      ControllerInvariant(r) &&
      (enabled ==>
        (r.state == ManualOverride && !r.beam.blinking && r.beam.mode == s.beam.mode &&
         !r.horn.active && r.signal.state == Off)) &&
      (!enabled ==> r == s.(state := Normal))
  {
  }

  /** The state of a freshly built controller. */
  const InitialState := ControllerState([], InitialOvertaking, InitialBeam, InitialHorn, InitialSignal, EmptyLog, Normal, -1, None)

  /** A freshly built controller satisfies the invariant, so by
      `TickKeepsInvariant` every controller reachable by ticks does. */
  lemma InitialStateInvariant()
    ensures ControllerInvariant(InitialState)
  {
  }

  predicate ScenarioConfig(config: Configuration) {
    config.Valid() && config.blinkingFrequency == 2.0 && config.safeDistance == 50.0 &&
    config.detectionRange == 200.0 && config.hornPulseDurationMin == 0.2 && config.hornPulseDurationMax == 0.3
  }

  const ScenarioVehicle := DetectedVehicle(1, Ahead, Position(0.0, 50.0), Velocity(0.0, 0.0), 50.0)

  function ScenarioInput(egoPosition: Position): TickInput {
    TickInput(egoPosition, [ScenarioVehicle], 0.1, 0.0, 0.0, Velocity(0.0, 0.0), 2000.0)
  }

  /** The vehicle of the scenario is tracked, harmless, ahead, and far
      enough for high beam. */
  /** Reporting the test's vehicle into an empty map, and again into the
      map holding it, leaves exactly that vehicle tracked. */
  lemma ScenarioIngestFacts(config: Configuration)
    requires ScenarioConfig(config)
    ensures Ingest([], [ScenarioVehicle], config) == [ScenarioVehicle]
    ensures Ingest([ScenarioVehicle], [ScenarioVehicle], config) == [ScenarioVehicle]
  {
    var v := ScenarioVehicle;
    assert Admissible(v, config);
    assert [v][..0] == [];
    assert UpsertFrame([], [v], config) == [v];
    assert FrameIds([v], config) == {1};
    assert Prune([v], {1}) == [v];
    assert IndexOfId([v], 1) == Some(0);
    assert UpsertFrame([v], [v], config) == [v];
  }

  lemma ScenarioVehicleFacts(config: Configuration)
    requires ScenarioConfig(config)
    ensures Ingest([], [ScenarioVehicle], config) == [ScenarioVehicle]
    ensures Ingest([ScenarioVehicle], [ScenarioVehicle], config) == [ScenarioVehicle]
    ensures ScanHazards([ScenarioVehicle], Velocity(0.0, 0.0)).hazard == NoHazard
    ensures ClosestAhead([ScenarioVehicle]) == Some(ScenarioVehicle)
    ensures !HasOncoming([ScenarioVehicle]) && 1 in IdsOf([ScenarioVehicle])
    ensures forall status :: DetermineBeamMode([ScenarioVehicle], status, config) == HighBeam
  {
    ScenarioIngestFacts(config);
    var v := ScenarioVehicle;
    assert !IsHazard(v, Velocity(0.0, 0.0));
    assert IdsOf([v])[0] == 1;
  }

  /** First tick of the scenario: the vehicle is tracked, nothing else moves
      but the beam, which goes High. */
  lemma ScenarioFirstTick(config: Configuration)
    requires ScenarioConfig(config)
    ensures Tick(config, InitialState, ScenarioInput(Position(0.0, 0.0)), None) ==
      InitialState.(tracked := [ScenarioVehicle], beam := BeamState(HighBeam, false, 0.0),
                    prevEgoPosition := Some(Position(0.0, 0.0)))
  {
    ScenarioVehicleFacts(config);
    var s := InitialState;
    var input := ScenarioInput(Position(0.0, 0.0));
    var s0 := s.(prevEgoPosition := Some(input.egoPosition));
    assert LateralVelocity(s.prevEgoPosition, input.egoPosition, input.dt) == 0.0;
    assert PreTracking(s0, input) == s0;
    var s1 := s0.(tracked := [ScenarioVehicle]);
    assert OvertakingStep(InitialOvertaking, 0.0, [ScenarioVehicle]) == InitialOvertaking;
    assert WithOvertakingActions(config, s1, NoOvertaking, [ScenarioVehicle]) == s1;
    assert TurnSignalDecision(Off, 0.0, 0.0, 0.0) == Off;
    assert NormalLogic(config, s1, input, 0.0) == s1.(beam := BeamState(HighBeam, false, 0.0));
  }

  /** Second tick of the scenario: 2 m to the left at 20 m/s lateral. */
  lemma ScenarioSecondTick(config: Configuration)
    requires ScenarioConfig(config)
    ensures var first := InitialState.(tracked := [ScenarioVehicle], beam := BeamState(HighBeam, false, 0.0),
                                        prevEgoPosition := Some(Position(0.0, 0.0)));
      var second := Tick(config, first, ScenarioInput(Position(2.0, 0.0)), None);
      second.overtaking == Overtaking(InProgress, Some(1)) && second.beam.blinking &&
      second.signal.state == Left && second.horn.active && second.errors == EmptyLog
  {
    ScenarioVehicleFacts(config);
    var first := InitialState.(tracked := [ScenarioVehicle], beam := BeamState(HighBeam, false, 0.0),
                               prevEgoPosition := Some(Position(0.0, 0.0)));
    var input := ScenarioInput(Position(2.0, 0.0));
    var s0 := first.(prevEgoPosition := Some(input.egoPosition));
    assert LateralVelocity(first.prevEgoPosition, input.egoPosition, input.dt) == 20.0;
    assert PreTracking(s0, input) == s0;
    var o := OvertakingStep(InitialOvertaking, 2.0, [ScenarioVehicle]);
    assert o == Overtaking(InProgress, Some(1));
    OvertakingActionRules(config, s0.(overtaking := o), InProgress, [ScenarioVehicle]);
    var a := WithOvertakingActions(config, s0.(overtaking := o), InProgress, [ScenarioVehicle]);
    assert a.beam.blinking && a.horn == HornState(true, 0.0, 0.25);
    assert TurnSignalDecision(Off, 20.0, 0.0, 0.0) == Left;
    var n := NormalLogic(config, s0, input, 20.0);
    assert n == a.(signal := SignalActivated(a.signal, Left));
    assert HornAdvanced(n.horn, 0.1).active;
  }

  /** A vehicle 50 m straight ahead is seen from the lane centre; on the next
      tick the car is 2 m to the left: the overtaking starts, the beam blinks,
      the horn sounds and the left signal is on. */
  lemma OvertakingScenario(config: Configuration)
    requires ScenarioConfig(config)
    ensures var first := Tick(config, InitialState, ScenarioInput(Position(0.0, 0.0)), None);
      var second := Tick(config, first, ScenarioInput(Position(2.0, 0.0)), None);
      !first.beam.blinking && first.beam.mode == HighBeam && first.tracked == [ScenarioVehicle] &&
      second.overtaking == Overtaking(InProgress, Some(1)) && second.beam.blinking &&
      second.signal.state == Left && second.horn.active && second.errors == EmptyLog
  {
    ScenarioFirstTick(config);
    ScenarioSecondTick(config);
  }

  // ---------------------------------------------------------------------
  // The controller object
  // ---------------------------------------------------------------------

  class HeadlightController {
    const config: Configuration
    const vehicleDetection: VehicleTracker
    const overtakingDetection: OvertakingDetector
    const beamActuator: BeamActuator
    const hornActuator: HornActuator
    const turnSignalActuator: TurnSignalActuator
    const errorHandler: ErrorHandler
    var state: SystemState
    var lastBlinkCycle: int
    var prevEgoPosition: Option<Position>

    function Snapshot(): ControllerState
      reads this, vehicleDetection, overtakingDetection, beamActuator, hornActuator, turnSignalActuator, errorHandler
    {
      ControllerState(vehicleDetection.tracked, overtakingDetection.State(), beamActuator.State(),
        hornActuator.State(), turnSignalActuator.State(), errorHandler.State(),
        state, lastBlinkCycle, prevEgoPosition)
    }

    ghost predicate Valid()
      reads this, vehicleDetection, overtakingDetection
    {
      config.Valid() && vehicleDetection.Valid() && overtakingDetection.Valid() &&
      vehicleDetection.config == config && overtakingDetection.config == config &&
      beamActuator.config == config && hornActuator.config == config && turnSignalActuator.config == config
    }

    /** The modules are handed in; a missing error handler is created. */
    constructor (config: Configuration, vehicleDetection: VehicleTracker, overtakingDetection: OvertakingDetector,
                 beamActuator: BeamActuator, hornActuator: HornActuator, turnSignalActuator: TurnSignalActuator,
                 errorHandler: ErrorHandler?)
      requires config.Valid() && vehicleDetection.Valid() && overtakingDetection.Valid()
      requires vehicleDetection.config == config && overtakingDetection.config == config
      requires beamActuator.config == config && hornActuator.config == config && turnSignalActuator.config == config
      ensures Valid()
      ensures this.config == config && this.vehicleDetection == vehicleDetection &&
        this.overtakingDetection == overtakingDetection && this.beamActuator == beamActuator &&
        this.hornActuator == hornActuator && this.turnSignalActuator == turnSignalActuator
      ensures errorHandler != null ==> this.errorHandler == errorHandler
      ensures errorHandler == null ==> fresh(this.errorHandler) && this.errorHandler.State() == EmptyLog
      ensures state == Normal && lastBlinkCycle == -1 && prevEgoPosition == None
    {
      this.config := config;
      this.vehicleDetection := vehicleDetection;
      this.overtakingDetection := overtakingDetection;
      this.beamActuator := beamActuator;
      this.hornActuator := hornActuator;
      this.turnSignalActuator := turnSignalActuator;
      if errorHandler != null {
        this.errorHandler := errorHandler;
      } else {
        this.errorHandler := new ErrorHandler();
      }
      state := Normal;
      lastBlinkCycle := -1;
      prevEgoPosition := None;
    }

    /** `process_update`; `failure` is the exception the tracker raises, if any. */
    method ProcessUpdate(egoPosition: Position, rawSensorData: seq<DetectedVehicle>, dt: real,
                         steeringAngle: real := 0.0, yawRate: real := 0.0,
                         egoVelocity: Velocity := Velocity(0.0, 0.0), engineRpm: real := 2000.0,
                         failure: Option<string> := None)
      requires Valid()
      modifies this, vehicleDetection, overtakingDetection, beamActuator, hornActuator, turnSignalActuator, errorHandler
      ensures Valid()
      ensures Snapshot() == Tick(config, old(Snapshot()),
        TickInput(egoPosition, rawSensorData, dt, steeringAngle, yawRate, egoVelocity, engineRpm), failure)
    {
      var input := TickInput(egoPosition, rawSensorData, dt, steeringAngle, yawRate, egoVelocity, engineRpm);
      var lateralVelocity := 0.0;
      if prevEgoPosition.Some? && dt > 0.0 {
        lateralVelocity := (egoPosition.x - prevEgoPosition.value.x) / dt;
      }
      assert lateralVelocity == LateralVelocity(old(prevEgoPosition), egoPosition, dt);
      prevEgoPosition := Some(egoPosition);

      if state == ManualOverride {
        if failure.None? {
          var _ := vehicleDetection.ProcessSensorData(rawSensorData);
          overtakingDetection.ProcessUpdate(egoPosition, vehicleDetection.tracked);
        } else {
          errorHandler.LogError("Error in manual tracking: " + failure.value, 100);
        }
        return;
      }

      GuardedUpdate(input, lateralVelocity, failure);
      beamActuator.Update(dt);
      hornActuator.Update(dt);
      turnSignalActuator.Update(dt);
    }

    /** The guarded block of `process_update` and its exception handler. */
    method GuardedUpdate(input: TickInput, lateralVelocity: real, failure: Option<string>)
      requires Valid()
      modifies this, vehicleDetection, overtakingDetection, beamActuator, hornActuator, turnSignalActuator, errorHandler
      ensures Valid()
      ensures Snapshot() == TryBlock(config, old(Snapshot()), input, lateralVelocity, failure)
    {
      CheckErrorAndStall(input);
      if failure.None? {
        TrackAndAct(input, lateralVelocity);
      } else {
        EnterSafePosture(failure.value);
      }
    }

    /** Low beam in ERROR, then stall protection. */
    method CheckErrorAndStall(input: TickInput)
      modifies this, beamActuator, turnSignalActuator, errorHandler
      ensures Snapshot() == PreTracking(old(Snapshot()), input)
    {
      if state == Error {
        beamActuator.SwitchBeamMode(LowBeam);
      }
      if input.engineRpm < 300.0 && input.egoVelocity.vx * input.egoVelocity.vx + input.egoVelocity.vy * input.egoVelocity.vy > 1.0 {
        turnSignalActuator.ActivateSignal(Hazard);
        errorHandler.LogError(StallMessage, 50);
        beamActuator.SwitchBeamMode(LowBeam);
      }
    }

    /** Tracking, hazard pre-emption and, without hazard or stall, the
        normal logic. */
    method TrackAndAct(input: TickInput, lateralVelocity: real)
      requires Valid()
      modifies this, vehicleDetection, overtakingDetection, beamActuator, hornActuator, turnSignalActuator, errorHandler
      ensures Valid()
      ensures Snapshot() == AfterTracking(config, old(Snapshot()), input, lateralVelocity)
    {
      var trackedVehicles := vehicleDetection.ProcessSensorData(input.rawSensorData);
      var report := vehicleDetection.DetectHazards(input.egoVelocity);
      RespondToHazard(report, input, lateralVelocity);
    }

    /** The hazard branch and, without hazard or stall, the normal logic. */
    method RespondToHazard(report: HazardReport, input: TickInput, lateralVelocity: real)
      requires Valid()
      modifies this, overtakingDetection, beamActuator, hornActuator, turnSignalActuator, errorHandler
      ensures Valid()
      ensures Snapshot() == HazardResponse(config, old(Snapshot()), report, input, lateralVelocity)
    {
      if report.hazard == BlockingVehicle {
        SoundHazardAlarm(report.message);
      } else if !(input.engineRpm < 300.0 && input.egoVelocity.vx * input.egoVelocity.vx + input.egoVelocity.vy * input.egoVelocity.vy > 1.0) {
        RunNormalLogic(input, lateralVelocity);
      }
    }

    /** The blocking-hazard branch: log code 10, High beam, a 0.5 s horn blast. */
    method SoundHazardAlarm(message: HazardMessage)
      modifies beamActuator, hornActuator, errorHandler
      ensures Snapshot() == old(Snapshot()).(errors := Logged(old(errorHandler.State()), "HAZARD: " + HazardText(message), 10),
        beam := BeamSwitched(old(beamActuator.State()), HighBeam),
        horn := HornTriggered(old(hornActuator.State()), HazardHornDuration))
    {
      errorHandler.LogError("HAZARD: " + HazardText(message), 10);
      beamActuator.SwitchBeamMode(HighBeam);
      hornActuator.TriggerHorn(HazardHornDuration);
    }

    /** Steps 2-6 of `process_update`. */
    method RunNormalLogic(input: TickInput, lateralVelocity: real)
      requires Valid()
      modifies this, overtakingDetection, beamActuator, hornActuator, turnSignalActuator
      ensures Valid()
      ensures Snapshot() == NormalLogic(config, old(Snapshot()), input, lateralVelocity)
    {
      var trackedVehicles := vehicleDetection.tracked;
      overtakingDetection.ProcessUpdate(input.egoPosition, trackedVehicles);
      var overtakingStatus := overtakingDetection.GetOvertakingStatus();
      var targetMode := DetermineBeamMode(trackedVehicles, overtakingStatus, config);
      ghost var s1 := Snapshot();
      HandleOvertakingActions(overtakingStatus, trackedVehicles);
      assert Snapshot() == WithOvertakingActions(config, s1, overtakingStatus, trackedVehicles);
      if !beamActuator.IsBlinking() {
        beamActuator.SwitchBeamMode(targetMode);
      }
      HandleTurnSignals(lateralVelocity, input.steeringAngle, input.yawRate);
    }

    /** The exception handler of `process_update`. */
    method EnterSafePosture(failure: string)
      modifies this, beamActuator, hornActuator, turnSignalActuator, errorHandler
      ensures Snapshot() == SafePosture(old(Snapshot()), failure)
    {
      errorHandler.LogError("System Failure: " + failure, 500);
      state := Error;
      beamActuator.SwitchBeamMode(LowBeam);
      beamActuator.StopBlinking();
      hornActuator.StopHorn();
      turnSignalActuator.ActivateSignal(Off);
    }

    /** `_handle_turn_signals`. */
    method HandleTurnSignals(lateralVelocity: real, steeringAngle: real, yawRate: real)
      modifies turnSignalActuator
      ensures Snapshot() == old(Snapshot()).(signal := SignalActivated(old(Snapshot()).signal,
        TurnSignalDecision(old(Snapshot()).signal.state, lateralVelocity, steeringAngle, yawRate)))
    {
      var currentSignal := turnSignalActuator.GetState();
      var newSignal := currentSignal;
      var isTurningLeft := lateralVelocity > 0.5 || steeringAngle > 15.0 || yawRate > 5.0;
      var isTurningRight := lateralVelocity < -0.5 || steeringAngle < -15.0 || yawRate < -5.0;
      if isTurningLeft {
        newSignal := Left;
      } else if isTurningRight {
        newSignal := Right;
      }
      if currentSignal == Left || currentSignal == Right {
        if !isTurningLeft && !isTurningRight {
          var isStraight := Abs(lateralVelocity) < 0.2 && Abs(steeringAngle) < 5.0 && Abs(yawRate) < 2.0;
          if isStraight {
            newSignal := Off;
          }
        }
      }
      turnSignalActuator.ActivateSignal(newSignal);
    }

    /** `_handle_overtaking_actions`. */
    method HandleOvertakingActions(status: OvertakingStatus, vehicles: seq<DetectedVehicle>)
      requires Valid()
      modifies this, beamActuator, hornActuator
      ensures Snapshot() == WithOvertakingActions(config, old(Snapshot()), status, vehicles)
    {
      if status == InProgress {
        var hasOncoming := HasOncoming(vehicles);
        if hasOncoming {
          if beamActuator.IsBlinking() {
            beamActuator.StopBlinking();
          }
          beamActuator.SwitchBeamMode(LowBeam);
        } else {
          var targetId := overtakingDetection.GetTargetVehicle();
          var targetVehicle := if targetId.Some? && targetId.value != 0 then vehicleDetection.GetVehicleById(targetId.value) else None;
          if targetVehicle.Some? && !beamActuator.IsBlinking() {
            beamActuator.StartBlinking();
            lastBlinkCycle := Trunc(beamActuator.blinkingTimer / (1.0 / config.blinkingFrequency)) - 1;
          }
          if beamActuator.IsBlinking() {
            SyncHorn();
          }
        }
      } else {
        if beamActuator.IsBlinking() {
          beamActuator.StopBlinking();
        }
      }
    }

    /** `_sync_horn`. */
    method SyncHorn()
      requires config.Valid()
      modifies this, hornActuator
      ensures Snapshot() == WithHornSync(config, old(Snapshot()))
    {
      var period := 1.0 / config.blinkingFrequency;
      var currentTimer := beamActuator.blinkingTimer;
      var currentCycle := Trunc(currentTimer / period);
      if currentCycle > lastBlinkCycle {
        var hornDuration := (config.hornPulseDurationMin + config.hornPulseDurationMax) / 2.0;
        hornActuator.TriggerHorn(hornDuration);
        lastBlinkCycle := currentCycle;
      }
    }

    /** `set_manual_override`. */
    method SetManualOverride(enabled: bool)
      modifies this, beamActuator, hornActuator, turnSignalActuator
      ensures Snapshot() == ManualOverrideSet(old(Snapshot()), enabled)
    {
      if enabled {
        state := ManualOverride;
        beamActuator.StopBlinking();
        hornActuator.StopHorn();
        turnSignalActuator.ActivateSignal(Off);
      } else {
        state := Normal;
      }
    }
  }
}
