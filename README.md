# Intelligent headlight control: a verified Dafny model of the per-tick core

This project models the decision core of a driver-assistance controller. Once per tick the controller:

- takes the vehicles the sensors report, the ego vehicle's position, velocity, steering angle, yaw rate and engine speed, and the elapsed time `dt`;
- from them, drives three actuators: the headlight beam (High or Low, possibly blinking), the horn (a timed pulse) and the turn signal (Off, Left, Right or Hazard);
- writes advisories and faults to an append-only error log.

The model follows the program's modules, one Dafny module per source file:

| Dafny module | source file | form |
|---|---|---|
| `Models` | `src/models.py` | value datatypes, validity predicates, configuration defaults |
| `VehicleDetection` | `src/vehicle_detection.py` | class `VehicleTracker` over an ordered map (a `seq` with unique ids); pure hazard scan |
| `OvertakingDetection` | `src/overtaking_detection.py` | class `OvertakingDetector` (status, target id); pure step function |
| `DecisionEngine` | `src/decision_engine.py` | pure beam rule |
| `Actuators` | `src/actuators.py` | classes `BeamActuator`, `HornActuator`, `TurnSignalActuator` |
| `ErrorHandling` | `src/error_handling.py` | class `ErrorHandler` |
| `Controller` | `src/controller.py` | class `HeadlightController`; pure `Tick` |

Every class that changes state has two parts:

- a function `State()` (for the controller, `Snapshot()`) giving its fields as a value;
- methods whose `ensures` say that the new value is a named pure transition of the old one, such as `BlinkStarted`, `Ingest`, `OvertakingStep` or `Tick`.

The loops of the source are methods with invariants:

- the ingest loop and the prune loop of `process_sensor_data`;
- the first-match hazard scan;
- the minimum search for the closest vehicle ahead;
- the search by id.

Each of these methods is proved equal to a recursive specification function. The properties the source promises are lemmas about those functions.

A tick, `Controller.Tick`, is the composition of the same transitions, in the source's order:

1. lateral velocity;
2. the manual-override path;
3. Low beam in ERROR;
4. stall protection;
5. tracking;
6. hazard pre-emption;
7. overtaking, beam decision, blink/horn coordination and turn-signal inference;
8. fault containment;
9. advancing the actuators by `dt`.

`HeadlightController.ProcessUpdate` is proved to move the snapshot of all modules exactly as `Tick` does.

How numbers and faults are represented:

- Floating-point numbers are modelled as `real`.
- Square roots are avoided. A distance is compared through its square: `x*x + y*y <= r*r` for `r >= 0`. The lemma `SquaredComparisonsAgree` shows that this agrees with comparing the true distance.
- Python's `int()` (truncation) is `Models.Trunc`, and float `%` (floored) is `Models.FloorMod`.
- An exception raised inside the tracker is the tick parameter `failure: Option<string>`, which holds the exception text.

## Model

| member | source | states |
|---|---|---|
| `Models.VehicleValidity` | src/models.py:74-83 | a detection is valid iff its id and its reported distance are non-negative; a negative id or a negative distance alone makes it invalid |
| `Models.Position.IsValid` | src/models.py:55-56 | every real-valued position is valid |
| `Models.Velocity.IsValid` | src/models.py:63-64 | every real-valued velocity is valid |
| `Models.DefaultConfigurationValues` | src/models.py:86-93 | the defaults are range 200, safe distance 50, 2 Hz blinking, horn pulse 0.2 to 0.3 s |
| `Models.Configuration.BlinkPeriod` | src/actuators.py:35 | the blink period is positive and is the reciprocal of the frequency |
| `Models.Trunc` | src/controller.py:240 | Python `int()` truncates toward zero: the floor for non-negative values, the ceiling for negative ones |
| `Models.FloorMod` | src/actuators.py:36 | the floored remainder lies in `[0, c)` |
| `Models.FloorModPeriodic` | src/actuators.py:36 | the remainder is periodic in `c` |
| `Models.FloorModFirstPeriod` | src/actuators.py:36 | within the first period the remainder is the value itself |
| `VehicleDetection.SquaredComparisonsAgree` | src/vehicle_detection.py:45-50 | the squared range test (`<=`, inclusive) and the squared strict test agree with comparing the square-root distance |
| `VehicleDetection.SquaredOrderAgrees` | src/overtaking_detection.py:56 | comparing squared distances orders vehicles as comparing distances does |
| `VehicleDetection.IndexOfId` | src/vehicle_detection.py:28 | the slot holding a key is the first with that id, and it is absent exactly when the key is not in the map |
| `VehicleDetection.Lookup` | src/vehicle_detection.py:52-53 | `dict.get`: finds a stored vehicle with that id iff the id is a key |
| `VehicleDetection.UpsertShape` | src/vehicle_detection.py:28 | an upsert keeps ids unique, overwrites an existing key in place, and appends a new key at the end |
| `VehicleDetection.IdsOfUpsertFrame` | src/vehicle_detection.py:18-29 | after the first loop, the keys are the old keys followed by this frame's new admissible ids, in order |
| `VehicleDetection.PruneShape` | src/vehicle_detection.py:39-41 | deleting stale keys keeps the survivors in their order and keeps ids unique |
| `VehicleDetection.IngestOrder` | src/vehicle_detection.py:10-43 | map order after a frame: surviving old keys in their old order, then the new keys in first-seen order |
| `VehicleDetection.IngestTracksExactlyTheFrame` | src/vehicle_detection.py:16-41 | after a frame the keys are exactly the ids of its valid, in-range entries; invalid or out-of-range entries never enter |
| `VehicleDetection.IngestKeepsLatestEntry` | src/vehicle_detection.py:18-29 | every stored vehicle is the last admissible entry of the frame with its id |
| `VehicleDetection.VehicleTracker.ProcessSensorData` | src/vehicle_detection.py:10-43 | the two loops compute `Ingest` of the old map, keep ids unique and return the map's values in order |
| `VehicleDetection.VehicleTracker.constructor` | src/vehicle_detection.py:6-8 | a new tracker keeps the given configuration and starts with an empty map, so ids are unique |
| `VehicleDetection.VehicleTracker.GetVehicleById` | src/vehicle_detection.py:52-53 | returns a stored vehicle with the id iff the id is tracked |
| `VehicleDetection.HazardRule` | src/vehicle_detection.py:65-97 | no vehicle with `abs(x) >= 1.5` is a hazard; an in-lane oncoming vehicle is a hazard iff approaching; an in-lane vehicle ahead is a hazard iff (nearer than 30 and closing by more than 5) or nearer than 10 |
| `VehicleDetection.ScanFindsFirstHazard` | src/vehicle_detection.py:62-99 | the scan reports the first hazardous vehicle in map order, with its id and message, and reports `(NONE, None, "")` iff none is hazardous |
| `VehicleDetection.ScanReportsTrackedId` | src/vehicle_detection.py:62-99 | a reported id is a tracked id |
| `VehicleDetection.VehicleTracker.DetectHazards` | src/vehicle_detection.py:55-99 | the early-return loop computes the first-match scan |
| `OvertakingDetection.ClosestAheadIsNearest` | src/overtaking_detection.py:46-59 | the result is an Ahead vehicle with `y > 0`, no such vehicle is nearer, ties go to the earliest, and None iff there is none |
| `OvertakingDetection.FindByIdIsLookup` | src/overtaking_detection.py:61-66 | the search by id finds what a map lookup finds |
| `OvertakingDetection.StepKeepsConsistent` | src/overtaking_detection.py:14-44 | a step keeps "target held iff InProgress" |
| `OvertakingDetection.StepFromNone` | src/overtaking_detection.py:68-75 | from None: InProgress iff a vehicle is ahead and `abs(x) > 1.5`, targeting the closest; otherwise unchanged, never Complete or Aborted |
| `OvertakingDetection.StepInProgress` | src/overtaking_detection.py:23-35 | InProgress: a lost target aborts; passed and back gives Complete; back without passing gives Aborted; otherwise unchanged |
| `OvertakingDetection.StepAfterEnd` | src/overtaking_detection.py:38-44 | Complete or Aborted returns to None iff `abs(x) < 0.5` |
| `OvertakingDetection.OvertakingDetector.ProcessUpdate` | src/overtaking_detection.py:14-44 | the method performs one step of the machine and keeps the target invariant |
| `OvertakingDetection.OvertakingDetector.constructor` | src/overtaking_detection.py:5-12 | a new detector keeps the configuration, starts with status None and no target, and satisfies the target invariant |
| `OvertakingDetection.OvertakingDetector.GetOvertakingStatus` | src/overtaking_detection.py:95-96 | reports the current phase; under the class invariant it is InProgress iff a target id is held |
| `OvertakingDetection.OvertakingDetector.FindClosestVehicleAhead` | src/overtaking_detection.py:46-59 | the min-search loop computes `ClosestAhead` |
| `OvertakingDetection.OvertakingDetector.FindVehicleById` | src/overtaking_detection.py:61-66 | the search loop computes `FindById` |
| `OvertakingDetection.OvertakingDetector.CheckStartOvertaking` | src/overtaking_detection.py:68-75 | starts the overtaking exactly under the start rule |
| `OvertakingDetection.OvertakingDetector.CheckOvertakingProgress` | src/overtaking_detection.py:77-93 | applies the completion and abort rule |
| `OvertakingDetection.OvertakingDetector.GetTargetVehicle` | src/overtaking_detection.py:98-99 | a target is reported iff the status is InProgress |
| `DecisionEngine.ShouldSwitchToLowBeam` | src/decision_engine.py:25-42 | true iff some vehicle is oncoming, or is ahead and strictly nearer than the safe distance |
| `DecisionEngine.DetermineBeamMode` | src/decision_engine.py:8-23 | Low iff an oncoming vehicle, or a vehicle ahead nearer than the safe distance, is present; High for an empty list |
| `DecisionEngine.BeamModeIgnoresOrderAndStatus` | src/decision_engine.py:8-42 | the decision is the same for every overtaking status and every order of the same vehicles |
| `Actuators.BeamOperations` | src/actuators.py:11-25 | switching changes only the mode; starting to blink is idempotent and keeps a running timer; stopping clears flag and timer and keeps the mode; update moves the timer only while blinking |
| `Actuators.BeamOperationsKeepIdleAtZero` | src/actuators.py:6-25 | every beam operation keeps the timer at zero while not blinking |
| `Actuators.PhysicalBeamWhenSteady` | src/actuators.py:41-42 | when not blinking, the lamp shows the stored mode |
| `Actuators.PhysicalBeamPeriodic` | src/actuators.py:31-40 | the blink pattern repeats every `1/frequency` seconds |
| `Actuators.PhysicalBeamFirstPeriod` | src/actuators.py:31-40 | within a period the lamp is High exactly in the first half |
| `Actuators.BlinkPatternAtTwoHertz` | src/actuators.py:27-42 | at 2 Hz the lamp is High at 0.2 s, Low at 0.3 s and High at 0.6 s |
| `Actuators.HornPulse` | src/actuators.py:54-68 | a triggered pulse of length `d` stays on while the accumulated time is below `d`, then turns off with its timer reset |
| `Actuators.HornPulseExample` | src/actuators.py:54-68 | trigger(0.3): still on after 0.2 s, off after a further 0.15 s |
| `Actuators.HornStaysOff` | src/actuators.py:59-68 | a silent horn stays silent; stopping silences it and resets the timer |
| `Actuators.SignalOperations` | src/actuators.py:80-99 | re-activating the same state is a no-op; a new state starts lit with timer 0; update advances only when not Off, lit iff `timer mod 1 < 0.5`; an Off signal is never lit |
| `Actuators.BeamActuator.constructor` | src/actuators.py:5-9 | a new beam is Low, not blinking, timer 0 |
| `Actuators.BeamActuator.SwitchBeamMode` | src/actuators.py:11-12 | performs `BeamSwitched` |
| `Actuators.BeamActuator.StartBlinking` | src/actuators.py:14-17 | performs `BlinkStarted` |
| `Actuators.BeamActuator.StopBlinking` | src/actuators.py:19-21 | performs `BlinkStopped` |
| `Actuators.BeamActuator.Update` | src/actuators.py:23-25 | performs `BeamAdvanced` |
| `Actuators.BeamActuator.GetCurrentPhysicalBeam` | src/actuators.py:27-42 | the stored mode when steady; while blinking, High iff the timer's phase within the period `1/frequency` lies in its first half |
| `Actuators.BeamActuator.IsBlinking` | src/actuators.py:44-45 | true iff a blink is running; a steady beam does not advance its timer |
| `Actuators.HornActuator.constructor` | src/actuators.py:48-52 | a new horn is off, timer 0, duration 0 |
| `Actuators.HornActuator.TriggerHorn` | src/actuators.py:54-57 | performs `HornTriggered` |
| `Actuators.HornActuator.StopHorn` | src/actuators.py:59-61 | performs `HornStopped` |
| `Actuators.HornActuator.Update` | src/actuators.py:63-68 | performs `HornAdvanced` |
| `Actuators.HornActuator.IsHornActive` | src/actuators.py:70-71 | true iff a pulse is sounding; a silent horn does not advance |
| `Actuators.TurnSignalActuator.constructor` | src/actuators.py:74-78 | a new signal is Off, timer 0, not lit |
| `Actuators.TurnSignalActuator.ActivateSignal` | src/actuators.py:80-84 | performs `SignalActivated` |
| `Actuators.TurnSignalActuator.Update` | src/actuators.py:86-92 | performs `SignalAdvanced` |
| `Actuators.TurnSignalActuator.GetState` | src/actuators.py:94-95 | the signal last activated; re-activating it changes nothing |
| `Actuators.TurnSignalActuator.IsLit` | src/actuators.py:97-99 | lit iff in the lit phase and the signal is not Off; an Off signal is never lit |
| `ErrorHandling.LogOperations` | src/error_handling.py:10-21 | logging appends exactly one entry `(message, code)` at the end, keeps the earlier ones and sets the flag; clearing resets only the flag |
| `ErrorHandling.ErrorHandler.constructor` | src/error_handling.py:6-8 | a new handler has an empty log and no active error |
| `ErrorHandling.ErrorHandler.LogError` | src/error_handling.py:10-17 | performs `Logged` |
| `ErrorHandling.ErrorHandler.ClearError` | src/error_handling.py:20-21 | performs `Cleared` |
| `ErrorHandling.ErrorHandler.HasActiveError` | src/error_handling.py:23-24 | reports the flag that logging raises; when it is down, clearing changes nothing |
| `ErrorHandling.ErrorHandler.GetLogs` | src/error_handling.py:26-27 | every entry logged so far, oldest first; clearing does not remove entries |
| `Controller.TurnSignalRules` | src/controller.py:162-217 | Left wins over Right; with neither, Left or Right is cancelled to Off exactly when straight, and any other signal is kept; Hazard is never cancelled to Off |
| `Controller.LateralVelocity` | src/controller.py:52-55 | zero on the first call or when `dt <= 0`; otherwise the lateral displacement divided by `dt` (its product with `dt` is the displacement) |
| `Controller.Tick` | src/controller.py:39-160 | one `process_update` call always records the ego position as the previous one |
| `Controller.TickOnlyAppendsToLog` | src/controller.py:39-160 | a tick keeps every earlier log entry and appends at most two |
| `Controller.HornFiresOncePerCycle` | src/controller.py:251-264 | the horn fires only when the blink-period index exceeds the last one recorded, records it, never lowers it, and a repeated sync does nothing |
| `Controller.OvertakingActionRules` | src/controller.py:219-249 | outside InProgress blinking stops; InProgress with an oncoming vehicle stops blinking and forces Low; otherwise blinking starts iff the target id is truthy (non-zero) and tracked, and a fresh blink fires the horn at once for `(min+max)/2` with cycle index 0; outside InProgress or with an oncoming vehicle the horn and the recorded cycle are untouched; an already running blink re-syncs the horn exactly as `WithHornSync` |
| `Controller.ManualTickRules` | src/controller.py:53-65 | in manual override, actuators and state are untouched; the tracker and the overtaking machine step; a fault is logged with code 100 and moves nothing else |
| `Controller.FaultTickRules` | src/controller.py:149-160 | a fault outside manual override ends in ERROR with Low, no blink, horn off, signal Off, code 500 last in the log |
| `Controller.StallTickRules` | src/controller.py:77-84 | a stall without hazard sets Hazard lights and Low, logs code 50, and skips the overtaking, blink and turn logic |
| `Controller.HazardTickRules` | src/controller.py:96-109 | a blocking hazard logs code 10, sets High and blasts the horn for 0.5 s, leaving the overtaking machine and the blink flag; with a stall on the same tick the beam still ends High |
| `Controller.NormalTickRules` | src/controller.py:126-147 | without hazard or stall, the machine steps; blinking only while InProgress; an oncoming vehicle during InProgress forces Low; when not blinking the beam shows the decided mode; the signal follows inference |
| `Controller.TargetIdZeroNeverBlinks` | src/controller.py:234-240 | an overtaking whose target id is 0 never starts the blink |
| `Controller.ErrorTickRunsNormalPath` | src/controller.py:67-71 | a tick in ERROR is the tick of a NORMAL controller whose beam was first forced Low; the state stays ERROR |
| `Controller.NormalLogicIgnoresSystemState` | src/controller.py:130-147 | the normal logic neither reads nor writes the system state |
| `Controller.TickSystemState` | src/controller.py:53-160 | the previous position is always overwritten; ERROR and manual override persist across ticks; NORMAL turns into ERROR iff a fault occurs |
| `Controller.InvariantAfterNormalLogic` | src/controller.py:130-147 | the normal logic keeps the controller invariant |
| `Controller.InvariantAfterTryBlock` | src/controller.py:67-155 | the guarded block and its handler keep the controller invariant |
| `Controller.TickKeepsInvariant` | src/controller.py:39-160 | every tick keeps: ids unique, target held iff InProgress, beam timer zero while not blinking, blinking only while InProgress and outside manual override |
| `Controller.InitialStateInvariant` | src/controller.py:15-37 | a freshly built controller satisfies the invariant, the base case for `TickKeepsInvariant` |
| `Controller.ManualOverrideRules` | src/controller.py:266-273 | enabling stops blink and horn and turns the signal Off; disabling gives NORMAL even from ERROR |
| `Controller.ScenarioIngestFacts` | tests/test_controller.py:24-32 | reporting the test's vehicle into an empty map, and again into the map holding it, leaves exactly that vehicle tracked |
| `Controller.ScenarioVehicleFacts` | tests/test_controller.py:24-32 | a vehicle 50 m straight ahead is tracked, harmless, the closest ahead, and leaves High beam |
| `Controller.ScenarioFirstTick` | tests/test_controller.py:39-45 | the first tick tracks the vehicle and sets High without blinking |
| `Controller.ScenarioSecondTick` | tests/test_controller.py:47-61 | moving 2 m left starts the overtaking, the blink, the horn and the Left signal |
| `Controller.OvertakingScenario` | tests/test_controller.py:39-61 | both ticks of the overtaking test, from a fresh controller |
| `Controller.HeadlightController.constructor` | src/controller.py:15-37 | keeps the given modules, creates an error handler when none is given, starts NORMAL with last cycle -1 and no previous position |
| `Controller.HeadlightController.ProcessUpdate` | src/controller.py:39-160 | the method moves the snapshot of all modules exactly as `Tick` |
| `Controller.HeadlightController.GuardedUpdate` | src/controller.py:67-155 | the guarded block with its handler is `TryBlock` |
| `Controller.HeadlightController.CheckErrorAndStall` | src/controller.py:69-84 | Low in ERROR, then stall protection |
| `Controller.HeadlightController.TrackAndAct` | src/controller.py:91-147 | tracking, hazard pre-emption, and the normal logic when no stall |
| `Controller.HeadlightController.RespondToHazard` | src/controller.py:96-147 | a blocking hazard pre-empts the normal logic; without one, the normal logic runs unless the engine stalled |
| `Controller.HeadlightController.SoundHazardAlarm` | src/controller.py:96-107 | logs the hazard with code 10, switches to High and sounds the horn for 0.5 s, touching nothing else |
| `Controller.HeadlightController.RunNormalLogic` | src/controller.py:133-147 | the overtaking update, beam decision, overtaking actions, beam application and turn signals |
| `Controller.HeadlightController.EnterSafePosture` | src/controller.py:149-155 | the exception handler's actions |
| `Controller.HeadlightController.HandleTurnSignals` | src/controller.py:162-217 | activates the signal that inference chooses |
| `Controller.HeadlightController.HandleOvertakingActions` | src/controller.py:219-249 | performs `WithOvertakingActions` |
| `Controller.HeadlightController.SyncHorn` | src/controller.py:251-264 | performs `WithHornSync` |
| `Controller.HeadlightController.SetManualOverride` | src/controller.py:266-273 | performs `ManualOverrideSet` |

## Behaviour of the code that the model keeps

- Order of the tracked vehicles: the tracker is a dict, so `get` order is insertion order, `src/vehicle_detection.py:28,43`. An updated key keeps its slot and a new key is appended (`IngestOrder`); the first-match hazard scan uses that order.
- Stall and hazard on one tick: the hazard branch, `src/controller.py:108`, runs after the stall branch, `src/controller.py:84`, so the beam ends High (`HazardTickRules`).
- Leaving ERROR: a tick never leaves ERROR by itself (`TickSystemState`); `set_manual_override(False)` sets NORMAL from any state, ERROR included, `src/controller.py:272-273` (`ManualOverrideRules`).

## Left out

- I/O and time: the timestamp of a log entry (`datetime.now()`, `src/error_handling.py:12`) is left out, and an entry is the pair (message, code).
- Message texts: log and hazard messages are kept as fixed strings or tags. The closing speed in the "rapidly approaching" message (`:.1f` formatting) is not rendered.
- Square roots: the tracker's write `vehicle.distance = sqrt(x^2 + y^2)` (`src/vehicle_detection.py:27`) is not modelled. Stored vehicles keep their reported `distance` field. Every later distance comparison reads the position through its square instead:
  - the range check;
  - the safe-distance check of the beam decision;
  - the 30 m and 10 m hazard thresholds;
  - the closest-vehicle search.

  These agree with comparing the recomputed distance (`SquaredComparisonsAgree`, `SquaredOrderAgrees`). Callers that pass vehicles to the overtaking machine or the beam decision without going through the tracker, with a `distance` field that disagrees with the position, are judged by position.
- Floating point: IEEE rounding, NaN and infinity are not modelled. Numbers are exact reals.
- Configuration: every component is assumed to share the controller's configuration snapshot, and a positive blinking frequency is required (`Configuration.Valid`). The source divides by the frequency and would raise on zero.
- Faults: only an exception raised by the tracker's `process_sensor_data` is modelled, as the `failure` argument. That is the only collaborator failure the code's own tests inject. The other collaborators cannot fail in the model, and Python's exception machinery is not modelled.
- `DecisionEngine`: the object holds nothing but the configuration, so it is modelled as functions rather than as a class instance. The unused argument `target_mode_from_logic` of `_handle_overtaking_actions` is dropped.
- Unused declarations: `EngineState`, `HazardType.STALLED_VEHICLE`, `SteeringMeasurement`, `YawRate`, `transition_time_limit` and `update_frequency` are not modelled.
- Configuration persistence and sensor plumbing: `src/config.py` is not part of this model, and neither is the simulation driver `verify_system.py`.
- Type checks: the `isinstance` checks of `is_valid` always succeed on typed records. `Position.IsValid` and `Velocity.IsValid` are therefore constant true.
