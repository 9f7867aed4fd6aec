/** The value types shared by every component of the headlight controller:
    the enumerations, the detection records and the configuration snapshot. */
module Models {

  datatype Option<T> = None | Some(value: T)

  datatype BeamMode = HighBeam | LowBeam

  datatype OvertakingStatus = NoOvertaking | InProgress | Complete | Aborted

  datatype VehicleType = Oncoming | Ahead

  datatype SystemState = Normal | Error | ManualOverride

  datatype TurnSignalState = Off | Left | Right | Hazard

  /** Only the two hazard kinds the controller acts on; a stalled ego vehicle
      is handled by its own rule, not reported as a hazard. */
  datatype HazardType = NoHazard | BlockingVehicle

  /** Lateral (x) and longitudinal (y) offset in metres. */
  datatype Position = Position(x: real, y: real)
  {
    /** The source only checks that both components are numbers, which every real is. */
    function IsValid(): (ok: bool)
      ensures ok
    {
      true
    }
  }

  /** Lateral (vx) and longitudinal (vy) speed in metres per second. */
  datatype Velocity = Velocity(vx: real, vy: real)
  {
    function IsValid(): (ok: bool)
      ensures ok
    {
      true
    }
  }

  /** A detection as the sensor reports it. `distance` is the reported
      placeholder; the tracker judges range from the position instead. */
  datatype DetectedVehicle = DetectedVehicle(
    id: int,
    kind: VehicleType,
    position: Position,
    velocity: Velocity,
    distance: real)
  {
    predicate IsValid() {
      if id < 0 then false
      else if !position.IsValid() then false
      else if !velocity.IsValid() then false
      else if distance < 0.0 then false
      else true
    }
  }

  /** A detection is accepted exactly when its id and its reported distance
      are both non-negative; the position and velocity never reject it. */
  lemma VehicleValidity(v: DetectedVehicle)
    ensures v.IsValid() <==> v.id >= 0 && v.distance >= 0.0
    ensures v.id < 0 ==> !v.IsValid()
    ensures v.distance < 0.0 ==> !v.IsValid()
  {
  }

  /** The immutable configuration snapshot handed to every component. */
  datatype Configuration = Configuration(
    detectionRange: real,
    safeDistance: real,
    blinkingFrequency: real,
    hornPulseDurationMin: real,
    hornPulseDurationMax: real)
  {
    /** The blink period 1 / blinkingFrequency must exist. */
    predicate Valid() {
      blinkingFrequency > 0.0
    }

    function BlinkPeriod(): (p: real)
      requires Valid()
      ensures p > 0.0 && p * blinkingFrequency == 1.0
    {
      1.0 / blinkingFrequency
    }
  }

  const DefaultConfiguration: Configuration :=
    Configuration(200.0, 50.0, 2.0, 0.2, 0.3)

  lemma DefaultConfigurationValues()
    ensures DefaultConfiguration.Valid()
    ensures DefaultConfiguration.detectionRange == 200.0
    ensures DefaultConfiguration.safeDistance == 50.0
    ensures DefaultConfiguration.blinkingFrequency == 2.0
    ensures DefaultConfiguration.BlinkPeriod() == 0.5
    ensures DefaultConfiguration.hornPulseDurationMin == 0.2
    ensures DefaultConfiguration.hornPulseDurationMax == 0.3
  {
  }

  function Abs(r: real): (a: real)
    ensures a >= 0.0 && (a == r || a == -r)
  {
    if r < 0.0 then -r else r
  }

  /** Python's int() on a float: truncation toward zero. */
  function Trunc(r: real): (n: int)
    ensures r >= 0.0 ==> n as real <= r < n as real + 1.0
    ensures r < 0.0 ==> n as real - 1.0 < r <= n as real
  {
    if r >= 0.0 then r.Floor else -((-r).Floor)
  }

  /** Python's `t % c` on floats for c > 0: the floored remainder. */
  function FloorMod(t: real, c: real): (phase: real)
    requires c > 0.0
    ensures 0.0 <= phase < c
  {
    FloorDivBounds(t, c);
    t - c * (t / c).Floor as real
  }

  lemma MulPositive(a: real, b: real)
    requires a > 0.0 && b > 0.0
    ensures a * b > 0.0
  {
  }

  lemma ScaledBelow(t: real, c: real, q: real, k: real)
    requires c > 0.0 && c * q == t && q < k + 1.0
    ensures t - c * k < c
  {
    MulPositive(c, k + 1.0 - q);
  }

  lemma ScaledAbove(t: real, c: real, q: real, k: real)
    requires c > 0.0 && c * q == t && k <= q
    ensures 0.0 <= t - c * k
  {
    if k < q {
      MulPositive(c, q - k);
    }
  }

  lemma FloorDivBounds(t: real, c: real)
    requires c > 0.0
    ensures 0.0 <= t - c * (t / c).Floor as real < c
  {
    var q := t / c;
    var k := q.Floor as real;
    assert c * q == t;
    ScaledBelow(t, c, q, k);
    ScaledAbove(t, c, q, k);
  }

  /** The floored remainder repeats with period c. */
  lemma {:induction false} FloorModPeriodic(t: real, c: real)
    requires c > 0.0
    ensures FloorMod(t + c, c) == FloorMod(t, c)
  {
    var x := (t + c) / c;
    var y := t / c + 1.0;
    assert x * c == t + c;
    assert y * c == t + c;
    assert (x - y) * c == 0.0;
    assert x == y;
    assert x.Floor == (t / c).Floor + 1;
  }

  /** On the first period the remainder is the value itself. */
  lemma FloorModFirstPeriod(t: real, c: real)
    requires c > 0.0 && 0.0 <= t < c
    ensures FloorMod(t, c) == t
  {
    var q := t / c;
    assert c * q == t;
    if q >= 1.0 {
      ScaledAbove(t, c, q, 1.0);
    }
    if q < 0.0 {
      MulPositive(c, -q);
    }
    assert q.Floor == 0;
  }
}
