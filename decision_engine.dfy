/** The beam decision: low beam as soon as any tracked vehicle calls for it,
    high beam otherwise. The overtaking status is accepted and ignored. */
module DecisionEngine {
  import opened Models
  import opened VehicleDetection

  /** An oncoming vehicle anywhere in range, or a vehicle ahead nearer than
      the safe distance (strictly), calls for low beam. */
  predicate DemandsLowBeam(v: DetectedVehicle, config: Configuration) {
    v.kind == Oncoming || (v.kind == Ahead && DistanceBelow(v.position, config.safeDistance))
  }

  /** `_should_switch_to_low_beam`: the loop with early return. */
  function ShouldSwitchToLowBeam(vehicles: seq<DetectedVehicle>, config: Configuration): (low: bool)
    ensures low <==> exists i :: 0 <= i < |vehicles| && DemandsLowBeam(vehicles[i], config)
    decreases |vehicles|
  {
    if vehicles == [] then false
    else
      var v := vehicles[0];
      if v.kind == Oncoming then true
      else if v.kind == Ahead && DistanceBelow(v.position, config.safeDistance) then true
      else
        var rest := ShouldSwitchToLowBeam(vehicles[1..], config);
        assert forall i :: 1 <= i < |vehicles| ==> vehicles[i] == vehicles[1..][i - 1];
        rest
  }

  /** `determine_beam_mode`. */
  function DetermineBeamMode(vehicles: seq<DetectedVehicle>, overtakingStatus: OvertakingStatus, config: Configuration): (mode: BeamMode)
    ensures mode == LowBeam <==>
      (exists v :: v in vehicles && v.kind == Oncoming) ||
      (exists v :: v in vehicles && v.kind == Ahead && DistanceBelow(v.position, config.safeDistance))
    ensures vehicles == [] ==> mode == HighBeam
  {
    if ShouldSwitchToLowBeam(vehicles, config) then LowBeam else HighBeam
  }

  /** The decision depends only on which vehicles are tracked: neither their
      order nor the overtaking status changes it. */
  lemma {:induction false} BeamModeIgnoresOrderAndStatus(
    a: seq<DetectedVehicle>, b: seq<DetectedVehicle>,
    s1: OvertakingStatus, s2: OvertakingStatus, config: Configuration)
    requires multiset(a) == multiset(b)
    ensures DetermineBeamMode(a, s1, config) == DetermineBeamMode(b, s2, config)
  {
    forall v | v in a ensures v in b {
      assert v in multiset(a);
    }
    forall v | v in b ensures v in a {
      assert v in multiset(b);
    }
  }
}
