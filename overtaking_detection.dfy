/** The overtaking state machine: None -> InProgress -> Complete | Aborted
    -> None, following one target vehicle by id. */
module OvertakingDetection {
  import opened Models
  import opened VehicleDetection

  /** The lateral position of the lane centre, fixed when the module is made. */
  const InitialLanePosition: real := 0.0
  /** Lateral offset beyond which the ego vehicle counts as changing lane. */
  const LaneChangeThreshold: real := 1.5
  /** Lateral offset below which the ego vehicle counts as back in its lane. */
  const ReturnThreshold: real := 0.5

  datatype Overtaking = Overtaking(status: OvertakingStatus, target: Option<int>)

  const InitialOvertaking := Overtaking(NoOvertaking, None)

  /** A target is held exactly while an overtaking is in progress. */
  predicate Consistent(o: Overtaking) {
    o.target.Some? <==> o.status == InProgress
  }

  predicate IsVehicleAhead(v: DetectedVehicle) {
    v.kind == Ahead && v.position.y > 0.0
  }

  predicate BackInLane(egoX: real) {
    Abs(egoX - InitialLanePosition) < ReturnThreshold
  }

  /** `_find_closest_vehicle_ahead`: the running minimum, replaced only on a
      strictly smaller distance. */
  function ClosestAhead(vehicles: seq<DetectedVehicle>): Option<DetectedVehicle>
    decreases |vehicles|
  {
    if vehicles == [] then None
    else
      var closest := ClosestAhead(vehicles[..|vehicles| - 1]);
      var v := vehicles[|vehicles| - 1];
      if IsVehicleAhead(v) &&
         (closest.None? || DistanceSquared(v.position) < DistanceSquared(closest.value.position))
      then Some(v)
      else closest
  }

  /** The result is a vehicle ahead at minimal distance, the earliest one
      among equally near ones; there is none only when no vehicle is ahead. */
  lemma {:induction false} ClosestAheadIsNearest(vehicles: seq<DetectedVehicle>)
    ensures ClosestAhead(vehicles).None? <==> forall i :: 0 <= i < |vehicles| ==> !IsVehicleAhead(vehicles[i])
    ensures ClosestAhead(vehicles).Some? ==>
      exists k :: 0 <= k < |vehicles| && vehicles[k] == ClosestAhead(vehicles).value &&
        IsVehicleAhead(vehicles[k]) &&
        (forall j :: 0 <= j < |vehicles| && IsVehicleAhead(vehicles[j]) ==>
          DistanceSquared(vehicles[k].position) <= DistanceSquared(vehicles[j].position)) &&
        (forall j :: 0 <= j < k && IsVehicleAhead(vehicles[j]) ==>
          DistanceSquared(vehicles[k].position) < DistanceSquared(vehicles[j].position))
    decreases |vehicles|
  {
    if vehicles != [] {
      var n := |vehicles| - 1;
      var pre := vehicles[..n];
      var v := vehicles[n];
      ClosestAheadIsNearest(pre);
      assert forall i :: 0 <= i < n ==> vehicles[i] == pre[i];
      var c := ClosestAhead(pre);
      if IsVehicleAhead(v) && (c.None? || DistanceSquared(v.position) < DistanceSquared(c.value.position)) {
        if c.Some? {
          var k :| 0 <= k < n && pre[k] == c.value && IsVehicleAhead(pre[k]) &&
            (forall j :: 0 <= j < n && IsVehicleAhead(pre[j]) ==>
              DistanceSquared(pre[k].position) <= DistanceSquared(pre[j].position)) &&
            (forall j :: 0 <= j < k && IsVehicleAhead(pre[j]) ==>
              DistanceSquared(pre[k].position) < DistanceSquared(pre[j].position));
        }
        assert vehicles[n] == ClosestAhead(vehicles).value;
      } else if c.Some? {
        var k :| 0 <= k < n && pre[k] == c.value && IsVehicleAhead(pre[k]) &&
          (forall j :: 0 <= j < n && IsVehicleAhead(pre[j]) ==>
            DistanceSquared(pre[k].position) <= DistanceSquared(pre[j].position)) &&
          (forall j :: 0 <= j < k && IsVehicleAhead(pre[j]) ==>
            DistanceSquared(pre[k].position) < DistanceSquared(pre[j].position));
        assert vehicles[k] == ClosestAhead(vehicles).value;
      }
    }
  }

  /** `_find_vehicle_by_id`: the first vehicle of the list with that id. */
  function FindById(vehicles: seq<DetectedVehicle>, id: Option<int>): Option<DetectedVehicle>
    decreases |vehicles|
  {
    if id.None? || vehicles == [] then None
    else if vehicles[0].id == id.value then Some(vehicles[0])
    else FindById(vehicles[1..], id)
  }

  /** Searching the list by id finds what a lookup of that key in the
      tracked map finds. */
  lemma {:induction false} FindByIdIsLookup(vehicles: seq<DetectedVehicle>, id: int)
    ensures FindById(vehicles, Some(id)) == Lookup(vehicles, id)
    decreases |vehicles|
  {
    if vehicles != [] && vehicles[0].id != id {
      var rest := vehicles[1..];
      FindByIdIsLookup(rest, id);
      match IndexOfId(rest, id)
      case None =>
        assert IndexOfId(vehicles, id) == None;
      case Some(k) =>
        assert IndexOfId(vehicles, id) == Some(k + 1);
        assert vehicles[k + 1] == rest[k];
    }
  }

  /** `_check_start_overtaking`. */
  function StartOvertaking(o: Overtaking, egoX: real, ahead: Option<DetectedVehicle>): Overtaking {
    if ahead.Some? && Abs(egoX - InitialLanePosition) > LaneChangeThreshold
    then Overtaking(InProgress, Some(ahead.value.id))
    else o
  }

  /** `_check_overtaking_progress`. */
  function OvertakingProgress(o: Overtaking, egoX: real, target: DetectedVehicle): Overtaking {
    var passed := target.position.y < 0.0;
    var returnedToLane := BackInLane(egoX);
    if passed && returnedToLane then Overtaking(Complete, None)
    else if !passed && returnedToLane then Overtaking(Aborted, None)
    else o
  }

  /** `process_update`: one step of the machine. */
  function OvertakingStep(o: Overtaking, egoX: real, vehicles: seq<DetectedVehicle>): Overtaking {
    match o.status
    case NoOvertaking => StartOvertaking(o, egoX, ClosestAhead(vehicles))
    case InProgress =>
      (match FindById(vehicles, o.target)
       case Some(target) => OvertakingProgress(o, egoX, target)
       case None => Overtaking(Aborted, None))
    case _ =>
      if BackInLane(egoX) then Overtaking(NoOvertaking, None) else o
  }

  /** A step keeps "target held iff in progress". */
  lemma StepKeepsConsistent(o: Overtaking, egoX: real, vehicles: seq<DetectedVehicle>)
    requires Consistent(o)
    ensures Consistent(OvertakingStep(o, egoX, vehicles))
  {
  }

  /** From None: start exactly when a vehicle is ahead and the ego vehicle is
      more than 1.5 m off the lane centre, targeting the closest one; never
      straight to Complete or Aborted. */
  lemma StepFromNone(o: Overtaking, egoX: real, vehicles: seq<DetectedVehicle>)
    requires o.status == NoOvertaking
    ensures var r := OvertakingStep(o, egoX, vehicles);
      (r.status == InProgress <==> ClosestAhead(vehicles).Some? && Abs(egoX) > 1.5) &&
      (r.status == InProgress ==> r.target == Some(ClosestAhead(vehicles).value.id)) &&
      (r.status != InProgress ==> r == o)
  {
  }

  /** In progress: a lost target aborts; otherwise passed-and-back completes,
      back-without-passing aborts, and anything else changes nothing. */
  lemma StepInProgress(o: Overtaking, egoX: real, vehicles: seq<DetectedVehicle>)
    requires o.status == InProgress
    ensures var r := OvertakingStep(o, egoX, vehicles);
      var t := FindById(vehicles, o.target);
      (t.None? ==> r == Overtaking(Aborted, None)) &&
      (t.Some? && t.value.position.y < 0.0 && Abs(egoX) < 0.5 ==> r == Overtaking(Complete, None)) &&
      (t.Some? && t.value.position.y >= 0.0 && Abs(egoX) < 0.5 ==> r == Overtaking(Aborted, None)) &&
      (t.Some? && Abs(egoX) >= 0.5 ==> r == o)
  {
  }

  /** After Complete or Aborted the machine returns to None exactly when the
      ego vehicle is back within 0.5 m of the lane centre. */
  lemma StepAfterEnd(o: Overtaking, egoX: real, vehicles: seq<DetectedVehicle>)
    requires o.status == Complete || o.status == Aborted
    ensures var r := OvertakingStep(o, egoX, vehicles);
      (Abs(egoX) < 0.5 ==> r == Overtaking(NoOvertaking, None)) &&
      (Abs(egoX) >= 0.5 ==> r == o)
  {
  }

  class OvertakingDetector {
    const config: Configuration
    var status: OvertakingStatus
    var targetVehicleId: Option<int>

    function State(): Overtaking
      reads this
    {
      Overtaking(status, targetVehicleId)
    }

    ghost predicate Valid()
      reads this
    {
      Consistent(State())
    }

    constructor (config: Configuration)
      ensures this.config == config && State() == InitialOvertaking && Valid()
    {
      this.config := config;
      status := NoOvertaking;
      targetVehicleId := None;
    }

    method ProcessUpdate(egoPosition: Position, trackedVehicles: seq<DetectedVehicle>)
      requires Valid()
      modifies this
      ensures Valid()
      ensures State() == OvertakingStep(old(State()), egoPosition.x, trackedVehicles)
    {
      var vehicleAhead := FindClosestVehicleAhead(trackedVehicles);
      if status == NoOvertaking {
        CheckStartOvertaking(egoPosition, vehicleAhead);
      } else if status == InProgress {
        var targetVehicle := FindVehicleById(trackedVehicles, targetVehicleId);
        if targetVehicle.Some? {
          CheckOvertakingProgress(egoPosition, targetVehicle.value);
        } else {
          status := Aborted;
          targetVehicleId := None;
        }
      } else {
        if Abs(egoPosition.x - InitialLanePosition) < ReturnThreshold {
          status := NoOvertaking;
          targetVehicleId := None;
        }
      }
    }

    /** The min-search loop; ties keep the earlier vehicle. */
    method FindClosestVehicleAhead(vehicles: seq<DetectedVehicle>) returns (closest: Option<DetectedVehicle>)
      ensures closest == ClosestAhead(vehicles)
    {
      closest := None;
      var minDistance := 0.0;
      for i := 0 to |vehicles|
        invariant closest == ClosestAhead(vehicles[..i])
        invariant closest.Some? ==> minDistance == DistanceSquared(closest.value.position)
      {
        assert vehicles[..i + 1][..i] == vehicles[..i];
        var v := vehicles[i];
        if v.kind == Ahead {
          if v.position.y > 0.0 && (closest.None? || DistanceSquared(v.position) < minDistance) {
            minDistance := DistanceSquared(v.position);
            closest := Some(v);
          }
        }
      }
      assert vehicles[..|vehicles|] == vehicles;
    }

    method FindVehicleById(vehicles: seq<DetectedVehicle>, id: Option<int>) returns (found: Option<DetectedVehicle>)
      ensures found == FindById(vehicles, id)
    {
      if id.None? {
        return None;
      }
      for i := 0 to |vehicles|
        invariant FindById(vehicles[i..], id) == FindById(vehicles, id)
      {
        assert vehicles[i..][1..] == vehicles[i + 1..];
        if vehicles[i].id == id.value {
          return Some(vehicles[i]);
        }
      }
      assert vehicles[|vehicles|..] == [];
      return None;
    }

    method CheckStartOvertaking(egoPosition: Position, vehicleAhead: Option<DetectedVehicle>)
      modifies this
      ensures State() == StartOvertaking(old(State()), egoPosition.x, vehicleAhead)
    {
      if vehicleAhead.Some? {
        if Abs(egoPosition.x - InitialLanePosition) > LaneChangeThreshold {
          status := InProgress;
          targetVehicleId := Some(vehicleAhead.value.id);
        }
      }
    }

    method CheckOvertakingProgress(egoPosition: Position, targetVehicle: DetectedVehicle)
      modifies this
      ensures State() == OvertakingProgress(old(State()), egoPosition.x, targetVehicle)
    {
      var passed := targetVehicle.position.y < 0.0;
      var returnedToLane := Abs(egoPosition.x - InitialLanePosition) < ReturnThreshold;
      if passed && returnedToLane {
        status := Complete;
        targetVehicleId := None;
      } else if !passed && returnedToLane {
        status := Aborted;
        targetVehicleId := None;
      }
    }

    /** The current phase; under the class invariant a target is held
        exactly while it is InProgress. */
    function GetOvertakingStatus(): (r: OvertakingStatus)
      reads this
      ensures r == State().status
      ensures Valid() ==> (r == InProgress <==> targetVehicleId.Some?)
    {
      status
    }

    /** The target is reported exactly while an overtaking is in progress. */
    function GetTargetVehicle(): (target: Option<int>)
      reads this
      requires Valid()
      ensures target.Some? <==> GetOvertakingStatus() == InProgress
    {
      targetVehicleId
    }
  }
}
