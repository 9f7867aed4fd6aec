/** The vehicle tracker and the hazard scanner.

    The tracked dictionary of the source is an insertion-ordered map from id
    to vehicle; here it is a sequence whose ids are unique. Updating an id
    that is already tracked keeps its slot, a new id is appended, and ids
    missing from the current frame are removed. That order is the order in
    which the hazard scan meets the vehicles. */
module VehicleDetection {
  import opened Models

  // ---------------------------------------------------------------------
  // Distances without square roots
  // ---------------------------------------------------------------------

  /** The square of the Euclidean distance from the ego vehicle at (0, 0). */
  function DistanceSquared(p: Position): (d: real)
    ensures d >= 0.0
  {
    p.x * p.x + p.y * p.y
  }

  /** sqrt(x^2 + y^2) <= limit, stated on the square. */
  predicate WithinRange(p: Position, limit: real) {
    limit >= 0.0 && DistanceSquared(p) <= limit * limit
  }

  /** sqrt(x^2 + y^2) < limit, stated on the square. */
  predicate DistanceBelow(p: Position, limit: real) {
    limit > 0.0 && DistanceSquared(p) < limit * limit
  }

  lemma SquareMonotone(a: real, b: real)
    requires 0.0 <= a < b
    ensures a * a < b * b
  {
    MulPositive(b - a, b + a);
    assert (b - a) * (b + a) == b * b - a * a;
  }

  /** For the true distance d (d >= 0, d * d == x^2 + y^2) the squared
      comparisons agree with the comparisons the source makes on d. */
  lemma {:induction false} SquaredComparisonsAgree(p: Position, d: real, limit: real)
    requires d >= 0.0 && d * d == DistanceSquared(p)
    ensures WithinRange(p, limit) <==> d <= limit
    ensures DistanceBelow(p, limit) <==> d < limit
  {
    if 0.0 <= limit < d {
      SquareMonotone(limit, d);
    }
    if 0.0 <= d < limit {
      SquareMonotone(d, limit);
    }
  }

  /** The same for comparing two distances, as the search for the closest
      vehicle does. */
  lemma {:induction false} SquaredOrderAgrees(p: Position, q: Position, dp: real, dq: real)
    requires dp >= 0.0 && dp * dp == DistanceSquared(p)
    requires dq >= 0.0 && dq * dq == DistanceSquared(q)
    ensures DistanceSquared(p) < DistanceSquared(q) <==> dp < dq
  {
    if dp < dq {
      SquareMonotone(dp, dq);
    }
    if dq < dp {
      SquareMonotone(dq, dp);
    }
  }

  // ---------------------------------------------------------------------
  // The tracked map as an ordered sequence
  // ---------------------------------------------------------------------

  /** A raw entry the tracker stores: valid and within the detection range. */
  predicate Admissible(v: DetectedVehicle, config: Configuration) {
    v.IsValid() && WithinRange(v.position, config.detectionRange)
  }

  /** The keys of the map, in map order. */
  function IdsOf(s: seq<DetectedVehicle>): (ids: seq<int>)
    ensures |ids| == |s|
    ensures forall i :: 0 <= i < |s| ==> ids[i] == s[i].id
  {
    seq(|s|, i requires 0 <= i < |s| => s[i].id)
  }

  predicate UniqueIds(s: seq<DetectedVehicle>) {
    forall i, j :: 0 <= i < j < |s| ==> s[i].id != s[j].id
  }

  /** The slot that holds key `id`, if any: the first one with that id. */
  function IndexOfId(s: seq<DetectedVehicle>, id: int): (r: Option<nat>)
    ensures r.Some? ==> r.value < |s| && s[r.value].id == id
    ensures r.Some? ==> forall j :: 0 <= j < r.value ==> s[j].id != id
    ensures r.None? <==> id !in IdsOf(s)
  {
    if s == [] then None
    else if s[0].id == id then Some(0)
    else
      match IndexOfId(s[1..], id)
      case None => None
      case Some(k) => Some(k + 1)
  }

  /** `dict.get(id)`. */
  function Lookup(s: seq<DetectedVehicle>, id: int): (r: Option<DetectedVehicle>)
    ensures r.Some? <==> id in IdsOf(s)
    ensures r.Some? ==> r.value in s && r.value.id == id
    ensures r.Some? && UniqueIds(s) ==> forall i :: 0 <= i < |s| && s[i].id == id ==> s[i] == r.value
  {
    match IndexOfId(s, id)
    case None => None
    case Some(k) => Some(s[k])
  }

  /** `tracked[v.id] = v`: overwrite the slot of that key or append. */
  function Upsert(s: seq<DetectedVehicle>, v: DetectedVehicle): seq<DetectedVehicle> {
    match IndexOfId(s, v.id)
    case Some(k) => s[k := v]
    case None => s + [v]
  }

  function Admit(s: seq<DetectedVehicle>, v: DetectedVehicle, config: Configuration): seq<DetectedVehicle> {
    if Admissible(v, config) then Upsert(s, v) else s
  }

  /** The first loop of the ingest: every raw entry, in order, upserted if admissible. */
  function UpsertFrame(s: seq<DetectedVehicle>, raw: seq<DetectedVehicle>, config: Configuration): seq<DetectedVehicle>
    decreases |raw|
  {
    if raw == [] then s
    else Admit(UpsertFrame(s, raw[..|raw| - 1], config), raw[|raw| - 1], config)
  }

  /** The ids seen in this frame (`current_frame_ids`). */
  function FrameIds(raw: seq<DetectedVehicle>, config: Configuration): set<int> {
    set i | 0 <= i < |raw| && Admissible(raw[i], config) :: raw[i].id
  }

  /** Removal of every key outside `keep`, the survivors keeping their order. */
  function Prune(s: seq<DetectedVehicle>, keep: set<int>): seq<DetectedVehicle>
    decreases |s|
  {
    if s == [] then []
    else Prune(s[..|s| - 1], keep) + (if s[|s| - 1].id in keep then [s[|s| - 1]] else [])
  }

  /** One call of `process_sensor_data` on the tracked map `s`. */
  function Ingest(s: seq<DetectedVehicle>, raw: seq<DetectedVehicle>, config: Configuration): seq<DetectedVehicle> {
    Prune(UpsertFrame(s, raw, config), FrameIds(raw, config))
  }

  // ---------------------------------------------------------------------
  // What the ingest promises
  // ---------------------------------------------------------------------

  lemma FrameIdsSnoc(raw: seq<DetectedVehicle>, config: Configuration)
    requires raw != []
    ensures FrameIds(raw, config) ==
      FrameIds(raw[..|raw| - 1], config) + (if Admissible(raw[|raw| - 1], config) then {raw[|raw| - 1].id} else {})
  {
    var pre := raw[..|raw| - 1];
    var w := raw[|raw| - 1];
    forall x | x in FrameIds(raw, config)
      ensures x in FrameIds(pre, config) || (Admissible(w, config) && x == w.id)
    {
      var i :| 0 <= i < |raw| && Admissible(raw[i], config) && raw[i].id == x;
      if i < |pre| {
        assert pre[i] == raw[i];
      }
    }
    forall x | x in FrameIds(pre, config)
      ensures x in FrameIds(raw, config)
    {
      var i :| 0 <= i < |pre| && Admissible(pre[i], config) && pre[i].id == x;
      assert raw[i] == pre[i];
    }
  }

  /** Facts about one upsert into a map with unique keys. */
  lemma UpsertShape(r: seq<DetectedVehicle>, w: DetectedVehicle)
    requires UniqueIds(r)
    ensures UniqueIds(Upsert(r, w))
    ensures w in Upsert(r, w)
    ensures forall v :: v in Upsert(r, w) ==> v == w || (v in r && v.id != w.id)
    ensures IdsOf(Upsert(r, w)) == if w.id in IdsOf(r) then IdsOf(r) else IdsOf(r) + [w.id]
  {
    var u := Upsert(r, w);
    match IndexOfId(r, w.id)
    case Some(k) =>
      assert u == r[k := w];
      forall v | v in u ensures v == w || (v in r && v.id != w.id) {
        var m :| 0 <= m < |u| && u[m] == v;
        if m != k {
          assert u[m] == r[m];
        }
      }
      assert IdsOf(u) == IdsOf(r);
    case None =>
      assert u == r + [w];
      assert IdsOf(u) == IdsOf(r) + [w.id];
  }

  /** The order of the keys after the first loop: the old keys in their
      old order, then the new keys in order of first admission. */
  function NewKeys(known: seq<int>, raw: seq<DetectedVehicle>, config: Configuration): seq<int>
    decreases |raw|
  {
    if raw == [] then []
    else
      var pre := NewKeys(known, raw[..|raw| - 1], config);
      var w := raw[|raw| - 1];
      if Admissible(w, config) && w.id !in known && w.id !in pre then pre + [w.id] else pre
  }

  /** The keys of `ids` that lie in `keep`, in order. */
  function Keep(ids: seq<int>, keep: set<int>): seq<int>
    decreases |ids|
  {
    if ids == [] then []
    else Keep(ids[..|ids| - 1], keep) + (if ids[|ids| - 1] in keep then [ids[|ids| - 1]] else [])
  }

  lemma {:induction false} KeepMembers(ids: seq<int>, keep: set<int>)
    ensures forall x :: x in Keep(ids, keep) <==> x in ids && x in keep
  {
    if ids != [] {
      var pre := ids[..|ids| - 1];
      KeepMembers(pre, keep);
      assert ids == pre + [ids[|ids| - 1]];
    }
  }

  lemma {:induction false} KeepAppend(a: seq<int>, b: seq<int>, keep: set<int>)
    ensures Keep(a + b, keep) == Keep(a, keep) + Keep(b, keep)
    decreases |b|
  {
    if b == [] {
      assert a + b == a;
    } else {
      var pre := b[..|b| - 1];
      assert (a + b)[..|a + b| - 1] == a + pre;
      KeepAppend(a, pre, keep);
    }
  }

  lemma {:induction false} KeepAll(b: seq<int>, keep: set<int>)
    requires forall x :: x in b ==> x in keep
    ensures Keep(b, keep) == b
  {
    if b != [] {
      var pre := b[..|b| - 1];
      var last := b[|b| - 1];
      assert forall x :: x in pre ==> x in b;
      KeepAll(pre, keep);
      assert last in b;
      assert last in keep;
      assert Keep(b, keep) == Keep(pre, keep) + [last];
      assert b == pre + [last];
    }
  }

  lemma {:induction false} NewKeysMembers(known: seq<int>, raw: seq<DetectedVehicle>, config: Configuration)
    ensures forall x :: x in NewKeys(known, raw, config) <==> x in FrameIds(raw, config) && x !in known
    decreases |raw|
  {
    if raw != [] {
      var pre := raw[..|raw| - 1];
      NewKeysMembers(known, pre, config);
      FrameIdsSnoc(raw, config);
    }
  }

  lemma {:induction false} IdsOfUpsertFrame(s: seq<DetectedVehicle>, raw: seq<DetectedVehicle>, config: Configuration)
    requires UniqueIds(s)
    ensures UniqueIds(UpsertFrame(s, raw, config))
    ensures IdsOf(UpsertFrame(s, raw, config)) == IdsOf(s) + NewKeys(IdsOf(s), raw, config)
    decreases |raw|
  {
    if raw != [] {
      var pre := raw[..|raw| - 1];
      var w := raw[|raw| - 1];
      var r := UpsertFrame(s, pre, config);
      IdsOfUpsertFrame(s, pre, config);
      if Admissible(w, config) {
        UpsertShape(r, w);
        assert w.id in IdsOf(r) <==> w.id in IdsOf(s) || w.id in NewKeys(IdsOf(s), pre, config);
      }
    }
  }

  lemma {:induction false} PruneShape(s: seq<DetectedVehicle>, keep: set<int>)
    ensures IdsOf(Prune(s, keep)) == Keep(IdsOf(s), keep)
    ensures forall v :: v in Prune(s, keep) ==> v in s && v.id in keep
    ensures UniqueIds(s) ==> UniqueIds(Prune(s, keep))
    decreases |s|
  {
    if s != [] {
      var pre := s[..|s| - 1];
      var last := s[|s| - 1];
      PruneShape(pre, keep);
      assert IdsOf(s)[..|s| - 1] == IdsOf(pre);
      var p := Prune(pre, keep);
      if last.id in keep {
        assert IdsOf(p + [last]) == IdsOf(p) + [last.id];
        if UniqueIds(s) {
          forall i | 0 <= i < |p| ensures p[i].id != last.id {
            assert p[i] in pre;
            var m :| 0 <= m < |pre| && pre[m] == p[i];
            assert s[m] == pre[m];
          }
        }
      }
      assert forall v :: v in pre ==> v in s;
    }
  }

  /** Map order after an ingest: the surviving old keys keep their relative
      order, and the new keys follow them in order of first admission. */
  lemma {:induction false} IngestOrder(s: seq<DetectedVehicle>, raw: seq<DetectedVehicle>, config: Configuration)
    requires UniqueIds(s)
    ensures IdsOf(Ingest(s, raw, config)) ==
      Keep(IdsOf(s), FrameIds(raw, config)) + NewKeys(IdsOf(s), raw, config)
  {
    var f := FrameIds(raw, config);
    IdsOfUpsertFrame(s, raw, config);
    PruneShape(UpsertFrame(s, raw, config), f);
    KeepAppend(IdsOf(s), NewKeys(IdsOf(s), raw, config), f);
    NewKeysMembers(IdsOf(s), raw, config);
    KeepAll(NewKeys(IdsOf(s), raw, config), f);
  }

  /** After an ingest the tracked keys are exactly the ids of this frame's
      valid, in-range entries, and they stay unique. */
  lemma {:induction false} IngestTracksExactlyTheFrame(s: seq<DetectedVehicle>, raw: seq<DetectedVehicle>, config: Configuration)
    requires UniqueIds(s)
    ensures UniqueIds(Ingest(s, raw, config))
    ensures forall id :: id in IdsOf(Ingest(s, raw, config)) <==> id in FrameIds(raw, config)
  {
    var f := FrameIds(raw, config);
    IngestOrder(s, raw, config);
    KeepMembers(IdsOf(s), f);
    NewKeysMembers(IdsOf(s), raw, config);
    IdsOfUpsertFrame(s, raw, config);
    PruneShape(UpsertFrame(s, raw, config), f);
  }

  /** `v` is the last admissible entry of the frame with its id. */
  predicate LatestAdmitted(raw: seq<DetectedVehicle>, config: Configuration, v: DetectedVehicle) {
    exists i :: 0 <= i < |raw| && raw[i] == v && Admissible(raw[i], config) && NoLaterEntry(raw, config, i)
  }

  predicate NoLaterEntry(raw: seq<DetectedVehicle>, config: Configuration, i: int) {
    0 <= i < |raw| &&
    forall j :: i < j < |raw| ==> !(Admissible(raw[j], config) && raw[j].id == raw[i].id)
  }

  lemma {:induction false} UpsertFrameOrigin(s: seq<DetectedVehicle>, raw: seq<DetectedVehicle>, config: Configuration)
    requires UniqueIds(s)
    ensures UniqueIds(UpsertFrame(s, raw, config))
    ensures forall v :: v in UpsertFrame(s, raw, config) ==>
      LatestAdmitted(raw, config, v) || (v in s && v.id !in FrameIds(raw, config))
    decreases |raw|
  {
    if raw != [] {
      var pre := raw[..|raw| - 1];
      var w := raw[|raw| - 1];
      var n := |raw| - 1;
      var r := UpsertFrame(s, pre, config);
      UpsertFrameOrigin(s, pre, config);
      FrameIdsSnoc(raw, config);
      forall v | v in UpsertFrame(s, raw, config)
        ensures LatestAdmitted(raw, config, v) || (v in s && v.id !in FrameIds(raw, config))
      {
        if Admissible(w, config) {
          UpsertShape(r, w);
          if v == w {
            assert NoLaterEntry(raw, config, n);
          } else {
            assert v in r && v.id != w.id;
            LatestExtends(pre, raw, config, v);
          }
        } else {
          LatestExtends(pre, raw, config, v);
        }
      }
      if Admissible(w, config) {
        UpsertShape(r, w);
      }
    }
  }

  /** Appending an entry that does not re-admit v's id keeps v the latest. */
  lemma LatestExtends(pre: seq<DetectedVehicle>, raw: seq<DetectedVehicle>, config: Configuration, v: DetectedVehicle)
    requires raw != [] && pre == raw[..|raw| - 1]
    requires !(Admissible(raw[|raw| - 1], config) && raw[|raw| - 1].id == v.id)
    ensures LatestAdmitted(pre, config, v) ==> LatestAdmitted(raw, config, v)
  {
    if LatestAdmitted(pre, config, v) {
      var i :| 0 <= i < |pre| && pre[i] == v && Admissible(pre[i], config) && NoLaterEntry(pre, config, i);
      assert raw[i] == pre[i];
      assert NoLaterEntry(raw, config, i);
    }
  }

  /** A repeated id keeps the value of its last in-range entry, and every
      tracked vehicle comes from this frame. */
  lemma {:induction false} IngestKeepsLatestEntry(s: seq<DetectedVehicle>, raw: seq<DetectedVehicle>, config: Configuration)
    requires UniqueIds(s)
    ensures forall v :: v in Ingest(s, raw, config) ==> LatestAdmitted(raw, config, v)
  {
    var u := UpsertFrame(s, raw, config);
    UpsertFrameOrigin(s, raw, config);
    PruneShape(u, FrameIds(raw, config));
  }

  // ---------------------------------------------------------------------
  // Hazard scan
  // ---------------------------------------------------------------------

  /** The message of a hazard report, as a tag (the source formats text). */
  datatype HazardMessage =
    | NoHazardMessage
    | OncomingInLane
    | RapidlyApproaching(closingSpeed: real)
    | CriticallyClose

  datatype HazardReport = HazardReport(hazard: HazardType, vehicleId: Option<int>, message: HazardMessage)

  const NoHazardReport := HazardReport(NoHazard, None, NoHazardMessage)

  predicate InEgoLane(v: DetectedVehicle) {
    Abs(v.position.x) < 1.5
  }

  /** An oncoming vehicle whose position and own longitudinal speed have
      opposite signs is closing in. */
  predicate Approaching(v: DetectedVehicle) {
    (v.position.y > 0.0 && v.velocity.vy < 0.0) || (v.position.y < 0.0 && v.velocity.vy > 0.0)
  }

  /** The message the scan stops with at `v`, or None if `v` is no hazard. */
  function HazardAt(v: DetectedVehicle, ego: Velocity): Option<HazardMessage> {
    if !InEgoLane(v) then None
    else if v.kind == Oncoming then
      if Approaching(v) then Some(OncomingInLane) else None
    else
      var closing := ego.vy - v.velocity.vy;
      if DistanceBelow(v.position, 30.0) && closing > 5.0 then Some(RapidlyApproaching(closing))
      else if DistanceBelow(v.position, 10.0) then Some(CriticallyClose)
      else None
  }

  predicate IsHazard(v: DetectedVehicle, ego: Velocity) {
    HazardAt(v, ego).Some?
  }

  /** The hazard rule, case by case. */
  lemma HazardRule(v: DetectedVehicle, ego: Velocity)
    ensures Abs(v.position.x) >= 1.5 ==> !IsHazard(v, ego)
    ensures InEgoLane(v) && v.kind == Oncoming ==>
      (IsHazard(v, ego) <==> (v.position.y > 0.0 && v.velocity.vy < 0.0) || (v.position.y < 0.0 && v.velocity.vy > 0.0))
    ensures InEgoLane(v) && v.kind == Ahead ==>
      (IsHazard(v, ego) <==>
        (DistanceBelow(v.position, 30.0) && ego.vy - v.velocity.vy > 5.0) || DistanceBelow(v.position, 10.0))
  {
  }

  /** The first-match scan over the tracked vehicles in map order. */
  function ScanHazards(vs: seq<DetectedVehicle>, ego: Velocity): HazardReport
    decreases |vs|
  {
    if vs == [] then NoHazardReport
    else
      match HazardAt(vs[0], ego)
      case Some(m) => HazardReport(BlockingVehicle, Some(vs[0].id), m)
      case None => ScanHazards(vs[1..], ego)
  }

  /** The scan reports the FIRST hazardous vehicle in map order (not the
      closest), and reports no hazard exactly when there is none. */
  lemma {:induction false} ScanFindsFirstHazard(vs: seq<DetectedVehicle>, ego: Velocity)
    ensures ScanHazards(vs, ego).hazard == NoHazard <==> forall i :: 0 <= i < |vs| ==> !IsHazard(vs[i], ego)
    ensures ScanHazards(vs, ego).hazard == NoHazard ==> ScanHazards(vs, ego) == NoHazardReport
    ensures ScanHazards(vs, ego).hazard == BlockingVehicle ==>
      exists k :: 0 <= k < |vs| && IsHazard(vs[k], ego) &&
        (forall j :: 0 <= j < k ==> !IsHazard(vs[j], ego)) &&
        ScanHazards(vs, ego).vehicleId == Some(vs[k].id) &&
        HazardAt(vs[k], ego) == Some(ScanHazards(vs, ego).message)
    decreases |vs|
  {
    if vs != [] && !IsHazard(vs[0], ego) {
      ScanFindsFirstHazard(vs[1..], ego);
      assert forall i :: 1 <= i < |vs| ==> vs[i] == vs[1..][i - 1];
      if ScanHazards(vs, ego).hazard == BlockingVehicle {
        var k :| 0 <= k < |vs[1..]| && IsHazard(vs[1..][k], ego) &&
          (forall j :: 0 <= j < k ==> !IsHazard(vs[1..][j], ego)) &&
          ScanHazards(vs[1..], ego).vehicleId == Some(vs[1..][k].id) &&
          HazardAt(vs[1..][k], ego) == Some(ScanHazards(vs[1..], ego).message);
        assert IsHazard(vs[k + 1], ego);
      }
    }
  }

  /** Any id the scan reports is a tracked id. */
  lemma ScanReportsTrackedId(vs: seq<DetectedVehicle>, ego: Velocity)
    ensures ScanHazards(vs, ego).vehicleId.Some? ==> ScanHazards(vs, ego).vehicleId.value in IdsOf(vs)
  {
    ScanFindsFirstHazard(vs, ego);
  }

  // ---------------------------------------------------------------------
  // The module object
  // ---------------------------------------------------------------------

  class VehicleTracker {
    const config: Configuration
    var tracked: seq<DetectedVehicle>

    ghost predicate Valid()
      reads this
    {
      UniqueIds(tracked)
    }

    constructor (config: Configuration)
      ensures this.config == config && tracked == [] && Valid()
    {
      this.config := config;
      tracked := [];
    }

    /** `process_sensor_data`: upsert every admissible entry, then drop the
        keys this frame did not mention; returns the map's values in order. */
    method ProcessSensorData(raw: seq<DetectedVehicle>) returns (current: seq<DetectedVehicle>)
      requires Valid()
      modifies this
      ensures Valid()
      ensures tracked == Ingest(old(tracked), raw, config)
      ensures current == tracked
    {
      ghost var start := tracked;
      var frameIds: set<int> := {};
      for i := 0 to |raw|
        invariant tracked == UpsertFrame(start, raw[..i], config)
        invariant frameIds == FrameIds(raw[..i], config)
        invariant UniqueIds(tracked)
      {
        assert raw[..i + 1][..i] == raw[..i];
        FrameIdsSnoc(raw[..i + 1], config);
        var vehicle := raw[i];
        if !vehicle.IsValid() {
          continue;
        }
        if WithinRange(vehicle.position, config.detectionRange) {
          UpsertShape(tracked, vehicle);
          var slot := IndexOfId(tracked, vehicle.id);
          if slot.Some? {
            tracked := tracked[slot.value := vehicle];
          } else {
            tracked := tracked + [vehicle];
          }
          frameIds := frameIds + {vehicle.id};
        }
      }
      assert raw[..|raw|] == raw;
      var kept: seq<DetectedVehicle> := [];
      for j := 0 to |tracked|
        invariant kept == Prune(tracked[..j], frameIds)
      {
        assert tracked[..j + 1][..j] == tracked[..j];
        if tracked[j].id in frameIds {
          kept := kept + [tracked[j]];
        }
      }
      assert tracked[..|tracked|] == tracked;
      PruneShape(tracked, frameIds);
      tracked := kept;
      current := tracked;
    }

    /** `get_vehicle_by_id`: the stored vehicle with that key, if tracked. */
    function GetVehicleById(id: int): (r: Option<DetectedVehicle>)
      reads this
      ensures r.Some? <==> id in IdsOf(tracked)
      ensures r.Some? ==> r.value in tracked && r.value.id == id
    {
      Lookup(tracked, id)
    }

    /** `detect_hazards`: the first tracked vehicle, in map order, that is a hazard. */
    method DetectHazards(egoVelocity: Velocity) returns (report: HazardReport)
      ensures report == ScanHazards(tracked, egoVelocity)
    {
      for i := 0 to |tracked|
        invariant ScanHazards(tracked[i..], egoVelocity) == ScanHazards(tracked, egoVelocity)
      {
        var v := tracked[i];
        assert tracked[i..][1..] == tracked[i + 1..];
        if Abs(v.position.x) < 1.5 {
          if v.kind == Oncoming {
            var approaching := (v.position.y > 0.0 && v.velocity.vy < 0.0) || (v.position.y < 0.0 && v.velocity.vy > 0.0);
            if approaching {
              return HazardReport(BlockingVehicle, Some(v.id), OncomingInLane);
            }
          } else {
            var closingSpeed := egoVelocity.vy - v.velocity.vy;
            if DistanceBelow(v.position, 30.0) && closingSpeed > 5.0 {
              return HazardReport(BlockingVehicle, Some(v.id), RapidlyApproaching(closingSpeed));
            }
            if DistanceBelow(v.position, 10.0) {
              return HazardReport(BlockingVehicle, Some(v.id), CriticallyClose);
            }
          }
        }
      }
      assert tracked[|tracked|..] == [];
      return NoHazardReport;
    }
  }
}
