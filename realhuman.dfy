/** `RealHumanDetection` (src/lib/realHumanDetection.ts): people found by a
    face or pose model (or, without one, by device motion) are merged into a
    list by screen proximity, drift while they move, and are forgotten after
    fifteen seconds unseen. The models themselves are not part of this model:
    what they report reaches `AddRealHuman` as a ready-made candidate. */
module RealHuman {

  import opened Common

  /** `boundingBox` and `faceBox`. */
  datatype Box = Box(x: real, y: real, width: real, height: real)

  datatype Method = Face | Body | Motion

  datatype Human = Human(
    id: string,
    position: Vec3,
    distance: real,
    confidence: real,
    isMoving: bool,
    faceDetected: bool,
    boundingBox: Box,
    faceBox: Option<Box>,
    lastSeen: int,
    detectionMethod: Method)

  /** A pose keypoint with the model's score for it. */
  datatype Keypoint = Keypoint(x: real, y: real, score: real)

  // ---------------------------------------------------------------------
  // Pose geometry

  /** The keypoints the pose helpers trust: score above 0.5. */
  function Strong(): Keypoint -> bool {
    (kp: Keypoint) => kp.score > 0.5
  }

  function Xs(kps: seq<Keypoint>): (r: seq<real>)
    ensures |r| == |kps| && forall i :: 0 <= i < |kps| ==> r[i] == kps[i].x
  {
    seq(|kps|, i requires 0 <= i < |kps| => kps[i].x)
  }

  function Ys(kps: seq<Keypoint>): (r: seq<real>)
    ensures |r| == |kps| && forall i :: 0 <= i < |kps| ==> r[i] == kps[i].y
  {
    seq(|kps|, i requires 0 <= i < |kps| => kps[i].y)
  }

  /** `calculateBodyCenter`: the mean of the trusted keypoints, or the origin
      when there are none. */
  function BodyCenter(kps: seq<Keypoint>): Vec2 {
    var v := Filter(kps, Strong());
    if v == [] then Vec2(0.0, 0.0)
    else Vec2(Sum(Xs(v)) / |v| as real, Sum(Ys(v)) / |v| as real)
  }

  /** The centre is the origin when no keypoint is trusted, and otherwise
      lies inside the trusted keypoints' bounding box. */
  lemma BodyCenterSpec(kps: seq<Keypoint>)
    ensures var v := Filter(kps, Strong()); var c := BodyCenter(kps);
      (v == [] ==> c == Vec2(0.0, 0.0))
      && (v != [] ==> MinOf(Xs(v)) <= c.x <= MaxOf(Xs(v)) && MinOf(Ys(v)) <= c.y <= MaxOf(Ys(v)))
  {
    var v := Filter(kps, Strong());
    if v != [] {
      MeanBetween(Xs(v));
      MeanBetween(Ys(v));
    }
  }

  /** `calculateKeypointSpread`: width plus height of the trusted keypoints,
      0 with fewer than two of them. */
  function KeypointSpread(kps: seq<Keypoint>): (r: real)
    ensures r >= 0.0
    ensures |Filter(kps, Strong())| < 2 ==> r == 0.0
  {
    var v := Filter(kps, Strong());
    if |v| < 2 then 0.0
    else (MaxOf(Xs(v)) - MinOf(Xs(v))) + (MaxOf(Ys(v)) - MinOf(Ys(v)))
  }

  /** `estimateDistance`: the larger the face box, the closer; never under 50. */
  function EstimateDistance(box: Box): (r: real)
    ensures r >= 50.0
    ensures box.width * box.height >= 0.0 ==> r <= 500.0
    ensures r > 50.0 ==> r == 500.0 - box.width * box.height * 10.0
  {
    MaxReal(50.0, 500.0 - box.width * box.height * 10.0)
  }

  /** `estimateDistanceFromKeypoints`: between 50 and 300, nearer for a
      wider pose. */
  function EstimateDistanceFromKeypoints(kps: seq<Keypoint>): (r: real)
    ensures 50.0 <= r <= 300.0
  {
    MaxReal(50.0, 300.0 - KeypointSpread(kps) * 5.0)
  }

  /** A pose spread wider than another's is never estimated as farther away. */
  lemma DistanceFromKeypointsMonotone(a: seq<Keypoint>, b: seq<Keypoint>)
    requires KeypointSpread(a) <= KeypointSpread(b)
    ensures EstimateDistanceFromKeypoints(b) <= EstimateDistanceFromKeypoints(a)
  {
  }

  // ---------------------------------------------------------------------
  // Merging a new sighting

  /** Already on the list: within 30 of `h` on both screen axes. */
  function Near(h: Human): Human -> bool {
    (e: Human) => Abs(e.position.x - h.position.x) < 30.0 && Abs(e.position.y - h.position.y) < 30.0
  }

  /** What `addRealHuman` does to the entry a new sighting lands on: the
      position moves, the confidence keeps its maximum, the face flag is
      kept once set. The bounding box is not touched. */
  function Absorb(e: Human, h: Human, now: int): (r: Human)
    ensures r.id == e.id && r.position == h.position && r.lastSeen == now
    ensures r.confidence == MaxReal(e.confidence, h.confidence)
    ensures r.faceDetected <==> e.faceDetected || h.faceDetected
    ensures r.(position := e.position, confidence := e.confidence, lastSeen := e.lastSeen,
               faceDetected := e.faceDetected) == e
  {
    e.(position := h.position, confidence := MaxReal(e.confidence, h.confidence),
       lastSeen := now, faceDetected := h.faceDetected || e.faceDetected)
  }

  function Merge(hs: seq<Human>, h: Human, now: int): seq<Human> {
    match FirstIndex(hs, Near(h))
    case None => hs + [h]
    case Some(i) => hs[i := Absorb(hs[i], h, now)]
  }

  /** A sighting near no listed human is appended; otherwise the first one
      near it absorbs it and nothing else changes. The list grows by at most
      one, and no listed confidence ever drops. */
  lemma MergeSpec(hs: seq<Human>, h: Human, now: int)
    ensures var r := Merge(hs, h, now);
      (|r| == |hs| || |r| == |hs| + 1)
      && ((forall j :: 0 <= j < |hs| ==> !Near(h)(hs[j])) ==> r == hs + [h])
      && (forall i :: 0 <= i < |hs| && Near(h)(hs[i]) && (forall j :: 0 <= j < i ==> !Near(h)(hs[j]))
            ==> r == hs[i := Absorb(hs[i], h, now)])
      && (forall i :: 0 <= i < |hs| ==> r[i].id == hs[i].id && r[i].confidence >= hs[i].confidence)
  {
    match FirstIndex(hs, Near(h))
    case None =>
    case Some(k) =>
      forall i | 0 <= i < |hs| && Near(h)(hs[i]) && (forall j :: 0 <= j < i ==> !Near(h)(hs[j]))
        ensures i == k
      {
      }
  }

  // ---------------------------------------------------------------------
  // Staleness sweep

  /** Still wanted: seen at most fifteen seconds ago. */
  function Fresh(now: int): Human -> bool {
    (h: Human) => now - h.lastSeen <= 15000
  }

  /** A moving human drifts by (r - 0.5)·10·(dt/1000) on each axis, and its
      box follows it. */
  function Drift(h: Human, r: Vec2, dt: int): (m: Human)
    ensures m.(position := h.position, boundingBox := h.boundingBox) == h
    ensures !h.isMoving ==> m == h
    ensures h.isMoving ==> m.boundingBox.x == m.position.x - 25.0 && m.boundingBox.y == m.position.y - 50.0
  {
    if h.isMoving then
      var step := 1.0 * (dt as real / 1000.0);
      var p := h.position.(x := h.position.x + (r.x - 0.5) * step * 10.0,
                           y := h.position.y + (r.y - 0.5) * step * 10.0);
      h.(position := p, boundingBox := h.boundingBox.(x := p.x - 25.0, y := p.y - 50.0))
    else h
  }

  /** `updateExistingHumans`, with the random numbers drawn for human `i`
      given as `rs[i]`. */
  function Sweep(hs: seq<Human>, rs: seq<Vec2>, now: int, dt: int): seq<Human>
    requires |rs| == |hs|
  {
    if hs == [] then []
    else (if Fresh(now)(hs[0]) then [Drift(hs[0], rs[0], dt)] else []) + Sweep(hs[1..], rs[1..], now, dt)
  }

  /** The sweep keeps exactly the humans seen within fifteen seconds, in
      order, changing only the position and box of the moving ones. */
  lemma {:induction false} SweepKeepsFresh(hs: seq<Human>, rs: seq<Vec2>, now: int, dt: int)
    requires |rs| == |hs|
    ensures var r := Sweep(hs, rs, now, dt); var f := Filter(hs, Fresh(now));
      |r| == |f|
      && forall i :: 0 <= i < |r| ==>
           r[i].(position := f[i].position, boundingBox := f[i].boundingBox) == f[i]
           && (!f[i].isMoving ==> r[i] == f[i])
  {
    if hs != [] {
      SweepKeepsFresh(hs[1..], rs[1..], now, dt);
    }
  }

  // ---------------------------------------------------------------------
  // Queries

  function Confident(): Human -> bool {
    (h: Human) => h.confidence > 0.3
  }

  function OtherId(id: string): Human -> bool {
    (h: Human) => h.id != id
  }

  function HasId(id: string): Human -> bool {
    (h: Human) => h.id == id
  }

  /** `removeRealHuman` drops every entry with the id, and only those. */
  lemma RemoveSpec(hs: seq<Human>, id: string, h: Human)
    ensures h in Filter(hs, OtherId(id)) <==> h in hs && h.id != id
    ensures |Filter(hs, OtherId(id))| + |Filter(hs, HasId(id))| == |hs|
  {
    FilterMembership(hs, OtherId(id), h);
    FilterPartition(hs, OtherId(id), HasId(id));
  }

  /** `getDetectedRealHumans` keeps exactly the humans with confidence above 0.3. */
  lemma DetectedSpec(hs: seq<Human>, h: Human)
    ensures h in Filter(hs, Confident()) <==> h in hs && h.confidence > 0.3
  {
    FilterMembership(hs, Confident(), h);
  }

  datatype Stats = Stats(
    totalHumans: nat, faceDetected: nat, bodyDetected: nat, movingHumans: nat,
    averageConfidence: real, averageDistance: real)

  function Confidences(hs: seq<Human>): (r: seq<real>)
    ensures |r| == |hs|
  {
    seq(|hs|, i requires 0 <= i < |hs| => hs[i].confidence)
  }

  function Distances(hs: seq<Human>): (r: seq<real>)
    ensures |r| == |hs|
  {
    seq(|hs|, i requires 0 <= i < |hs| => hs[i].distance)
  }

  function Mean(xs: seq<real>): real {
    if xs == [] then 0.0 else Sum(xs) / |xs| as real
  }

  /** `getRealDetectionStats`, over the reported humans. */
  function StatsOf(ds: seq<Human>): Stats {
    Stats(|ds|,
          |Filter(ds, (h: Human) => h.faceDetected)|,
          |Filter(ds, (h: Human) => h.detectionMethod == Body)|,
          |Filter(ds, (h: Human) => h.isMoving)|,
          Mean(Confidences(ds)), Mean(Distances(ds)))
  }

  /** Every count is at most the total, both averages are 0 when nothing is
      reported, and the average confidence of reported humans lies in
      (0.3, max confidence]. */
  lemma StatsSpec(hs: seq<Human>)
    ensures var ds := Filter(hs, Confident()); var s := StatsOf(ds);
      s.totalHumans == |ds|
      && s.faceDetected <= s.totalHumans && s.bodyDetected <= s.totalHumans
      && s.movingHumans <= s.totalHumans
      && (s.totalHumans == 0 ==> s.averageConfidence == 0.0 && s.averageDistance == 0.0)
      && (s.totalHumans > 0 ==> 0.3 <= s.averageConfidence <= MaxOf(Confidences(ds)))
  {
    var ds := Filter(hs, Confident());
    if ds != [] {
      FilterAll(hs, Confident());
      var cs := Confidences(ds);
      assert forall i :: 0 <= i < |cs| ==> 0.3 <= cs[i] <= MaxOf(cs) by {
        forall i | 0 <= i < |cs| ensures 0.3 <= cs[i] {
          assert Confident()(ds[i]);
        }
      }
      MeanWithin(cs, 0.3, MaxOf(cs));
    }
  }

  // ---------------------------------------------------------------------
  // The detector

  class RealHumanDetection {
    var humans: seq<Human>

    constructor ()
      ensures humans == []
    {
      humans := [];
    }

    /** `addRealHuman`. */
    method AddRealHuman(h: Human, now: int)
      modifies this`humans
      ensures humans == Merge(old(humans), h, now)
      ensures |old(humans)| <= |humans| <= |old(humans)| + 1
    {
      MergeSpec(humans, h, now);
      humans := Merge(humans, h, now);
    }

    /** `updateExistingHumans`. */
    method UpdateExistingHumans(now: int, dt: int, rs: seq<Vec2>)
      requires |rs| == |humans|
      modifies this`humans
      ensures humans == Sweep(old(humans), rs, now, dt)
      ensures |humans| == |Filter(old(humans), Fresh(now))|
    {
      SweepKeepsFresh(humans, rs, now, dt);
      humans := Sweep(humans, rs, now, dt);
    }

    /** `getDetectedRealHumans`. */
    method GetDetectedRealHumans() returns (ds: seq<Human>)
      ensures ds == Filter(humans, Confident())
      ensures forall h :: h in ds <==> h in humans && h.confidence > 0.3
    {
      ds := Filter(humans, Confident());
      forall h ensures h in ds <==> h in humans && h.confidence > 0.3 {
        DetectedSpec(humans, h);
      }
    }

    /** `getRealHumanById`: the first entry with that id. */
    method GetRealHumanById(id: string) returns (r: Option<Human>)
      ensures r.Some? ==> r.value in humans && r.value.id == id
      ensures r.None? <==> forall j :: 0 <= j < |humans| ==> humans[j].id != id
      ensures r.Some? ==>
        exists k :: 0 <= k < |humans| && humans[k] == r.value && forall j :: 0 <= j < k ==> humans[j].id != id
    {
      var k := FirstIndex(humans, HasId(id));
      r := if k.Some? then Some(humans[k.value]) else None;
    }

    /** `removeRealHuman`. */
    method RemoveRealHuman(id: string)
      modifies this`humans
      ensures humans == Filter(old(humans), OtherId(id))
      ensures forall j :: 0 <= j < |humans| ==> humans[j].id != id
    {
      FilterAll(humans, OtherId(id));
      humans := Filter(humans, OtherId(id));
    }

    /** `clearRealHumans`. */
    method ClearRealHumans()
      modifies this`humans
      ensures humans == []
    {
      humans := [];
    }

    /** `getRealDetectionStats`. */
    method GetRealDetectionStats() returns (s: Stats)
      ensures s == StatsOf(Filter(humans, Confident()))
      ensures s.faceDetected <= s.totalHumans && s.movingHumans <= s.totalHumans
    {
      StatsSpec(humans);
      s := StatsOf(Filter(humans, Confident()));
    }
  }
}
