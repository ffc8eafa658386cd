/** `HumanDetection` (src/lib/humanDetection.ts): simulated people placed on
    the camera view when the device moves hard enough (or, rarely, at random),
    kept apart by a 50-pixel rule, drifting while they "walk", and evicted
    after thirty seconds unseen. Random draws, the clock and the sensor
    reading are parameters. */
module HumanDetect {

  import opened Common
  import Text

  datatype Box = Box(x: real, y: real, width: real, height: real)

  datatype HumanTarget = HumanTarget(
    id: string,
    position: Vec3,
    distance: real,
    confidence: real,
    isMoving: bool,
    movementSpeed: real,
    height: real,
    boundingBox: Box,
    lastSeen: int)

  /** The random numbers drawn for one generated human, each in [0, 1). */
  datatype Draw = Draw(x: real, y: real, distance: real, boost: real, moving: real, speed: real, tall: real)

  predicate UnitDraw(d: Draw) {
    0.0 <= d.x < 1.0 && 0.0 <= d.y < 1.0 && 0.0 <= d.distance < 1.0 && 0.0 <= d.boost < 1.0
    && 0.0 <= d.moving < 1.0 && 0.0 <= d.speed < 1.0 && 0.0 <= d.tall < 1.0
  }

  // ---------------------------------------------------------------------
  // Generation

  /** Human number `i` of a batch generated at `now` in a `w`×`h` view. */
  function Candidate(d: Draw, w: real, h: real, confidence: real, now: nat, i: nat): (t: HumanTarget)
    ensures t.confidence <= 0.9
    ensures t.boundingBox == Box(t.position.x - 25.0, t.position.y - 50.0, 50.0, 100.0)
    ensures t.lastSeen == now
    ensures t.id == "human_" + Text.NatToString(now) + "_" + Text.NatToString(i)
  {
    var x := d.x * w;
    var y := d.y * h;
    var dist := d.distance * 300.0 + 100.0;
    HumanTarget(
      "human_" + Text.NatToString(now) + "_" + Text.NatToString(i),
      Vec3(x, y, dist), dist,
      MinReal(0.9, confidence + d.boost * 0.2),
      d.moving > 0.5, d.speed * 2.0 + 0.5, d.tall * 0.3 + 1.6,
      Box(x - 25.0, y - 50.0, 50.0, 100.0), now)
  }

  /** An already listed human within 50 of `c` on both axes. */
  function Near(c: HumanTarget): HumanTarget -> bool {
    (e: HumanTarget) => Abs(e.position.x - c.position.x) < 50.0 && Abs(e.position.y - c.position.y) < 50.0
  }

  /** One step of `generateHumanTargets`' loop: the candidate is pushed only
      when nobody listed is near it. */
  function Admit(hs: seq<HumanTarget>, c: HumanTarget): seq<HumanTarget> {
    if FirstIndex(hs, Near(c)).Some? then hs else hs + [c]
  }

  /** The list after offering each of `cs` in turn. */
  function AdmitAll(hs: seq<HumanTarget>, cs: seq<HumanTarget>): seq<HumanTarget>
    decreases |cs|
  {
    if cs == [] then hs else Admit(AdmitAll(hs, cs[..|cs| - 1]), cs[|cs| - 1])
  }

  /** Generation never touches a listed human, adds only offered candidates,
      and every human it adds is more than 50 away (on some axis) from every
      human listed before it, including those added earlier in the same
      batch. */
  lemma {:induction false} AdmitAllSpec(hs: seq<HumanTarget>, cs: seq<HumanTarget>)
    ensures var r := AdmitAll(hs, cs);
      |hs| <= |r| <= |hs| + |cs|
      && r[..|hs|] == hs
      && (forall k :: |hs| <= k < |r| ==> r[k] in cs)
      && (forall k, j :: |hs| <= k < |r| && 0 <= j < k ==> !Near(r[k])(r[j]))
    ensures var r := AdmitAll(hs, cs);
      forall c :: c in cs ==> c in r || exists j :: 0 <= j < |r| && Near(c)(r[j])
    decreases |cs|
  {
    AdmitAllCovers(hs, cs);
    if cs != [] {
      var front := cs[..|cs| - 1];
      var c := cs[|cs| - 1];
      AdmitAllSpec(hs, front);
      var p := AdmitAll(hs, front);
      var r := AdmitAll(hs, cs);
      assert r == Admit(p, c);
      if FirstIndex(p, Near(c)).None? {
        assert r == p + [c];
        assert r[..|hs|] == p[..|hs|];
        forall k | |hs| <= k < |r| ensures r[k] in cs {
          if k < |p| {
            assert r[k] == p[k] && p[k] in front;
          }
        }
        forall k, j | |hs| <= k < |r| && 0 <= j < k ensures !Near(r[k])(r[j]) {
          if k == |p| {
            assert r[j] == p[j];
          } else {
            assert r[k] == p[k] && r[j] == p[j];
          }
        }
      }
    }
  }

  /** A candidate is left out only because a human near it is already
      listed: every offered candidate ends up listed or near a listed one. */
  lemma {:induction false} AdmitAllCovers(hs: seq<HumanTarget>, cs: seq<HumanTarget>)
    ensures var r := AdmitAll(hs, cs);
      forall c :: c in cs ==> c in r || exists j :: 0 <= j < |r| && Near(c)(r[j])
    decreases |cs|
  {
    if cs != [] {
      var front := cs[..|cs| - 1];
      var c := cs[|cs| - 1];
      AdmitAllCovers(hs, front);
      var p := AdmitAll(hs, front);
      var r := AdmitAll(hs, cs);
      assert r == Admit(p, c);
      assert |p| <= |r| && forall i :: 0 <= i < |p| ==> r[i] == p[i];
      forall d | d in cs ensures d in r || exists j :: 0 <= j < |r| && Near(d)(r[j]) {
        if d != c {
          assert d in front by {
            var i :| 0 <= i < |cs| && cs[i] == d;
            assert i < |cs| - 1 && front[i] == d;
          }
          if d in p {
            var i :| 0 <= i < |p| && p[i] == d;
            assert r[i] == d;
          } else {
            var j :| 0 <= j < |p| && Near(d)(p[j]);
            assert r[j] == p[j];
          }
        } else {
          var k := FirstIndex(p, Near(c));
          if k.Some? {
            assert r[k.value] == p[k.value];
          } else {
            assert r[|p|] == c;
          }
        }
      }
    }
  }

  /** The batch `generateHumanTargets` offers: `floor(roll·2) + 1` humans. */
  function Batch(draws: seq<Draw>, n: nat, w: real, h: real, confidence: real, now: nat): (cs: seq<HumanTarget>)
    requires n <= |draws|
    ensures |cs| == n
    ensures forall k :: 0 <= k < n ==> cs[k] == Candidate(draws[k], w, h, confidence, now, k)
  {
    if n == 0 then [] else Batch(draws, n - 1, w, h, confidence, now) + [Candidate(draws[n - 1], w, h, confidence, now, n - 1)]
  }

  function BatchSize(roll: real): (n: nat)
    requires 0.0 <= roll < 1.0
    ensures 1 <= n <= 2
  {
    (roll * 2.0).Floor + 1
  }

  /** The motion gate: a reading exists and its magnitude is above 2. */
  predicate MotionTriggers(motion: Option<Vec3>, magnitude: real) {
    motion.Some? && magnitude > 2.0
  }

  /** The squared length of a motion reading. */
  function SquaredLength(m: Vec3): real {
    m.x * m.x + m.y * m.y + m.z * m.z
  }

  /** With `magnitude` the square root of the squared length, the gate is
      the comparison of the squared length with 4. */
  lemma MotionGateSquared(m: Vec3, magnitude: real)
    requires magnitude >= 0.0 && magnitude * magnitude == SquaredLength(m)
    ensures MotionTriggers(Some(m), magnitude) <==> SquaredLength(m) > 4.0
  {
    if magnitude > 2.0 {
      assert magnitude * magnitude > 2.0 * magnitude > 4.0;
    } else {
      assert magnitude * magnitude <= 2.0 * magnitude <= 4.0;
    }
  }

  /** Both triggers pass a confidence of at least 1 (the magnitude above 2,
      or 1.0 from the camera path), so every generated human is capped at
      exactly 0.9. */
  lemma GeneratedConfidence(d: Draw, w: real, h: real, confidence: real, now: nat, i: nat)
    requires UnitDraw(d) && confidence >= 1.0
    ensures Candidate(d, w, h, confidence, now, i).confidence == 0.9
  {
  }

  // ---------------------------------------------------------------------
  // Staleness sweep

  function Fresh(now: int): HumanTarget -> bool {
    (h: HumanTarget) => now - h.lastSeen <= 30000
  }

  /** What `updateExistingHumans` does to a survivor. */
  function Step(t: HumanTarget, r: Vec2, now: int, dt: int): (m: HumanTarget)
    ensures m.(position := t.position, boundingBox := t.boundingBox, lastSeen := t.lastSeen) == t
    ensures m.lastSeen == now
    ensures !t.isMoving ==> m == t.(lastSeen := now)
  {
    var moved :=
      if t.isMoving then
        var step := t.movementSpeed * (dt as real / 1000.0);
        var p := t.position.(x := t.position.x + (r.x - 0.5) * step * 10.0,
                             y := t.position.y + (r.y - 0.5) * step * 10.0);
        t.(position := p, boundingBox := t.boundingBox.(x := p.x - 25.0, y := p.y - 50.0))
      else t;
    moved.(lastSeen := now)
  }

  function Sweep(hs: seq<HumanTarget>, rs: seq<Vec2>, now: int, dt: int): seq<HumanTarget>
    requires |rs| == |hs|
  {
    if hs == [] then []
    else (if Fresh(now)(hs[0]) then [Step(hs[0], rs[0], now, dt)] else []) + Sweep(hs[1..], rs[1..], now, dt)
  }

  /** The sweep keeps exactly the humans seen in the last thirty seconds, in
      order, and stamps every survivor as seen now. */
  lemma {:induction false} SweepSpec(hs: seq<HumanTarget>, rs: seq<Vec2>, now: int, dt: int)
    requires |rs| == |hs|
    ensures var r := Sweep(hs, rs, now, dt); var f := Filter(hs, Fresh(now));
      |r| == |f|
      && forall i :: 0 <= i < |r| ==>
           r[i].lastSeen == now
           && r[i].(position := f[i].position, boundingBox := f[i].boundingBox, lastSeen := f[i].lastSeen) == f[i]
  {
    if hs != [] {
      SweepSpec(hs[1..], rs[1..], now, dt);
    }
  }

  /** Because every survivor is stamped as seen, a human that survives one
      sweep survives every later sweep within thirty seconds: while frames
      keep coming, nobody is ever evicted. */
  lemma NoEvictionAfterSweep(hs: seq<HumanTarget>, rs: seq<Vec2>, now: int, dt: int, later: int)
    requires |rs| == |hs| && later - now <= 30000
    ensures Filter(Sweep(hs, rs, now, dt), Fresh(later)) == Sweep(hs, rs, now, dt)
  {
    var r := Sweep(hs, rs, now, dt);
    SweepSpec(hs, rs, now, dt);
    FilterAll(r, Fresh(later));
  }

  // ---------------------------------------------------------------------
  // Queries

  function Confident(): HumanTarget -> bool {
    (h: HumanTarget) => h.confidence > 0.3
  }

  function OtherId(id: string): HumanTarget -> bool {
    (h: HumanTarget) => h.id != id
  }

  function HasId(id: string): HumanTarget -> bool {
    (h: HumanTarget) => h.id == id
  }

  function Moving(): HumanTarget -> bool {
    (h: HumanTarget) => h.isMoving
  }

  datatype Stats = Stats(totalHumans: nat, movingHumans: nat, averageConfidence: real, averageDistance: real)

  function Confidences(hs: seq<HumanTarget>): (r: seq<real>)
    ensures |r| == |hs| && forall i :: 0 <= i < |hs| ==> r[i] == hs[i].confidence
  {
    seq(|hs|, i requires 0 <= i < |hs| => hs[i].confidence)
  }

  function Distances(hs: seq<HumanTarget>): (r: seq<real>)
    ensures |r| == |hs| && forall i :: 0 <= i < |hs| ==> r[i] == hs[i].distance
  {
    seq(|hs|, i requires 0 <= i < |hs| => hs[i].distance)
  }

  function Mean(xs: seq<real>): real {
    if xs == [] then 0.0 else Sum(xs) / |xs| as real
  }

  /** `getDetectionStats`: over the whole list, not only the confident part. */
  function StatsOf(hs: seq<HumanTarget>): Stats {
    Stats(|hs|, |Filter(hs, Moving())|, Mean(Confidences(hs)), Mean(Distances(hs)))
  }

  /** At most every human is moving, both averages are 0 on an empty list,
      and the averages lie within the listed values. */
  lemma StatsSpec(hs: seq<HumanTarget>)
    ensures var s := StatsOf(hs);
      s.movingHumans <= s.totalHumans == |hs|
      && (hs == [] ==> s.averageConfidence == 0.0 && s.averageDistance == 0.0)
      && (hs != [] ==> MinOf(Confidences(hs)) <= s.averageConfidence <= MaxOf(Confidences(hs))
                       && MinOf(Distances(hs)) <= s.averageDistance <= MaxOf(Distances(hs)))
  {
    if hs != [] {
      MeanBetween(Confidences(hs));
      MeanBetween(Distances(hs));
    }
  }

  // ---------------------------------------------------------------------
  // The detector

  class HumanDetection {
    var humans: seq<HumanTarget>

    constructor ()
      ensures humans == []
    {
      humans := [];
    }

    /** `generateHumanTargets`: offers `BatchSize(roll)` fresh candidates one
        after the other. */
    method GenerateHumanTargets(w: real, h: real, confidence: real, roll: real, draws: seq<Draw>, now: nat)
      requires 0.0 <= roll < 1.0 && BatchSize(roll) <= |draws|
      modifies this`humans
      ensures humans == AdmitAll(old(humans), Batch(draws, BatchSize(roll), w, h, confidence, now))
    {
      var n := BatchSize(roll);
      ghost var cs := Batch(draws, n, w, h, confidence, now);
      ghost var start := humans;
      var i := 0;
      while i < n
        invariant 0 <= i <= n
        invariant humans == AdmitAll(start, cs[..i])
      {
        var c := Candidate(draws[i], w, h, confidence, now, i);
        assert cs[..i + 1][..i] == cs[..i] && cs[..i + 1][i] == c;
        if FirstIndex(humans, Near(c)).None? {
          humans := humans + [c];
        }
        i := i + 1;
      }
      assert cs[..n] == cs;
    }

    /** `detectHumansFromMotion`: generation with the motion magnitude as
        confidence, only above the threshold. `magnitude` is the square root
        of the reading's squared length, so the gate is a squared length
        above 4. */
    method DetectHumansFromMotion(motion: Option<Vec3>, magnitude: real, w: real, h: real,
                                  roll: real, draws: seq<Draw>, now: nat)
      requires motion.Some? ==> magnitude >= 0.0 && magnitude * magnitude == SquaredLength(motion.value)
      requires 0.0 <= roll < 1.0 && BatchSize(roll) <= |draws|
      modifies this`humans
      ensures motion.Some? && SquaredLength(motion.value) > 4.0 ==>
        humans == AdmitAll(old(humans), Batch(draws, BatchSize(roll), w, h, magnitude, now))
      ensures motion.None? || SquaredLength(motion.value) <= 4.0 ==> humans == old(humans)
    {
      if motion.None? {
        return;
      }
      MotionGateSquared(motion.value, magnitude);
      if magnitude > 2.0 {
        GenerateHumanTargets(w, h, magnitude, roll, draws, now);
      }
    }

    /** `detectHumansFromCamera`: generation with confidence 1.0 on a 1% roll. */
    method DetectHumansFromCamera(chance: real, w: real, h: real, roll: real, draws: seq<Draw>, now: nat)
      requires 0.0 <= roll < 1.0 && BatchSize(roll) <= |draws|
      modifies this`humans
      ensures chance < 0.01 ==> humans == AdmitAll(old(humans), Batch(draws, BatchSize(roll), w, h, 1.0, now))
      ensures chance >= 0.01 ==> humans == old(humans)
    {
      if chance < 0.01 {
        GenerateHumanTargets(w, h, 1.0, roll, draws, now);
      }
    }

    /** `updateExistingHumans`. */
    method UpdateExistingHumans(now: int, dt: int, rs: seq<Vec2>)
      requires |rs| == |humans|
      modifies this`humans
      ensures humans == Sweep(old(humans), rs, now, dt)
      ensures forall i :: 0 <= i < |humans| ==> humans[i].lastSeen == now
    {
      SweepSpec(humans, rs, now, dt);
      humans := Sweep(humans, rs, now, dt);
    }

    /** `getDetectedHumans`. */
    method GetDetectedHumans() returns (ds: seq<HumanTarget>)
      ensures ds == Filter(humans, Confident())
      ensures forall t :: t in ds <==> t in humans && t.confidence > 0.3
    {
      ds := Filter(humans, Confident());
      forall t ensures t in ds <==> t in humans && t.confidence > 0.3 {
        FilterMembership(humans, Confident(), t);
      }
    }

    /** `getHumanById`. */
    method GetHumanById(id: string) returns (r: Option<HumanTarget>)
      ensures r.Some? ==> r.value in humans && r.value.id == id
      ensures r.None? <==> forall j :: 0 <= j < |humans| ==> humans[j].id != id
      ensures r.Some? ==>
        exists k :: 0 <= k < |humans| && humans[k] == r.value && forall j :: 0 <= j < k ==> humans[j].id != id
    {
      var k := FirstIndex(humans, HasId(id));
      r := if k.Some? then Some(humans[k.value]) else None;
    }

    /** `removeHuman`. */
    method RemoveHuman(id: string)
      modifies this`humans
      ensures humans == Filter(old(humans), OtherId(id))
      ensures forall t :: t in humans <==> t in old(humans) && t.id != id
    {
      forall t ensures t in Filter(humans, OtherId(id)) <==> t in humans && t.id != id {
        FilterMembership(humans, OtherId(id), t);
      }
      humans := Filter(humans, OtherId(id));
    }

    /** `clearHumans`. */
    method ClearHumans()
      modifies this`humans
      ensures humans == []
    {
      humans := [];
    }

    /** `getDetectionStats`. */
    method GetDetectionStats() returns (s: Stats)
      ensures s == StatsOf(humans)
      ensures s.movingHumans <= s.totalHumans
    {
      StatsSpec(humans);
      s := StatsOf(humans);
    }
  }
}
