/** `AdvancedTargetDetection` (src/lib/advancedTargetDetection.ts): eight
    fixed targets (five people, three phones) placed around the player in
    metres, whose visibility and confidence fall with distance inside a
    500 m detection range, whose phones' signal and battery drift, and whose
    distances are recomputed when the player moves. Random draws, the clock,
    the trigonometry of the initial placement and square roots are
    parameters. */
module Advanced {

  import opened Common

  const MaxDetectionRange: real := 500.0

  datatype Kind = HumanKind | DeviceKind

  datatype Box = Box(x: real, y: real, width: real, height: real)

  datatype HumanData = HumanData(height: real, movementSpeed: real, lastSeen: int, isMoving: bool, direction: Vec3)

  datatype DeviceData = DeviceData(signalStrength: real, batteryLevel: real, lastPing: int)

  datatype Target = Target(
    id: string,
    kind: Kind,
    position: Vec3,
    distance: real,
    health: int,
    isVisible: bool,
    confidence: real,
    boundingBox: Box,
    humanData: Option<HumanData>,
    deviceData: Option<DeviceData>)

  function Id(t: Target): string { t.id }

  predicate Unit(r: real) {
    0.0 <= r < 1.0
  }

  // ---------------------------------------------------------------------
  // Visibility and confidence

  /** `max(0.1, 1 - d/500)`: the base chance shared by both estimates. */
  function Closeness(distance: real): (c: real)
    ensures c >= 0.1
    ensures distance >= 0.0 ==> c <= 1.0
  {
    MaxReal(0.1, 1.0 - distance / MaxDetectionRange)
  }

  /** `calculateVisibility` with its two draws: the environmental factor
      (`envRoll`) and the visibility roll. */
  function Visibility(distance: real, envRoll: real, roll: real): (v: bool)
    ensures distance > MaxDetectionRange ==> !v
  {
    if distance > MaxDetectionRange then false
    else roll < Closeness(distance) * (envRoll * 0.3 + 0.7)
  }

  /** Inside the range the chance never drops below 0.1 × 0.7, so a roll
      under 0.07 always sees the target. */
  lemma VisibleOnLowRoll(distance: real, envRoll: real, roll: real)
    requires distance <= MaxDetectionRange && Unit(envRoll) && roll < 0.07
    ensures Visibility(distance, envRoll, roll)
  {
    assert Closeness(distance) * (envRoll * 0.3 + 0.7) >= 0.1 * 0.7;
  }

  /** `calculateConfidence` with its noise draw. */
  function Confidence(distance: real, noiseRoll: real): (c: real)
    ensures 0.0 <= c <= 1.0
  {
    Clamp(Closeness(distance) + (noiseRoll - 0.5) * 0.2, 0.0, 1.0)
  }

  /** For the same noise, a farther target is never more confident. */
  lemma ConfidenceMonotone(d1: real, d2: real, noiseRoll: real)
    requires d1 <= d2
    ensures Confidence(d2, noiseRoll) <= Confidence(d1, noiseRoll)
  {
  }

  // ---------------------------------------------------------------------
  // Device signal

  /** `updateDeviceSignal`: signal jitters by up to ±1 and is kept in
      [0, 100]; the battery drains 0.01 per second and stays at or above 0. */
  function SignalStep(d: DeviceData, roll: real, dt: int, now: int): (r: DeviceData)
    ensures 0.0 <= r.signalStrength <= 100.0 && r.batteryLevel >= 0.0 && r.lastPing == now
  {
    DeviceData(
      Clamp(d.signalStrength + (roll - 0.5) * 2.0, 0.0, 100.0),
      MaxReal(0.0, d.batteryLevel - 0.01 * (dt as real / 1000.0)),
      now)
  }

  /** A signal already in range moves by at most 1 per step, and with time
      going forward the battery never recharges. */
  lemma SignalStepBounded(d: DeviceData, roll: real, dt: int, now: int)
    requires 0.0 <= d.signalStrength <= 100.0 && d.batteryLevel >= 0.0 && Unit(roll) && dt >= 0
    ensures Abs(SignalStep(d, roll, dt, now).signalStrength - d.signalStrength) <= 1.0
    ensures SignalStep(d, roll, dt, now).batteryLevel <= d.batteryLevel
  {
  }

  // ---------------------------------------------------------------------
  // Initial placement

  datatype HumanSeed = HumanSeed(id: string, distance: real, angle: real, height: real)

  datatype DeviceSeed = DeviceSeed(id: string, distance: real, angle: real, signalStrength: real)

  const HumanSeeds: seq<HumanSeed> := [
    HumanSeed("human_1", 150.0, 45.0, 1.75),
    HumanSeed("human_2", 300.0, 120.0, 1.80),
    HumanSeed("human_3", 450.0, 200.0, 1.70),
    HumanSeed("human_4", 200.0, 320.0, 1.85),
    HumanSeed("human_5", 380.0, 90.0, 1.78)]

  const DeviceSeeds: seq<DeviceSeed> := [
    DeviceSeed("device_1", 180.0, 60.0, 85.0),
    DeviceSeed("device_2", 250.0, 150.0, 72.0),
    DeviceSeed("device_3", 420.0, 280.0, 45.0)]

  /** What the construction of one target draws or computes outside this
      model: its position (cosine and sine of the seed's angle times the
      distance), its perspective box, and its random numbers. */
  datatype Env = Env(
    position: Vec3, box: Box,
    envRoll: real, visRoll: real, noiseRoll: real,
    speedRoll: real, movingRoll: real, dirX: real, dirZ: real, batteryRoll: real)

  function SeedHuman(s: HumanSeed, e: Env, now: int): Target {
    Target(s.id, HumanKind, e.position.(y := s.height), s.distance, 3,
           Visibility(s.distance, e.envRoll, e.visRoll), Confidence(s.distance, e.noiseRoll), e.box,
           Some(HumanData(s.height, e.speedRoll * 2.0 + 0.5, now, e.movingRoll > 0.7,
                          Vec3(e.dirX - 0.5, 0.0, e.dirZ - 0.5))),
           None)
  }

  function SeedDevice(s: DeviceSeed, e: Env, now: int): Target {
    Target(s.id, DeviceKind, e.position.(y := 1.5), s.distance, 2,
           Visibility(s.distance, e.envRoll, e.visRoll), Confidence(s.distance, e.noiseRoll), e.box,
           None,
           Some(DeviceData(s.signalStrength, e.batteryRoll * 100.0, now)))
  }

  function SeededHumans(env: seq<Env>, n: nat, now: int): (r: seq<Target>)
    requires n <= 5 && n <= |env|
    ensures |r| == n && forall i :: 0 <= i < n ==> r[i] == SeedHuman(HumanSeeds[i], env[i], now)
  {
    if n == 0 then [] else SeededHumans(env, n - 1, now) + [SeedHuman(HumanSeeds[n - 1], env[n - 1], now)]
  }

  function SeededDevices(env: seq<Env>, n: nat, now: int): (r: seq<Target>)
    requires n <= 3 && 5 + n <= |env|
    ensures |r| == n && forall i :: 0 <= i < n ==> r[i] == SeedDevice(DeviceSeeds[i], env[5 + i], now)
  {
    if n == 0 then [] else SeededDevices(env, n - 1, now) + [SeedDevice(DeviceSeeds[n - 1], env[5 + n - 1], now)]
  }

  function InitialTargets(env: seq<Env>, now: int): seq<Target>
    requires |env| == 8
  {
    SeededHumans(env, 5, now) + SeededDevices(env, 3, now)
  }

  const InitialIds: seq<string> :=
    ["human_1", "human_2", "human_3", "human_4", "human_5", "device_1", "device_2", "device_3"]

  /** The eight initial ids, in order, are pairwise distinct. */
  lemma InitialIdsDistinct()
    ensures forall i, j :: 0 <= i < j < 8 ==> InitialIds[i] != InitialIds[j]
  {
    forall i, j | 0 <= i < j < 8 ensures InitialIds[i] != InitialIds[j] {
      if j < 5 {
        assert InitialIds[i][6] != InitialIds[j][6];
      } else if i < 5 {
        assert InitialIds[i][0] != InitialIds[j][0];
      } else {
        assert InitialIds[i][7] != InitialIds[j][7];
      }
    }
  }

  /** The detector starts with `human_1`…`human_5` followed by
      `device_1`…`device_3`, so no id repeats. */
  lemma InitialIdsUnique(env: seq<Env>, now: int)
    requires |env| == 8
    ensures var r := InitialTargets(env, now);
      |r| == 8 && (forall i :: 0 <= i < 8 ==> r[i].id == InitialIds[i]) && UniqueKeys(r, Id)
  {
    var r := InitialTargets(env, now);
    assert forall i :: 0 <= i < 5 ==> r[i] == SeedHuman(HumanSeeds[i], env[i], now);
    assert forall i :: 5 <= i < 8 ==> r[i] == SeedDevice(DeviceSeeds[i - 5], env[i], now);
    InitialIdsDistinct();
  }

  /** Five people with health 3, then three phones with health 2, all
      inside the detection range; the phones' signal is 85, 72 and 45 and
      their battery in [0, 100). */
  lemma InitialShape(env: seq<Env>, now: int)
    requires |env| == 8 && forall i :: 0 <= i < 8 ==> Unit(env[i].batteryRoll)
    ensures var r := InitialTargets(env, now);
      |r| == 8
      && (forall i :: 0 <= i < 5 ==> r[i].kind == HumanKind && r[i].health == 3 && r[i].humanData.Some?)
      && (forall i :: 5 <= i < 8 ==> r[i].kind == DeviceKind && r[i].health == 2 && r[i].deviceData.Some?
                                     && 0.0 <= r[i].deviceData.value.batteryLevel < 100.0)
      && (forall i :: 0 <= i < 8 ==> r[i].distance <= MaxDetectionRange)
      && r[5].deviceData.value.signalStrength == 85.0
      && r[6].deviceData.value.signalStrength == 72.0
      && r[7].deviceData.value.signalStrength == 45.0
  {
    var r := InitialTargets(env, now);
    assert forall i :: 0 <= i < 5 ==> r[i] == SeedHuman(HumanSeeds[i], env[i], now);
    assert forall i :: 5 <= i < 8 ==> r[i] == SeedDevice(DeviceSeeds[i - 5], env[i], now);
  }

  // ---------------------------------------------------------------------
  // Health

  function HasId(id: string): Target -> bool {
    (t: Target) => t.id == id
  }

  function OtherId(id: string): Target -> bool {
    (t: Target) => t.id != id
  }

  /** What `updateTargetHealth` does to the target it finds. */
  function Wound(t: Target, newHealth: int): (r: Target)
    ensures r.health >= 0 && r.health == if newHealth > 0 then newHealth else 0
    ensures r.health == 0 ==> !r.isVisible
    ensures r.health > 0 ==> r.isVisible == t.isVisible
    ensures r.(health := t.health, isVisible := t.isVisible) == t
  {
    var hp := if newHealth > 0 then newHealth else 0;
    if hp == 0 then t.(health := hp, isVisible := false) else t.(health := hp)
  }

  function SetHealth(ts: seq<Target>, id: string, newHealth: int): seq<Target> {
    match FirstIndex(ts, HasId(id))
    case None => ts
    case Some(i) => ts[i := Wound(ts[i], newHealth)]
  }

  /** An unknown id changes nothing; otherwise only the target with the id
      changes, and only its health and visibility. */
  lemma SetHealthSpec(ts: seq<Target>, id: string, newHealth: int)
    requires UniqueKeys(ts, Id)
    ensures var r := SetHealth(ts, id, newHealth);
      |r| == |ts| && UniqueKeys(r, Id)
      && ((forall j :: 0 <= j < |ts| ==> ts[j].id != id) ==> r == ts)
      && (forall i :: 0 <= i < |ts| ==>
            (ts[i].id != id ==> r[i] == ts[i]) && (ts[i].id == id ==> r[i] == Wound(ts[i], newHealth)))
  {
    var r := SetHealth(ts, id, newHealth);
    match FirstIndex(ts, HasId(id))
    case None =>
    case Some(k) =>
      assert HasId(id)(ts[k]);
      forall j | 0 <= j < |r| ensures Id(r[j]) == Id(ts[j]) {
      }
  }

  /** The squared planar distance from the player at (x, z). */
  function PlanarSq(p: Vec3, x: real, z: real): real {
    (p.x - x) * (p.x - x) + (p.z - z) * (p.z - z)
  }

  function Visible(): Target -> bool {
    (t: Target) => t.isVisible
  }

  // ---------------------------------------------------------------------
  // The detector

  class AdvancedTargetDetection {
    var targets: seq<Target>
    var playerPosition: Vec3

    ghost predicate Valid()
      reads this
    {
      UniqueKeys(targets, Id)
    }

    /** The constructor places the eight initial targets. */
    constructor (env: seq<Env>, now: int)
      requires |env| == 8
      ensures Valid()
      ensures targets == InitialTargets(env, now) && playerPosition == Vec3(0.0, 0.0, 0.0)
    {
      targets := [];
      playerPosition := Vec3(0.0, 0.0, 0.0);
      new;
      InitializeTargets(env, now);
      InitialIdsUnique(env, now);
    }

    /** `initializeTargets`: pushes the five people, then the three phones. */
    method InitializeTargets(env: seq<Env>, now: int)
      requires |env| == 8
      modifies this`targets
      ensures targets == old(targets) + InitialTargets(env, now)
    {
      ghost var start := targets;
      var i := 0;
      while i < 5
        invariant 0 <= i <= 5 && targets == start + SeededHumans(env, i, now)
      {
        targets := targets + [SeedHuman(HumanSeeds[i], env[i], now)];
        i := i + 1;
      }
      i := 0;
      while i < 3
        invariant 0 <= i <= 3 && targets == start + SeededHumans(env, 5, now) + SeededDevices(env, i, now)
      {
        targets := targets + [SeedDevice(DeviceSeeds[i], env[5 + i], now)];
        i := i + 1;
      }
    }

    /** `getVisibleTargets`. */
    method GetVisibleTargets() returns (vs: seq<Target>)
      ensures vs == Filter(targets, Visible())
      ensures forall t :: t in vs <==> t in targets && t.isVisible
    {
      vs := Filter(targets, Visible());
      forall t ensures t in vs <==> t in targets && t.isVisible {
        FilterMembership(targets, Visible(), t);
      }
    }

    /** `getTargetById`: the first entry with that id. */
    method GetTargetById(id: string) returns (r: Option<Target>)
      ensures r.Some? ==> r.value in targets && r.value.id == id
      ensures r.None? <==> forall j :: 0 <= j < |targets| ==> targets[j].id != id
      ensures r.Some? ==>
        exists k :: 0 <= k < |targets| && targets[k] == r.value && forall j :: 0 <= j < k ==> targets[j].id != id
    {
      var k := FirstIndex(targets, HasId(id));
      r := if k.Some? then Some(targets[k.value]) else None;
    }

    /** `updateTargetHealth`. */
    method UpdateTargetHealth(id: string, newHealth: int)
      requires Valid()
      modifies this`targets
      ensures Valid()
      ensures targets == SetHealth(old(targets), id, newHealth)
    {
      SetHealthSpec(targets, id, newHealth);
      var k := FirstIndex(targets, HasId(id));
      if k.Some? {
        targets := targets[k.value := Wound(targets[k.value], newHealth)];
      }
    }

    /** `removeTarget`. */
    method RemoveTarget(id: string)
      requires Valid()
      modifies this`targets
      ensures Valid()
      ensures targets == Filter(old(targets), OtherId(id))
      ensures forall t :: t in targets <==> t in old(targets) && t.id != id
    {
      forall t ensures t in Filter(targets, OtherId(id)) <==> t in targets && t.id != id {
        FilterMembership(targets, OtherId(id), t);
      }
      UniqueKeysFilter(targets, OtherId(id), Id);
      targets := Filter(targets, OtherId(id));
    }

    /** `clearTargets`. */
    method ClearTargets()
      modifies this`targets
      ensures Valid() && targets == []
    {
      targets := [];
    }

    /** `updatePlayerPosition`: stores the position and sets every target's
        distance to its planar (x, z) distance from it; `roots[i]` is the
        square root the source computes for target `i`. */
    method UpdatePlayerPosition(x: real, y: real, z: real, roots: seq<real>)
      requires Valid() && |roots| == |targets|
      requires forall i :: 0 <= i < |roots| ==> roots[i] >= 0.0 && roots[i] * roots[i] == PlanarSq(targets[i].position, x, z)
      modifies this`targets, this`playerPosition
      ensures Valid() && playerPosition == Vec3(x, y, z) && |targets| == |old(targets)|
      ensures forall i :: 0 <= i < |targets| ==>
        targets[i] == old(targets)[i].(distance := roots[i])
        && targets[i].distance >= 0.0
        && targets[i].distance * targets[i].distance == PlanarSq(targets[i].position, x, z)
    {
      playerPosition := Vec3(x, y, z);
      ghost var start := targets;
      var i := 0;
      while i < |targets|
        invariant 0 <= i <= |targets| == |start| && playerPosition == Vec3(x, y, z)
        invariant forall j :: 0 <= j < i ==> targets[j] == start[j].(distance := roots[j])
        invariant forall j :: i <= j < |targets| ==> targets[j] == start[j]
        invariant forall j :: 0 <= j < |targets| ==> Id(targets[j]) == Id(start[j])
      {
        targets := targets[i := targets[i].(distance := roots[i])];
        i := i + 1;
      }
    }
  }
}
