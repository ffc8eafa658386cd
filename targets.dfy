/** `TargetDetection` (src/lib/targetDetection.ts): each frame, batches of
    simulated human and device targets with fixed ids (`human_i`,
    `device_i`) are folded into the target list by id, and the game lowers
    a target's health until it disappears. Random draws are parameters. */
module Targets {

  import opened Common
  import Text

  datatype Kind = HumanKind | DeviceKind

  datatype Box = Box(x: real, y: real, width: real, height: real)

  datatype Target = Target(
    id: string,
    kind: Kind,
    position: Vec2,
    health: int,
    isVisible: bool,
    confidence: real,
    boundingBox: Box)

  function Id(t: Target): string { t.id }

  /** The random numbers drawn for one generated target, each in [0, 1). */
  datatype Draw = Draw(x: real, y: real, visible: real, confidence: real)

  predicate UnitDraws(ds: seq<Draw>) {
    forall i :: 0 <= i < |ds| ==>
      0.0 <= ds[i].x < 1.0 && 0.0 <= ds[i].y < 1.0 && 0.0 <= ds[i].visible < 1.0 && 0.0 <= ds[i].confidence < 1.0
  }

  // ---------------------------------------------------------------------
  // Generators

  function HumanAt(d: Draw, w: real, h: real, i: nat): Target {
    var x := d.x * w;
    var y := d.y * h;
    Target("human_" + Text.NatToString(i), HumanKind, Vec2(x, y), 3, d.visible > 0.3,
           d.confidence * 0.5 + 0.5, Box(x - 25.0, y - 50.0, 50.0, 100.0))
  }

  function DeviceAt(d: Draw, w: real, h: real, i: nat): Target {
    var x := d.x * w;
    var y := d.y * h;
    Target("device_" + Text.NatToString(i), DeviceKind, Vec2(x, y), 2, d.visible > 0.2,
           d.confidence * 0.3 + 0.7, Box(x - 20.0, y - 20.0, 40.0, 40.0))
  }

  /** `floor(roll·3) + base` targets. */
  function Count(roll: real, base: nat): (n: nat)
    requires 0.0 <= roll < 1.0
    ensures base <= n <= base + 2
  {
    (roll * 3.0).Floor + base
  }

  function Humans(draws: seq<Draw>, n: nat, w: real, h: real): (r: seq<Target>)
    requires n <= |draws|
    ensures |r| == n && forall i :: 0 <= i < n ==> r[i] == HumanAt(draws[i], w, h, i)
  {
    if n == 0 then [] else Humans(draws, n - 1, w, h) + [HumanAt(draws[n - 1], w, h, n - 1)]
  }

  function Devices(draws: seq<Draw>, n: nat, w: real, h: real): (r: seq<Target>)
    requires n <= |draws|
    ensures |r| == n && forall i :: 0 <= i < n ==> r[i] == DeviceAt(draws[i], w, h, i)
  {
    if n == 0 then [] else Devices(draws, n - 1, w, h) + [DeviceAt(draws[n - 1], w, h, n - 1)]
  }

  /** `prefix + i` for distinct `i` are distinct strings. */
  lemma IndexedIdsDistinct(prefix: string, i: nat, j: nat)
    requires i != j
    ensures prefix + Text.NatToString(i) != prefix + Text.NatToString(j)
  {
    Text.NatToStringInjective(i, j);
    assert (prefix + Text.NatToString(i))[|prefix|..] == Text.NatToString(i);
    assert (prefix + Text.NatToString(j))[|prefix|..] == Text.NatToString(j);
  }

  /** A human batch has 2 to 4 targets, all humans with health 3, distinct
      ids `human_0`, `human_1`, …, and confidence in [0.5, 1). */
  lemma HumansShape(draws: seq<Draw>, roll: real, w: real, h: real)
    requires 0.0 <= roll < 1.0 && Count(roll, 2) <= |draws| && UnitDraws(draws)
    ensures var r := Humans(draws, Count(roll, 2), w, h);
      2 <= |r| <= 4 && UniqueKeys(r, Id)
      && forall i :: 0 <= i < |r| ==>
           r[i].kind == HumanKind && r[i].health == 3 && r[i].id == "human_" + Text.NatToString(i)
           && 0.5 <= r[i].confidence < 1.0
  {
    var r := Humans(draws, Count(roll, 2), w, h);
    forall i, j | 0 <= i < j < |r| ensures Id(r[i]) != Id(r[j]) {
      IndexedIdsDistinct("human_", i, j);
    }
  }

  /** A device batch has 1 to 3 targets, all devices with health 2, distinct
      ids `device_0`, …, and confidence in [0.7, 1). */
  lemma DevicesShape(draws: seq<Draw>, roll: real, w: real, h: real)
    requires 0.0 <= roll < 1.0 && Count(roll, 1) <= |draws| && UnitDraws(draws)
    ensures var r := Devices(draws, Count(roll, 1), w, h);
      1 <= |r| <= 3 && UniqueKeys(r, Id)
      && forall i :: 0 <= i < |r| ==>
           r[i].kind == DeviceKind && r[i].health == 2 && r[i].id == "device_" + Text.NatToString(i)
           && 0.7 <= r[i].confidence < 1.0
  {
    var r := Devices(draws, Count(roll, 1), w, h);
    forall i, j | 0 <= i < j < |r| ensures Id(r[i]) != Id(r[j]) {
      IndexedIdsDistinct("device_", i, j);
    }
  }

  // ---------------------------------------------------------------------
  // Folding a batch in by id

  function HasId(id: string): Target -> bool {
    (t: Target) => t.id == id
  }

  function OtherId(id: string): Target -> bool {
    (t: Target) => t.id != id
  }

  /** What the detectors do to a listed target that a new one shares its id
      with: position, visibility and confidence are taken over; kind, health
      and bounding box stay. */
  function Overwrite(e: Target, t: Target): (r: Target)
    ensures r.id == e.id && r.kind == e.kind && r.health == e.health && r.boundingBox == e.boundingBox
    ensures r.position == t.position && r.isVisible == t.isVisible && r.confidence == t.confidence
  {
    e.(position := t.position, isVisible := t.isVisible, confidence := t.confidence)
  }

  function Upsert(ts: seq<Target>, t: Target): seq<Target> {
    match FirstIndex(ts, HasId(t.id))
    case None => ts + [t]
    case Some(i) => ts[i := Overwrite(ts[i], t)]
  }

  function UpsertAll(ts: seq<Target>, batch: seq<Target>): seq<Target>
    decreases |batch|
  {
    if batch == [] then ts else Upsert(UpsertAll(ts, batch[..|batch| - 1]), batch[|batch| - 1])
  }

  /** One upsert keeps ids unique, appends a target with a new id, and
      otherwise overwrites the one entry with that id and nothing else. */
  lemma UpsertSpec(ts: seq<Target>, t: Target)
    requires UniqueKeys(ts, Id)
    ensures var r := Upsert(ts, t);
      UniqueKeys(r, Id)
      && ((forall j :: 0 <= j < |ts| ==> ts[j].id != t.id) ==> r == ts + [t])
      && (forall i :: 0 <= i < |ts| && ts[i].id == t.id ==> r == ts[i := Overwrite(ts[i], t)])
  {
    var r := Upsert(ts, t);
    match FirstIndex(ts, HasId(t.id))
    case None =>
      forall j | 0 <= j < |ts| ensures Id(ts[j]) != Id(t) {
        assert !HasId(t.id)(ts[j]);
      }
    case Some(i) =>
      assert HasId(t.id)(ts[i]);
      forall j | 0 <= j < |r| ensures Id(r[j]) == Id(ts[j]) {
      }
  }

  /** Folding a whole batch in keeps ids unique and never shortens the list. */
  lemma {:induction false} UpsertAllUnique(ts: seq<Target>, batch: seq<Target>)
    requires UniqueKeys(ts, Id)
    ensures UniqueKeys(UpsertAll(ts, batch), Id)
    ensures |ts| <= |UpsertAll(ts, batch)| <= |ts| + |batch|
    decreases |batch|
  {
    if batch != [] {
      UpsertAllUnique(ts, batch[..|batch| - 1]);
      UpsertSpec(UpsertAll(ts, batch[..|batch| - 1]), batch[|batch| - 1]);
    }
  }

  // ---------------------------------------------------------------------
  // Health

  /** What `updateTargetHealth` does to the target it finds. */
  function Wound(t: Target, newHealth: int): (r: Target)
    ensures r.health >= 0 && r.health == if newHealth > 0 then newHealth else 0
    ensures r.health == 0 ==> !r.isVisible
    ensures r.health > 0 ==> r.isVisible == t.isVisible
    ensures r.(health := t.health, isVisible := t.isVisible) == t
  {
    var hp := if newHealth > 0 then newHealth else 0;
    if hp == 0 then t.(health := hp, isVisible := false) else t.(health := hp)
  }

  function SetHealth(ts: seq<Target>, id: string, newHealth: int): seq<Target> {
    match FirstIndex(ts, HasId(id))
    case None => ts
    case Some(i) => ts[i := Wound(ts[i], newHealth)]
  }

  /** An unknown id changes nothing; otherwise only the target with the id
      changes, and only its health and visibility. */
  lemma SetHealthSpec(ts: seq<Target>, id: string, newHealth: int)
    requires UniqueKeys(ts, Id)
    ensures var r := SetHealth(ts, id, newHealth);
      |r| == |ts| && UniqueKeys(r, Id)
      && ((forall j :: 0 <= j < |ts| ==> ts[j].id != id) ==> r == ts)
      && (forall i :: 0 <= i < |ts| ==>
            (ts[i].id != id ==> r[i] == ts[i]) && (ts[i].id == id ==> r[i] == Wound(ts[i], newHealth)))
  {
    var r := SetHealth(ts, id, newHealth);
    match FirstIndex(ts, HasId(id))
    case None =>
    case Some(k) =>
      assert HasId(id)(ts[k]);
      forall j | 0 <= j < |r| ensures Id(r[j]) == Id(ts[j]) {
      }
  }

  // ---------------------------------------------------------------------
  // The detector

  function Visible(): Target -> bool {
    (t: Target) => t.isVisible
  }

  class TargetDetection {
    var targets: seq<Target>

    ghost predicate Valid()
      reads this
    {
      UniqueKeys(targets, Id)
    }

    constructor ()
      ensures Valid() && targets == []
    {
      targets := [];
    }

    /** `generateSimulatedHumans`. */
    method GenerateSimulatedHumans(w: real, h: real, roll: real, draws: seq<Draw>) returns (r: seq<Target>)
      requires 0.0 <= roll < 1.0 && Count(roll, 2) <= |draws|
      ensures r == Humans(draws, Count(roll, 2), w, h)
    {
      var n := Count(roll, 2);
      r := [];
      var i := 0;
      while i < n
        invariant 0 <= i <= n && r == Humans(draws, i, w, h)
      {
        r := r + [HumanAt(draws[i], w, h, i)];
        i := i + 1;
      }
    }

    /** `generateSimulatedDevices`. */
    method GenerateSimulatedDevices(w: real, h: real, roll: real, draws: seq<Draw>) returns (r: seq<Target>)
      requires 0.0 <= roll < 1.0 && Count(roll, 1) <= |draws|
      ensures r == Devices(draws, Count(roll, 1), w, h)
    {
      var n := Count(roll, 1);
      r := [];
      var i := 0;
      while i < n
        invariant 0 <= i <= n && r == Devices(draws, i, w, h)
      {
        r := r + [DeviceAt(draws[i], w, h, i)];
        i := i + 1;
      }
    }

    /** The `forEach` both detectors run over a generated batch. */
    method Absorb(batch: seq<Target>)
      requires Valid()
      modifies this`targets
      ensures Valid()
      ensures targets == UpsertAll(old(targets), batch)
    {
      ghost var start := targets;
      var i := 0;
      while i < |batch|
        invariant 0 <= i <= |batch|
        invariant targets == UpsertAll(start, batch[..i]) && Valid()
      {
        var t := batch[i];
        assert batch[..i + 1][..i] == batch[..i] && batch[..i + 1][i] == t;
        UpsertSpec(targets, t);
        var k := FirstIndex(targets, HasId(t.id));
        if k.Some? {
          targets := targets[k.value := Overwrite(targets[k.value], t)];
        } else {
          targets := targets + [t];
        }
        i := i + 1;
      }
      assert batch[..|batch|] == batch;
    }

    /** `detectHumanTargets`: runs only where the browser has device-motion
        events. */
    method DetectHumanTargets(motionSupported: bool, w: real, h: real, roll: real, draws: seq<Draw>)
      requires Valid() && 0.0 <= roll < 1.0 && Count(roll, 2) <= |draws|
      modifies this`targets
      ensures Valid()
      ensures motionSupported ==> targets == UpsertAll(old(targets), Humans(draws, Count(roll, 2), w, h))
      ensures !motionSupported ==> targets == old(targets)
    {
      if motionSupported {
        var batch := GenerateSimulatedHumans(w, h, roll, draws);
        Absorb(batch);
      }
    }

    /** `detectDeviceTargets`. */
    method DetectDeviceTargets(w: real, h: real, roll: real, draws: seq<Draw>)
      requires Valid() && 0.0 <= roll < 1.0 && Count(roll, 1) <= |draws|
      modifies this`targets
      ensures Valid()
      ensures targets == UpsertAll(old(targets), Devices(draws, Count(roll, 1), w, h))
    {
      var batch := GenerateSimulatedDevices(w, h, roll, draws);
      Absorb(batch);
    }

    /** `getVisibleTargets`. */
    method GetVisibleTargets() returns (vs: seq<Target>)
      ensures vs == Filter(targets, Visible())
      ensures forall t :: t in vs <==> t in targets && t.isVisible
    {
      vs := Filter(targets, Visible());
      forall t ensures t in vs <==> t in targets && t.isVisible {
        FilterMembership(targets, Visible(), t);
      }
    }

    /** `getTargetById`: the first entry with that id. */
    method GetTargetById(id: string) returns (r: Option<Target>)
      ensures r.Some? ==> r.value in targets && r.value.id == id
      ensures r.None? <==> forall j :: 0 <= j < |targets| ==> targets[j].id != id
      ensures r.Some? ==>
        exists k :: 0 <= k < |targets| && targets[k] == r.value && forall j :: 0 <= j < k ==> targets[j].id != id
    {
      var k := FirstIndex(targets, HasId(id));
      r := if k.Some? then Some(targets[k.value]) else None;
    }

    /** `updateTargetHealth`. */
    method UpdateTargetHealth(id: string, newHealth: int)
      requires Valid()
      modifies this`targets
      ensures Valid()
      ensures targets == SetHealth(old(targets), id, newHealth)
    {
      SetHealthSpec(targets, id, newHealth);
      var k := FirstIndex(targets, HasId(id));
      if k.Some? {
        targets := targets[k.value := Wound(targets[k.value], newHealth)];
      }
    }

    /** `removeTarget`. */
    method RemoveTarget(id: string)
      requires Valid()
      modifies this`targets
      ensures Valid()
      ensures targets == Filter(old(targets), OtherId(id))
      ensures forall t :: t in targets <==> t in old(targets) && t.id != id
    {
      forall t ensures t in Filter(targets, OtherId(id)) <==> t in targets && t.id != id {
        FilterMembership(targets, OtherId(id), t);
      }
      UniqueKeysFilter(targets, OtherId(id), Id);
      targets := Filter(targets, OtherId(id));
    }

    /** `clearTargets`. */
    method ClearTargets()
      modifies this`targets
      ensures Valid() && targets == []
    {
      targets := [];
    }
  }
}
