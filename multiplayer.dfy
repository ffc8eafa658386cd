/** `MultiplayerTargetDetection` (src/lib/multiplayerTargetDetection.ts):
    a list of targets found either from other players' GPS fixes or from
    skin-coloured regions of the camera frame, merged by id and by screen
    proximity, and dropped when not seen for ten seconds. */
module MultiplayerDetection {

  import opened Common
  import Text

  /** How a target was found. */
  datatype Source = FromGps | FromHuman | Combined

  datatype Target = Target(
    id: string,
    playerId: string,
    nama: string,
    tim: Team,
    position: Vec3,
    gps: Gps,
    distance: real,
    confidence: real,
    isMoving: bool,
    faceDetected: bool,
    health: int,
    lastSeen: int,
    source: Source)

  function Id(t: Target): string { t.id }

  // ---------------------------------------------------------------------
  // Skin-tone scan over RGBA bytes

  newtype Byte = x: int | 0 <= x < 256

  /** A pixel position: column `x`, row `y`. */
  datatype Pixel = Pixel(x: nat, y: nat)

  /** The colour test applied to one pixel. */
  predicate IsSkin(r: int, g: int, b: int) {
    var hi := if r >= g && r >= b then r else if g >= b then g else b;
    var lo := if r <= g && r <= b then r else if g <= b then g else b;
    r > 95 && g > 40 && b > 20 && hi - lo > 15
    && (if r >= g then r - g else g - r) > 15 && r > g && r > b
  }

  /** Pixel `k` passes the test. Its green or blue byte lying past the end of
      the buffer makes the comparison fail, as `undefined > 40` does. */
  predicate IsSkinAt(d: seq<Byte>, k: nat) {
    4 * k + 2 < |d| && IsSkin(d[4 * k] as int, d[4 * k + 1] as int, d[4 * k + 2] as int)
  }

  /** Pixel number `k` of a row-major frame `w` pixels wide. */
  function PixelAt(k: nat, w: nat): (p: Pixel)
    requires w > 0
    ensures p.x < w && Index(p, w) == k
  {
    Pixel(k % w, k / w)
  }

  function Index(p: Pixel, w: nat): nat {
    p.y * w + p.x
  }

  /** The skin pixels among the first `n` pixels of the frame, in scan order. */
  function ScanPixels(d: seq<Byte>, w: nat, n: nat): seq<Pixel>
    requires w > 0
  {
    if n == 0 then []
    else ScanPixels(d, w, n - 1) + (if IsSkinAt(d, n - 1) then [PixelAt(n - 1, w)] else [])
  }

  /** Every pixel the byte loop visits: one per group of four bytes, the last
      group possibly incomplete. */
  function SkinPixels(d: seq<Byte>, w: nat): seq<Pixel>
    requires w > 0
  {
    ScanPixels(d, w, (|d| + 3) / 4)
  }

  /** The scan reports exactly the pixels that pass the test, each once, in
      increasing scan order, every one inside the frame's width. */
  lemma {:induction false} ScanPixelsSpec(d: seq<Byte>, w: nat, n: nat)
    requires w > 0
    ensures var r := ScanPixels(d, w, n);
      |r| <= n
      && (forall i :: 0 <= i < |r| ==> r[i].x < w && Index(r[i], w) < n && IsSkinAt(d, Index(r[i], w)))
      && (forall i, j :: 0 <= i < j < |r| ==> Index(r[i], w) < Index(r[j], w))
      && (forall k :: 0 <= k < n && IsSkinAt(d, k) ==> PixelAt(k, w) in r)
  {
    if n > 0 {
      ScanPixelsSpec(d, w, n - 1);
    }
  }

  // ---------------------------------------------------------------------
  // Upsert by id

  /** What `addTarget` does to an entry that already has the new target's id. */
  function Refresh(old_: Target, t: Target, now: int): (r: Target)
    ensures r.id == old_.id && r.position == t.position && r.lastSeen == now
    ensures r.confidence >= old_.confidence && r.confidence >= t.confidence
    ensures r.faceDetected <==> old_.faceDetected || t.faceDetected
    ensures r.(position := old_.position, confidence := old_.confidence,
               lastSeen := old_.lastSeen, faceDetected := old_.faceDetected) == old_
  {
    old_.(position := t.position,
          confidence := MaxReal(old_.confidence, t.confidence),
          lastSeen := now,
          faceDetected := t.faceDetected || old_.faceDetected)
  }

  function HasId(id: string): Target -> bool {
    (t: Target) => t.id == id
  }

  function OtherId(id: string): Target -> bool {
    (t: Target) => t.id != id
  }

  function Upsert(ts: seq<Target>, t: Target, now: int): seq<Target> {
    match FirstIndex(ts, HasId(t.id))
    case None => ts + [t]
    case Some(i) => ts[i := Refresh(ts[i], t, now)]
  }

  /** `addTarget` keeps ids unique; it appends the target when its id is new
      and otherwise refreshes the one entry with that id, leaving every other
      entry as it was. */
  lemma UpsertSpec(ts: seq<Target>, t: Target, now: int)
    requires UniqueKeys(ts, Id)
    ensures var r := Upsert(ts, t, now);
      UniqueKeys(r, Id)
      && ((forall j :: 0 <= j < |ts| ==> ts[j].id != t.id) ==> r == ts + [t])
      && (forall i :: 0 <= i < |ts| && ts[i].id == t.id ==>
            r == ts[i := Refresh(ts[i], t, now)])
  {
    var r := Upsert(ts, t, now);
    match FirstIndex(ts, HasId(t.id))
    case None =>
      assert forall j :: 0 <= j < |ts| ==> Id(ts[j]) != Id(t) by {
        forall j | 0 <= j < |ts| ensures Id(ts[j]) != Id(t) {
          assert !HasId(t.id)(ts[j]);
        }
      }
    case Some(i) =>
      assert HasId(t.id)(ts[i]);
      forall j | 0 <= j < |r| ensures Id(r[j]) == Id(ts[j]) {
      }
  }

  // ---------------------------------------------------------------------
  // Human candidate from a skin region

  function SumX(ps: seq<Pixel>): nat {
    if ps == [] then 0 else ps[0].x + SumX(ps[1..])
  }

  function SumY(ps: seq<Pixel>): nat {
    if ps == [] then 0 else ps[0].y + SumY(ps[1..])
  }

  function MinX(ps: seq<Pixel>): (m: nat)
    requires ps != []
    ensures exists i :: 0 <= i < |ps| && ps[i].x == m
    ensures forall i :: 0 <= i < |ps| ==> m <= ps[i].x
  {
    if |ps| == 1 then ps[0].x
    else var m := MinX(ps[1..]); if ps[0].x <= m then ps[0].x else m
  }

  function MaxX(ps: seq<Pixel>): (m: nat)
    requires ps != []
    ensures exists i :: 0 <= i < |ps| && ps[i].x == m
    ensures forall i :: 0 <= i < |ps| ==> ps[i].x <= m
  {
    if |ps| == 1 then ps[0].x
    else var m := MaxX(ps[1..]); if ps[0].x >= m then ps[0].x else m
  }

  function MinY(ps: seq<Pixel>): (m: nat)
    requires ps != []
    ensures exists i :: 0 <= i < |ps| && ps[i].y == m
    ensures forall i :: 0 <= i < |ps| ==> m <= ps[i].y
  {
    if |ps| == 1 then ps[0].y
    else var m := MinY(ps[1..]); if ps[0].y <= m then ps[0].y else m
  }

  function MaxY(ps: seq<Pixel>): (m: nat)
    requires ps != []
    ensures exists i :: 0 <= i < |ps| && ps[i].y == m
    ensures forall i :: 0 <= i < |ps| ==> ps[i].y <= m
  {
    if |ps| == 1 then ps[0].y
    else var m := MaxY(ps[1..]); if ps[0].y >= m then ps[0].y else m
  }

  /** `addHumanTarget`'s guard: at least 100 skin pixels whose bounding box is
      wider than 50, taller than 100, and under 80% of the frame each way. */
  predicate HumanBoxOk(ps: seq<Pixel>, width: nat, height: nat) {
    |ps| >= 100
    && var bw := MaxX(ps) - MinX(ps);
       var bh := MaxY(ps) - MinY(ps);
       bw > 50 && bh > 100
       && (bw as real) < (width as real) * 0.8 && (bh as real) < (height as real) * 0.8
  }

  /** The target `addHumanTarget` proposes: centred on the mean skin pixel,
      200 away, confidence 0.7, with a face, on team merah. */
  function HumanCandidate(ps: seq<Pixel>, now: nat): (t: Target)
    requires ps != []
    ensures t.source == FromHuman && t.confidence == 0.7 && t.faceDetected
    ensures t.id == "human_" + Text.NatToString(now) && t.lastSeen == now
  {
    Target(
      "human_" + Text.NatToString(now), "unknown", "Unknown Player", Merah,
      Vec3(SumX(ps) as real / |ps| as real, SumY(ps) as real / |ps| as real, 200.0),
      Gps(0.0, 0.0), 200.0, 0.7, false, true, 100, now, FromHuman)
  }

  /** A box passing the guard is made of pixels that really spread that far:
      its width and height are realised by pixels of the region. */
  lemma HumanBoxSpread(ps: seq<Pixel>, width: nat, height: nat)
    requires HumanBoxOk(ps, width, height)
    ensures exists i, j :: 0 <= i < |ps| && 0 <= j < |ps| && ps[j].x - ps[i].x > 50
    ensures width > 62 && height > 125
  {
    var i :| 0 <= i < |ps| && ps[i].x == MinX(ps);
    var j :| 0 <= j < |ps| && ps[j].x == MaxX(ps);
    assert ps[j].x - ps[i].x > 50;
  }

  // ---------------------------------------------------------------------
  // Staleness sweep

  /** Still wanted: seen at most ten seconds ago. */
  function Fresh(now: int): Target -> bool {
    (t: Target) => now - t.lastSeen <= 10000
  }

  /** A moving target drifts by (r - 0.5)·2.5·(dt/1000) on each axis. */
  function Drift(t: Target, r: Vec2, dt: int): (m: Target)
    ensures m.(position := t.position) == t
    ensures !t.isMoving ==> m == t
  {
    if t.isMoving then
      var step := 0.5 * (dt as real / 1000.0);
      t.(position := t.position.(x := t.position.x + (r.x - 0.5) * step * 5.0,
                                 y := t.position.y + (r.y - 0.5) * step * 5.0))
    else t
  }

  /** `updateExistingTargets`, with the two random numbers drawn for target
      `i` given as `rs[i]`. */
  function Sweep(ts: seq<Target>, rs: seq<Vec2>, now: int, dt: int): seq<Target>
    requires |rs| == |ts|
  {
    if ts == [] then []
    else (if Fresh(now)(ts[0]) then [Drift(ts[0], rs[0], dt)] else []) + Sweep(ts[1..], rs[1..], now, dt)
  }

  /** The sweep keeps exactly the fresh targets, in their order, changing
      nothing but the position of the moving ones. */
  lemma {:induction false} SweepKeepsFresh(ts: seq<Target>, rs: seq<Vec2>, now: int, dt: int)
    requires |rs| == |ts|
    ensures var r := Sweep(ts, rs, now, dt); var f := Filter(ts, Fresh(now));
      |r| == |f|
      && forall i :: 0 <= i < |r| ==> r[i].(position := f[i].position) == f[i]
                                       && (!f[i].isMoving ==> r[i] == f[i])
  {
    if ts != [] {
      SweepKeepsFresh(ts[1..], rs[1..], now, dt);
    }
  }

  lemma {:induction false} SweepIds(ts: seq<Target>, rs: seq<Vec2>, now: int, dt: int)
    requires |rs| == |ts| && UniqueKeys(ts, Id)
    ensures UniqueKeys(Sweep(ts, rs, now, dt), Id)
  {
    SweepKeepsFresh(ts, rs, now, dt);
    UniqueKeysFilter(ts, Fresh(now), Id);
    var r := Sweep(ts, rs, now, dt);
    var f := Filter(ts, Fresh(now));
    assert forall i :: 0 <= i < |r| ==> Id(r[i]) == Id(f[i]) by {
      forall i | 0 <= i < |r| ensures Id(r[i]) == Id(f[i]) {
        assert r[i].(position := f[i].position).id == r[i].id;
      }
    }
  }

  // ---------------------------------------------------------------------
  // Combining GPS and camera detections

  /** A camera-found target within 50 of `t` on both screen axes. */
  function HumanNear(t: Target): Target -> bool {
    (h: Target) => h.source == FromHuman
         && Abs(h.position.x - t.position.x) < 50.0
         && Abs(h.position.y - t.position.y) < 50.0
  }

  /** What `combineDetections` makes of one target of `ts`. */
  function CombineOne(t: Target, ts: seq<Target>): (r: Target)
    ensures r.id == t.id
  {
    if t.source != FromGps then t
    else match FirstIndex(ts, HumanNear(t))
      case None => t
      case Some(k) =>
        t.(source := Combined, faceDetected := true,
           confidence := MaxReal(t.confidence, ts[k].confidence))
  }

  function CombineAll(ts: seq<Target>): (r: seq<Target>)
    ensures |r| == |ts|
  {
    seq(|ts|, i requires 0 <= i < |ts| => CombineOne(ts[i], ts))
  }

  /** Only GPS targets change; one becomes `combined`, with a face and at
      least its old confidence, exactly when some camera target lies within
      50 on both axes. Ids are kept. */
  lemma CombineAllSpec(ts: seq<Target>)
    ensures var r := CombineAll(ts);
      UniqueKeys(ts, Id) ==> UniqueKeys(r, Id)
    ensures var r := CombineAll(ts);
      forall i :: 0 <= i < |ts| ==>
        r[i].id == ts[i].id
        && (ts[i].source != FromGps ==> r[i] == ts[i])
        && (ts[i].source == FromGps ==>
              ((r[i].source == Combined) <==> exists j :: 0 <= j < |ts| && HumanNear(ts[i])(ts[j])))
        && (ts[i].source == FromGps && r[i].source == Combined ==>
              r[i].faceDetected && r[i].confidence >= ts[i].confidence)
        && (ts[i].source == FromGps && r[i].source != Combined ==> r[i] == ts[i])
  {
    var r := CombineAll(ts);
    forall i | 0 <= i < |ts| && ts[i].source == FromGps
      ensures (r[i].source == Combined) <==> exists j :: 0 <= j < |ts| && HumanNear(ts[i])(ts[j])
    {
      var k := FirstIndex(ts, HumanNear(ts[i]));
      if k.Some? {
        assert HumanNear(ts[i])(ts[k.value]);
      }
    }
    if UniqueKeys(ts, Id) {
      assert forall i :: 0 <= i < |ts| ==> Id(r[i]) == Id(ts[i]);
    }
  }

  // ---------------------------------------------------------------------
  // Queries

  /** `getDetectedTargets`' filter: confident (> 0.6) and seen in the last
      five seconds. */
  function Reported(now: int): Target -> bool {
    (t: Target) => t.confidence > 0.6 && now - t.lastSeen < 5000
  }

  function Detected(ts: seq<Target>, now: int): seq<Target> {
    Filter(ts, Reported(now))
  }

  lemma DetectedSpec(ts: seq<Target>, now: int, t: Target)
    ensures t in Detected(ts, now) <==> t in ts && t.confidence > 0.6 && now - t.lastSeen < 5000
  {
    FilterMembership(ts, Reported(now), t);
  }

  lemma DetectedConfident(ts: seq<Target>, now: int)
    ensures forall i :: 0 <= i < |Detected(ts, now)| ==> Detected(ts, now)[i].confidence > 0.6
  {
    FilterAll(ts, Reported(now));
    var ds := Detected(ts, now);
    forall i | 0 <= i < |ds| ensures ds[i].confidence > 0.6 {
      assert Reported(now)(ds[i]);
    }
  }

  datatype Stats = Stats(
    totalTargets: nat, gpsTargets: nat, humanTargets: nat, combinedTargets: nat,
    averageDistance: real, averageConfidence: real)

  function CountSource(ts: seq<Target>, s: Source): (c: nat)
    ensures c <= |ts|
  {
    if ts == [] then 0 else (if ts[0].source == s then 1 else 0) + CountSource(ts[1..], s)
  }

  function SumDistance(ts: seq<Target>): real {
    if ts == [] then 0.0 else ts[0].distance + SumDistance(ts[1..])
  }

  function SumConfidence(ts: seq<Target>): real {
    if ts == [] then 0.0 else ts[0].confidence + SumConfidence(ts[1..])
  }

  /** `sum / length || 0`: the mean, and 0 for an empty list. */
  function Mean(sum: real, n: nat): real {
    if n == 0 then 0.0 else sum / n as real
  }

  function StatsOf(ds: seq<Target>): Stats {
    Stats(|ds|, CountSource(ds, FromGps), CountSource(ds, FromHuman), CountSource(ds, Combined),
          Mean(SumDistance(ds), |ds|), Mean(SumConfidence(ds), |ds|))
  }

  lemma {:induction false} CountSourcesAddUp(ts: seq<Target>)
    ensures CountSource(ts, FromGps) + CountSource(ts, FromHuman) + CountSource(ts, Combined) == |ts|
  {
    if ts != [] {
      CountSourcesAddUp(ts[1..]);
    }
  }

  lemma {:induction false} SumConfidenceAbove(ts: seq<Target>, c: real)
    requires forall i :: 0 <= i < |ts| ==> ts[i].confidence > c
    ensures ts != [] ==> SumConfidence(ts) > c * |ts| as real
    ensures ts == [] ==> SumConfidence(ts) == 0.0
  {
    if ts != [] {
      SumConfidenceAbove(ts[1..], c);
    }
  }

  /** A mean of values all above `c` is above `c`. */
  lemma MeanAbove(sum: real, n: nat, c: real)
    requires n > 0 && sum > c * n as real
    ensures Mean(sum, n) > c
  {
    var m := sum / n as real;
    assert m * n as real == sum;
    if m <= c {
      assert m * n as real <= c * n as real;
    }
  }

  /** The three per-source counts add up to the total; on an empty list both
      averages are 0; otherwise the average confidence is above the 0.6 the
      reported targets all pass. */
  lemma StatsSpec(ts: seq<Target>, now: int)
    ensures var s := StatsOf(Detected(ts, now));
      s.gpsTargets + s.humanTargets + s.combinedTargets == s.totalTargets
      && (s.totalTargets == 0 ==> s.averageDistance == 0.0 && s.averageConfidence == 0.0)
      && (s.totalTargets > 0 ==> s.averageConfidence > 0.6)
  {
    var ds := Detected(ts, now);
    CountSourcesAddUp(ds);
    DetectedConfident(ts, now);
    SumConfidenceAbove(ds, 0.6);
    if ds != [] {
      MeanAbove(SumConfidence(ds), |ds|, 0.6);
    }
  }

  // ---------------------------------------------------------------------
  // The detector

  class MultiplayerTargetDetection {
    var targets: seq<Target>

    ghost predicate Valid()
      reads this
    {
      UniqueKeys(targets, Id)
    }

    constructor ()
      ensures Valid() && targets == []
    {
      targets := [];
    }

    /** `detectSkinTones`: walks the RGBA bytes four at a time and collects
        the positions of the pixels that pass the colour test. */
    method DetectSkinTones(data: array<Byte>, width: nat) returns (skin: seq<Pixel>)
      requires width > 0
      ensures skin == SkinPixels(data[..], width)
    {
      skin := [];
      var i := 0;
      while i < data.Length
        invariant i % 4 == 0 && i <= data.Length + 3
        invariant skin == ScanPixels(data[..], width, i / 4)
      {
        if i + 2 < data.Length && IsSkin(data[i] as int, data[i + 1] as int, data[i + 2] as int) {
          assert IsSkinAt(data[..], i / 4);
          skin := skin + [PixelAt(i / 4, width)];
        } else {
          assert !IsSkinAt(data[..], i / 4);
        }
        i := i + 4;
      }
    }

    /** `addTarget`: refreshes the entry with the same id, or appends. */
    method AddTarget(t: Target, now: int)
      requires Valid()
      modifies this`targets
      ensures Valid()
      ensures targets == Upsert(old(targets), t, now)
    {
      UpsertSpec(targets, t, now);
      targets := Upsert(targets, t, now);
    }

    /** `addHumanTarget`: proposes a camera target only for a region that
        passes `HumanBoxOk`. */
    method AddHumanTarget(skin: seq<Pixel>, width: nat, height: nat, now: nat)
      requires Valid()
      modifies this`targets
      ensures Valid()
      ensures HumanBoxOk(skin, width, height) ==> targets == Upsert(old(targets), HumanCandidate(skin, now), now)
      ensures !HumanBoxOk(skin, width, height) ==> targets == old(targets)
    {
      if |skin| < 100 {
        return;
      }
      if HumanBoxOk(skin, width, height) {
        AddTarget(HumanCandidate(skin, now), now);
      }
    }

    /** `updateExistingTargets`: drops stale targets and moves the moving ones. */
    method UpdateExistingTargets(now: int, dt: int, rs: seq<Vec2>)
      requires Valid() && |rs| == |targets|
      modifies this`targets
      ensures Valid()
      ensures targets == Sweep(old(targets), rs, now, dt)
    {
      SweepIds(targets, rs, now, dt);
      targets := Sweep(targets, rs, now, dt);
    }

    /** `combineDetections`: one pass over the list, upgrading GPS targets
        that have a camera target next to them. */
    method CombineDetections()
      requires Valid()
      modifies this`targets
      ensures Valid()
      ensures targets == CombineAll(old(targets))
    {
      ghost var orig := targets;
      CombineAllSpec(orig);
      var i := 0;
      while i < |targets|
        invariant |targets| == |orig| && 0 <= i <= |orig|
        invariant forall j :: 0 <= j < i ==> targets[j] == CombineOne(orig[j], orig)
        invariant forall j :: i <= j < |orig| ==> targets[j] == orig[j]
      {
        var t := targets[i];
        if t.source == FromGps {
          forall j | 0 <= j < |orig| && (HumanNear(t)(targets[j]) || HumanNear(t)(orig[j]))
            ensures targets[j] == orig[j]
          {
          }
          FirstIndexAgree(targets, orig, HumanNear(t));
          var k := FirstIndex(targets, HumanNear(t));
          if k.Some? {
            targets := targets[i := t.(source := Combined, faceDetected := true,
                                       confidence := MaxReal(t.confidence, targets[k.value].confidence))];
          }
        }
        i := i + 1;
      }
      assert targets == CombineAll(orig);
    }

    /** `getDetectedTargets`. */
    method GetDetectedTargets(now: int) returns (ds: seq<Target>)
      ensures ds == Detected(targets, now)
      ensures forall i :: 0 <= i < |ds| ==> ds[i] in targets && ds[i].confidence > 0.6
    {
      ds := Detected(targets, now);
      DetectedConfident(targets, now);
      forall i | 0 <= i < |ds| ensures ds[i] in targets {
        DetectedSpec(targets, now, ds[i]);
      }
    }

    /** `getDetectionStats`, computed over the reported targets. */
    method GetDetectionStats(now: int) returns (s: Stats)
      ensures s == StatsOf(Detected(targets, now))
      ensures s.gpsTargets + s.humanTargets + s.combinedTargets == s.totalTargets
    {
      StatsSpec(targets, now);
      s := StatsOf(Detected(targets, now));
    }

    /** `getTargetById`: the first entry with that id. */
    method GetTargetById(id: string) returns (r: Option<Target>)
      ensures r.Some? ==> r.value in targets && r.value.id == id
      ensures r.None? <==> forall j :: 0 <= j < |targets| ==> targets[j].id != id
      ensures r.Some? ==>
        exists k :: 0 <= k < |targets| && targets[k] == r.value && forall j :: 0 <= j < k ==> targets[j].id != id
    {
      var k := FirstIndex(targets, HasId(id));
      r := if k.Some? then Some(targets[k.value]) else None;
    }

    /** `removeTarget`. */
    method RemoveTarget(id: string)
      requires Valid()
      modifies this`targets
      ensures Valid()
      ensures targets == Filter(old(targets), OtherId(id))
    {
      UniqueKeysFilter(targets, OtherId(id), Id);
      targets := Filter(targets, OtherId(id));
    }

    /** `clearTargets`. */
    method ClearTargets()
      modifies this`targets
      ensures Valid() && targets == []
    {
      targets := [];
    }
  }
}
