/** `Lighting`: gathers the culled visible lights into the fixed-size light
    tables the shaders read (at most 4 directional and 64 other lights),
    builds the light index map for per-object lighting, publishes the tables
    on its command buffer and, when an area light was stored, makes sure the
    LTC lookup table exists and binds it. It also draws the emissive quads
    of rectangular spot lights.

    Engine inputs are values: a visible light carries the columns of its
    local-to-world matrix, the cosines of its spot angles (the trigonometry
    is not modelled) and the shadow data the shadow atlas reserved for it
    (the shadow collaborator is not modelled). */
module Lighting {
  import opened Rendering
  import opened Settings
  import opened LtcAreaLights

  /** `maxDirLightCount` and `maxOtherLightCount`. */
  const MaxDirLightCount: nat := 4
  const MaxOtherLightCount: nat := 64
  /** The floors of the range and spot-angle divisions. */
  const MinRangeSquared: real := 0.00001
  const MinAngleRange: real := 0.001
  /** The constant the area quad colour is divided by. */
  const Pi: real := 3.1415926

  datatype LightType = Directional | Point | Spot | Area | Disc

  /** A `VisibleLight` together with what `SetupLights` reads from its
      `Light`: the columns of `localToWorldMatrix` (`right`, `up`,
      `forward`, `position`), the cosines of half its inner and outer spot
      angles, its rendering layer mask, the settings of its optional
      `CustomRenderPipelineLight` component, its colour and intensity, and
      the shadow data reserved for it. */
  datatype VisibleLight = VisibleLight(
    lightType: LightType,
    finalColor: Vec4,
    right: Vec4, up: Vec4, forward: Vec4, position: Vec4,
    range: real,
    innerCos: real, outerCos: real,
    renderingLayerMask: int,
    settings: Option<LightSettings>,
    color: Color, intensity: real,
    shadowData: Vec4)

  /** A direction whose fourth component carries the light's rendering
      layer mask reinterpreted as a float; the bits are kept as the mask. */
  datatype DirectionAndMask = DirectionAndMask(direction: Vec3, mask: int)

  /** One slot of the three directional light arrays. */
  datatype DirLightData = DirLightData(color: Vec4, directionAndMask: DirectionAndMask, shadowData: Vec4)

  /** One slot of the five other-light arrays that every kind writes. */
  datatype OtherLightData = OtherLightData(
    color: Vec4, position: Vec4, directionAndMask: DirectionAndMask, spotAngles: Vec4, shadowData: Vec4)

  const ZeroVec4 := Vec4(0.0, 0.0, 0.0, 0.0)

  function MaxReal(a: real, b: real): real
  {
    if a >= b then a else b
  }

  function MinNat(a: nat, b: nat): nat
  {
    if a <= b then a else b
  }

  /** The light's own settings, or a default-constructed one when it has no
      `CustomRenderPipelineLight` component. */
  function SettingsOf(l: VisibleLight): LightSettings
  {
    l.settings.GetOr(DefaultLightSettings())
  }

  /** Whether a stored light is shaded as an area light: an area light, or
      a spot light whose settings name an area shape. */
  predicate UsesArea(l: VisibleLight)
  {
    l.lightType == Area || (l.lightType == Spot && SettingsOf(l).areaLightType != NoArea)
  }

  /** `-localToWorldMatrix.GetColumn(2)`, the direction the light shines
      from. */
  function Backward(l: VisibleLight): Vec3
  {
    Vec3(-l.forward.x, -l.forward.y, -l.forward.z)
  }

  /** `1 / max(range * range, 0.00001)`. */
  function InvRangeSquared(range: real): (w: real)
    ensures w > 0.0
    ensures range * range >= MinRangeSquared ==> w * (range * range) == 1.0
    ensures range * range < MinRangeSquared ==> w == 1.0 / MinRangeSquared
  {
    1.0 / MaxReal(range * range, MinRangeSquared)
  }

  /** The light's position with the inverse squared range in `w`. */
  function PositionOf(l: VisibleLight): Vec4
  {
    Vec4(l.position.x, l.position.y, l.position.z, InvRangeSquared(l.range))
  }

  /** `(a, b)` with `a = 1 / max(inner - outer, 0.001)` and `b = -outer * a`,
      so that `saturate(d * a + b)` fades from the outer to the inner cone. */
  function SpotAngles(innerCos: real, outerCos: real): Vec4
  {
    var inv := 1.0 / MaxReal(innerCos - outerCos, MinAngleRange);
    Vec4(inv, -outerCos * inv, 0.0, 0.0)
  }

  /** The spot attenuation the shader derives from a `spotAngles` slot for a
      cosine `d` between the light direction and the surface. */
  function SpotFactor(angles: Vec4, d: real): real
  {
    var x := d * angles.x + angles.y;
    if x < 0.0 then 0.0 else if x > 1.0 then 1.0 else x
  }

  function DirDataOf(l: VisibleLight): DirLightData
  {
    DirLightData(l.finalColor, DirectionAndMask(Backward(l), l.renderingLayerMask), l.shadowData)
  }

  function PointDataOf(l: VisibleLight): OtherLightData
  {
    OtherLightData(l.finalColor, PositionOf(l), DirectionAndMask(Vec3(0.0, 0.0, 0.0), l.renderingLayerMask),
                   Vec4(0.0, 1.0, 0.0, 0.0), l.shadowData)
  }

  function SpotDataOf(l: VisibleLight): OtherLightData
  {
    OtherLightData(l.finalColor, PositionOf(l), DirectionAndMask(Backward(l), l.renderingLayerMask),
                   SpotAngles(l.innerCos, l.outerCos), l.shadowData)
  }

  /** An area light stores its rectangle's width and height behind a
      spot factor that is always one. */
  function AreaDataOf(l: VisibleLight, s: LightSettings): OtherLightData
  {
    OtherLightData(l.finalColor, PositionOf(l), DirectionAndMask(Backward(l), l.renderingLayerMask),
                   Vec4(0.0, 1.0, s.rectWidth, s.rectHeight), l.shadowData)
  }

  /** The area light's X axis (`GetColumn(0)` with `w = 1`) and Y axis
      (`GetColumn(1)`). */
  function AreaXOf(l: VisibleLight): Vec4
  {
    Vec4(l.right.x, l.right.y, l.right.z, 1.0)
  }

  function AreaYOf(l: VisibleLight): Vec4
  {
    l.up
  }

  /** What a stored other light writes into its slot. */
  function OtherDataOf(l: VisibleLight): OtherLightData
  {
    if UsesArea(l) then AreaDataOf(l, SettingsOf(l))
    else if l.lightType == Spot then SpotDataOf(l)
    else PointDataOf(l)
  }

  /** Point and area lights are never attenuated by the spot cone; a spot
      light's factor is 0 on its outer cone and 1 on its inner cone once
      the cones are at least 0.001 apart. */
  lemma SpotFactorEnds(l: VisibleLight, d: real)
    ensures l.lightType != Spot || UsesArea(l) ==> SpotFactor(OtherDataOf(l).spotAngles, d) == 1.0
    ensures l.lightType == Spot && !UsesArea(l) && l.innerCos - l.outerCos >= MinAngleRange ==>
              SpotFactor(OtherDataOf(l).spotAngles, l.outerCos) == 0.0
              && SpotFactor(OtherDataOf(l).spotAngles, l.innerCos) == 1.0
  {
    if l.lightType == Spot && !UsesArea(l) && l.innerCos - l.outerCos >= MinAngleRange {
      var inv := 1.0 / (l.innerCos - l.outerCos);
      assert OtherDataOf(l).spotAngles == Vec4(inv, -l.outerCos * inv, 0.0, 0.0);
      calc {
        l.innerCos * inv + -l.outerCos * inv;
        (l.innerCos - l.outerCos) * inv;
        1.0;
      }
    }
  }

  // ---------------------------------------------------------------------
  // Which slot each visible light receives.

  /** The table a visible light competes for: lights outside the camera's
      rendering layer mask and disc lights get none. */
  datatype Bucket = DirBucket | OtherBucket | NoBucket

  function BucketOf(l: VisibleLight, mask: int): Bucket
  {
    if !MaskIntersects(l.renderingLayerMask, mask) then NoBucket
    else match l.lightType
      case Directional => DirBucket
      case Point => OtherBucket
      case Spot => OtherBucket
      case Area => OtherBucket
      case Disc => NoBucket
  }

  /** The loop's counters (`dirLightCount`, `otherLightCount`) and the
      `areaLightEnable` flag. */
  datatype Tally = Tally(dirs: nat, others: nat, area: bool)

  /** One iteration of the light loop on the counters. */
  function Step(t: Tally, l: VisibleLight, mask: int): Tally
  {
    match BucketOf(l, mask)
    case DirBucket => if t.dirs < MaxDirLightCount then t.(dirs := t.dirs + 1) else t
    case OtherBucket =>
      if t.others < MaxOtherLightCount then t.(others := t.others + 1, area := t.area || UsesArea(l)) else t
    case NoBucket => t
  }

  /** The counters after the first `n` visible lights. */
  function TallyAt(lights: seq<VisibleLight>, mask: int, n: nat): (t: Tally)
    requires n <= |lights|
    ensures t.dirs <= MaxDirLightCount && t.others <= MaxOtherLightCount
    ensures t.dirs + t.others <= n
  {
    if n == 0 then Tally(0, 0, false) else Step(TallyAt(lights, mask, n - 1), lights[n - 1], mask)
  }

  /** The index of the other-light slot light `i` is stored in, or -1 (the
      value written into the light index map). */
  function OtherSlot(lights: seq<VisibleLight>, mask: int, i: nat): (k: int)
    requires i < |lights|
    ensures -1 <= k < MaxOtherLightCount
    ensures k >= 0 <==> BucketOf(lights[i], mask) == OtherBucket && TallyAt(lights, mask, i).others < MaxOtherLightCount
  {
    var t := TallyAt(lights, mask, i);
    if BucketOf(lights[i], mask) == OtherBucket && t.others < MaxOtherLightCount then t.others else -1
  }

  /** The index of the directional slot light `i` is stored in, or -1. */
  function DirSlot(lights: seq<VisibleLight>, mask: int, i: nat): (k: int)
    requires i < |lights|
    ensures -1 <= k < MaxDirLightCount
    ensures k >= 0 <==> BucketOf(lights[i], mask) == DirBucket && TallyAt(lights, mask, i).dirs < MaxDirLightCount
  {
    var t := TallyAt(lights, mask, i);
    if BucketOf(lights[i], mask) == DirBucket && t.dirs < MaxDirLightCount then t.dirs else -1
  }

  /** How many of the first `n` lights compete for table `b`. */
  function Count(lights: seq<VisibleLight>, mask: int, n: nat, b: Bucket): nat
    requires n <= |lights|
  {
    if n == 0 then 0 else Count(lights, mask, n - 1, b) + (if BucketOf(lights[n - 1], mask) == b then 1 else 0)
  }

  /** The counters saturate: each table holds the number of competing
      lights, capped at its capacity. */
  lemma {:induction false} TallyCounts(lights: seq<VisibleLight>, mask: int, n: nat)
    requires n <= |lights|
    ensures TallyAt(lights, mask, n).dirs == MinNat(Count(lights, mask, n, DirBucket), MaxDirLightCount)
    ensures TallyAt(lights, mask, n).others == MinNat(Count(lights, mask, n, OtherBucket), MaxOtherLightCount)
  {
    if n > 0 {
      TallyCounts(lights, mask, n - 1);
    }
  }

  /** The counters never decrease. */
  lemma {:induction false} TallyMonotone(lights: seq<VisibleLight>, mask: int, n: nat, m: nat)
    requires n <= m <= |lights|
    ensures TallyAt(lights, mask, n).dirs <= TallyAt(lights, mask, m).dirs
    ensures TallyAt(lights, mask, n).others <= TallyAt(lights, mask, m).others
    decreases m
  {
    if n < m {
      TallyMonotone(lights, mask, n, m - 1);
    }
  }

  /** Every slot handed out to the first `n` lights is below the count
      reached after them. */
  lemma SlotBelow(lights: seq<VisibleLight>, mask: int, j: nat, n: nat)
    requires j < n <= |lights|
    ensures OtherSlot(lights, mask, j) >= 0 ==> OtherSlot(lights, mask, j) < TallyAt(lights, mask, n).others
    ensures DirSlot(lights, mask, j) >= 0 ==> DirSlot(lights, mask, j) < TallyAt(lights, mask, n).dirs
  {
    TallyMonotone(lights, mask, j + 1, n);
  }

  /** Slots are handed out in order, so no two stored lights share one. */
  lemma SlotsIncrease(lights: seq<VisibleLight>, mask: int, i: nat, j: nat)
    requires i < j < |lights|
    ensures OtherSlot(lights, mask, i) >= 0 && OtherSlot(lights, mask, j) >= 0 ==>
              OtherSlot(lights, mask, i) < OtherSlot(lights, mask, j)
    ensures DirSlot(lights, mask, i) >= 0 && DirSlot(lights, mask, j) >= 0 ==>
              DirSlot(lights, mask, i) < DirSlot(lights, mask, j)
  {
    SlotBelow(lights, mask, i, j);
  }

  /** Light `n`'s slot, if it has one, is the count before it, and the
      count moves past it. */
  lemma SlotAdvance(lights: seq<VisibleLight>, mask: int, n: nat)
    requires n < |lights|
    ensures OtherSlot(lights, mask, n) >= 0 ==>
              OtherSlot(lights, mask, n) == TallyAt(lights, mask, n).others
              && TallyAt(lights, mask, n + 1).others == TallyAt(lights, mask, n).others + 1
    ensures OtherSlot(lights, mask, n) < 0 ==> TallyAt(lights, mask, n + 1).others == TallyAt(lights, mask, n).others
    ensures DirSlot(lights, mask, n) >= 0 ==>
              DirSlot(lights, mask, n) == TallyAt(lights, mask, n).dirs
              && TallyAt(lights, mask, n + 1).dirs == TallyAt(lights, mask, n).dirs + 1
    ensures DirSlot(lights, mask, n) < 0 ==> TallyAt(lights, mask, n + 1).dirs == TallyAt(lights, mask, n).dirs
  {
  }

  /** A stored light's slot is the number of competing lights before it. */
  lemma SlotIsCountBefore(lights: seq<VisibleLight>, mask: int, i: nat)
    requires i < |lights|
    ensures OtherSlot(lights, mask, i) >= 0 ==> OtherSlot(lights, mask, i) == Count(lights, mask, i, OtherBucket)
    ensures DirSlot(lights, mask, i) >= 0 ==> DirSlot(lights, mask, i) == Count(lights, mask, i, DirBucket)
  {
    TallyCounts(lights, mask, i);
  }

  /** The slots below the count are exactly the ones handed out: the
      published prefix of the other-light table holds no stale entry. */
  lemma {:induction false} OtherSlotOwner(lights: seq<VisibleLight>, mask: int, n: nat, k: nat) returns (j: nat)
    requires n <= |lights| && k < TallyAt(lights, mask, n).others
    ensures j < n && OtherSlot(lights, mask, j) == k
  {
    if k < TallyAt(lights, mask, n - 1).others {
      j := OtherSlotOwner(lights, mask, n - 1, k);
    } else {
      j := n - 1;
    }
  }

  /** The same for the directional table. */
  lemma {:induction false} DirSlotOwner(lights: seq<VisibleLight>, mask: int, n: nat, k: nat) returns (j: nat)
    requires n <= |lights| && k < TallyAt(lights, mask, n).dirs
    ensures j < n && DirSlot(lights, mask, j) == k
  {
    if k < TallyAt(lights, mask, n - 1).dirs {
      j := DirSlotOwner(lights, mask, n - 1, k);
    } else {
      j := n - 1;
    }
  }

  /** Once 64 other lights are stored, every later light is skipped. */
  lemma FullSkipsRest(lights: seq<VisibleLight>, mask: int, n: nat, j: nat)
    requires n <= j < |lights| && TallyAt(lights, mask, n).others == MaxOtherLightCount
    ensures OtherSlot(lights, mask, j) == -1
  {
    TallyMonotone(lights, mask, n, j);
  }

  /** `areaLightEnable` is set exactly when some stored light is shaded as
      an area light. */
  lemma {:induction false} AreaFlagIff(lights: seq<VisibleLight>, mask: int, n: nat)
    requires n <= |lights|
    ensures TallyAt(lights, mask, n).area <==>
              exists j :: 0 <= j < n && OtherSlot(lights, mask, j) >= 0 && UsesArea(lights[j])
  {
    if n > 0 {
      AreaFlagIff(lights, mask, n - 1);
      if TallyAt(lights, mask, n).area && !TallyAt(lights, mask, n - 1).area {
        assert OtherSlot(lights, mask, n - 1) >= 0 && UsesArea(lights[n - 1]);
      }
    }
  }

  /** The directional table after the first `n` lights, starting from
      `before`: each stored light overwrites its slot. */
  function DirTable(lights: seq<VisibleLight>, mask: int, n: nat, before: seq<DirLightData>): (table: seq<DirLightData>)
    requires n <= |lights| && |before| == MaxDirLightCount
    ensures |table| == MaxDirLightCount
  {
    if n == 0 then before
    else
      var table := DirTable(lights, mask, n - 1, before);
      if DirSlot(lights, mask, n - 1) >= 0 then table[DirSlot(lights, mask, n - 1) := DirDataOf(lights[n - 1])] else table
  }

  /** The other-light table after the first `n` lights. */
  function OtherTable(lights: seq<VisibleLight>, mask: int, n: nat, before: seq<OtherLightData>): (table: seq<OtherLightData>)
    requires n <= |lights| && |before| == MaxOtherLightCount
    ensures |table| == MaxOtherLightCount
  {
    if n == 0 then before
    else
      var table := OtherTable(lights, mask, n - 1, before);
      if OtherSlot(lights, mask, n - 1) >= 0 then table[OtherSlot(lights, mask, n - 1) := OtherDataOf(lights[n - 1])] else table
  }

  /** An area light's X axis (`y` false) or Y axis (`y` true). */
  function AreaAxisOf(l: VisibleLight, y: bool): Vec4
  {
    if y then AreaYOf(l) else AreaXOf(l)
  }

  /** An area axis table after the first `n` lights: only slots that
      receive an area light are written. */
  function AreaAxisTable(lights: seq<VisibleLight>, mask: int, n: nat, before: seq<Vec4>, y: bool): (table: seq<Vec4>)
    requires n <= |lights| && |before| == MaxOtherLightCount
    ensures |table| == MaxOtherLightCount
  {
    if n == 0 then before
    else
      var table := AreaAxisTable(lights, mask, n - 1, before, y);
      var k := OtherSlot(lights, mask, n - 1);
      if k >= 0 && UsesArea(lights[n - 1]) then table[k := AreaAxisOf(lights[n - 1], y)] else table
  }

  /** A light stored among the first `n` holds its data in its slot. */
  lemma {:induction false} DirTableStored(lights: seq<VisibleLight>, mask: int, n: nat, before: seq<DirLightData>, j: nat)
    requires j < n <= |lights| && |before| == MaxDirLightCount && DirSlot(lights, mask, j) >= 0
    ensures DirTable(lights, mask, n, before)[DirSlot(lights, mask, j)] == DirDataOf(lights[j])
  {
    if j < n - 1 {
      DirTableStored(lights, mask, n - 1, before, j);
      SlotBelow(lights, mask, j, n - 1);
      SlotAdvance(lights, mask, n - 1);
    }
  }

  /** The slots past the count keep their previous contents. */
  lemma {:induction false} DirTableRest(lights: seq<VisibleLight>, mask: int, n: nat, before: seq<DirLightData>)
    requires n <= |lights| && |before| == MaxDirLightCount
    ensures forall k :: TallyAt(lights, mask, n).dirs <= k < MaxDirLightCount ==>
              DirTable(lights, mask, n, before)[k] == before[k]
  {
    if n > 0 {
      DirTableRest(lights, mask, n - 1, before);
      SlotAdvance(lights, mask, n - 1);
    }
  }

  lemma {:induction false} OtherTableStored(lights: seq<VisibleLight>, mask: int, n: nat, before: seq<OtherLightData>, j: nat)
    requires j < n <= |lights| && |before| == MaxOtherLightCount && OtherSlot(lights, mask, j) >= 0
    ensures OtherTable(lights, mask, n, before)[OtherSlot(lights, mask, j)] == OtherDataOf(lights[j])
  {
    if j < n - 1 {
      OtherTableStored(lights, mask, n - 1, before, j);
      SlotBelow(lights, mask, j, n - 1);
      SlotAdvance(lights, mask, n - 1);
    }
  }

  lemma {:induction false} OtherTableRest(lights: seq<VisibleLight>, mask: int, n: nat, before: seq<OtherLightData>)
    requires n <= |lights| && |before| == MaxOtherLightCount
    ensures forall k :: TallyAt(lights, mask, n).others <= k < MaxOtherLightCount ==>
              OtherTable(lights, mask, n, before)[k] == before[k]
  {
    if n > 0 {
      OtherTableRest(lights, mask, n - 1, before);
      SlotAdvance(lights, mask, n - 1);
    }
  }

  /** A slot holding an area light has that light's axes; a slot holding a
      point or spot light keeps the (stale) axes it held before. */
  lemma {:induction false} AreaAxisStored(lights: seq<VisibleLight>, mask: int, n: nat, before: seq<Vec4>, y: bool, j: nat)
    requires j < n <= |lights| && |before| == MaxOtherLightCount && OtherSlot(lights, mask, j) >= 0
    ensures AreaAxisTable(lights, mask, n, before, y)[OtherSlot(lights, mask, j)]
              == if UsesArea(lights[j]) then AreaAxisOf(lights[j], y) else before[OtherSlot(lights, mask, j)]
  {
    if j < n - 1 {
      AreaAxisStored(lights, mask, n - 1, before, y, j);
      SlotBelow(lights, mask, j, n - 1);
      SlotAdvance(lights, mask, n - 1);
    } else {
      AreaAxisRest(lights, mask, n - 1, before, y);
    }
  }

  /** The area axes past the count keep their previous contents. */
  lemma {:induction false} AreaAxisRest(lights: seq<VisibleLight>, mask: int, n: nat, before: seq<Vec4>, y: bool)
    requires n <= |lights| && |before| == MaxOtherLightCount
    ensures forall k :: TallyAt(lights, mask, n).others <= k < MaxOtherLightCount ==>
              AreaAxisTable(lights, mask, n, before, y)[k] == before[k]
  {
    if n > 0 {
      AreaAxisRest(lights, mask, n - 1, before, y);
      SlotAdvance(lights, mask, n - 1);
    }
  }

  /** The light index map: light `i`'s other-light slot, and -1 for every
      entry past the visible lights. */
  function IndexMap(lights: seq<VisibleLight>, mask: int, length: nat): seq<int>
  {
    seq(length, k => if 0 <= k < |lights| then OtherSlot(lights, mask, k) else -1)
  }

  // ---------------------------------------------------------------------
  // What the light setup publishes.

  /** The counts, always; each table only when it is not empty. */
  function CountCommands(dirs: nat, others: nat): seq<Command>
  {
    [SetGlobalInt(DirectionalLightCount, dirs)]
    + (if dirs > 0 then
         [SetGlobalVectorArray(DirectionalLightColors), SetGlobalVectorArray(DirectionalLightDirectionsAndMasks),
          SetGlobalVectorArray(DirectionalLightShadowData)]
       else [])
    + [SetGlobalInt(OtherLightCount, others)]
    + (if others > 0 then
         [SetGlobalVectorArray(OtherLightColors), SetGlobalVectorArray(OtherLightPositions),
          SetGlobalVectorArray(OtherLightDirectionsAndMasks), SetGlobalVectorArray(OtherLightSpotAngles),
          SetGlobalVectorArray(AreaLightYDirections), SetGlobalVectorArray(AreaLightXDirections),
          SetGlobalVectorArray(OtherLightShadowData)]
       else [])
  }

  /** The binding of the LTC table that follows when an area light was
      stored. */
  function LtcBinding(area: bool): seq<Command>
  {
    if area then [SetGlobalTexture(LtcDataProp, LtcTexture)] else []
  }

  /** Published arrays appear exactly when their count is positive, and
      the LTC table exactly when an area light is stored. */
  lemma PublishedIff(t: Tally)
    ensures var s := CountCommands(t.dirs, t.others) + LtcBinding(t.area);
      && (SetGlobalVectorArray(DirectionalLightColors) in s <==> t.dirs > 0)
      && (SetGlobalVectorArray(OtherLightColors) in s <==> t.others > 0)
      && (SetGlobalTexture(LtcDataProp, LtcTexture) in s <==> t.area)
  {
    var dirArrays := if t.dirs > 0 then
      [SetGlobalVectorArray(DirectionalLightColors), SetGlobalVectorArray(DirectionalLightDirectionsAndMasks),
       SetGlobalVectorArray(DirectionalLightShadowData)] else [];
    var otherArrays := if t.others > 0 then
      [SetGlobalVectorArray(OtherLightColors), SetGlobalVectorArray(OtherLightPositions),
       SetGlobalVectorArray(OtherLightDirectionsAndMasks), SetGlobalVectorArray(OtherLightSpotAngles),
       SetGlobalVectorArray(AreaLightYDirections), SetGlobalVectorArray(AreaLightXDirections),
       SetGlobalVectorArray(OtherLightShadowData)] else [];
    var s := CountCommands(t.dirs, t.others) + LtcBinding(t.area);
    assert s == [SetGlobalInt(DirectionalLightCount, t.dirs)] + dirArrays + [SetGlobalInt(OtherLightCount, t.others)]
                + otherArrays + LtcBinding(t.area);
    assert forall c :: c in s <==>
      (c == SetGlobalInt(DirectionalLightCount, t.dirs) || c in dirArrays
       || c == SetGlobalInt(OtherLightCount, t.others) || c in otherArrays || c in LtcBinding(t.area));
  }

  /** The light setup acquires no temporary render texture. */
  lemma PublishedInert(t: Tally)
    ensures Acquired(CountCommands(t.dirs, t.others) + LtcBinding(t.area)) == multiset{}
  {
    var s := CountCommands(t.dirs, t.others) + LtcBinding(t.area);
    assert forall c :: c in s ==> Inert(c);
    InertTrace(s);
  }

  // ---------------------------------------------------------------------
  // The emissive quads of rectangular spot lights.

  /** A light `DrawAreaLight` draws: an in-mask spot light with an area
      shape. Area lights themselves are not drawn. */
  predicate IsDrawnArea(l: VisibleLight, mask: int)
  {
    MaskIntersects(l.renderingLayerMask, mask) && l.lightType == Spot && SettingsOf(l).areaLightType != NoArea
  }

  /** The quad drawn for a light: the rectangle's width and height as half
      extents, tinted `color * intensity / 3.1415926`. */
  function QuadOf(l: VisibleLight): Command
  {
    var s := SettingsOf(l);
    var k := l.intensity / Pi;
    DrawQuad(s.rectWidth, s.rectHeight, Color(l.color.r * k, l.color.g * k, l.color.b * k, l.color.a * k))
  }

  /** The quads drawn for the first `n` lights, in order. */
  function AreaQuads(lights: seq<VisibleLight>, mask: int, n: nat): seq<Command>
    requires n <= |lights|
  {
    if n == 0 then []
    else AreaQuads(lights, mask, n - 1) + (if IsDrawnArea(lights[n - 1], mask) then [QuadOf(lights[n - 1])] else [])
  }

  /** A command is drawn exactly when it is the quad of a drawn light. */
  lemma {:induction false} AreaQuadsMembers(lights: seq<VisibleLight>, mask: int, n: nat, c: Command)
    requires n <= |lights|
    ensures c in AreaQuads(lights, mask, n) <==>
              exists j :: 0 <= j < n && IsDrawnArea(lights[j], mask) && c == QuadOf(lights[j])
  {
    if n > 0 {
      AreaQuadsMembers(lights, mask, n - 1, c);
    }
  }

  /** The quad drawn for a light has the extents its shading slot stores. */
  lemma QuadMatchesShading(l: VisibleLight, mask: int)
    requires IsDrawnArea(l, mask)
    ensures QuadOf(l).halfWidth == OtherDataOf(l).spotAngles.z
    ensures QuadOf(l).halfHeight == OtherDataOf(l).spotAngles.w
  {
  }

  /** The mesh `GenQuad` builds. */
  datatype Mesh = Mesh(vertices: seq<Vec3>, triangles: seq<nat>, normals: seq<Vec3>, uv: seq<Vec2>)

  /** A quad in the light's XY plane with half extents `rect`, two
      triangles sharing the diagonal from vertex 2 to vertex 1, all normals
      along `-forward`. */
  function GenQuad(rect: Vec2): (m: Mesh)
    ensures |m.vertices| == 4 && |m.normals| == 4 && |m.uv| == 4 && |m.triangles| == 6
    ensures forall k :: 0 <= k < 6 ==> m.triangles[k] < 4
    ensures forall v :: v in m.vertices ==> v.z == 0.0 && (v.x == rect.x || v.x == -rect.x) && (v.y == rect.y || v.y == -rect.y)
    ensures forall n :: n in m.normals ==> n == Vec3(0.0, 0.0, -1.0)
  {
    Mesh([Vec3(-rect.x, -rect.y, 0.0), Vec3(-rect.x, rect.y, 0.0), Vec3(rect.x, -rect.y, 0.0), Vec3(rect.x, rect.y, 0.0)],
         [0, 2, 1, 2, 3, 1],
         [Vec3(0.0, 0.0, -1.0), Vec3(0.0, 0.0, -1.0), Vec3(0.0, 0.0, -1.0), Vec3(0.0, 0.0, -1.0)],
         [Vec2(0.0, 0.0), Vec2(1.0, 0.0), Vec2(0.0, 1.0), Vec2(1.0, 1.0)])
  }

  /** Twice the signed area of triangle `t` of a mesh, seen from +z. */
  function TwiceSignedArea(m: Mesh, t: nat): real
    requires |m.vertices| == 4 && |m.triangles| == 6 && t < 2
    requires forall k :: 0 <= k < 6 ==> m.triangles[k] < 4
  {
    var a := m.vertices[m.triangles[3 * t]];
    var b := m.vertices[m.triangles[3 * t + 1]];
    var c := m.vertices[m.triangles[3 * t + 2]];
    (b.x - a.x) * (c.y - a.y) - (b.y - a.y) * (c.x - a.x)
  }

  /** For a non-degenerate rectangle both triangles wind the same way and
      together cover the rectangle's area `2w x 2h`; every vertex's uv is
      its position mapped from `[-w, w] x [-h, h]` onto the unit square
      with the axes swapped (u follows y, v follows x). */
  lemma GenQuadCoversRect(rect: Vec2)
    requires rect.x > 0.0 && rect.y > 0.0
    ensures var m := GenQuad(rect);
      && TwiceSignedArea(m, 0) > 0.0 && TwiceSignedArea(m, 1) > 0.0
      && (TwiceSignedArea(m, 0) + TwiceSignedArea(m, 1)) / 2.0 == (2.0 * rect.x) * (2.0 * rect.y)
      && forall k :: 0 <= k < 4 ==>
           m.uv[k].x * (2.0 * rect.y) == m.vertices[k].y + rect.y
           && m.uv[k].y * (2.0 * rect.x) == m.vertices[k].x + rect.x
  {
    var m := GenQuad(rect);
    assert TwiceSignedArea(m, 0) == (2.0 * rect.x) * (2.0 * rect.y);
    assert TwiceSignedArea(m, 1) == (2.0 * rect.x) * (2.0 * rect.y);
  }

  // ---------------------------------------------------------------------

  /** The `Lighting` object: its light tables (static in the source, one
      set per object here), the buffer it executes, and what `Setup` keeps
      for `DrawAreaLight`. `ltc` is the shared `LTCAreaLight.instance`
      slot. */
  class Lighting {
    /** `dirLightColors`, `dirLightDirectionsAndMasks` and
        `dirLightShadowData`, slot by slot. */
    const dirLights: array<DirLightData>
    /** The other-light colour, position, direction-and-mask, spot-angle
        and shadow arrays, slot by slot. */
    const otherLights: array<OtherLightData>
    const areaLightXDirections: array<Vec4>
    const areaLightYDirections: array<Vec4>
    const ltc: LtcInstance

    /** The commands executed on the render context, in order. */
    var stream: seq<Command>
    /** `cullingResults.visibleLights`. */
    var visibleLights: seq<VisibleLight>
    var renderingLayerMask: int
    var useLightsPerObject: bool
    var areaLightEnable: bool
    /** Whether the global `_LIGHTS_PER_OBJECT` keyword is enabled. */
    var lightsPerObjectKeyword: bool
    /** The light index map last handed to the culling results. */
    var lightIndexMap: seq<int>

    predicate Valid()
    {
      dirLights.Length == MaxDirLightCount && otherLights.Length == MaxOtherLightCount
      && areaLightXDirections.Length == MaxOtherLightCount && areaLightYDirections.Length == MaxOtherLightCount
      && areaLightXDirections != areaLightYDirections
    }

    constructor (ltc: LtcInstance)
      ensures Valid() && this.ltc == ltc
      ensures stream == [] && visibleLights == [] && !areaLightEnable
    {
      dirLights := new DirLightData[MaxDirLightCount](_ => DirLightData(ZeroVec4, DirectionAndMask(Vec3(0.0, 0.0, 0.0), 0), ZeroVec4));
      otherLights := new OtherLightData[MaxOtherLightCount](_ =>
        OtherLightData(ZeroVec4, ZeroVec4, DirectionAndMask(Vec3(0.0, 0.0, 0.0), 0), ZeroVec4, ZeroVec4));
      areaLightXDirections := new Vec4[MaxOtherLightCount](_ => ZeroVec4);
      areaLightYDirections := new Vec4[MaxOtherLightCount](_ => ZeroVec4);
      this.ltc := ltc;
      stream := [];
      visibleLights := [];
      renderingLayerMask := 0;
      useLightsPerObject := false;
      areaLightEnable := false;
      lightsPerObjectKeyword := false;
      lightIndexMap := [];
    }

    method SetupDirectionalLight(index: nat, l: VisibleLight)
      requires Valid() && index < MaxDirLightCount
      modifies dirLights
      ensures dirLights[..] == old(dirLights[..])[index := DirDataOf(l)]
    {
      var dirAndMask := DirectionAndMask(Vec3(-l.forward.x, -l.forward.y, -l.forward.z), l.renderingLayerMask);
      dirLights[index] := DirLightData(l.finalColor, dirAndMask, l.shadowData);
    }

    method SetupPointLight(index: nat, l: VisibleLight)
      requires Valid() && index < MaxOtherLightCount
      modifies otherLights
      ensures otherLights[..] == old(otherLights[..])[index := PointDataOf(l)]
    {
      var position := PositionOf(l);
      var dirAndMask := DirectionAndMask(Vec3(0.0, 0.0, 0.0), l.renderingLayerMask);
      otherLights[index] := OtherLightData(l.finalColor, position, dirAndMask, Vec4(0.0, 1.0, 0.0, 0.0), l.shadowData);
    }

    method SetupSpotLight(index: nat, l: VisibleLight)
      requires Valid() && index < MaxOtherLightCount
      modifies otherLights
      ensures otherLights[..] == old(otherLights[..])[index := SpotDataOf(l)]
    {
      var position := PositionOf(l);
      var dirAndMask := DirectionAndMask(Vec3(-l.forward.x, -l.forward.y, -l.forward.z), l.renderingLayerMask);
      otherLights[index] := OtherLightData(l.finalColor, position, dirAndMask, SpotAngles(l.innerCos, l.outerCos), l.shadowData);
    }

    method SetupAreaLight(index: nat, l: VisibleLight, s: LightSettings)
      requires Valid() && index < MaxOtherLightCount
      modifies otherLights, areaLightXDirections, areaLightYDirections
      ensures otherLights[..] == old(otherLights[..])[index := AreaDataOf(l, s)]
      ensures areaLightXDirections[..] == old(areaLightXDirections[..])[index := AreaXOf(l)]
      ensures areaLightYDirections[..] == old(areaLightYDirections[..])[index := AreaYOf(l)]
    {
      var position := PositionOf(l);
      var dirAndMask := DirectionAndMask(Vec3(-l.forward.x, -l.forward.y, -l.forward.z), l.renderingLayerMask);
      otherLights[index] := OtherLightData(l.finalColor, position, dirAndMask,
                                           Vec4(0.0, 1.0, s.rectWidth, s.rectHeight), l.shadowData);
      areaLightXDirections[index] := Vec4(l.right.x, l.right.y, l.right.z, 1.0);
      areaLightYDirections[index] := l.up;
    }

    /** One iteration of the light loop, on light `i`: it goes to the next
        free slot of its table, if there is one, and `newIndex` is its
        other-light slot or -1. */
    method StoreLight(lights: seq<VisibleLight>, i: nat, mask: int, dirCount: nat, otherCount: nat)
      returns (newDirCount: nat, newOtherCount: nat, newIndex: int)
      requires Valid() && i < |lights|
      requires Tally(dirCount, otherCount, areaLightEnable) == TallyAt(lights, mask, i)
      modifies this`areaLightEnable, dirLights, otherLights, areaLightXDirections, areaLightYDirections
      ensures Tally(newDirCount, newOtherCount, areaLightEnable) == TallyAt(lights, mask, i + 1)
      ensures newIndex == OtherSlot(lights, mask, i)
      ensures dirLights[..] == if DirSlot(lights, mask, i) >= 0
                               then old(dirLights[..])[DirSlot(lights, mask, i) := DirDataOf(lights[i])]
                               else old(dirLights[..])
      ensures otherLights[..] == if OtherSlot(lights, mask, i) >= 0
                                 then old(otherLights[..])[OtherSlot(lights, mask, i) := OtherDataOf(lights[i])]
                                 else old(otherLights[..])
      ensures var k := OtherSlot(lights, mask, i);
        && areaLightXDirections[..] == (if k >= 0 && UsesArea(lights[i])
                                        then old(areaLightXDirections[..])[k := AreaAxisOf(lights[i], false)]
                                        else old(areaLightXDirections[..]))
        && areaLightYDirections[..] == (if k >= 0 && UsesArea(lights[i])
                                        then old(areaLightYDirections[..])[k := AreaAxisOf(lights[i], true)]
                                        else old(areaLightYDirections[..]))
    {
      var l := lights[i];
      var lightSettings := SettingsOf(l);
      newDirCount, newOtherCount, newIndex := dirCount, otherCount, -1;
      if MaskIntersects(l.renderingLayerMask, mask) {
        match l.lightType
        case Directional =>
          if dirCount < MaxDirLightCount {
            SetupDirectionalLight(dirCount, l);
            newDirCount := dirCount + 1;
          }
        case Point =>
          if otherCount < MaxOtherLightCount {
            newIndex := otherCount;
            SetupPointLight(otherCount, l);
            newOtherCount := otherCount + 1;
          }
        case Spot =>
          if otherCount < MaxOtherLightCount {
            newIndex := otherCount;
            if lightSettings.areaLightType != NoArea {
              SetupAreaLight(otherCount, l, lightSettings);
              areaLightEnable := true;
            } else {
              SetupSpotLight(otherCount, l);
            }
            newOtherCount := otherCount + 1;
          }
        case Area =>
          if otherCount < MaxOtherLightCount {
            newIndex := otherCount;
            SetupAreaLight(otherCount, l, lightSettings);
            areaLightEnable := true;
            newOtherCount := otherCount + 1;
          }
        case Disc =>
      }
    }

    /** `GenAreaLightLut`: build the LTC table on first use and bind it. */
    method GenAreaLightLut()
      requires ltc.Valid()
      modifies this`stream, ltc, ltc.instance
      ensures ltc.Valid() && ltc.instance != null && ltc.instance.ltcData != null
      ensures old(ltc.instance) != null && old(ltc.instance.ltcData) != null ==>
                ltc.instance == old(ltc.instance) && ltc.instance.ltcData == old(ltc.instance.ltcData)
      ensures stream == old(stream) + LtcBinding(true)
    {
      var instance := ltc.Instance();
      if instance.ltcData == null {
        instance.BuildLUT();
      }
      stream := instance.Bind(stream);
    }

    /** The light loop of `SetupLights`: every visible light goes to the
        next free slot of its table, in order, and (with per-object
        lighting) entry `i` of the index map receives light `i`'s
        other-light slot or -1. */
    method StoreLights(mask: int, useLightsPerObject: bool, indexMap: array<int>) returns (dirCount: nat, otherCount: nat)
      requires Valid() && (useLightsPerObject ==> indexMap.Length >= |visibleLights|)
      modifies this`areaLightEnable, dirLights, otherLights, areaLightXDirections, areaLightYDirections, indexMap
      ensures Tally(dirCount, otherCount, areaLightEnable) == TallyAt(visibleLights, mask, |visibleLights|)
      ensures dirLights[..] == DirTable(visibleLights, mask, |visibleLights|, old(dirLights[..]))
      ensures otherLights[..] == OtherTable(visibleLights, mask, |visibleLights|, old(otherLights[..]))
      ensures areaLightXDirections[..] == AreaAxisTable(visibleLights, mask, |visibleLights|, old(areaLightXDirections[..]), false)
      ensures areaLightYDirections[..] == AreaAxisTable(visibleLights, mask, |visibleLights|, old(areaLightYDirections[..]), true)
      ensures useLightsPerObject ==> forall j :: 0 <= j < |visibleLights| ==> indexMap[j] == OtherSlot(visibleLights, mask, j)
    {
      dirCount, otherCount := 0, 0;
      areaLightEnable := false;
      var i := 0;
      while i < |visibleLights|
        invariant 0 <= i <= |visibleLights|
        invariant Tally(dirCount, otherCount, areaLightEnable) == TallyAt(visibleLights, mask, i)
        invariant dirLights[..] == DirTable(visibleLights, mask, i, old(dirLights[..]))
        invariant otherLights[..] == OtherTable(visibleLights, mask, i, old(otherLights[..]))
        invariant areaLightXDirections[..] == AreaAxisTable(visibleLights, mask, i, old(areaLightXDirections[..]), false)
        invariant areaLightYDirections[..] == AreaAxisTable(visibleLights, mask, i, old(areaLightYDirections[..]), true)
        invariant useLightsPerObject ==> forall j :: 0 <= j < i ==> indexMap[j] == OtherSlot(visibleLights, mask, j)
      {
        var newIndex;
        dirCount, otherCount, newIndex := StoreNext(visibleLights, i, mask, dirCount, otherCount, old(dirLights[..]),
                                                    old(otherLights[..]), old(areaLightXDirections[..]),
                                                    old(areaLightYDirections[..]));
        if useLightsPerObject {
          SetIndex(indexMap, i, newIndex);
        }
        i := i + 1;
      }
    }

    /** `StoreLight` on light `i` carries the tables from the first `i`
        lights to the first `i + 1`. */
    method StoreNext(lights: seq<VisibleLight>, i: nat, mask: int, dirCount: nat, otherCount: nat,
                     ghost dirs0: seq<DirLightData>, ghost others0: seq<OtherLightData>,
                     ghost xs0: seq<Vec4>, ghost ys0: seq<Vec4>)
      returns (newDirCount: nat, newOtherCount: nat, newIndex: int)
      requires Valid() && i < |lights|
      requires |dirs0| == MaxDirLightCount && |others0| == MaxOtherLightCount
      requires |xs0| == MaxOtherLightCount && |ys0| == MaxOtherLightCount
      requires Tally(dirCount, otherCount, areaLightEnable) == TallyAt(lights, mask, i)
      requires dirLights[..] == DirTable(lights, mask, i, dirs0)
      requires otherLights[..] == OtherTable(lights, mask, i, others0)
      requires areaLightXDirections[..] == AreaAxisTable(lights, mask, i, xs0, false)
      requires areaLightYDirections[..] == AreaAxisTable(lights, mask, i, ys0, true)
      modifies this`areaLightEnable, dirLights, otherLights, areaLightXDirections, areaLightYDirections
      ensures Tally(newDirCount, newOtherCount, areaLightEnable) == TallyAt(lights, mask, i + 1)
      ensures newIndex == OtherSlot(lights, mask, i)
      ensures dirLights[..] == DirTable(lights, mask, i + 1, dirs0)
      ensures otherLights[..] == OtherTable(lights, mask, i + 1, others0)
      ensures areaLightXDirections[..] == AreaAxisTable(lights, mask, i + 1, xs0, false)
      ensures areaLightYDirections[..] == AreaAxisTable(lights, mask, i + 1, ys0, true)
    {
      newDirCount, newOtherCount, newIndex := StoreLight(lights, i, mask, dirCount, otherCount);
    }

    /** `indexMap[i] = newIndex`. */
    static method SetIndex(indexMap: array<int>, i: nat, newIndex: int)
      requires i < indexMap.Length
      modifies indexMap
      ensures forall j :: 0 <= j < indexMap.Length ==> indexMap[j] == if j == i then newIndex else old(indexMap[j])
    {
      indexMap[i] := newIndex;
    }

    /** `SetupLights`: store the lights, fill the rest of the index map
        with -1 and hand it over (enabling the per-object keyword) or
        disable the keyword, publish the counts and non-empty tables and,
        when an area light was stored, build the LTC table if needed and
        bind it. */
    method SetupLights(useLightsPerObject: bool, mask: int, mapLength: nat)
      requires Valid() && ltc.Valid()
      requires useLightsPerObject ==> mapLength >= |visibleLights|
      modifies this`stream, this`areaLightEnable, this`lightsPerObjectKeyword, this`lightIndexMap
      modifies dirLights, otherLights, areaLightXDirections, areaLightYDirections, ltc, ltc.instance
      ensures var t := TallyAt(visibleLights, mask, |visibleLights|);
        && areaLightEnable == t.area
        && stream == old(stream) + CountCommands(t.dirs, t.others) + LtcBinding(t.area)
      ensures dirLights[..] == DirTable(visibleLights, mask, |visibleLights|, old(dirLights[..]))
      ensures otherLights[..] == OtherTable(visibleLights, mask, |visibleLights|, old(otherLights[..]))
      ensures areaLightXDirections[..] == AreaAxisTable(visibleLights, mask, |visibleLights|, old(areaLightXDirections[..]), false)
      ensures areaLightYDirections[..] == AreaAxisTable(visibleLights, mask, |visibleLights|, old(areaLightYDirections[..]), true)
      ensures useLightsPerObject ==>
                lightsPerObjectKeyword && lightIndexMap == IndexMap(visibleLights, mask, mapLength)
      ensures !useLightsPerObject ==> !lightsPerObjectKeyword && lightIndexMap == old(lightIndexMap)
      ensures areaLightEnable ==> ltc.instance != null && ltc.instance.ltcData != null
      ensures ltc.Valid()
    {
      var indexMap := new int[if useLightsPerObject then mapLength else 0];
      var dirCount, otherCount := StoreLights(mask, useLightsPerObject, indexMap);
      ghost var dirs, others, xs, ys := dirLights[..], otherLights[..], areaLightXDirections[..], areaLightYDirections[..];
      if useLightsPerObject {
        FillIndexMap(mask, indexMap);
        lightIndexMap := indexMap[..];
        lightsPerObjectKeyword := true;
      } else {
        lightsPerObjectKeyword := false;
      }
      stream := stream + CountCommands(dirCount, otherCount);
      if areaLightEnable {
        GenAreaLightLut();
      } else {
        AppendNothing(stream);
      }
      assert dirLights[..] == dirs && otherLights[..] == others;
      assert areaLightXDirections[..] == xs && areaLightYDirections[..] == ys;
    }

    /** The rest of the index map, past the visible lights, is set to -1. */
    method FillIndexMap(mask: int, indexMap: array<int>)
      requires indexMap.Length >= |visibleLights|
      requires forall j :: 0 <= j < |visibleLights| ==> indexMap[j] == OtherSlot(visibleLights, mask, j)
      modifies indexMap
      ensures indexMap[..] == IndexMap(visibleLights, mask, indexMap.Length)
    {
      var i := |visibleLights|;
      while i < indexMap.Length
        invariant |visibleLights| <= i <= indexMap.Length
        invariant forall j :: 0 <= j < i ==> indexMap[j] == (if j < |visibleLights| then OtherSlot(visibleLights, mask, j) else -1)
      {
        indexMap[i] := -1;
        i := i + 1;
      }
    }

    /** `Setup`: keep the culling inputs, reserve shadows, set up the
        lights, render the shadows. */
    method Setup(lights: seq<VisibleLight>, useLightsPerObject: bool, renderingLayerMask: int, mapLength: nat)
      requires Valid() && ltc.Valid()
      requires useLightsPerObject ==> mapLength >= |lights|
      modifies this`stream, this`visibleLights, this`renderingLayerMask, this`useLightsPerObject
      modifies this`areaLightEnable, this`lightsPerObjectKeyword, this`lightIndexMap
      modifies dirLights, otherLights, areaLightXDirections, areaLightYDirections, ltc, ltc.instance
      ensures visibleLights == lights && this.renderingLayerMask == renderingLayerMask
      ensures this.useLightsPerObject == useLightsPerObject
      ensures var t := TallyAt(lights, renderingLayerMask, |lights|);
        && areaLightEnable == t.area
        && stream == old(stream) + [Call(ShadowsSetup)] + CountCommands(t.dirs, t.others) + LtcBinding(t.area)
                     + [Call(ShadowsRender)]
      ensures dirLights[..] == DirTable(lights, renderingLayerMask, |lights|, old(dirLights[..]))
      ensures otherLights[..] == OtherTable(lights, renderingLayerMask, |lights|, old(otherLights[..]))
      ensures areaLightXDirections[..] == AreaAxisTable(lights, renderingLayerMask, |lights|, old(areaLightXDirections[..]), false)
      ensures areaLightYDirections[..] == AreaAxisTable(lights, renderingLayerMask, |lights|, old(areaLightYDirections[..]), true)
      ensures useLightsPerObject ==>
                lightsPerObjectKeyword && lightIndexMap == IndexMap(lights, renderingLayerMask, mapLength)
      ensures !useLightsPerObject ==> !lightsPerObjectKeyword && lightIndexMap == old(lightIndexMap)
      ensures ltc.Valid()
    {
      visibleLights := lights;
      this.renderingLayerMask := renderingLayerMask;
      this.useLightsPerObject := useLightsPerObject;
      stream := stream + [Call(ShadowsSetup)];
      SetupLights(useLightsPerObject, renderingLayerMask, mapLength);
      stream := stream + [Call(ShadowsRender)];
    }

    /** `Cleanup`: release the shadow atlas. */
    method Cleanup()
      modifies this`stream
      ensures stream == old(stream) + [Call(ShadowsCleanup)]
    {
      stream := stream + [Call(ShadowsCleanup)];
    }

    /** `DrawAreaLight`: walk the visible lights kept by `Setup` and draw,
        in order, the quad of every in-mask spot light with an area shape.
        The loop's `dirLightCount` is never incremented, so its bound never
        stops a quad. `areaLightEnable` is cleared. */
    method DrawAreaLight()
      modifies this`stream, this`areaLightEnable
      ensures stream == old(stream) + AreaQuads(visibleLights, renderingLayerMask, |visibleLights|)
      ensures !areaLightEnable
    {
      var dirLightCount := 0;
      areaLightEnable := false;
      var i := 0;
      while i < |visibleLights|
        modifies this`stream
        invariant 0 <= i <= |visibleLights| && dirLightCount == 0
        invariant stream == old(stream) + AreaQuads(visibleLights, renderingLayerMask, i)
      {
        var l := visibleLights[i];
        var lightSettings := SettingsOf(l);
        if MaskIntersects(l.renderingLayerMask, renderingLayerMask) && l.lightType == Spot
           && dirLightCount < MaxDirLightCount && lightSettings.areaLightType != NoArea
        {
          stream := stream + [QuadOf(l)];
        } else {
          AppendNothing(stream);
        }
        i := i + 1;
      }
    }
  }
}
