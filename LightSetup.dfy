/** Light collection (the Lighting class): visible lights are filtered by rendering layer,
    sorted into the directional and the other (point and spot) light slots, given their
    shadow reservations, and their slot indices are published as the per-object light
    index map. */
module LightSetup {
  import opened Commands
  import opened Engine
  import opened Settings
  import opened ShadowAtlas

  const MaxDirLightCount: nat := 4
  const MaxOtherLightCount: nat := 64
  const LightsPerObjectKeyword: string := "_LIGHTS_PER_OBJECT"

  /** The w component of a direction-and-mask entry carries the light's rendering-layer bits. */
  datatype DirectionAndMask = DirectionAndMask(direction: Vec3, renderingLayerMask: bv32)

  /** A spot-angle entry (a, b): the shader's angular falloff is `a * cos + b`, clamped. */
  datatype SpotAngles = SpotAngles(scale: real, offset: real)

  /** One directional slot: the i-th entries of the three directional light arrays. */
  datatype DirectionalSlot = DirectionalSlot(color: Color, directionAndMask: DirectionAndMask, shadowData: ShadowData)

  /** One other-light slot: the i-th entries of the five other-light arrays. */
  datatype OtherSlot = OtherSlot(
    color: Color,
    position: Vec3,
    rangeAttenuation: real,       // the w component of the position entry
    directionAndMask: DirectionAndMask,
    spotAngles: SpotAngles,
    shadowData: ShadowData)

  function Negate(v: Vec3): Vec3 {
    Vec3(-v.x, -v.y, -v.z)
  }

  function MaxReal(a: real, b: real): real {
    if a >= b then a else b
  }

  /** Inverting a bounded-below positive number bounds the inverse above. */
  lemma InverseBound(m: real, lo: real)
    requires 0.0 < lo <= m
    ensures 0.0 < 1.0 / m <= 1.0 / lo
    ensures (1.0 / m) * m == 1.0
  {
    var a := 1.0 / m;
    var b := 1.0 / lo;
    assert a * m == 1.0 && b * lo == 1.0;
    assert b * m >= b * lo;
  }

  /** 1 / max(range², 0.00001): the inverse squared range, bounded for tiny ranges. */
  function RangeAttenuation(range: real): (a: real)
    ensures 0.0 < a <= 100000.0
    ensures range * range >= 0.00001 ==> a * (range * range) == 1.0
  {
    var m := MaxReal(range * range, 0.00001);
    InverseBound(m, 0.00001);
    1.0 / m
  }

  /** The spot falloff: the outer cone edge maps to 0 and, when the inner cone is at least
      0.001 wider in cosine, the inner edge maps to 1. */
  function SpotAngleData(innerCos: real, outerCos: real): (s: SpotAngles)
    ensures 0.0 < s.scale <= 1000.0
    ensures s.scale * outerCos + s.offset == 0.0
    ensures innerCos - outerCos >= 0.001 ==> s.scale * innerCos + s.offset == 1.0
  {
    var m := MaxReal(innerCos - outerCos, 0.001);
    var inv := 1.0 / m;
    InverseBound(m, 0.001);
    assert inv * innerCos + -outerCos * inv == inv * (innerCos - outerCos);
    SpotAngles(inv, -outerCos * inv)
  }

  /** A point light is not limited by any cone. */
  const PointSpotAngles: SpotAngles := SpotAngles(0.0, 1.0)

  /** Lighting.SetupDirectionalLight: the slot of a directional light. */
  function DirectionalSlotOf(v: VisibleLight, data: ShadowData): DirectionalSlot {
    DirectionalSlot(v.finalColor, DirectionAndMask(Negate(v.forward), v.light.renderingLayerMask), data)
  }

  /** Lighting.SetupPointLight: the slot of a point light; it has no direction. */
  function PointSlotOf(v: VisibleLight, data: ShadowData): OtherSlot {
    OtherSlot(v.finalColor, v.position, RangeAttenuation(v.range),
              DirectionAndMask(Vec3(0.0, 0.0, 0.0), v.light.renderingLayerMask), PointSpotAngles, data)
  }

  /** Lighting.SetupSpotLight: the slot of a spot light. */
  function SpotSlotOf(v: VisibleLight, data: ShadowData): OtherSlot {
    OtherSlot(v.finalColor, v.position, RangeAttenuation(v.range),
              DirectionAndMask(Negate(v.forward), v.light.renderingLayerMask),
              SpotAngleData(v.innerCos, v.outerCos), data)
  }

  /** The light shares a rendering layer with the camera. */
  predicate InLayer(v: VisibleLight, mask: bv32) {
    v.light.renderingLayerMask & mask != 0
  }

  predicate IsOther(v: VisibleLight) {
    v.light.lightType == Point || v.light.lightType == Spot
  }

  /** Lights of one kind, directional or other, that pass the layer test. */
  predicate Candidate(v: VisibleLight, mask: bv32, directional: bool) {
    InLayer(v, mask) && if directional then v.light.lightType == Directional else IsOther(v)
  }

  /** The number of candidates of one kind among `lights`. */
  function Candidates(lights: seq<VisibleLight>, mask: bv32, directional: bool): nat
    decreases |lights|
  {
    if lights == [] then 0
    else Candidates(lights[..|lights| - 1], mask, directional)
         + (if Candidate(lights[|lights| - 1], mask, directional) then 1 else 0)
  }

  function Min(a: nat, b: nat): nat {
    if a <= b then a else b
  }

  /** What SetupLight has produced so far: the filled slots, one index-map entry per visited
      light, and the shadow reservations. */
  datatype Collected = Collected(
    dir: seq<DirectionalSlot>,
    other: seq<OtherSlot>,
    indexMap: seq<int>,
    shadows: Reservations)

  /** One iteration of the SetupLight loop, for visible light `i`. */
  function CollectStep(c: Collected, v: VisibleLight, i: nat, mask: bv32, bounds: set<nat>, cascades: int): Collected {
    if !InLayer(v, mask) then c.(indexMap := c.indexMap + [-1])
    else if v.light.lightType == Directional then
      if |c.dir| < MaxDirLightCount then
        var res := ReserveDirectional(c.shadows, v.light, i, i in bounds, cascades);
        Collected(c.dir + [DirectionalSlotOf(v, res.data)], c.other, c.indexMap + [-1], res.state)
      else c.(indexMap := c.indexMap + [-1])
    else if IsOther(v) then
      if |c.other| < MaxOtherLightCount then
        var res := ReserveOther(c.shadows, v.light, i, i in bounds);
        var slot := if v.light.lightType == Point then PointSlotOf(v, res.data) else SpotSlotOf(v, res.data);
        Collected(c.dir, c.other + [slot], c.indexMap + [|c.other|], res.state)
      else c.(indexMap := c.indexMap + [-1])
    else c.(indexMap := c.indexMap + [-1])
  }

  /** The SetupLight loop over `lights`, starting from the reservations `start`. */
  function Collect(lights: seq<VisibleLight>, mask: bv32, bounds: set<nat>, cascades: int, start: Reservations): Collected
    decreases |lights|
  {
    if lights == [] then Collected([], [], [], start)
    else
      var n := |lights| - 1;
      CollectStep(Collect(lights[..n], mask, bounds, cascades, start), lights[n], n, mask, bounds, cascades)
  }

  /** The index map handed back to the culling results: every entry past the visible lights is -1. */
  function PaddedIndexMap(indexMap: seq<int>, length: nat): (m: seq<int>)
    requires |indexMap| <= length
  {
    indexMap + seq(length - |indexMap|, _ => -1)
  }

  /** The uploads at the end of SetupLight: each count, then that kind's arrays when it is positive. */
  function UploadCommands(dirCount: nat, otherCount: nat): seq<Command> {
    [SetInt("_DirectionalLightCount", dirCount)]
    + (if dirCount > 0 then
         [SetArray("_DirectionalLightColors"), SetArray("_DirectionalLightDirectionsAndMasks"),
          SetArray("_DirectionalLightShadowData")]
       else [])
    + [SetInt("_OtherLightCount", otherCount)]
    + (if otherCount > 0 then
         [SetArray("_OtherLightColors"), SetArray("_OtherLightPositions"), SetArray("_OtherLightDirectionsAndMasks"),
          SetArray("_OtherLightSpotAngles"), SetArray("_OtherLightShadowData")]
       else [])
  }

  // ---------------------------------------------------------------------------------------------
  // Properties of the collection

  lemma PrefixOfPrefix<T>(s: seq<T>, i: nat, n: nat)
    requires i <= n <= |s|
    ensures s[..n][..i] == s[..i]
  {
  }

  /** The index map after the first SetupLight loop has written `entries` over `orig`; nothing
      is written without per-object lights. */
  function WrittenIndexMap(orig: seq<int>, entries: seq<int>, useLightsPerObject: bool): seq<int> {
    if useLightsPerObject && |entries| <= |orig| then entries + orig[|entries|..] else orig
  }

  lemma WrittenIndexMapPrefix(orig: seq<int>, entries: seq<int>)
    requires |entries| <= |orig|
    ensures WrittenIndexMap(orig, entries, true)[..|entries|] == entries
  {
  }

  lemma WrittenIndexMapStep(orig: seq<int>, entries: seq<int>, x: int, useLightsPerObject: bool)
    requires useLightsPerObject ==> |entries| < |orig|
    ensures WrittenIndexMap(orig, entries + [x], useLightsPerObject)
            == if useLightsPerObject then WrittenIndexMap(orig, entries, true)[|entries| := x] else orig
  {
    if useLightsPerObject {
      var before := WrittenIndexMap(orig, entries, true);
      var after := WrittenIndexMap(orig, entries + [x], true);
      assert |after| == |before[|entries| := x]|;
      forall k | 0 <= k < |after| ensures after[k] == before[|entries| := x][k] {
        if k < |entries| {
          assert after[k] == entries[k];
        } else if k > |entries| {
          assert after[k] == orig[k];
        }
      }
    }
  }

  /** Visiting one more light is one more step. */
  lemma CollectSnoc(lights: seq<VisibleLight>, i: nat, mask: bv32, bounds: set<nat>, cascades: int, start: Reservations)
    requires i < |lights|
    ensures Collect(lights[..i + 1], mask, bounds, cascades, start)
            == CollectStep(Collect(lights[..i], mask, bounds, cascades, start), lights[i], i, mask, bounds, cascades)
  {
    assert lights[..i + 1][..i] == lights[..i];
  }

  /** Each visited light adds one index-map entry; the slot counts are the candidate counts,
      capped at 4 and 64. */
  lemma {:induction false} CollectCounts(lights: seq<VisibleLight>, mask: bv32, bounds: set<nat>, cascades: int, start: Reservations)
    ensures var c := Collect(lights, mask, bounds, cascades, start);
      && |c.indexMap| == |lights|
      && |c.dir| == Min(Candidates(lights, mask, true), MaxDirLightCount)
      && |c.other| == Min(Candidates(lights, mask, false), MaxOtherLightCount)
    decreases |lights|
  {
    if lights != [] {
      CollectCounts(lights[..|lights| - 1], mask, bounds, cascades, start);
    }
  }

  /** Candidates never decrease along a sequence, and a candidate at `i` is counted before `j > i`. */
  lemma {:induction false} CandidatesMonotone(lights: seq<VisibleLight>, mask: bv32, directional: bool, i: nat, j: nat)
    requires i < j <= |lights|
    ensures Candidates(lights[..j], mask, directional)
            >= Candidates(lights[..i], mask, directional) + (if Candidate(lights[i], mask, directional) then 1 else 0)
    decreases j - i
  {
    assert lights[..i + 1][..i] == lights[..i];
    if j > i + 1 {
      CandidatesMonotone(lights, mask, directional, i, j - 1);
      assert lights[..j][..j - 1] == lights[..j - 1];
    }
  }

  /** The map entry of light `i` is its rank among the other-light candidates before it when that
      rank is below 64, and -1 otherwise: directional, masked-out, area and over-capacity lights
      all map to -1. */
  lemma {:induction false} IndexMapIsRank(lights: seq<VisibleLight>, mask: bv32, bounds: set<nat>, cascades: int, start: Reservations, i: nat)
    requires i < |lights|
    ensures |Collect(lights, mask, bounds, cascades, start).indexMap| == |lights|
    ensures Collect(lights, mask, bounds, cascades, start).indexMap[i]
            == if Candidate(lights[i], mask, false) && Candidates(lights[..i], mask, false) < MaxOtherLightCount
               then Candidates(lights[..i], mask, false) as int else -1
    decreases |lights|
  {
    var n := |lights| - 1;
    var prev := Collect(lights[..n], mask, bounds, cascades, start);
    CollectCounts(lights[..n], mask, bounds, cascades, start);
    CollectCounts(lights, mask, bounds, cascades, start);
    if i < n {
      IndexMapIsRank(lights[..n], mask, bounds, cascades, start, i);
      PrefixOfPrefix(lights, i, n);
    }
  }

  /** With per-object lights, the non-negative entries of the padded map are the other-light slots
      of the accepted lights: each below the other-light count, and strictly increasing, so no two
      lights share a slot. */
  lemma IndexMapSlots(lights: seq<VisibleLight>, mask: bv32, bounds: set<nat>, cascades: int, start: Reservations, length: nat)
    requires |lights| <= length
    ensures var c := Collect(lights, mask, bounds, cascades, start);
      && |c.indexMap| == |lights|
      && var m := PaddedIndexMap(c.indexMap, length);
      && |m| == length
      && (forall i :: |lights| <= i < length ==> m[i] == -1)
      && (forall i :: 0 <= i < length ==> -1 <= m[i] < |c.other|)
      && (forall i, j :: 0 <= i < j < length && m[i] >= 0 && m[j] >= 0 ==> m[i] < m[j])
  {
    var c := Collect(lights, mask, bounds, cascades, start);
    CollectCounts(lights, mask, bounds, cascades, start);
    var m := PaddedIndexMap(c.indexMap, length);
    forall i | 0 <= i < length
      ensures -1 <= m[i] < |c.other|
    {
      if i < |lights| {
        IndexMapIsRank(lights, mask, bounds, cascades, start, i);
        if m[i] >= 0 {
          CandidatesMonotone(lights, mask, false, i, |lights|);
          assert lights[..|lights|] == lights;
        }
      }
    }
    forall i, j | 0 <= i < j < length && m[i] >= 0 && m[j] >= 0
      ensures m[i] < m[j]
    {
      IndexMapIsRank(lights, mask, bounds, cascades, start, i);
      IndexMapIsRank(lights, mask, bounds, cascades, start, j);
      CandidatesMonotone(lights, mask, false, i, j);
    }
  }

  /** One step keeps the filled other slots and the index map, appends one map entry, and when
      that entry is non-negative it names a new slot holding the visited light. */
  lemma StepOtherSlot(c: Collected, v: VisibleLight, i: nat, mask: bv32, bounds: set<nat>, cascades: int)
    ensures var r := CollectStep(c, v, i, mask, bounds, cascades);
      && |r.indexMap| == |c.indexMap| + 1 && r.indexMap[..|c.indexMap|] == c.indexMap
      && |c.other| <= |r.other| && r.other[..|c.other|] == c.other
      && (r.indexMap[|c.indexMap|] >= 0 ==>
            && r.indexMap[|c.indexMap|] == |c.other| < |r.other|
            && r.other[|c.other|].color == v.finalColor
            && r.other[|c.other|].position == v.position
            && r.other[|c.other|].rangeAttenuation == RangeAttenuation(v.range)
            && (v.light.lightType == Point ==> r.other[|c.other|].spotAngles == PointSpotAngles)
            && (v.light.lightType == Spot ==> r.other[|c.other|].spotAngles == SpotAngleData(v.innerCos, v.outerCos)))
  {
  }

  /** One step keeps the filled directional slots, and appends the visited light's slot when it
      is a directional candidate and a slot is free. */
  lemma StepDirectionalSlot(c: Collected, v: VisibleLight, i: nat, mask: bv32, bounds: set<nat>, cascades: int)
    ensures var r := CollectStep(c, v, i, mask, bounds, cascades);
      && |c.dir| <= |r.dir| && r.dir[..|c.dir|] == c.dir
      && (Candidate(v, mask, true) && |c.dir| < MaxDirLightCount ==>
            && |c.dir| < |r.dir|
            && r.dir[|c.dir|].color == v.finalColor
            && r.dir[|c.dir|].directionAndMask == DirectionAndMask(Negate(v.forward), v.light.renderingLayerMask))
  {
  }

  /** The slot a non-negative map entry names holds that light's colour and position, and the
      spot-angle entry of its kind: (0, 1) for a point light, the cone falloff for a spot light. */
  lemma {:induction false} OtherSlotOfLight(lights: seq<VisibleLight>, mask: bv32, bounds: set<nat>, cascades: int, start: Reservations, i: nat)
    requires i < |lights|
    requires |Collect(lights, mask, bounds, cascades, start).indexMap| == |lights|
    requires Collect(lights, mask, bounds, cascades, start).indexMap[i] >= 0
    ensures var c := Collect(lights, mask, bounds, cascades, start);
      var k := c.indexMap[i];
      && k < |c.other|
      && c.other[k].color == lights[i].finalColor
      && c.other[k].position == lights[i].position
      && c.other[k].rangeAttenuation == RangeAttenuation(lights[i].range)
      && (lights[i].light.lightType == Point ==> c.other[k].spotAngles == PointSpotAngles)
      && (lights[i].light.lightType == Spot ==> c.other[k].spotAngles == SpotAngleData(lights[i].innerCos, lights[i].outerCos))
    decreases |lights|
  {
    var n := |lights| - 1;
    var prev := Collect(lights[..n], mask, bounds, cascades, start);
    CollectCounts(lights[..n], mask, bounds, cascades, start);
    StepOtherSlot(prev, lights[n], n, mask, bounds, cascades);
    if i < n {
      var c := Collect(lights, mask, bounds, cascades, start);
      assert c.indexMap[i] == c.indexMap[..n][i] == prev.indexMap[i];
      PrefixOfPrefix(lights, i, n);
      OtherSlotOfLight(lights[..n], mask, bounds, cascades, start, i);
      assert c.other[prev.indexMap[i]] == c.other[..|prev.other|][prev.indexMap[i]];
    }
  }

  /** Directional candidates fill the slots in visibility order: the candidate of rank r < 4
      lands in slot r, holding its colour and its negated forward axis. */
  lemma {:induction false} DirectionalSlotOfLight(lights: seq<VisibleLight>, mask: bv32, bounds: set<nat>, cascades: int, start: Reservations, i: nat)
    requires i < |lights|
    requires Candidate(lights[i], mask, true) && Candidates(lights[..i], mask, true) < MaxDirLightCount
    ensures var c := Collect(lights, mask, bounds, cascades, start);
      var k := Candidates(lights[..i], mask, true);
      && k < |c.dir|
      && c.dir[k].color == lights[i].finalColor
      && c.dir[k].directionAndMask == DirectionAndMask(Negate(lights[i].forward), lights[i].light.renderingLayerMask)
    decreases |lights|
  {
    var n := |lights| - 1;
    var prev := Collect(lights[..n], mask, bounds, cascades, start);
    CollectCounts(lights[..n], mask, bounds, cascades, start);
    StepDirectionalSlot(prev, lights[n], n, mask, bounds, cascades);
    if i < n {
      PrefixOfPrefix(lights, i, n);
      DirectionalSlotOfLight(lights[..n], mask, bounds, cascades, start, i);
      CandidatesMonotone(lights[..n], mask, true, i, n);
      assert lights[..n][..n] == lights[..n];
      var k := Candidates(lights[..i], mask, true);
      var c := Collect(lights, mask, bounds, cascades, start);
      assert c.dir[k] == c.dir[..|prev.dir|][k];
    } else {
      assert lights[..i] == lights[..n];
    }
  }

  /** One step changes the directional reservations only by appending the visited light, when it
      is a directional candidate given a slot, and likewise for the other reservations. */
  lemma StepReservations(c: Collected, v: VisibleLight, i: nat, mask: bv32, bounds: set<nat>, cascades: int)
    ensures var r := CollectStep(c, v, i, mask, bounds, cascades).shadows;
      && (r.directional == c.shadows.directional
          || (Candidate(v, mask, true) && |c.dir| < MaxDirLightCount
              && r.directional == c.shadows.directional + [ShadowedDirectionalLight(i, v.light.shadowBias, v.light.shadowNearPlane)]))
      && (r.other == c.shadows.other
          || (Candidate(v, mask, false) && |c.other| < MaxOtherLightCount
              && |r.other| == |c.shadows.other| + 1 && r.other[..|c.shadows.other|] == c.shadows.other
              && r.other[|c.shadows.other|].visibleLightIndex == i))
  {
    var r := CollectStep(c, v, i, mask, bounds, cascades).shadows;
    if InLayer(v, mask) && IsOther(v) && |c.other| < MaxOtherLightCount && r.other != c.shadows.other {
      assert r.other[..|c.shadows.other|] == c.shadows.other;
    }
  }

  /** Every directional shadow reservation made while collecting belongs to a directional
      candidate that got a slot, and reservations follow visibility order, so no light is reserved
      twice and a masked-out light never is. */
  lemma {:induction false} DirectionalReservationsOfAcceptedLights(lights: seq<VisibleLight>, mask: bv32, bounds: set<nat>, cascades: int)
    ensures var r := Collect(lights, mask, bounds, cascades, NoReservations).shadows;
      && (forall k :: 0 <= k < |r.directional| ==>
            var v := r.directional[k].visibleLightIndex;
            v < |lights| && Candidate(lights[v], mask, true) && Candidates(lights[..v], mask, true) < MaxDirLightCount)
      && (forall k, l :: 0 <= k < l < |r.directional| ==> r.directional[k].visibleLightIndex < r.directional[l].visibleLightIndex)
    decreases |lights|
  {
    if lights != [] {
      var n := |lights| - 1;
      var prefix := lights[..n];
      var prev := Collect(prefix, mask, bounds, cascades, NoReservations);
      DirectionalReservationsOfAcceptedLights(prefix, mask, bounds, cascades);
      CollectCounts(prefix, mask, bounds, cascades, NoReservations);
      StepReservations(prev, lights[n], n, mask, bounds, cascades);
      forall v | 0 <= v < n
        ensures lights[v] == prefix[v] && lights[..v] == prefix[..v]
      {
        PrefixOfPrefix(lights, v, n);
      }
    }
  }

  /** The same for the other-light reservations: each belongs to a point or spot candidate that
      got one of the 64 slots, in visibility order. */
  lemma {:induction false} OtherReservationsOfAcceptedLights(lights: seq<VisibleLight>, mask: bv32, bounds: set<nat>, cascades: int)
    ensures var r := Collect(lights, mask, bounds, cascades, NoReservations).shadows;
      && (forall k :: 0 <= k < |r.other| ==>
            var v := r.other[k].visibleLightIndex;
            v < |lights| && Candidate(lights[v], mask, false) && Candidates(lights[..v], mask, false) < MaxOtherLightCount)
      && (forall k, l :: 0 <= k < l < |r.other| ==> r.other[k].visibleLightIndex < r.other[l].visibleLightIndex)
    decreases |lights|
  {
    if lights != [] {
      var n := |lights| - 1;
      var prefix := lights[..n];
      var prev := Collect(prefix, mask, bounds, cascades, NoReservations);
      OtherReservationsOfAcceptedLights(prefix, mask, bounds, cascades);
      CollectCounts(prefix, mask, bounds, cascades, NoReservations);
      StepReservations(prev, lights[n], n, mask, bounds, cascades);
      forall v | 0 <= v < n
        ensures lights[v] == prefix[v] && lights[..v] == prefix[..v]
      {
        PrefixOfPrefix(lights, v, n);
      }
    }
  }

  /** The uploads publish both counts, and each kind's arrays exactly when its count is positive. */
  lemma UploadCommandsShape(dirCount: nat, otherCount: nat)
    ensures var u := UploadCommands(dirCount, otherCount);
      && SetInt("_DirectionalLightCount", dirCount) in u
      && SetInt("_OtherLightCount", otherCount) in u
      && (SetArray("_DirectionalLightColors") in u <==> dirCount > 0)
      && (SetArray("_OtherLightColors") in u <==> otherCount > 0)
  {
    var u := UploadCommands(dirCount, otherCount);
    var d := if dirCount > 0 then 1 + 3 else 1;
    assert u[0] == SetInt("_DirectionalLightCount", dirCount);
    assert u[d] == SetInt("_OtherLightCount", otherCount);
    if dirCount > 0 {
      assert u[1] == SetArray("_DirectionalLightColors");
    }
    if otherCount > 0 {
      assert u[d + 1] == SetArray("_OtherLightColors");
    }
    forall k | 0 <= k < |u|
      ensures u[k] == SetArray("_DirectionalLightColors") ==> dirCount > 0
      ensures u[k] == SetArray("_OtherLightColors") ==> otherCount > 0
    {
      if dirCount == 0 {
        assert u[k] != SetArray("_DirectionalLightColors");
      }
      if otherCount == 0 {
        assert k < d + 1;
      }
    }
  }

  /** The uploads touch no temporary target. */
  lemma UploadCommandsPoolFree(dirCount: nat, otherCount: nat)
    ensures PoolFree(UploadCommands(dirCount, otherCount))
  {
  }

  // ---------------------------------------------------------------------------------------------
  // The Lighting object

  class Lighting {
    const shadows: Shadows
    /** The directional light arrays, one record per slot. */
    const dirLightSlots: array<DirectionalSlot>
    /** The other-light arrays, one record per slot. */
    const otherLightSlots: array<OtherSlot>
    var cullingResults: CullingResults
    /** Everything recorded into the "Lighting" command buffer. */
    var buffer: seq<Command>
    /** The index map last handed to SetLightIndexMap. */
    var lightIndexMap: seq<int>
    /** Whether the global _LIGHTS_PER_OBJECT keyword is enabled. */
    var lightsPerObject: bool

    /** The fixed shape of the object. */
    predicate Layout() {
      dirLightSlots.Length == MaxDirLightCount && otherLightSlots.Length == MaxOtherLightCount
    }

    constructor()
      ensures Layout() && shadows.Valid() && fresh(shadows)
      ensures buffer == [] && shadows.buffer == []
    {
      shadows := new Shadows(DefaultShadowSettings());
      dirLightSlots := new DirectionalSlot[MaxDirLightCount](_ => DirectionalSlot(Color(0.0, 0.0, 0.0, 0.0),
        DirectionAndMask(Vec3(0.0, 0.0, 0.0), 0), NoShadowData));
      otherLightSlots := new OtherSlot[MaxOtherLightCount](_ => OtherSlot(Color(0.0, 0.0, 0.0, 0.0),
        Vec3(0.0, 0.0, 0.0), 0.0, DirectionAndMask(Vec3(0.0, 0.0, 0.0), 0), SpotAngles(0.0, 0.0), NoShadowData));
      cullingResults := CullingResults([], {}, 0);
      buffer := [];
      lightIndexMap := [];
      lightsPerObject := false;
    }

    /** Lighting.SetupDirectionalLight: slot `index` is written and the light's shadows reserved. */
    method SetupDirectionalLight(index: nat, visibleIndex: nat, v: VisibleLight)
      requires Layout() && index < MaxDirLightCount && shadows.Valid()
      modifies dirLightSlots, shadows`useShadowMask, shadows`shadowedDirectionalLightCount, shadows.directionalLights
      ensures shadows.Valid()
      ensures var res := ReserveDirectional(old(shadows.State()), v.light, visibleIndex,
                                            shadows.CasterBounds(visibleIndex), shadows.settings.directional.cascadeCount);
              && shadows.State() == res.state
              && dirLightSlots[..index + 1] == old(dirLightSlots[..index]) + [DirectionalSlotOf(v, res.data)]
              && dirLightSlots[index + 1..] == old(dirLightSlots[index + 1..])
    {
      var data := shadows.ReserveDirectionalShadows(v.light, visibleIndex);
      dirLightSlots[index] := DirectionalSlot(v.finalColor,
        DirectionAndMask(Negate(v.forward), v.light.renderingLayerMask), data);
      assert dirLightSlots[..index + 1] == dirLightSlots[..index] + [dirLightSlots[index]];
    }

    /** Lighting.SetupPointLight. */
    method SetupPointLight(index: nat, visibleIndex: nat, v: VisibleLight)
      requires Layout() && index < MaxOtherLightCount && shadows.Valid()
      modifies otherLightSlots, shadows`useShadowMask, shadows`shadowedOtherLightCount, shadows`otherReserved, shadows.otherLights
      ensures shadows.Valid()
      ensures var res := ReserveOther(old(shadows.State()), v.light, visibleIndex, shadows.CasterBounds(visibleIndex));
              && shadows.State() == res.state
              && otherLightSlots[..index + 1] == old(otherLightSlots[..index]) + [PointSlotOf(v, res.data)]
              && otherLightSlots[index + 1..] == old(otherLightSlots[index + 1..])
    {
      var attenuation := RangeAttenuation(v.range);
      var data := shadows.ReserveOtherShadows(v.light, visibleIndex);
      otherLightSlots[index] := OtherSlot(v.finalColor, v.position, attenuation,
        DirectionAndMask(Vec3(0.0, 0.0, 0.0), v.light.renderingLayerMask), SpotAngles(0.0, 1.0), data);
      assert otherLightSlots[..index + 1] == otherLightSlots[..index] + [otherLightSlots[index]];
    }

    /** Lighting.SetupSpotLight. */
    method SetupSpotLight(index: nat, visibleIndex: nat, v: VisibleLight)
      requires Layout() && index < MaxOtherLightCount && shadows.Valid()
      modifies otherLightSlots, shadows`useShadowMask, shadows`shadowedOtherLightCount, shadows`otherReserved, shadows.otherLights
      ensures shadows.Valid()
      ensures var res := ReserveOther(old(shadows.State()), v.light, visibleIndex, shadows.CasterBounds(visibleIndex));
              && shadows.State() == res.state
              && otherLightSlots[..index + 1] == old(otherLightSlots[..index]) + [SpotSlotOf(v, res.data)]
              && otherLightSlots[index + 1..] == old(otherLightSlots[index + 1..])
    {
      var attenuation := RangeAttenuation(v.range);
      var angles := SpotAngleData(v.innerCos, v.outerCos);
      var data := shadows.ReserveOtherShadows(v.light, visibleIndex);
      otherLightSlots[index] := OtherSlot(v.finalColor, v.position, attenuation,
        DirectionAndMask(Negate(v.forward), v.light.renderingLayerMask), angles, data);
      assert otherLightSlots[..index + 1] == otherLightSlots[..index] + [otherLightSlots[index]];
    }

    /** The Directional case of the SetupLight switch: a slot while fewer than four are filled. */
    method CollectDirectional(i: nat, v: VisibleLight, mask: bv32, dirCount: nat, otherCount: nat, ghost indexMap: seq<int>)
      returns (newDirCount: nat)
      requires Layout() && shadows.Valid() && dirCount <= MaxDirLightCount && otherCount <= MaxOtherLightCount
      requires InLayer(v, mask) && v.light.lightType == Directional
      modifies dirLightSlots, shadows`useShadowMask, shadows`shadowedDirectionalLightCount, shadows.directionalLights
      ensures shadows.Valid() && dirCount <= newDirCount <= MaxDirLightCount
      ensures dirLightSlots[newDirCount..] == old(dirLightSlots[newDirCount..])
      ensures Collected(dirLightSlots[..newDirCount], otherLightSlots[..otherCount], indexMap + [-1], shadows.State())
              == CollectStep(Collected(old(dirLightSlots[..dirCount]), old(otherLightSlots[..otherCount]), indexMap, old(shadows.State())),
                             v, i, mask, shadows.cullingResults.shadowCasterBounds, shadows.settings.directional.cascadeCount)
    {
      newDirCount := dirCount;
      if dirCount < MaxDirLightCount {
        SetupDirectionalLight(dirCount, i, v);
        newDirCount := dirCount + 1;
      }
    }

    /** The Point case of the SetupLight switch: the next other slot while fewer than 64 are filled. */
    method CollectPoint(i: nat, v: VisibleLight, mask: bv32, dirCount: nat, otherCount: nat, ghost indexMap: seq<int>)
      returns (newOtherCount: nat, newIndex: int)
      requires Layout() && shadows.Valid() && dirCount <= MaxDirLightCount && otherCount <= MaxOtherLightCount
      requires InLayer(v, mask) && v.light.lightType == Point
      modifies otherLightSlots, shadows`useShadowMask, shadows`shadowedOtherLightCount, shadows`otherReserved, shadows.otherLights
      ensures shadows.Valid() && otherCount <= newOtherCount <= MaxOtherLightCount
      ensures otherLightSlots[newOtherCount..] == old(otherLightSlots[newOtherCount..])
      ensures Collected(dirLightSlots[..dirCount], otherLightSlots[..newOtherCount], indexMap + [newIndex], shadows.State())
              == CollectStep(Collected(old(dirLightSlots[..dirCount]), old(otherLightSlots[..otherCount]), indexMap, old(shadows.State())),
                             v, i, mask, shadows.cullingResults.shadowCasterBounds, shadows.settings.directional.cascadeCount)
    {
      newOtherCount, newIndex := otherCount, -1;
      if otherCount < MaxOtherLightCount {
        newIndex := otherCount;
        SetupPointLight(otherCount, i, v);
        newOtherCount := otherCount + 1;
      }
    }

    /** The Spot case of the SetupLight switch, sharing the other-light counter with Point. */
    method CollectSpot(i: nat, v: VisibleLight, mask: bv32, dirCount: nat, otherCount: nat, ghost indexMap: seq<int>)
      returns (newOtherCount: nat, newIndex: int)
      requires Layout() && shadows.Valid() && dirCount <= MaxDirLightCount && otherCount <= MaxOtherLightCount
      requires InLayer(v, mask) && v.light.lightType == Spot
      modifies otherLightSlots, shadows`useShadowMask, shadows`shadowedOtherLightCount, shadows`otherReserved, shadows.otherLights
      ensures shadows.Valid() && otherCount <= newOtherCount <= MaxOtherLightCount
      ensures otherLightSlots[newOtherCount..] == old(otherLightSlots[newOtherCount..])
      ensures Collected(dirLightSlots[..dirCount], otherLightSlots[..newOtherCount], indexMap + [newIndex], shadows.State())
              == CollectStep(Collected(old(dirLightSlots[..dirCount]), old(otherLightSlots[..otherCount]), indexMap, old(shadows.State())),
                             v, i, mask, shadows.cullingResults.shadowCasterBounds, shadows.settings.directional.cascadeCount)
    {
      newOtherCount, newIndex := otherCount, -1;
      if otherCount < MaxOtherLightCount {
        newIndex := otherCount;
        SetupSpotLight(otherCount, i, v);
        newOtherCount := otherCount + 1;
      }
    }

    /** The body of the SetupLight loop for visible light `i`: the layer test, the switch on the
        light type, and the index-map entry the light gets. */
    method SetupVisibleLight(i: nat, v: VisibleLight, mask: bv32, dirCount: nat, otherCount: nat, ghost indexMap: seq<int>)
      returns (newDirCount: nat, newOtherCount: nat, newIndex: int)
      requires Layout() && shadows.Valid() && dirCount <= MaxDirLightCount && otherCount <= MaxOtherLightCount
      modifies dirLightSlots, otherLightSlots, shadows`useShadowMask, shadows`shadowedDirectionalLightCount,
               shadows.directionalLights, shadows`shadowedOtherLightCount, shadows`otherReserved, shadows.otherLights
      ensures shadows.Valid() && newDirCount <= MaxDirLightCount && newOtherCount <= MaxOtherLightCount
      ensures dirCount <= newDirCount && otherCount <= newOtherCount
      ensures dirLightSlots[newDirCount..] == old(dirLightSlots[newDirCount..])
      ensures otherLightSlots[newOtherCount..] == old(otherLightSlots[newOtherCount..])
      ensures Collected(dirLightSlots[..newDirCount], otherLightSlots[..newOtherCount], indexMap + [newIndex], shadows.State())
              == CollectStep(Collected(old(dirLightSlots[..dirCount]), old(otherLightSlots[..otherCount]), indexMap, old(shadows.State())),
                             v, i, mask, shadows.cullingResults.shadowCasterBounds, shadows.settings.directional.cascadeCount)
    {
      newDirCount, newOtherCount, newIndex := dirCount, otherCount, -1;
      if v.light.renderingLayerMask & mask != 0 {
        match v.light.lightType {
          case Directional =>
            newDirCount := CollectDirectional(i, v, mask, dirCount, otherCount, indexMap);
          case Point =>
            newOtherCount, newIndex := CollectPoint(i, v, mask, dirCount, otherCount, indexMap);
          case Spot =>
            newOtherCount, newIndex := CollectSpot(i, v, mask, dirCount, otherCount, indexMap);
          case Area =>
        }
      }
    }

    /** The first loop of SetupLight: every visible light in order, with its index-map entry
        written when per-object lights are on. */
    method CollectVisibleLights(visibleLights: seq<VisibleLight>, mask: bv32, useLightsPerObject: bool, indexMap: array<int>)
      returns (dirLightCount: nat, otherLightCount: nat, ghost entries: seq<int>)
      requires Layout() && shadows.Valid()
      requires useLightsPerObject ==> |visibleLights| <= indexMap.Length
      modifies dirLightSlots, otherLightSlots, shadows`useShadowMask, shadows`shadowedDirectionalLightCount,
               shadows.directionalLights, shadows`shadowedOtherLightCount, shadows`otherReserved, shadows.otherLights,
               indexMap
      ensures shadows.Valid() && dirLightCount <= MaxDirLightCount && otherLightCount <= MaxOtherLightCount
      ensures dirLightSlots[dirLightCount..] == old(dirLightSlots[dirLightCount..])
      ensures otherLightSlots[otherLightCount..] == old(otherLightSlots[otherLightCount..])
      ensures Collected(dirLightSlots[..dirLightCount], otherLightSlots[..otherLightCount], entries, shadows.State())
              == Collect(visibleLights, mask, shadows.cullingResults.shadowCasterBounds,
                         shadows.settings.directional.cascadeCount, old(shadows.State()))
      ensures |entries| == |visibleLights|
      ensures indexMap[..] == WrittenIndexMap(old(indexMap[..]), entries, useLightsPerObject)
    {
      ghost var bounds := shadows.cullingResults.shadowCasterBounds;
      ghost var cascades := shadows.settings.directional.cascadeCount;
      ghost var start := shadows.State();
      dirLightCount, otherLightCount, entries := 0, 0, [];
      var i := 0;
      while i < |visibleLights|
        invariant 0 <= i <= |visibleLights|
        invariant dirLightCount <= MaxDirLightCount && otherLightCount <= MaxOtherLightCount
        invariant forall k :: dirLightCount <= k < dirLightSlots.Length ==> dirLightSlots[k] == old(dirLightSlots[k])
        invariant forall k :: otherLightCount <= k < otherLightSlots.Length ==> otherLightSlots[k] == old(otherLightSlots[k])
        invariant shadows.Valid()
        invariant Collected(dirLightSlots[..dirLightCount], otherLightSlots[..otherLightCount], entries, shadows.State())
                  == Collect(visibleLights[..i], mask, bounds, cascades, start)
        invariant |entries| == i
        invariant indexMap[..] == WrittenIndexMap(old(indexMap[..]), entries, useLightsPerObject)
      {
        CollectSnoc(visibleLights, i, mask, bounds, cascades, start);
        dirLightCount, otherLightCount, entries :=
          VisitLight(visibleLights, i, mask, useLightsPerObject, indexMap, dirLightCount, otherLightCount, entries, old(indexMap[..]));
        i := i + 1;
      }
      assert visibleLights[..i] == visibleLights;
      assert dirLightSlots[dirLightCount..] == old(dirLightSlots[dirLightCount..]);
      assert otherLightSlots[otherLightCount..] == old(otherLightSlots[otherLightCount..]);
    }

    /** One pass of the first SetupLight loop: light `i` is set up and, with per-object lights,
        its index-map entry is written. */
    method VisitLight(visibleLights: seq<VisibleLight>, i: nat, mask: bv32, useLightsPerObject: bool, indexMap: array<int>,
                      dirCount: nat, otherCount: nat, ghost entries: seq<int>, ghost orig: seq<int>)
      returns (newDirCount: nat, newOtherCount: nat, ghost newEntries: seq<int>)
      requires Layout() && shadows.Valid() && dirCount <= MaxDirLightCount && otherCount <= MaxOtherLightCount
      requires i < |visibleLights| && |entries| == i
      requires useLightsPerObject ==> |visibleLights| <= |orig|
      requires indexMap[..] == WrittenIndexMap(orig, entries, useLightsPerObject)
      modifies dirLightSlots, otherLightSlots, shadows`useShadowMask, shadows`shadowedDirectionalLightCount,
               shadows.directionalLights, shadows`shadowedOtherLightCount, shadows`otherReserved, shadows.otherLights,
               indexMap
      ensures shadows.Valid() && newDirCount <= MaxDirLightCount && newOtherCount <= MaxOtherLightCount
      ensures dirCount <= newDirCount && otherCount <= newOtherCount
      ensures dirLightSlots[newDirCount..] == old(dirLightSlots[newDirCount..])
      ensures otherLightSlots[newOtherCount..] == old(otherLightSlots[newOtherCount..])
      ensures Collected(dirLightSlots[..newDirCount], otherLightSlots[..newOtherCount], newEntries, shadows.State())
              == CollectStep(Collected(old(dirLightSlots[..dirCount]), old(otherLightSlots[..otherCount]), entries, old(shadows.State())),
                             visibleLights[i], i, mask, shadows.cullingResults.shadowCasterBounds, shadows.settings.directional.cascadeCount)
      ensures |newEntries| == i + 1
      ensures indexMap[..] == WrittenIndexMap(orig, newEntries, useLightsPerObject)
    {
      var newIndex;
      newDirCount, newOtherCount, newIndex :=
        SetupVisibleLight(i, visibleLights[i], mask, dirCount, otherCount, entries);
      if useLightsPerObject {
        indexMap[i] := newIndex;
      }
      newEntries := entries + [newIndex];
      WrittenIndexMapStep(orig, entries, newIndex, useLightsPerObject);
    }

    /** The second loop of SetupLight: every entry from `from` on is set to -1. */
    method FillIndexMapTail(indexMap: array<int>, from: nat)
      requires from <= indexMap.Length
      modifies indexMap
      ensures indexMap[..] == PaddedIndexMap(old(indexMap[..from]), indexMap.Length)
    {
      var i := from;
      while i < indexMap.Length
        invariant from <= i <= indexMap.Length
        invariant indexMap[..from] == old(indexMap[..from])
        invariant forall k :: from <= k < i ==> indexMap[k] == -1
      {
        indexMap[i] := -1;
        i := i + 1;
      }
    }

    /** Lighting.SetupLight. */
    method SetupLight(useLightsPerObject: bool, renderingLayerMask: bv32)
      requires Layout() && shadows.Valid() && shadows.State() == NoReservations
      requires shadows.cullingResults == cullingResults
      requires useLightsPerObject ==> WellFormedCulling(cullingResults)
      modifies this`buffer, this`lightIndexMap, this`lightsPerObject, dirLightSlots, otherLightSlots,
               shadows`useShadowMask, shadows`shadowedDirectionalLightCount, shadows.directionalLights,
               shadows`shadowedOtherLightCount, shadows`otherReserved, shadows.otherLights
      ensures shadows.Valid()
      ensures var c := Collect(cullingResults.visibleLights, renderingLayerMask, cullingResults.shadowCasterBounds,
                               shadows.settings.directional.cascadeCount, NoReservations);
        && |c.dir| <= MaxDirLightCount && |c.other| <= MaxOtherLightCount
        && dirLightSlots[..|c.dir|] == c.dir
        && otherLightSlots[..|c.other|] == c.other
        && dirLightSlots[|c.dir|..] == old(dirLightSlots[|c.dir|..])
        && otherLightSlots[|c.other|..] == old(otherLightSlots[|c.other|..])
        && shadows.State() == c.shadows
        && lightsPerObject == useLightsPerObject
        && (useLightsPerObject ==> |c.indexMap| <= cullingResults.lightIndexMapLength
                                   && lightIndexMap == PaddedIndexMap(c.indexMap, cullingResults.lightIndexMapLength))
        && (!useLightsPerObject ==> lightIndexMap == old(lightIndexMap))
        && buffer == old(buffer) + UploadCommands(|c.dir|, |c.other|)
    {
      var visibleLights := cullingResults.visibleLights;
      var indexMap := new int[if useLightsPerObject then cullingResults.lightIndexMapLength else 0];
      ghost var orig := indexMap[..];
      var dirLightCount, otherLightCount, entries :=
        CollectVisibleLights(visibleLights, renderingLayerMask, useLightsPerObject, indexMap);
      if useLightsPerObject {
        WrittenIndexMapPrefix(orig, entries);
        assert indexMap[..|visibleLights|] == entries;
        FillIndexMapTail(indexMap, |visibleLights|);
        lightIndexMap := indexMap[..];
        lightsPerObject := true;
      } else {
        lightsPerObject := false;
      }
      UploadLights(dirLightCount, otherLightCount);
    }

    /** The uploads at the end of SetupLight. */
    method UploadLights(dirLightCount: nat, otherLightCount: nat)
      modifies this`buffer
      ensures buffer == old(buffer) + UploadCommands(dirLightCount, otherLightCount)
    {
      buffer := buffer + [SetInt("_DirectionalLightCount", dirLightCount)];
      if dirLightCount > 0 {
        buffer := buffer + [SetArray("_DirectionalLightColors"), SetArray("_DirectionalLightDirectionsAndMasks"),
                            SetArray("_DirectionalLightShadowData")];
      }
      buffer := buffer + [SetInt("_OtherLightCount", otherLightCount)];
      if otherLightCount > 0 {
        buffer := buffer + [SetArray("_OtherLightColors"), SetArray("_OtherLightPositions"),
                            SetArray("_OtherLightDirectionsAndMasks"), SetArray("_OtherLightSpotAngles"),
                            SetArray("_OtherLightShadowData")];
      }
    }

    /** Lighting.Setup: the shadows are reset, the lights collected (reserving their shadows),
        and then the shadow atlases rendered from exactly those reservations. */
    method Setup(cullingResults: CullingResults, shadowSettings: ShadowSettings, useLightsPerObject: bool,
                 renderingLayerMask: bv32, shadowmaskMode: ShadowmaskMode)
      requires Layout() && shadows.Valid() && ValidShadowSettings(shadowSettings)
      requires useLightsPerObject ==> WellFormedCulling(cullingResults)
      modifies this`cullingResults, this`buffer, this`lightIndexMap, this`lightsPerObject,
               dirLightSlots, otherLightSlots, shadows, shadows.directionalLights, shadows.otherLights
      ensures shadows.Valid() && this.cullingResults == cullingResults && shadows.settings == shadowSettings
      ensures var c := Collect(cullingResults.visibleLights, renderingLayerMask, cullingResults.shadowCasterBounds,
                               shadowSettings.directional.cascadeCount, NoReservations);
        && |c.dir| <= MaxDirLightCount && |c.other| <= MaxOtherLightCount
        && dirLightSlots[..|c.dir|] == c.dir
        && otherLightSlots[..|c.other|] == c.other
        && dirLightSlots[|c.dir|..] == old(dirLightSlots[|c.dir|..])
        && otherLightSlots[|c.other|..] == old(otherLightSlots[|c.other|..])
        && shadows.State() == c.shadows
        && lightsPerObject == useLightsPerObject
        && (useLightsPerObject ==> |c.indexMap| <= cullingResults.lightIndexMapLength
                                   && lightIndexMap == PaddedIndexMap(c.indexMap, cullingResults.lightIndexMapLength))
        && (!useLightsPerObject ==> lightIndexMap == old(lightIndexMap))
        && buffer == old(buffer) + UploadCommands(|c.dir|, |c.other|)
        && shadows.buffer == old(shadows.buffer) + RenderCommands(c.shadows, shadowSettings, shadowmaskMode)
    {
      this.cullingResults := cullingResults;
      shadows.Setup(cullingResults, shadowSettings);
      SetupLight(useLightsPerObject, renderingLayerMask);
      shadows.Render(shadowmaskMode);
    }

    /** Lighting.Cleanup. */
    method Cleanup()
      requires shadows.Valid()
      modifies shadows`buffer
      ensures shadows.Valid()
      ensures shadows.buffer == old(shadows.buffer) + CleanupCommands(shadows.State())
    {
      shadows.Cleanup();
    }
  }
}
