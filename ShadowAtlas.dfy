/** The shadow atlas planner (Shadows.cs): per-frame reservation of atlas tiles for
    directional and other (point/spot) lights, the tiling of the two atlases, and the
    commands that render and release them. */
module ShadowAtlas {
  import opened Commands
  import opened Engine
  import opened Settings

  const MaxShadowedDirectionalLightCount: nat := 4
  const MaxCascades: nat := 4
  const MaxShadowedOtherLightCount: nat := 16

  const DirShadowAtlasId: int := 20
  const OtherShadowAtlasId: int := 21

  const DirectionalFilterKeywords: seq<string> := ["_DIRECTIONAL_PCF3", "_DIRECTIONAL_PCF5", "_DIRECTIONAL_PCF7"]
  const CascadeBlendKeywords: seq<string> := ["_CASCADE_BLEND_SOFT", "_CASCADE_BLEND_DITHER"]
  const ShadowMaskKeywords: seq<string> := ["_SHADOW_MASK_ALWAYS", "_SHADOW_MASK_DISTANCE"]
  const OtherFilterKeywords: seq<string> := ["_OTHER_PCF3", "_OTHER_PCF5", "_OTHER_PCF7"]

  datatype ShadowedDirectionalLight = ShadowedDirectionalLight(
    visibleLightIndex: nat, slopeScaleBias: real, nearPlaneOffset: real)

  datatype ShadowedOtherLight = ShadowedOtherLight(
    visibleLightIndex: nat, slopeScaleBias: real, normalBias: real, isPoint: bool)

  /** The Vector4 a reservation returns: (strength, tile index, bias or point flag, mask channel).
      A negative strength means "no realtime shadow, baked shadow mask only". */
  datatype ShadowData = ShadowData(strength: real, tileIndex: int, bias: real, maskChannel: int)

  const NoShadowData := ShadowData(0.0, 0, 0.0, -1)

  /** The reservation state of one frame. */
  datatype Reservations = Reservations(
    directional: seq<ShadowedDirectionalLight>,
    other: seq<ShadowedOtherLight>,
    useShadowMask: bool)

  datatype Reserved = Reserved(state: Reservations, data: ShadowData)

  const NoReservations := Reservations([], [], false)

  /** Tiles one other light occupies: six cube faces for a point light, one for a spot light. */
  function TileCount(l: ShadowedOtherLight): nat {
    if l.isPoint then 6 else 1
  }

  /** shadowedOtherLightCount: the tiles taken by a sequence of other-light reservations. */
  function OtherTiles(other: seq<ShadowedOtherLight>): nat
    decreases |other|
  {
    if other == [] then 0 else OtherTiles(other[..|other| - 1]) + TileCount(other[|other| - 1])
  }

  /** The first tile of reservation `j`. */
  function OtherStart(other: seq<ShadowedOtherLight>, j: nat): nat
    requires j <= |other|
  {
    OtherTiles(other[..j])
  }

  predicate WithinCapacity(r: Reservations) {
    |r.directional| <= MaxShadowedDirectionalLightCount && OtherTiles(r.other) <= MaxShadowedOtherLightCount
  }

  predicate UsesShadowmask(l: Light) {
    l.bakeType == Mixed && l.mixedMode == Shadowmask
  }

  function MaskChannel(l: Light): int {
    if UsesShadowmask(l) then l.occlusionMaskChannel else -1
  }

  /** ReserveDirectionalShadows. */
  function ReserveDirectional(r: Reservations, light: Light, visibleLightIndex: nat,
                              hasCasterBounds: bool, cascadeCount: int): Reserved
  {
    if |r.directional| < MaxShadowedDirectionalLightCount && light.shadows != NoShadows
       && light.shadowStrength > 0.0 then
      var marked := r.(useShadowMask := r.useShadowMask || UsesShadowmask(light));
      if !hasCasterBounds then
        Reserved(marked, ShadowData(-light.shadowStrength, 0, 0.0, MaskChannel(light)))
      else
        Reserved(
          marked.(directional := r.directional
            + [ShadowedDirectionalLight(visibleLightIndex, light.shadowBias, light.shadowNearPlane)]),
          ShadowData(light.shadowStrength, cascadeCount * |r.directional|, light.shadowNormalBias, MaskChannel(light)))
    else
      Reserved(r, NoShadowData)
  }

  /** ReserveOtherShadows. */
  function ReserveOther(r: Reservations, light: Light, visibleLightIndex: nat, hasCasterBounds: bool): Reserved
  {
    if light.shadows == NoShadows || light.shadowStrength <= 0.0 then
      Reserved(r, NoShadowData)
    else
      var marked := r.(useShadowMask := r.useShadowMask || UsesShadowmask(light));
      var isPoint := light.lightType == Point;
      var newLightCount := OtherTiles(r.other) + (if isPoint then 6 else 1);
      if newLightCount > MaxShadowedOtherLightCount || !hasCasterBounds then
        Reserved(marked, ShadowData(-light.shadowStrength, 0, 0.0, MaskChannel(light)))
      else
        Reserved(
          marked.(other := r.other
            + [ShadowedOtherLight(visibleLightIndex, light.shadowBias, light.shadowNormalBias, isPoint)]),
          ShadowData(light.shadowStrength, OtherTiles(r.other), if isPoint then 1.0 else 0.0, MaskChannel(light)))
  }

  // ---------------------------------------------------------------------------------------------
  // Reservation properties

  lemma OtherTilesAppend(s: seq<ShadowedOtherLight>, x: ShadowedOtherLight)
    ensures OtherTiles(s + [x]) == OtherTiles(s) + TileCount(x)
  {
    assert (s + [x])[..|s + [x]| - 1] == s;
  }

  lemma OtherStartAppend(s: seq<ShadowedOtherLight>, x: ShadowedOtherLight, j: nat)
    requires j <= |s|
    ensures OtherStart(s + [x], j) == OtherStart(s, j)
  {
    assert (s + [x])[..j] == s[..j];
  }

  lemma OtherStartStep(s: seq<ShadowedOtherLight>, j: nat)
    requires j < |s|
    ensures OtherStart(s, j + 1) == OtherStart(s, j) + TileCount(s[j])
  {
    assert s[..j + 1][..j] == s[..j];
  }

  lemma OtherStartEnd(s: seq<ShadowedOtherLight>)
    ensures OtherStart(s, |s|) == OtherTiles(s)
  {
    assert s[..|s|] == s;
  }

  /** Reservation `j` occupies tiles [start, start + size), all below the reserved count, and each
      later reservation starts where the previous ones end: the ranges are contiguous and disjoint. */
  lemma {:induction false} OtherRangesDisjoint(s: seq<ShadowedOtherLight>, j: nat, k: nat)
    requires j < k <= |s|
    ensures OtherStart(s, j) + TileCount(s[j]) <= OtherStart(s, k) <= OtherTiles(s)
    decreases k - j
  {
    OtherStartStep(s, j);
    if j + 1 < k {
      OtherRangesDisjoint(s, j + 1, k);
    } else {
      OtherStartMonotone(s, k);
    }
  }

  lemma {:induction false} OtherStartMonotone(s: seq<ShadowedOtherLight>, k: nat)
    requires k <= |s|
    ensures OtherStart(s, k) <= OtherTiles(s)
    decreases |s| - k
  {
    if k == |s| {
      OtherStartEnd(s);
    } else {
      OtherStartStep(s, k);
      OtherStartMonotone(s, k + 1);
    }
  }

  /** A directional reservation is refused, and nothing changes, when four directional lights are
      already reserved, the light casts no shadows or its strength is not positive; in particular
      such a light never sets the shadow-mask flag. */
  lemma DirectionalRefusal(r: Reservations, light: Light, v: nat, bounds: bool, cascades: int)
    requires |r.directional| >= MaxShadowedDirectionalLightCount || light.shadows == NoShadows
             || light.shadowStrength <= 0.0
    ensures ReserveDirectional(r, light, v, bounds, cascades) == Reserved(r, NoShadowData)
  {
  }

  /** An accepted directional light gets `cascadeCount * oldCount` as its base tile and the count
      grows by exactly one; without caster bounds the strength comes back negated and the count
      stays. The returned strength is positive exactly when the light was reserved. */
  lemma DirectionalOutcome(r: Reservations, light: Light, v: nat, bounds: bool, cascades: int)
    ensures var res := ReserveDirectional(r, light, v, bounds, cascades);
      && res.state.other == r.other
      && (res.data.strength > 0.0 <==> |res.state.directional| == |r.directional| + 1)
      && (res.data.strength > 0.0 ==>
            && res.data.tileIndex == cascades * |r.directional|
            && res.state.directional == r.directional
                 + [ShadowedDirectionalLight(v, light.shadowBias, light.shadowNearPlane)])
      && (res.data.strength <= 0.0 ==> res.state.directional == r.directional)
      && (res.data.strength < 0.0 <==> (|r.directional| < MaxShadowedDirectionalLightCount
            && light.shadows != NoShadows && light.shadowStrength > 0.0 && !bounds))
  {
  }

  /** Directional reservations keep the directional count within its capacity of four. */
  lemma DirectionalCapacity(r: Reservations, light: Light, v: nat, bounds: bool, cascades: int)
    requires WithinCapacity(r)
    ensures WithinCapacity(ReserveDirectional(r, light, v, bounds, cascades).state)
  {
  }

  /** A point light asks for six tiles and a spot light for one; the reservation is refused, with a
      negated strength and no count change, when the new total would pass sixteen or the light has
      no caster bounds; an accepted one returns the old count as its first tile and advances the
      count by its tile count. The returned strength is positive exactly when the light was reserved. */
  lemma OtherOutcome(r: Reservations, light: Light, v: nat, bounds: bool)
    ensures var res := ReserveOther(r, light, v, bounds);
      var size := if light.lightType == Point then 6 else 1;
      && res.state.directional == r.directional
      && (res.data.strength > 0.0 <==>
            (light.shadows != NoShadows && light.shadowStrength > 0.0 && bounds
             && OtherTiles(r.other) + size <= MaxShadowedOtherLightCount))
      && (res.data.strength > 0.0 ==>
            && res.data.tileIndex == OtherTiles(r.other)
            && OtherTiles(res.state.other) == OtherTiles(r.other) + size
            && res.state.other == r.other
                 + [ShadowedOtherLight(v, light.shadowBias, light.shadowNormalBias, light.lightType == Point)])
      && (res.data.strength <= 0.0 ==> res.state.other == r.other)
  {
    var res := ReserveOther(r, light, v, bounds);
    if res.data.strength > 0.0 {
      OtherTilesAppend(r.other, ShadowedOtherLight(v, light.shadowBias, light.shadowNormalBias, light.lightType == Point));
    }
  }

  /** Other-light reservations keep the tile count within the sixteen tiles of the atlas. */
  lemma OtherCapacity(r: Reservations, light: Light, v: nat, bounds: bool)
    requires WithinCapacity(r)
    ensures WithinCapacity(ReserveOther(r, light, v, bounds).state)
  {
    OtherOutcome(r, light, v, bounds);
  }

  /** Shadow-mask detection comes before the capacity and bounds checks: a shadowed Mixed/Shadowmask
      light sets the flag and reports its channel even when it gets no tiles. */
  lemma OtherShadowmaskBeforeRejection(r: Reservations, light: Light, v: nat, bounds: bool)
    requires light.shadows != NoShadows && light.shadowStrength > 0.0 && UsesShadowmask(light)
    ensures ReserveOther(r, light, v, bounds).state.useShadowMask
    ensures ReserveOther(r, light, v, bounds).data.maskChannel == light.occlusionMaskChannel
  {
  }

  // ---------------------------------------------------------------------------------------------
  // Tiling

  /** The atlas grid: 1 for at most one tile, 2 for at most four, else 4. */
  function Split(tiles: int): (split: nat)
    ensures split == 1 || split == 2 || split == 4
    ensures tiles <= 16 ==> tiles <= split * split
    ensures tiles > 1 ==> (split / 2) * (split / 2) < tiles
  {
    if tiles <= 1 then 1 else if tiles <= 4 then 2 else 4
  }

  /** The tile size divides the atlas exactly for every configured atlas size. */
  lemma SplitDividesAtlas(tiles: int, size: MapSize)
    ensures Split(tiles) * (size.Pixels() / Split(tiles)) == size.Pixels()
  {
  }

  /** SetTileViewport's grid offset (index % split, index / split). */
  function TileOffset(index: nat, split: nat): (offset: (nat, nat))
    requires split > 0
  {
    (index % split, index / split)
  }

  /** Offsets of tiles below split² lie inside the grid, and distinct tiles get distinct offsets. */
  lemma TileOffsetsDistinct(t: nat, u: nat, split: nat)
    requires split > 0 && t < split * split && u < split * split
    ensures TileOffset(t, split).0 < split && TileOffset(t, split).1 < split
    ensures t != u ==> TileOffset(t, split) != TileOffset(u, split)
  {
    DivBelow(t, split);
    if t != u && TileOffset(t, split) == TileOffset(u, split) {
      DivMod(t, split);
      DivMod(u, split);
      assert false;
    }
  }

  lemma DivMod(t: nat, split: nat)
    requires split > 0
    ensures t == (t / split) * split + t % split
  {
  }

  lemma DivBelow(t: nat, split: nat)
    requires split > 0 && t < split * split
    ensures t / split < split
  {
    DivMod(t, split);
    MulCancel(t / split, split, split);
  }

  lemma MulCancel(q: nat, b: nat, c: nat)
    requires q * c < b * c
    ensures q < b
  {
    if q >= b {
      MulMono(b, q, c);
    }
  }

  /** The viewport rectangle of a used tile lies inside the atlas. */
  lemma TileInsideAtlas(t: nat, tiles: nat, size: MapSize)
    requires t < tiles <= 16
    ensures var split := Split(tiles); var tileSize := size.Pixels() / split;
      && (TileOffset(t, split).0 + 1) * tileSize <= size.Pixels()
      && (TileOffset(t, split).1 + 1) * tileSize <= size.Pixels()
  {
    var split := Split(tiles);
    var tileSize := size.Pixels() / split;
    TileOffsetsDistinct(t, t, split);
    SplitDividesAtlas(tiles, size);
    var x := TileOffset(t, split).0;
    var y := TileOffset(t, split).1;
    assert (x + 1) * tileSize <= split * tileSize;
    assert (y + 1) * tileSize <= split * tileSize;
  }

  /** The light, the cascade or cube face, and the slope-scale depth bias a tile is rendered with. */
  datatype TileOwner = TileOwner(light: nat, slice: nat, slopeBias: real)

  /** The tiles of the directional atlas: light i owns tiles [i * cascades, (i + 1) * cascades). */
  function DirOwners(dir: seq<ShadowedDirectionalLight>, cascades: nat): (owners: seq<TileOwner>)
    ensures |owners| == |dir| * cascades
    decreases |dir|
  {
    if dir == [] then []
    else
      var n := |dir| - 1;
      DirOwners(dir[..n], cascades) + seq(cascades, c requires 0 <= c < cascades => TileOwner(dir[n].visibleLightIndex, c, dir[n].slopeScaleBias))
  }

  lemma {:induction false} DirOwnersAt(dir: seq<ShadowedDirectionalLight>, cascades: nat, i: nat, c: nat)
    requires i < |dir| && c < cascades
    ensures i * cascades + c < |DirOwners(dir, cascades)|
    ensures DirOwners(dir, cascades)[i * cascades + c] == TileOwner(dir[i].visibleLightIndex, c, dir[i].slopeScaleBias)
    decreases |dir|
  {
    var n := |dir| - 1;
    var prefix := DirOwners(dir[..n], cascades);
    assert |prefix| == n * cascades;
    if i < n {
      MulMono(i + 1, n, cascades);
      DirOwnersAt(dir[..n], cascades, i, c);
    } else {
      assert i * cascades + c - |prefix| == c;
    }
  }

  lemma MulStep(a: nat, c: nat)
    ensures (a + 1) * c == a * c + c
  {
  }

  lemma MulMono(a: nat, b: nat, c: nat)
    requires a <= b
    ensures a * c <= b * c
  {
  }

  /** The tiles of the other atlas in order: each reservation's cube faces or single spot tile. */
  function OtherOwners(other: seq<ShadowedOtherLight>): (owners: seq<TileOwner>)
    ensures |owners| == OtherTiles(other)
    decreases |other|
  {
    if other == [] then []
    else
      var n := |other| - 1;
      OtherOwners(other[..n]) + seq(TileCount(other[n]), f requires 0 <= f < TileCount(other[n]) => TileOwner(other[n].visibleLightIndex, f, other[n].slopeScaleBias))
  }

  lemma {:induction false} OtherOwnersAt(other: seq<ShadowedOtherLight>, j: nat, f: nat)
    requires j < |other| && f < TileCount(other[j])
    ensures OtherStart(other, j) + f < |OtherOwners(other)|
    ensures OtherOwners(other)[OtherStart(other, j) + f] == TileOwner(other[j].visibleLightIndex, f, other[j].slopeScaleBias)
    decreases |other|
  {
    var n := |other| - 1;
    var prefix := other[..n];
    assert other[..j] == prefix[..j];
    if j < n {
      OtherRangesDisjoint(prefix, j, n);
      OtherStartEnd(prefix);
      OtherOwnersAt(prefix, j, f);
    } else {
      OtherStartEnd(prefix);
    }
  }

  /** The commands for tile `t`: its viewport, then the shadow casters drawn into it under the
      light's slope-scale bias, which is reset afterwards. */
  function TileCommand(t: nat, owner: TileOwner, split: nat, tileSize: nat): seq<Command>
    requires split > 0
  {
    [Viewport(TileOffset(t, split).0 * tileSize, TileOffset(t, split).1 * tileSize, tileSize),
     DepthBias(owner.slopeBias), DrawShadows(owner.light, owner.slice), DepthBias(0.0)]
  }

  /** Tiles [lo, hi) rendered in order. */
  function TileSpan(owners: seq<TileOwner>, lo: nat, hi: nat, split: nat, tileSize: nat): seq<Command>
    requires hi <= |owners| && split > 0
    decreases hi
  {
    if hi <= lo then [] else TileSpan(owners, lo, hi - 1, split, tileSize) + TileCommand(hi - 1, owners[hi - 1], split, tileSize)
  }

  lemma {:induction false} TileSpanSplit(owners: seq<TileOwner>, a: nat, b: nat, c: nat, split: nat, tileSize: nat)
    requires a <= b <= c <= |owners| && split > 0
    ensures TileSpan(owners, a, c, split, tileSize)
            == TileSpan(owners, a, b, split, tileSize) + TileSpan(owners, b, c, split, tileSize)
    decreases c
  {
    if b < c {
      TileSpanSplit(owners, a, b, c - 1, split, tileSize);
    }
  }

  lemma {:induction false} TileSpanPoolFree(owners: seq<TileOwner>, lo: nat, hi: nat, split: nat, tileSize: nat)
    requires hi <= |owners| && split > 0
    ensures PoolFree(TileSpan(owners, lo, hi, split, tileSize))
    decreases hi
  {
    if lo < hi {
      TileSpanPoolFree(owners, lo, hi - 1, split, tileSize);
      PoolFreeConcat(TileSpan(owners, lo, hi - 1, split, tileSize), TileCommand(hi - 1, owners[hi - 1], split, tileSize));
    }
  }

  /** Commands `4k` to `4k + 3` of a span render tile lo + k for its owner. */
  lemma {:induction false} TileSpanAt(owners: seq<TileOwner>, lo: nat, hi: nat, split: nat, tileSize: nat, k: nat)
    requires lo + k < hi <= |owners| && split > 0
    ensures |TileSpan(owners, lo, hi, split, tileSize)| == 4 * (hi - lo)
    ensures TileSpan(owners, lo, hi, split, tileSize)[4 * k .. 4 * k + 4]
            == TileCommand(lo + k, owners[lo + k], split, tileSize)
    decreases hi
  {
    TileSpanLength(owners, lo, hi - 1, split, tileSize);
    if lo + k < hi - 1 {
      TileSpanAt(owners, lo, hi - 1, split, tileSize, k);
    }
  }

  lemma {:induction false} TileSpanLength(owners: seq<TileOwner>, lo: nat, hi: nat, split: nat, tileSize: nat)
    requires hi <= |owners| && split > 0
    ensures |TileSpan(owners, lo, hi, split, tileSize)| == if hi <= lo then 0 else 4 * (hi - lo)
    decreases hi
  {
    if lo < hi {
      TileSpanLength(owners, lo, hi - 1, split, tileSize);
    }
  }

  // ---------------------------------------------------------------------------------------------
  // Commands of Render and Cleanup

  /** Shadows.RenderDirectionalShadows: the atlas is acquired, then drawn. */
  function DirectionalAtlasCommands(dir: seq<ShadowedDirectionalLight>, s: DirectionalShadowSettings): seq<Command>
    requires s.cascadeCount >= 0
  {
    [Acquire(DirShadowAtlasId, s.atlasSize.Pixels(), s.atlasSize.Pixels())] + DirectionalAtlasBody(dir, s)
  }

  /** Everything RenderDirectionalShadows records after acquiring the atlas. */
  function DirectionalAtlasBody(dir: seq<ShadowedDirectionalLight>, s: DirectionalShadowSettings): seq<Command>
    requires s.cascadeCount >= 0
  {
    var size := s.atlasSize.Pixels();
    var tiles := |dir| * s.cascadeCount;
    var split := Split(tiles);
    [SetRenderTarget(DirShadowAtlasId, DontCare), ClearTarget(true, false), SetFloat("_ShadowPancaking", 1.0)]
    + TileSpan(DirOwners(dir, s.cascadeCount), 0, tiles, split, size / split)
    + [SetArray("_CascadeCullingSpheres"), SetArray("_CascadeData"), SetArray("_DirectionalShadowMatrices")]
    + KeywordCommands(DirectionalFilterKeywords, s.filter.Index() - 1)
    + KeywordCommands(CascadeBlendKeywords, s.cascadeBlend.Index() - 1)
  }

  /** Shadows.RenderOtherShadows: the atlas is acquired, then drawn. */
  function OtherAtlasCommands(other: seq<ShadowedOtherLight>, s: OtherShadowSettings): seq<Command>
  {
    [Acquire(OtherShadowAtlasId, s.atlasSize.Pixels(), s.atlasSize.Pixels())] + OtherAtlasBody(other, s)
  }

  /** Everything RenderOtherShadows records after acquiring the atlas. */
  function OtherAtlasBody(other: seq<ShadowedOtherLight>, s: OtherShadowSettings): seq<Command>
  {
    var size := s.atlasSize.Pixels();
    var tiles := OtherTiles(other);
    var split := Split(tiles);
    [SetRenderTarget(OtherShadowAtlasId, DontCare), ClearTarget(true, false), SetFloat("_ShadowPancaking", 0.0)]
    + TileSpan(OtherOwners(other), 0, tiles, split, size / split)
    + [SetArray("_OtherShadowMatrices"), SetArray("_OtherShadowTiles")]
    + KeywordCommands(OtherFilterKeywords, s.filter.Index() - 1)
  }

  function ShadowMaskIndex(useShadowMask: bool, mode: ShadowmaskMode): int {
    if useShadowMask then (if mode == ShadowmaskAlways then 0 else 1) else -1
  }

  /** The directional half of Shadows.Render: the atlas, or a 1×1 placeholder so that the shader
      always has a texture bound. */
  function DirectionalPart(r: Reservations, s: ShadowSettings): seq<Command>
    requires ValidShadowSettings(s)
  {
    if |r.directional| > 0 then DirectionalAtlasCommands(r.directional, s.directional)
    else [Acquire(DirShadowAtlasId, 1, 1)]
  }

  /** The other half: the atlas, or the directional atlas bound in its place. */
  function OtherPart(r: Reservations, s: ShadowSettings): seq<Command> {
    if OtherTiles(r.other) > 0 then OtherAtlasCommands(r.other, s.other)
    else [SetTexture("_OtherShadowAtlas", DirShadowAtlasId)]
  }

  function MaskAndCascadeCommands(r: Reservations, s: ShadowSettings, mode: ShadowmaskMode): seq<Command> {
    KeywordCommands(ShadowMaskKeywords, ShadowMaskIndex(r.useShadowMask, mode))
    + [SetInt("_CascadeCount", if |r.directional| > 0 then s.directional.cascadeCount else 0),
       SetVector("_ShadowDistanceFade"), SetVector("_ShadowAtlasSize")]
  }

  /** Shadows.Render. */
  function RenderCommands(r: Reservations, s: ShadowSettings, mode: ShadowmaskMode): seq<Command>
    requires ValidShadowSettings(s)
  {
    DirectionalPart(r, s) + OtherPart(r, s) + MaskAndCascadeCommands(r, s, mode)
  }

  /** The atlases a frame holds between Render and Cleanup. */
  function HeldAtlases(r: Reservations): set<int> {
    {DirShadowAtlasId} + (if OtherTiles(r.other) > 0 then {OtherShadowAtlasId} else {})
  }

  /** Shadows.Cleanup. */
  function CleanupCommands(r: Reservations): seq<Command> {
    [Release(DirShadowAtlasId)] + (if OtherTiles(r.other) > 0 then [Release(OtherShadowAtlasId)] else [])
  }

  /** Drawing the directional atlas touches no other pooled target. */
  lemma DirectionalAtlasBodyPoolFree(dir: seq<ShadowedDirectionalLight>, s: DirectionalShadowSettings)
    requires s.cascadeCount >= 0
    ensures PoolFree(DirectionalAtlasBody(dir, s))
  {
    var size := s.atlasSize.Pixels();
    var tiles := |dir| * s.cascadeCount;
    var split := Split(tiles);
    var a := [SetRenderTarget(DirShadowAtlasId, DontCare), ClearTarget(true, false), SetFloat("_ShadowPancaking", 1.0)];
    var t := TileSpan(DirOwners(dir, s.cascadeCount), 0, tiles, split, size / split);
    var u := [SetArray("_CascadeCullingSpheres"), SetArray("_CascadeData"), SetArray("_DirectionalShadowMatrices")];
    var k1 := KeywordCommands(DirectionalFilterKeywords, s.filter.Index() - 1);
    var k2 := KeywordCommands(CascadeBlendKeywords, s.cascadeBlend.Index() - 1);
    TileSpanPoolFree(DirOwners(dir, s.cascadeCount), 0, tiles, split, size / split);
    KeywordCommandsPoolFree(DirectionalFilterKeywords, s.filter.Index() - 1);
    KeywordCommandsPoolFree(CascadeBlendKeywords, s.cascadeBlend.Index() - 1);
    PoolFreeConcat(a, t);
    PoolFreeConcat(a + t, u);
    PoolFreeConcat(a + t + u, k1);
    PoolFreeConcat(a + t + u + k1, k2);
  }

  /** Drawing the other atlas touches no other pooled target. */
  lemma OtherAtlasBodyPoolFree(other: seq<ShadowedOtherLight>, s: OtherShadowSettings)
    ensures PoolFree(OtherAtlasBody(other, s))
  {
    var size := s.atlasSize.Pixels();
    var tiles := OtherTiles(other);
    var split := Split(tiles);
    var a := [SetRenderTarget(OtherShadowAtlasId, DontCare), ClearTarget(true, false), SetFloat("_ShadowPancaking", 0.0)];
    var t := TileSpan(OtherOwners(other), 0, tiles, split, size / split);
    var u := [SetArray("_OtherShadowMatrices"), SetArray("_OtherShadowTiles")];
    var k := KeywordCommands(OtherFilterKeywords, s.filter.Index() - 1);
    TileSpanPoolFree(OtherOwners(other), 0, tiles, split, size / split);
    KeywordCommandsPoolFree(OtherFilterKeywords, s.filter.Index() - 1);
    PoolFreeConcat(a, t);
    PoolFreeConcat(a + t, u);
    PoolFreeConcat(a + t + u, k);
  }

  lemma DirectionalPartHolds(r: Reservations, s: ShadowSettings)
    requires ValidShadowSettings(s)
    ensures Scoped({}, DirectionalPart(r, s)) && After({}, DirectionalPart(r, s)) == {DirShadowAtlasId}
  {
    if |r.directional| > 0 {
      var size := s.directional.atlasSize.Pixels();
      var body := DirectionalAtlasBody(r.directional, s.directional);
      assert DirectionalPart(r, s) == [Acquire(DirShadowAtlasId, size, size)] + body;
      DirectionalAtlasBodyPoolFree(r.directional, s.directional);
      PoolFreeLog({DirShadowAtlasId}, body);
      SingleStep({}, Acquire(DirShadowAtlasId, size, size));
      ScopedConcat({}, [Acquire(DirShadowAtlasId, size, size)], body);
      AfterConcat({}, [Acquire(DirShadowAtlasId, size, size)], body);
      assert After({}, [Acquire(DirShadowAtlasId, size, size)]) == {DirShadowAtlasId};
      assert Scoped({}, [Acquire(DirShadowAtlasId, size, size)]);
    } else {
      SingleStep({}, Acquire(DirShadowAtlasId, 1, 1));
    }
  }

  lemma OtherPartHolds(r: Reservations, s: ShadowSettings)
    ensures Scoped({DirShadowAtlasId}, OtherPart(r, s))
    ensures After({DirShadowAtlasId}, OtherPart(r, s)) == HeldAtlases(r)
  {
    if OtherTiles(r.other) > 0 {
      var size := s.other.atlasSize.Pixels();
      var body := OtherAtlasBody(r.other, s.other);
      OtherAtlasBodyPoolFree(r.other, s.other);
      PoolFreeLog(HeldAtlases(r), body);
      SingleStep({DirShadowAtlasId}, Acquire(OtherShadowAtlasId, size, size));
      ScopedConcat({DirShadowAtlasId}, [Acquire(OtherShadowAtlasId, size, size)], body);
      AfterConcat({DirShadowAtlasId}, [Acquire(OtherShadowAtlasId, size, size)], body);
    } else {
      SingleStep({DirShadowAtlasId}, SetTexture("_OtherShadowAtlas", DirShadowAtlasId));
    }
  }

  lemma MaskAndCascadeFree(r: Reservations, s: ShadowSettings, mode: ShadowmaskMode)
    ensures PoolFree(MaskAndCascadeCommands(r, s, mode))
  {
    var k := KeywordCommands(ShadowMaskKeywords, ShadowMaskIndex(r.useShadowMask, mode));
    KeywordCommandsPoolFree(ShadowMaskKeywords, ShadowMaskIndex(r.useShadowMask, mode));
    PoolFreeConcat(k, [SetInt("_CascadeCount", if |r.directional| > 0 then s.directional.cascadeCount else 0),
      SetVector("_ShadowDistanceFade"), SetVector("_ShadowAtlasSize")]);
  }

  /** Render leaves the directional atlas held, and the other atlas exactly when other tiles are
      reserved; it acquires nothing twice. */
  lemma RenderHolds(r: Reservations, s: ShadowSettings, mode: ShadowmaskMode)
    requires ValidShadowSettings(s)
    ensures Scoped({}, RenderCommands(r, s, mode)) && After({}, RenderCommands(r, s, mode)) == HeldAtlases(r)
  {
    var d := DirectionalPart(r, s);
    var o := OtherPart(r, s);
    var m := MaskAndCascadeCommands(r, s, mode);
    DirectionalPartHolds(r, s);
    OtherPartHolds(r, s);
    MaskAndCascadeFree(r, s, mode);
    PoolFreeLog(HeldAtlases(r), m);
    ScopedConcat({}, d, o);
    AfterConcat({}, d, o);
    ScopedConcat({}, d + o, m);
    AfterConcat({}, d + o, m);
  }

  /** Cleanup releases exactly the atlases Render left held. */
  lemma CleanupReleases(r: Reservations)
    ensures Scoped(HeldAtlases(r), CleanupCommands(r)) && After(HeldAtlases(r), CleanupCommands(r)) == {}
  {
    var held := HeldAtlases(r);
    SingleStep(held, Release(DirShadowAtlasId));
    if OtherTiles(r.other) > 0 {
      SingleStep(held - {DirShadowAtlasId}, Release(OtherShadowAtlasId));
      ScopedConcat(held, [Release(DirShadowAtlasId)], [Release(OtherShadowAtlasId)]);
      AfterConcat(held, [Release(DirShadowAtlasId)], [Release(OtherShadowAtlasId)]);
    } else {
      assert CleanupCommands(r) == [Release(DirShadowAtlasId)];
    }
  }

  /** Resource balance of the shadow pass: Render followed by Cleanup releases every atlas it
      acquires, exactly once. */
  lemma ShadowFrameBalanced(r: Reservations, s: ShadowSettings, mode: ShadowmaskMode)
    requires ValidShadowSettings(s)
    ensures Balanced(RenderCommands(r, s, mode) + CleanupCommands(r))
  {
    RenderHolds(r, s, mode);
    CleanupReleases(r);
    ScopedConcat({}, RenderCommands(r, s, mode), CleanupCommands(r));
    AfterConcat({}, RenderCommands(r, s, mode), CleanupCommands(r));
  }

  /** One directional light with four cascades on a 1024 atlas and no other light: a 2 × 2 grid of
      512-pixel tiles, the atlas acquired at 1024 × 1024, four tiles drawn, and the other atlas
      bound to the directional one instead of being acquired. */
  lemma OneDirectionalLightScenario(r: Reservations, s: ShadowSettings, mode: ShadowmaskMode)
    requires ValidShadowSettings(s) && |r.directional| == 1 && r.other == []
    requires s.directional.cascadeCount == 4 && s.directional.atlasSize == Map1024
    ensures Split(4) == 2 && s.directional.atlasSize.Pixels() / Split(4) == 512
    ensures RenderCommands(r, s, mode)[0] == Acquire(DirShadowAtlasId, 1024, 1024)
    ensures After({}, RenderCommands(r, s, mode)) == {DirShadowAtlasId}
    ensures |DirOwners(r.directional, 4)| == 4
  {
    RenderHolds(r, s, mode);
  }

  // ---------------------------------------------------------------------------------------------
  // The Shadows object

  /** Entry `j` of the reservations is stored at its first tile: the other-light array is indexed by
      tile, and the array slots inside a point light's six tiles are never read. */
  ghost predicate StoredAtTileStarts(slots: seq<ShadowedOtherLight>, reserved: seq<ShadowedOtherLight>) {
    forall j :: 0 <= j < |reserved| ==> OtherStart(reserved, j) < |slots| && slots[OtherStart(reserved, j)] == reserved[j]
  }

  /** Storing a new reservation at the first free tile keeps every earlier entry at its tile start. */
  lemma StoreAtNextTile(slots: seq<ShadowedOtherLight>, reserved: seq<ShadowedOtherLight>, entry: ShadowedOtherLight, count: nat)
    requires StoredAtTileStarts(slots, reserved) && count == OtherTiles(reserved) < |slots|
    ensures StoredAtTileStarts(slots[count := entry], reserved + [entry])
    ensures OtherTiles(reserved + [entry]) == count + TileCount(entry)
  {
    OtherTilesAppend(reserved, entry);
    var next := slots[count := entry];
    var grown := reserved + [entry];
    forall j | 0 <= j < |grown|
      ensures OtherStart(grown, j) < |next| && next[OtherStart(grown, j)] == grown[j]
    {
      OtherStartAppend(reserved, entry, j);
      OtherStartEnd(reserved);
      if j < |reserved| {
        OtherRangesDisjoint(reserved, j, |reserved|);
      }
    }
  }

  class Shadows {
    const directionalLights: array<ShadowedDirectionalLight>
    const otherLights: array<ShadowedOtherLight>
    var cullingResults: CullingResults
    var settings: ShadowSettings
    var shadowedDirectionalLightCount: nat
    var shadowedOtherLightCount: nat
    var useShadowMask: bool
    /** Everything recorded into the "Shadows" command buffer. */
    var buffer: seq<Command>
    /** The other-light reservations of this frame, in order. */
    ghost var otherReserved: seq<ShadowedOtherLight>

    /** The fixed shape of the object: the array sizes, the directional count and the cascade range. */
    ghost predicate Layout()
      reads this`settings, this`shadowedDirectionalLightCount
    {
      && directionalLights.Length == MaxShadowedDirectionalLightCount
      && otherLights.Length == MaxShadowedOtherLightCount
      && ValidShadowSettings(settings)
      && shadowedDirectionalLightCount <= MaxShadowedDirectionalLightCount
    }

    ghost predicate Valid()
      reads this`settings, this`shadowedDirectionalLightCount, this`shadowedOtherLightCount, this`otherReserved
      reads directionalLights, otherLights
    {
      && Layout()
      && shadowedOtherLightCount == OtherTiles(otherReserved) <= MaxShadowedOtherLightCount
      && StoredAtTileStarts(otherLights[..], otherReserved)
    }

    /** The reservations the object's fields represent. */
    ghost function State(): Reservations
      reads this`shadowedDirectionalLightCount, this`otherReserved, this`useShadowMask, directionalLights
      requires shadowedDirectionalLightCount <= directionalLights.Length
    {
      Reservations(directionalLights[..shadowedDirectionalLightCount], otherReserved, useShadowMask)
    }

    function CasterBounds(visibleLightIndex: nat): bool
      reads this`cullingResults
    {
      visibleLightIndex in cullingResults.shadowCasterBounds
    }

    constructor(settings: ShadowSettings)
      requires ValidShadowSettings(settings)
      ensures Valid() && State() == NoReservations && buffer == []
      ensures this.settings == settings
    {
      directionalLights := new ShadowedDirectionalLight[MaxShadowedDirectionalLightCount](_ => ShadowedDirectionalLight(0, 0.0, 0.0));
      otherLights := new ShadowedOtherLight[MaxShadowedOtherLightCount](_ => ShadowedOtherLight(0, 0.0, 0.0, false));
      cullingResults := CullingResults([], {}, 0);
      this.settings := settings;
      shadowedDirectionalLightCount := 0;
      shadowedOtherLightCount := 0;
      useShadowMask := false;
      buffer := [];
      otherReserved := [];
    }

    /** Shadows.Setup: a new frame starts with no reservations. */
    method Setup(cullingResults: CullingResults, settings: ShadowSettings)
      requires Valid() && ValidShadowSettings(settings)
      modifies this
      ensures Valid() && State() == NoReservations
      ensures this.cullingResults == cullingResults && this.settings == settings
      ensures buffer == old(buffer)
    {
      this.cullingResults := cullingResults;
      this.settings := settings;
      shadowedDirectionalLightCount := 0;
      shadowedOtherLightCount := 0;
      useShadowMask := false;
      otherReserved := [];
    }

    method ReserveDirectionalShadows(light: Light, visibleLightIndex: nat) returns (data: ShadowData)
      requires Valid()
      modifies this`useShadowMask, this`shadowedDirectionalLightCount, directionalLights
      ensures Valid()
      ensures Reserved(State(), data)
              == ReserveDirectional(old(State()), light, visibleLightIndex,
                                    CasterBounds(visibleLightIndex), settings.directional.cascadeCount)
    {
      if shadowedDirectionalLightCount < MaxShadowedDirectionalLightCount && light.shadows != NoShadows
         && light.shadowStrength > 0.0 {
        var maskChannel := MarkShadowmask(light);
        if visibleLightIndex !in cullingResults.shadowCasterBounds {
          return ShadowData(-light.shadowStrength, 0, 0.0, maskChannel);
        }
        var count := shadowedDirectionalLightCount;
        directionalLights[count] := ShadowedDirectionalLight(visibleLightIndex, light.shadowBias, light.shadowNearPlane);
        shadowedDirectionalLightCount := count + 1;
        assert directionalLights[..count + 1] == old(directionalLights[..count]) + [directionalLights[count]];
        return ShadowData(light.shadowStrength, settings.directional.cascadeCount * count, light.shadowNormalBias, maskChannel);
      }
      return NoShadowData;
    }

    method ReserveOtherShadows(light: Light, visibleLightIndex: nat) returns (data: ShadowData)
      requires Valid()
      modifies this`useShadowMask, this`shadowedOtherLightCount, this`otherReserved, otherLights
      ensures Valid()
      ensures Reserved(State(), data)
              == ReserveOther(old(State()), light, visibleLightIndex, CasterBounds(visibleLightIndex))
    {
      if light.shadows == NoShadows || light.shadowStrength <= 0.0 {
        return NoShadowData;
      }
      data := ReserveShadowedOther(light, visibleLightIndex);
    }

    /** ReserveOtherShadows for a light that casts shadows: the mask check, then the tile budget
        and the caster bounds decide whether the light gets tiles. */
    method ReserveShadowedOther(light: Light, visibleLightIndex: nat) returns (data: ShadowData)
      requires Valid() && light.shadows != NoShadows && light.shadowStrength > 0.0
      modifies this`useShadowMask, this`shadowedOtherLightCount, this`otherReserved, otherLights
      ensures Valid()
      ensures Reserved(State(), data)
              == ReserveOther(old(State()), light, visibleLightIndex, CasterBounds(visibleLightIndex))
    {
      ghost var r0 := State();
      ghost var spec := ReserveOther(r0, light, visibleLightIndex, CasterBounds(visibleLightIndex));
      assert shadowedOtherLightCount == OtherTiles(r0.other);
      var maskChannel := MarkShadowmask(light);
      ghost var marked := r0.(useShadowMask := r0.useShadowMask || UsesShadowmask(light));
      assert Valid() && State() == marked;
      var isPoint := light.lightType == Point;
      var newLightCount := shadowedOtherLightCount + (if isPoint then 6 else 1);
      if newLightCount > MaxShadowedOtherLightCount || visibleLightIndex !in cullingResults.shadowCasterBounds {
        data := ShadowData(-light.shadowStrength, 0, 0.0, maskChannel);
        assert spec == Reserved(marked, data);
        return;
      }
      var entry := ShadowedOtherLight(visibleLightIndex, light.shadowBias, light.shadowNormalBias, isPoint);
      data := ShadowData(light.shadowStrength, shadowedOtherLightCount, if isPoint then 1.0 else 0.0, maskChannel);
      assert spec == Reserved(marked.(other := r0.other + [entry]), data);
      StoreOtherLight(entry);
      assert State() == marked.(other := r0.other + [entry]);
    }

    /** The shadow-mask check both reservations share: a mixed light in shadow-mask mode raises
        the flag and contributes its occlusion channel. */
    method MarkShadowmask(light: Light) returns (maskChannel: int)
      modifies this`useShadowMask
      ensures useShadowMask == (old(useShadowMask) || UsesShadowmask(light))
      ensures maskChannel == MaskChannel(light)
    {
      maskChannel := -1;
      if light.bakeType == Mixed && light.mixedMode == Shadowmask {
        useShadowMask := true;
        maskChannel := light.occlusionMaskChannel;
      }
    }

    /** The accepting end of ReserveOtherShadows: the entry goes to the first free tile and the
        tile count advances by its size. */
    method StoreOtherLight(entry: ShadowedOtherLight)
      requires Valid() && shadowedOtherLightCount + TileCount(entry) <= MaxShadowedOtherLightCount
      modifies this`shadowedOtherLightCount, this`otherReserved, otherLights
      ensures Valid()
      ensures otherReserved == old(otherReserved) + [entry]
    {
      var count := shadowedOtherLightCount;
      ghost var slots := otherLights[..];
      StoreAtNextTile(slots, otherReserved, entry, count);
      otherLights[count] := entry;
      assert otherLights[..] == slots[count := entry];
      shadowedOtherLightCount := count + TileCount(entry);
      otherReserved := otherReserved + [entry];
    }

    /** Shadows.SetTileViewport: the tile's grid offset, and its viewport recorded. */
    method SetTileViewport(index: nat, split: nat, tileSize: nat) returns (x: nat, y: nat)
      requires split > 0
      modifies this`buffer
      ensures (x, y) == TileOffset(index, split)
      ensures buffer == old(buffer) + [Viewport(x * tileSize, y * tileSize, tileSize)]
    {
      x, y := index % split, index / split;
      buffer := buffer + [Viewport(x * tileSize, y * tileSize, tileSize)];
    }

    /** Shadows.SetKeywords. */
    method SetKeywords(keywords: seq<string>, enabledIndex: int)
      modifies this`buffer
      ensures buffer == old(buffer) + KeywordCommands(keywords, enabledIndex)
    {
      var i := 0;
      while i < |keywords|
        invariant 0 <= i <= |keywords|
        invariant buffer == old(buffer) + KeywordCommands(keywords[..i], enabledIndex)
      {
        assert keywords[..i + 1][..i] == keywords[..i];
        KeywordCommandsSnoc(keywords[..i + 1], enabledIndex);
        if i == enabledIndex {
          buffer := buffer + [EnableKeyword(keywords[i])];
        } else {
          buffer := buffer + [DisableKeyword(keywords[i])];
        }
        i := i + 1;
      }
      assert keywords[..i] == keywords;
    }

    /** One tile: viewport, bias, shadow casters, bias reset. */
    method RenderTile(tileIndex: nat, owner: TileOwner, split: nat, tileSize: nat)
      requires split > 0
      modifies this`buffer
      ensures buffer == old(buffer) + TileCommand(tileIndex, owner, split, tileSize)
    {
      var _, _ := SetTileViewport(tileIndex, split, tileSize);
      buffer := buffer + [DepthBias(owner.slopeBias), DrawShadows(owner.light, owner.slice), DepthBias(0.0)];
    }

    /** Shadows.RenderDirectionalShadows(index, split, tileSize): the cascades of directional light
        `index`, into tiles index * cascadeCount onwards. */
    method RenderDirectionalLight(index: nat, split: nat, tileSize: nat)
      requires Layout() && index < shadowedDirectionalLightCount && split > 0
      modifies this`buffer
      ensures index * settings.directional.cascadeCount + settings.directional.cascadeCount
              <= |DirOwners(directionalLights[..shadowedDirectionalLightCount], settings.directional.cascadeCount)|
      ensures buffer == old(buffer)
        + TileSpan(DirOwners(directionalLights[..shadowedDirectionalLightCount], settings.directional.cascadeCount),
                   index * settings.directional.cascadeCount, index * settings.directional.cascadeCount + settings.directional.cascadeCount,
                   split, tileSize)
    {
      var light := directionalLights[index];
      var cascadeCount := settings.directional.cascadeCount;
      var tileOffset := index * cascadeCount;
      ghost var dir := directionalLights[..shadowedDirectionalLightCount];
      ghost var owners := DirOwners(dir, cascadeCount);
      MulStep(index, cascadeCount);
      MulMono(index + 1, shadowedDirectionalLightCount, cascadeCount);
      assert light == dir[index];
      var i := 0;
      while i < cascadeCount
        invariant 0 <= i <= cascadeCount
        invariant buffer == old(buffer) + TileSpan(owners, tileOffset, tileOffset + i, split, tileSize)
      {
        DirOwnersAt(dir, cascadeCount, index, i);
        ghost var before := buffer;
        RenderTile(tileOffset + i, TileOwner(light.visibleLightIndex, i, light.slopeScaleBias), split, tileSize);
        Assoc(old(buffer), TileSpan(owners, tileOffset, tileOffset + i, split, tileSize),
              TileCommand(tileOffset + i, owners[tileOffset + i], split, tileSize));
        i := i + 1;
      }
    }

    /** The tile loop of RenderDirectionalShadows: every reserved light's cascades, in order. */
    method RenderDirectionalTiles(split: nat, tileSize: nat)
      requires Layout() && split > 0
      modifies this`buffer
      ensures buffer == old(buffer)
        + TileSpan(DirOwners(directionalLights[..shadowedDirectionalLightCount], settings.directional.cascadeCount),
                   0, shadowedDirectionalLightCount * settings.directional.cascadeCount, split, tileSize)
    {
      var cascadeCount := settings.directional.cascadeCount;
      ghost var owners := DirOwners(directionalLights[..shadowedDirectionalLightCount], cascadeCount);
      ghost var total := shadowedDirectionalLightCount * cascadeCount;
      assert |owners| == total;
      var i := 0;
      ghost var offset := 0;
      while i < shadowedDirectionalLightCount
        invariant 0 <= i <= shadowedDirectionalLightCount
        invariant offset == i * cascadeCount <= total
        invariant buffer == old(buffer) + TileSpan(owners, 0, offset, split, tileSize)
      {
        MulStep(i, cascadeCount);
        MulMono(i + 1, shadowedDirectionalLightCount, cascadeCount);
        RenderDirectionalLight(i, split, tileSize);
        TileSpanSplit(owners, 0, offset, offset + cascadeCount, split, tileSize);
        Assoc(old(buffer), TileSpan(owners, 0, offset, split, tileSize),
              TileSpan(owners, offset, offset + cascadeCount, split, tileSize));
        i := i + 1;
        offset := offset + cascadeCount;
      }
    }

    /** Shadows.RenderDirectionalShadows (the overload without arguments). */
    method RenderDirectionalShadows()
      requires Layout()
      modifies this`buffer
      ensures buffer == old(buffer) + DirectionalAtlasCommands(directionalLights[..shadowedDirectionalLightCount], settings.directional)
    {
      var atlasSize := settings.directional.atlasSize.Pixels();
      buffer := buffer + [Acquire(DirShadowAtlasId, atlasSize, atlasSize)];
      ghost var acquired := buffer;
      var prologue := [SetRenderTarget(DirShadowAtlasId, DontCare), ClearTarget(true, false), SetFloat("_ShadowPancaking", 1.0)];
      buffer := buffer + prologue;
      var tiles := shadowedDirectionalLightCount * settings.directional.cascadeCount;
      var split := if tiles <= 1 then 1 else if tiles <= 4 then 2 else 4;
      assert split == Split(tiles);
      var tileSize := atlasSize / split;
      RenderDirectionalTiles(split, tileSize);
      ghost var span := TileSpan(DirOwners(directionalLights[..shadowedDirectionalLightCount], settings.directional.cascadeCount),
                                 0, tiles, split, tileSize);
      var arrays := [SetArray("_CascadeCullingSpheres"), SetArray("_CascadeData"), SetArray("_DirectionalShadowMatrices")];
      buffer := buffer + arrays;
      ghost var k1 := KeywordCommands(DirectionalFilterKeywords, settings.directional.filter.Index() - 1);
      ghost var k2 := KeywordCommands(CascadeBlendKeywords, settings.directional.cascadeBlend.Index() - 1);
      SetKeywords(DirectionalFilterKeywords, settings.directional.filter.Index() - 1);
      SetKeywords(CascadeBlendKeywords, settings.directional.cascadeBlend.Index() - 1);
      Regroup(acquired, prologue, span, arrays, k1, k2);
      Assoc(old(buffer), [Acquire(DirShadowAtlasId, atlasSize, atlasSize)],
            DirectionalAtlasBody(directionalLights[..shadowedDirectionalLightCount], settings.directional));
    }

    /** Shadows.RenderSpotShadows: the single tile of reservation `j`. */
    method RenderSpotShadows(index: nat, split: nat, tileSize: nat, ghost j: nat)
      requires j < |otherReserved| && index == OtherStart(otherReserved, j) && !otherReserved[j].isPoint
      requires index < otherLights.Length && otherLights[index] == otherReserved[j] && split > 0
      modifies this`buffer
      ensures index + 1 <= |OtherOwners(otherReserved)|
      ensures buffer == old(buffer) + TileSpan(OtherOwners(otherReserved), index, index + 1, split, tileSize)
    {
      var light := otherLights[index];
      OtherOwnersAt(otherReserved, j, 0);
      RenderTile(index, TileOwner(light.visibleLightIndex, 0, light.slopeScaleBias), split, tileSize);
    }

    /** Shadows.RenderPointShadows: the six cube faces of reservation `j`, in consecutive tiles. */
    method RenderPointShadows(index: nat, split: nat, tileSize: nat, ghost j: nat)
      requires j < |otherReserved| && index == OtherStart(otherReserved, j) && otherReserved[j].isPoint
      requires index < otherLights.Length && otherLights[index] == otherReserved[j] && split > 0
      modifies this`buffer
      ensures index + 6 <= |OtherOwners(otherReserved)|
      ensures buffer == old(buffer) + TileSpan(OtherOwners(otherReserved), index, index + 6, split, tileSize)
    {
      var light := otherLights[index];
      ghost var owners := OtherOwners(otherReserved);
      OtherOwnersAt(otherReserved, j, 5);
      var i := 0;
      while i < 6
        invariant 0 <= i <= 6
        invariant buffer == old(buffer) + TileSpan(owners, index, index + i, split, tileSize)
      {
        OtherOwnersAt(otherReserved, j, i);
        RenderTile(index + i, TileOwner(light.visibleLightIndex, i, light.slopeScaleBias), split, tileSize);
        Assoc(old(buffer), TileSpan(owners, index, index + i, split, tileSize),
              TileCommand(index + i, owners[index + i], split, tileSize));
        i := i + 1;
      }
    }

    /** The tile loop of Shadows.RenderOtherShadows: the walk over the tiles advances by six past a
        point light and by one past a spot light, so it visits exactly the first tile of every
        reservation. */
    method RenderOtherTiles(split: nat, tileSize: nat)
      requires Valid() && split > 0
      modifies this`buffer
      ensures buffer == old(buffer) + TileSpan(OtherOwners(otherReserved), 0, shadowedOtherLightCount, split, tileSize)
    {
      ghost var owners := OtherOwners(otherReserved);
      assert |owners| == shadowedOtherLightCount;
      var i := 0;
      ghost var j := 0;
      while i < shadowedOtherLightCount
        invariant Valid()
        invariant j <= |otherReserved| && i == OtherStart(otherReserved, j) && i <= shadowedOtherLightCount == |owners|
        invariant buffer == old(buffer) + TileSpan(owners, 0, i, split, tileSize)
        decreases |otherReserved| - j
      {
        if j == |otherReserved| {
          OtherStartEnd(otherReserved);
          assert false;
        }
        var next := RenderOtherLight(i, split, tileSize, j);
        TileSpanSplit(owners, 0, i, next, split, tileSize);
        Assoc(old(buffer), TileSpan(owners, 0, i, split, tileSize), TileSpan(owners, i, next, split, tileSize));
        i := next;
        j := j + 1;
      }
    }

    /** The tiles of reservation `j`, which starts at tile `i`: six for a point light, one for a
        spot light; `next` is where the following reservation starts. */
    method RenderOtherLight(i: nat, split: nat, tileSize: nat, ghost j: nat) returns (next: nat)
      requires Valid() && split > 0 && j < |otherReserved| && i == OtherStart(otherReserved, j)
      modifies this`buffer
      ensures i < next == OtherStart(otherReserved, j + 1) && next <= |OtherOwners(otherReserved)|
      ensures buffer == old(buffer) + TileSpan(OtherOwners(otherReserved), i, next, split, tileSize)
    {
      OtherStartStep(otherReserved, j);
      assert otherLights[i] == otherReserved[j];
      if otherLights[i].isPoint {
        RenderPointShadows(i, split, tileSize, j);
        next := i + 6;
      } else {
        RenderSpotShadows(i, split, tileSize, j);
        next := i + 1;
      }
    }

    /** Shadows.RenderOtherShadows. */
    method RenderOtherShadows()
      requires Valid()
      modifies this`buffer
      ensures buffer == old(buffer) + OtherAtlasCommands(otherReserved, settings.other)
    {
      var atlasSize := settings.other.atlasSize.Pixels();
      buffer := buffer + [Acquire(OtherShadowAtlasId, atlasSize, atlasSize)];
      ghost var acquired := buffer;
      var prologue := [SetRenderTarget(OtherShadowAtlasId, DontCare), ClearTarget(true, false), SetFloat("_ShadowPancaking", 0.0)];
      buffer := buffer + prologue;
      var tiles := shadowedOtherLightCount;
      var split := if tiles <= 1 then 1 else if tiles <= 4 then 2 else 4;
      assert split == Split(tiles);
      var tileSize := atlasSize / split;
      RenderOtherTiles(split, tileSize);
      ghost var span := TileSpan(OtherOwners(otherReserved), 0, tiles, split, tileSize);
      var arrays := [SetArray("_OtherShadowMatrices"), SetArray("_OtherShadowTiles")];
      buffer := buffer + arrays;
      ghost var k := KeywordCommands(OtherFilterKeywords, settings.other.filter.Index() - 1);
      SetKeywords(OtherFilterKeywords, settings.other.filter.Index() - 1);
      Regroup5(acquired, prologue, span, arrays, k);
      Assoc(old(buffer), [Acquire(OtherShadowAtlasId, atlasSize, atlasSize)], OtherAtlasBody(otherReserved, settings.other));
    }

    /** The first branch of Shadows.Render. */
    method RenderDirectionalPart()
      requires Layout()
      modifies this`buffer
      ensures buffer == old(buffer) + DirectionalPart(State(), settings)
    {
      if shadowedDirectionalLightCount > 0 {
        RenderDirectionalShadows();
      } else {
        buffer := buffer + [Acquire(DirShadowAtlasId, 1, 1)];
      }
    }

    /** The second branch of Shadows.Render. */
    method RenderOtherPart()
      requires Valid()
      modifies this`buffer
      ensures buffer == old(buffer) + OtherPart(State(), settings)
    {
      if shadowedOtherLightCount > 0 {
        RenderOtherShadows();
      } else {
        buffer := buffer + [SetTexture("_OtherShadowAtlas", DirShadowAtlasId)];
      }
    }

    /** The tail of Shadows.Render: the shadow-mask keywords and the global values. */
    method RenderMaskAndCascade(shadowmaskMode: ShadowmaskMode)
      requires Layout()
      modifies this`buffer
      ensures buffer == old(buffer) + MaskAndCascadeCommands(State(), settings, shadowmaskMode)
    {
      SetKeywords(ShadowMaskKeywords,
        if useShadowMask then (if shadowmaskMode == ShadowmaskAlways then 0 else 1) else -1);
      buffer := buffer + [SetInt("_CascadeCount", if shadowedDirectionalLightCount > 0 then settings.directional.cascadeCount else 0),
                          SetVector("_ShadowDistanceFade"), SetVector("_ShadowAtlasSize")];
    }

    /** Shadows.Render, given the project's shadow-mask mode. */
    method Render(shadowmaskMode: ShadowmaskMode)
      requires Valid()
      modifies this`buffer
      ensures buffer == old(buffer) + RenderCommands(State(), settings, shadowmaskMode)
    {
      RenderDirectionalPart();
      RenderOtherPart();
      RenderMaskAndCascade(shadowmaskMode);
      Regroup4(old(buffer), DirectionalPart(State(), settings), OtherPart(State(), settings),
               MaskAndCascadeCommands(State(), settings, shadowmaskMode));
    }

    /** Shadows.Cleanup. */
    method Cleanup()
      requires Valid()
      modifies this`buffer
      ensures Valid()
      ensures buffer == old(buffer) + CleanupCommands(State())
    {
      buffer := buffer + [Release(DirShadowAtlasId)];
      if shadowedOtherLightCount > 0 {
        buffer := buffer + [Release(OtherShadowAtlasId)];
      }
    }
  }
}
