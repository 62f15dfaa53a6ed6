/** The post-processing stack: bloom over a pyramid of temporary targets, then colour grading
    through a lookup table, optional FXAA and the final draw into the camera target. */
module PostFX {
  import opened Commands
  import opened Engine
  import opened Settings
  import opened CameraConfig

  const MaxBloomPyramidLevels := 16

  /** Shader property IDs of the stack's temporary targets. The pyramid occupies the
      2 * MaxBloomPyramidLevels consecutive IDs registered by the constructor. */
  const BloomPrefilterId := 1
  const BloomResultId := 2
  const ColorGradingLUTId := 3
  const ColorGradingResultId := 4
  const FinalResultId := 5
  const BloomPyramidId := 100

  /** An ID the stack may use for a temporary target. */
  predicate PostFXTarget(id: int) {
    1 <= id <= 5 || BloomPyramidId <= id < BloomPyramidId + 2 * MaxBloomPyramidLevels
  }

  /** The passes of the post-FX shader, in declaration order. */
  datatype Pass =
    | BloomAdd | BloomHorizontal | BloomPrefilter | BloomPrefilterFireflies | BloomScatter
    | BloomScatterFinal | BloomVertical | Copy | ColorGradingNone | ToneMappingACES
    | ToneMappingNeutral | ToneMappingReinhard | ApplyColorGrading | ApplyColorGradingWithLuma
    | FinalRescale | FXAAPass | FXAAWithLuma
  {
    /** The pass index handed to DrawProcedural. */
    function Ordinal(): nat {
      match this
      case BloomAdd => 0
      case BloomHorizontal => 1
      case BloomPrefilter => 2
      case BloomPrefilterFireflies => 3
      case BloomScatter => 4
      case BloomScatterFinal => 5
      case BloomVertical => 6
      case Copy => 7
      case ColorGradingNone => 8
      case ToneMappingACES => 9
      case ToneMappingNeutral => 10
      case ToneMappingReinhard => 11
      case ApplyColorGrading => 12
      case ApplyColorGradingWithLuma => 13
      case FinalRescale => 14
      case FXAAPass => 15
      case FXAAWithLuma => 16
    }
  }

  /** The settings the stack keeps for a camera: only game and scene-view cameras get effects,
      and a scene view whose image effects are switched off gets none. */
  function ActiveSettings(cameraType: CameraType, settings: Option<PostFXSettings>,
                          showImageEffects: bool): Option<PostFXSettings>
  {
    var s := if cameraType.Code() <= SceneView.Code() then settings else None;
    if cameraType == SceneView && !showImageEffects then None else s
  }

  lemma ActiveSettingsRule(cameraType: CameraType, settings: Option<PostFXSettings>, showImageEffects: bool)
    ensures ActiveSettings(cameraType, settings, showImageEffects).Some?
            <==> settings.Some? && (cameraType == Game || (cameraType == SceneView && showImageEffects))
    ensures ActiveSettings(cameraType, settings, showImageEffects).Some?
            ==> ActiveSettings(cameraType, settings, showImageEffects) == settings
  {
  }

  // ---------------------------------------------------------------------------------------
  // Bloom

  /** `x` halved `k` times with integer division. */
  function Half(x: nat, k: nat): nat
    decreases k
  {
    if k == 0 then x else Half(x, k - 1) / 2
  }

  /** The size of the prefilter target: half the camera's pixels, or half the buffer. */
  function BloomWidth(bloom: BloomSettings, camera: Camera, size: BufferSize): nat {
    if bloom.ignoreRenderScale then camera.pixelWidth / 2 else size.x / 2
  }

  function BloomHeight(bloom: BloomSettings, camera: Camera, size: BufferSize): nat {
    if bloom.ignoreRenderScale then camera.pixelHeight / 2 else size.y / 2
  }

  /** DoBloom's early return: no iterations, no intensity, or a prefilter target smaller than
      twice the downscale limit. */
  predicate BloomSkipped(bloom: BloomSettings, w0: nat, h0: nat) {
    bloom.maxIterations == 0 || bloom.intensity <= 0.0
    || h0 < bloom.downscaleLimit * 2 || w0 < bloom.downscaleLimit * 2
  }

  /** Whether pyramid level `k`, of size Half(w0, k + 1) by Half(h0, k + 1), is large enough. */
  predicate LevelFits(bloom: BloomSettings, w0: nat, h0: nat, k: nat) {
    Half(h0, k + 1) >= bloom.downscaleLimit && Half(w0, k + 1) >= bloom.downscaleLimit
  }

  /** The number of pyramid levels built when the downsampling loop has reached level `k`. */
  function Depth(bloom: BloomSettings, w0: nat, h0: nat, k: nat): (n: nat)
    ensures k <= n
    decreases bloom.maxIterations - k
  {
    if k >= bloom.maxIterations || !LevelFits(bloom, w0, h0, k) then k
    else Depth(bloom, w0, h0, k + 1)
  }

  function PyramidDepth(bloom: BloomSettings, w0: nat, h0: nat): (n: nat)
    ensures !BloomSkipped(bloom, w0, h0) && bloom.maxIterations >= 0 ==> 1 <= n
  {
    Depth(bloom, w0, h0, 0)
  }

  lemma {:induction false} DepthFrom(bloom: BloomSettings, w0: nat, h0: nat, k: nat)
    requires k <= bloom.maxIterations
    ensures var n := Depth(bloom, w0, h0, k);
      && k <= n <= bloom.maxIterations
      && (forall j :: k <= j < n ==> LevelFits(bloom, w0, h0, j))
      && (n < bloom.maxIterations ==> !LevelFits(bloom, w0, h0, n))
    decreases bloom.maxIterations - k
  {
    if k < bloom.maxIterations && LevelFits(bloom, w0, h0, k) {
      DepthFrom(bloom, w0, h0, k + 1);
    }
  }

  /** The pyramid has between one and maxIterations levels, every level is at least the
      downscale limit on both sides, and building stops early only at a level that is not. */
  lemma PyramidDepthBounds(bloom: BloomSettings, w0: nat, h0: nat)
    requires ValidBloomSettings(bloom) && !BloomSkipped(bloom, w0, h0)
    ensures var n := PyramidDepth(bloom, w0, h0);
      && 1 <= n <= bloom.maxIterations <= MaxBloomPyramidLevels
      && (forall j :: 0 <= j < n ==> LevelFits(bloom, w0, h0, j))
      && (n < bloom.maxIterations ==> !LevelFits(bloom, w0, h0, n))
  {
    DepthFrom(bloom, w0, h0, 0);
    assert LevelFits(bloom, w0, h0, 0);
  }

  function LevelMid(k: nat): int { BloomPyramidId + 2 * k }

  function LevelTo(k: nat): int { BloomPyramidId + 2 * k + 1 }

  /** The target level `k` downsamples: the prefilter, then the previous level's result. */
  function DownFrom(k: nat): int {
    if k == 0 then BloomPrefilterId else LevelTo(k - 1)
  }

  /** One level of the pyramid: two targets of the halved size, a horizontal and a vertical blur. */
  function DownLevel(k: nat, w0: nat, h0: nat): seq<Command> {
    [Acquire(LevelMid(k), Half(w0, k + 1), Half(h0, k + 1)),
     Acquire(LevelTo(k), Half(w0, k + 1), Half(h0, k + 1)),
     Draw(DownFrom(k), LevelMid(k), BloomHorizontal.Ordinal()),
     Draw(LevelMid(k), LevelTo(k), BloomVertical.Ordinal())]
  }

  function DownCommands(n: nat, w0: nat, h0: nat): seq<Command>
    decreases n
  {
    if n == 0 then [] else DownCommands(n - 1, w0, h0) + DownLevel(n - 1, w0, h0)
  }

  /** The target the upsampling step at counter `c` reads: the last level's result at first,
      then the previous step's output. */
  function UpFrom(n: nat, c: nat): int {
    if c + 1 == n then LevelTo(c) else LevelMid(c)
  }

  /** The upsampling step at counter `c`: combine into level c - 1's first target. */
  function UpStep(n: nat, c: nat, combine: Pass): seq<Command>
    requires 1 <= c
  {
    [SetTexture("_PostFXSource2", LevelTo(c - 1)),
     Draw(UpFrom(n, c), LevelMid(c - 1), combine.Ordinal()),
     Release(UpFrom(n, c)),
     Release(LevelTo(c - 1))]
  }

  /** The upsampling steps for counters n - 1 down to c + 1. */
  function UpCommands(n: nat, c: nat, combine: Pass): seq<Command>
    requires c < n
    decreases n - c
  {
    if c + 1 == n then [] else UpCommands(n, c + 1, combine) + UpStep(n, c + 1, combine)
  }

  function CombinePass(mode: BloomMode): Pass {
    if mode == Additive then BloomAdd else BloomScatter
  }

  function FinalBloomPass(mode: BloomMode): Pass {
    if mode == Additive then BloomAdd else BloomScatterFinal
  }

  /** Mathf.Min(intensity, 0.95) in scattering mode. */
  function FinalIntensity(bloom: BloomSettings): real {
    if bloom.mode == Additive then bloom.intensity
    else if bloom.intensity < 0.95 then bloom.intensity else 0.95
  }

  /** Additive bloom combines and finishes with BloomAdd at the full intensity; scattering bloom
      uses its two scatter passes and caps the final intensity at 0.95. */
  lemma BloomModeRule(bloom: BloomSettings)
    ensures bloom.mode == Additive ==>
      CombinePass(bloom.mode) == FinalBloomPass(bloom.mode) == BloomAdd && FinalIntensity(bloom) == bloom.intensity
    ensures bloom.mode == Scattering ==>
      && CombinePass(bloom.mode) == BloomScatter && FinalBloomPass(bloom.mode) == BloomScatterFinal
      && FinalIntensity(bloom) <= 0.95 && FinalIntensity(bloom) <= bloom.intensity
      && (FinalIntensity(bloom) == bloom.intensity || FinalIntensity(bloom) == 0.95)
  {
  }

  function BloomPrologue(bloom: BloomSettings, source: int, w0: nat, h0: nat): seq<Command> {
    [SetVector("_BloomThreshold"),
     Acquire(BloomPrefilterId, w0, h0),
     Draw(source, BloomPrefilterId, (if bloom.fadeFireflies then BloomPrefilterFireflies else BloomPrefilter).Ordinal())]
  }

  function BloomMiddle(bloom: BloomSettings): seq<Command> {
    [Release(BloomPrefilterId),
     SetFloat("_BloomBicubicUpsampling", if bloom.bicubicUpsampling then 1.0 else 0.0),
     SetFloat("_BloomIntensity", 1.0),
     SetFloat("_BloomIntensity", if bloom.mode == Additive then 1.0 else bloom.scatter)]
  }

  /** Releasing the last horizontal target and combining back up the pyramid; with a single
      level only its first target is released. */
  function BloomTeardown(n: nat, combine: Pass): seq<Command>
    requires 1 <= n
  {
    if n > 1 then [Release(LevelMid(n - 1))] + UpCommands(n, 0, combine)
    else [Release(LevelMid(0))]
  }

  function BloomEpilogue(bloom: BloomSettings, source: int, size: BufferSize, n: nat): seq<Command> {
    [SetFloat("_BloomIntensity", FinalIntensity(bloom)),
     SetTexture("_PostFXSource2", source),
     Acquire(BloomResultId, size.x, size.y),
     Draw(UpFrom(n, 0), BloomResultId, FinalBloomPass(bloom.mode).Ordinal()),
     Release(UpFrom(n, 0))]
  }

  /** Everything DoBloom records when it does not return early, for a pyramid of `n` levels. */
  function BloomCommands(bloom: BloomSettings, source: int, w0: nat, h0: nat, size: BufferSize, n: nat): seq<Command>
    requires 1 <= n
  {
    BloomPrologue(bloom, source, w0, h0) + DownCommands(n, w0, h0) + BloomMiddle(bloom)
    + BloomTeardown(n, CombinePass(bloom.mode)) + BloomEpilogue(bloom, source, size, n)
  }

  /** The pyramid targets below index `m`. */
  function Lower(m: nat): set<int>
    decreases m
  {
    if m == 0 then {} else Lower(m - 1) + {BloomPyramidId + m - 1}
  }

  lemma {:induction false} LowerMembers(m: nat)
    ensures forall x :: x in Lower(m) <==> BloomPyramidId <= x < BloomPyramidId + m
    decreases m
  {
    if m > 0 {
      LowerMembers(m - 1);
    }
  }

  /** `held` holds no pyramid target below index `m`. */
  predicate PyramidFree(held: set<int>, m: nat) {
    forall id :: id in held ==> !(BloomPyramidId <= id < BloomPyramidId + m)
  }

  lemma LevelHeld(held: set<int>, k: nat, w0: nat, h0: nat)
    requires LevelMid(k) !in held && LevelTo(k) !in held
    ensures Scoped(held, DownLevel(k, w0, h0))
    ensures After(held, DownLevel(k, w0, h0)) == held + {LevelMid(k)} + {LevelTo(k)}
  {
    var l := DownLevel(k, w0, h0);
    var s1 := held + {LevelMid(k)};
    var s2 := s1 + {LevelTo(k)};
    var rest := l[2..];
    assert l == [l[0]] + ([l[1]] + rest);
    PoolFreeLog(s2, rest);
    SingleStep(held, l[0]);
    SingleStep(s1, l[1]);
    ScopedThen(s1, [l[1]], rest, s2, s2);
    ScopedThen(held, [l[0]], [l[1]] + rest, s1, s2);
  }

  lemma LevelAcquired(k: nat, w0: nat, h0: nat)
    ensures Acquired(DownLevel(k, w0, h0)) == {LevelMid(k)} + {LevelTo(k)}
  {
    var l := DownLevel(k, w0, h0);
    var rest := l[2..];
    assert l == [l[0]] + [l[1]] + rest;
    AcquiredSingle(l[0]);
    AcquiredSingle(l[1]);
    AcquiredPoolFree(rest);
    AcquiredConcat([l[0]], [l[1]]);
    AcquiredConcat([l[0]] + [l[1]], rest);
  }

  /** Pyramid index `m` is the last of Lower(m + 1). */
  lemma LowerStep(m: nat)
    ensures Lower(m + 2) == Lower(m) + {BloomPyramidId + m} + {BloomPyramidId + m + 1}
  {
    assert Lower(m + 2) == Lower(m + 1) + {BloomPyramidId + m + 1};
    assert Lower(m + 1) == Lower(m) + {BloomPyramidId + m};
  }

  /** Building `n` levels acquires the first 2n pyramid targets and holds them. */
  lemma {:induction false} DownHeld(held: set<int>, n: nat, w0: nat, h0: nat)
    requires PyramidFree(held, 2 * n)
    ensures Scoped(held, DownCommands(n, w0, h0))
    ensures After(held, DownCommands(n, w0, h0)) == held + Lower(2 * n)
    decreases n
  {
    if n > 0 {
      var m := 2 * (n - 1);
      DownHeld(held, n - 1, w0, h0);
      var mid := held + Lower(m);
      LowerMembers(m);
      LevelHeld(mid, n - 1, w0, h0);
      LowerStep(m);
      assert mid + {LevelMid(n - 1)} + {LevelTo(n - 1)} == held + Lower(2 * n);
      ScopedThen(held, DownCommands(n - 1, w0, h0), DownLevel(n - 1, w0, h0), mid, held + Lower(2 * n));
    }
  }

  lemma {:induction false} DownAcquired(n: nat, w0: nat, h0: nat)
    ensures Acquired(DownCommands(n, w0, h0)) == Lower(2 * n)
    decreases n
  {
    if n > 0 {
      DownAcquired(n - 1, w0, h0);
      DownAcquiredStep(n - 1, w0, h0);
    }
  }

  lemma DownAcquiredStep(m: nat, w0: nat, h0: nat)
    requires Acquired(DownCommands(m, w0, h0)) == Lower(2 * m)
    ensures Acquired(DownCommands(m + 1, w0, h0)) == Lower(2 * m + 2)
  {
    var d := DownCommands(m, w0, h0);
    var l := DownLevel(m, w0, h0);
    var k := 2 * m;
    assert DownCommands(m + 1, w0, h0) == d + l;
    LevelAcquired(m, w0, h0);
    assert Acquired(l) == {BloomPyramidId + k} + {BloomPyramidId + k + 1};
    LowerStep(k);
    AcquiredConcat(d, l);
    assert Acquired(d + l) == Lower(k) + {BloomPyramidId + k} + {BloomPyramidId + k + 1};
  }

  /** The targets held while upsampling, before the step at counter `c`. */
  function UpHeldBefore(held: set<int>, n: nat, c: nat): set<int> {
    held + Lower(2 * c) + {UpFrom(n, c)}
  }

  lemma UpStepHeld(held: set<int>, n: nat, c: nat, combine: Pass)
    requires 1 <= c < n && PyramidFree(held, 2 * n)
    ensures Scoped(UpHeldBefore(held, n, c), UpStep(n, c, combine))
    ensures After(UpHeldBefore(held, n, c), UpStep(n, c, combine)) == UpHeldBefore(held, n, c - 1)
  {
    var s := UpHeldBefore(held, n, c);
    var l := UpStep(n, c, combine);
    var s1 := s - {UpFrom(n, c)};
    var s2 := s1 - {LevelTo(c - 1)};
    assert l == l[..2] + ([l[2]] + [l[3]]);
    PoolFreeLog(s, l[..2]);
    SingleStep(s, l[2]);
    SingleStep(s1, l[3]);
    ScopedThen(s, [l[2]], [l[3]], s1, s2);
    ScopedThen(s, l[..2], [l[2]] + [l[3]], s, s2);
    LowerMembers(2 * c - 2);
    LowerStep(2 * c - 2);
    assert s2 == UpHeldBefore(held, n, c - 1);
  }

  /** The upsampling steps only release. */
  lemma {:induction false} UpAcquired(n: nat, c: nat, combine: Pass)
    requires c < n
    ensures Acquired(UpCommands(n, c, combine)) == {}
    decreases n - c
  {
    if c + 1 < n {
      UpAcquired(n, c + 1, combine);
      var l := UpStep(n, c + 1, combine);
      assert l == l[..2] + ([l[2]] + [l[3]]);
      AcquiredPoolFree(l[..2]);
      AcquiredSingle(l[2]);
      AcquiredSingle(l[3]);
      AcquiredConcat([l[2]], [l[3]]);
      AcquiredConcat(l[..2], [l[2]] + [l[3]]);
      AcquiredConcat(UpCommands(n, c + 1, combine), l);
    }
  }

  /** Combining from the last level down to counter `c` releases the levels above it. */
  lemma {:induction false} UpHeld(held: set<int>, n: nat, c: nat, combine: Pass)
    requires c < n && PyramidFree(held, 2 * n)
    ensures Scoped(UpHeldBefore(held, n, n - 1), UpCommands(n, c, combine))
    ensures After(UpHeldBefore(held, n, n - 1), UpCommands(n, c, combine)) == UpHeldBefore(held, n, c)
    decreases n - c
  {
    if c + 1 < n {
      UpHeld(held, n, c + 1, combine);
      UpHeldStep(held, n, c, combine);
    }
  }

  lemma UpHeldStep(held: set<int>, n: nat, c: nat, combine: Pass)
    requires c + 1 < n && PyramidFree(held, 2 * n)
    requires Scoped(UpHeldBefore(held, n, n - 1), UpCommands(n, c + 1, combine))
    requires After(UpHeldBefore(held, n, n - 1), UpCommands(n, c + 1, combine)) == UpHeldBefore(held, n, c + 1)
    ensures Scoped(UpHeldBefore(held, n, n - 1), UpCommands(n, c, combine))
    ensures After(UpHeldBefore(held, n, n - 1), UpCommands(n, c, combine)) == UpHeldBefore(held, n, c)
  {
    var u := UpCommands(n, c + 1, combine);
    var step := UpStep(n, c + 1, combine);
    assert UpCommands(n, c, combine) == u + step;
    UpStepHeld(held, n, c + 1, combine);
    ScopedThen(UpHeldBefore(held, n, n - 1), u, step, UpHeldBefore(held, n, c + 1), UpHeldBefore(held, n, c));
  }

  /** Releasing the top level's first target leaves the lower levels and the top result held. */
  lemma TeardownStart(held: set<int>, n: nat)
    requires 1 <= n && PyramidFree(held, 2 * n)
    ensures held + Lower(2 * n) - {LevelMid(n - 1)} == UpHeldBefore(held, n, n - 1)
  {
    var m := 2 * (n - 1);
    var top := BloomPyramidId + m;
    assert LevelMid(n - 1) == top && UpFrom(n, n - 1) == top + 1;
    assert UpHeldBefore(held, n, n - 1) == held + Lower(m) + {top + 1};
    LowerStep(m);
    assert Lower(2 * n) == Lower(m) + {top} + {top + 1};
    LowerMembers(m);
    assert top !in held && top !in Lower(m);
  }

  lemma TeardownHeld(held: set<int>, n: nat, combine: Pass)
    requires 1 <= n <= MaxBloomPyramidLevels && PyramidFree(held, 2 * n)
    ensures Scoped(held + Lower(2 * n), BloomTeardown(n, combine))
    ensures After(held + Lower(2 * n), BloomTeardown(n, combine)) == held + {UpFrom(n, 0)}
    ensures Acquired(BloomTeardown(n, combine)) == {}
  {
    var s := held + Lower(2 * n);
    var first := [Release(LevelMid(n - 1))];
    LowerMembers(2 * n);
    SingleStep(s, Release(LevelMid(n - 1)));
    AcquiredSingle(Release(LevelMid(n - 1)));
    TeardownStart(held, n);
    if n > 1 {
      UpHeld(held, n, 0, combine);
      UpAcquired(n, 0, combine);
      ScopedThen(s, first, UpCommands(n, 0, combine), UpHeldBefore(held, n, n - 1), held + {UpFrom(n, 0)});
      AcquiredConcat(first, UpCommands(n, 0, combine));
    }
  }

  lemma PrologueHeld(held: set<int>, bloom: BloomSettings, source: int, w0: nat, h0: nat)
    requires BloomPrefilterId !in held
    ensures Scoped(held, BloomPrologue(bloom, source, w0, h0))
    ensures After(held, BloomPrologue(bloom, source, w0, h0)) == held + {BloomPrefilterId}
    ensures Acquired(BloomPrologue(bloom, source, w0, h0)) == {BloomPrefilterId}
  {
    var l := BloomPrologue(bloom, source, w0, h0);
    var s1 := held + {BloomPrefilterId};
    assert l == [l[0]] + ([l[1]] + [l[2]]);
    SingleStep(held, l[0]);
    SingleStep(held, l[1]);
    SingleStep(s1, l[2]);
    ScopedThen(held, [l[1]], [l[2]], s1, s1);
    ScopedThen(held, [l[0]], [l[1]] + [l[2]], held, s1);
    AcquiredSingle(l[0]);
    AcquiredSingle(l[1]);
    AcquiredSingle(l[2]);
    AcquiredConcat([l[1]], [l[2]]);
    AcquiredConcat([l[0]], [l[1]] + [l[2]]);
  }

  lemma MiddleHeld(held: set<int>, bloom: BloomSettings)
    requires BloomPrefilterId in held
    ensures Scoped(held, BloomMiddle(bloom))
    ensures After(held, BloomMiddle(bloom)) == held - {BloomPrefilterId}
    ensures Acquired(BloomMiddle(bloom)) == {}
  {
    var l := BloomMiddle(bloom);
    assert l == [l[0]] + l[1..];
    SingleStep(held, l[0]);
    PoolFreeLog(held - {BloomPrefilterId}, l[1..]);
    ScopedThen(held, [l[0]], l[1..], held - {BloomPrefilterId}, held - {BloomPrefilterId});
    AcquiredSingle(l[0]);
    AcquiredPoolFree(l[1..]);
    AcquiredConcat([l[0]], l[1..]);
  }

  lemma EpilogueHeld(held: set<int>, bloom: BloomSettings, source: int, size: BufferSize, n: nat)
    requires UpFrom(n, 0) !in held && BloomResultId !in held && UpFrom(n, 0) != BloomResultId
    ensures Scoped(held + {UpFrom(n, 0)}, BloomEpilogue(bloom, source, size, n))
    ensures After(held + {UpFrom(n, 0)}, BloomEpilogue(bloom, source, size, n)) == held + {BloomResultId}
    ensures Acquired(BloomEpilogue(bloom, source, size, n)) == {BloomResultId}
  {
    var l := BloomEpilogue(bloom, source, size, n);
    var s := held + {UpFrom(n, 0)};
    var s1 := s + {BloomResultId};
    assert l == l[..2] + ([l[2]] + ([l[3]] + [l[4]]));
    PoolFreeLog(s, l[..2]);
    SingleStep(s, l[2]);
    SingleStep(s1, l[3]);
    SingleStep(s1, l[4]);
    assert s1 - {UpFrom(n, 0)} == held + {BloomResultId};
    ScopedThen(s1, [l[3]], [l[4]], s1, held + {BloomResultId});
    ScopedThen(s, [l[2]], [l[3]] + [l[4]], s1, held + {BloomResultId});
    ScopedThen(s, l[..2], [l[2]] + ([l[3]] + [l[4]]), s, held + {BloomResultId});
    AcquiredPoolFree(l[..2]);
    AcquiredSingle(l[2]);
    AcquiredSingle(l[3]);
    AcquiredSingle(l[4]);
    AcquiredConcat([l[3]], [l[4]]);
    AcquiredConcat([l[2]], [l[3]] + [l[4]]);
    AcquiredConcat(l[..2], [l[2]] + ([l[3]] + [l[4]]));
  }

  /** Bloom is balanced on top of whatever the camera holds: it leaves exactly the bloom result
      behind. */
  lemma BloomHeld(held: set<int>, bloom: BloomSettings, source: int, w0: nat, h0: nat, size: BufferSize, n: nat)
    requires 1 <= n <= MaxBloomPyramidLevels
    requires forall id :: id in held ==> !PostFXTarget(id)
    ensures Scoped(held, BloomCommands(bloom, source, w0, h0, size, n))
    ensures After(held, BloomCommands(bloom, source, w0, h0, size, n)) == held + {BloomResultId}
  {
    var pro := BloomPrologue(bloom, source, w0, h0);
    var down := DownCommands(n, w0, h0);
    var middle := BloomMiddle(bloom);
    var tear := BloomTeardown(n, CombinePass(bloom.mode));
    var epi := BloomEpilogue(bloom, source, size, n);
    var s1 := held + {BloomPrefilterId};
    var s2 := s1 + Lower(2 * n);
    var s3 := held + Lower(2 * n);
    var s4 := held + {UpFrom(n, 0)};
    var s5 := held + {BloomResultId};
    LowerMembers(2 * n);
    PrologueHeld(held, bloom, source, w0, h0);
    DownHeld(s1, n, w0, h0);
    ScopedThen(held, pro, down, s1, s2);
    MiddleHeld(s2, bloom);
    assert s2 - {BloomPrefilterId} == s3;
    ScopedThen(held, pro + down, middle, s2, s3);
    TeardownHeld(held, n, CombinePass(bloom.mode));
    ScopedThen(held, pro + down + middle, tear, s3, s4);
    EpilogueHeld(held, bloom, source, size, n);
    ScopedThen(held, pro + down + middle + tear, epi, s4, s5);
  }

  /** Bloom acquires only the prefilter, the result and the first 2n pyramid targets. */
  lemma BloomAcquired(bloom: BloomSettings, source: int, w0: nat, h0: nat, size: BufferSize, n: nat)
    requires 1 <= n <= MaxBloomPyramidLevels
    ensures Acquired(BloomCommands(bloom, source, w0, h0, size, n))
            == {BloomPrefilterId, BloomResultId} + Lower(2 * n)
  {
    var pro := BloomPrologue(bloom, source, w0, h0);
    var down := DownCommands(n, w0, h0);
    var middle := BloomMiddle(bloom);
    var tear := BloomTeardown(n, CombinePass(bloom.mode));
    var epi := BloomEpilogue(bloom, source, size, n);
    PrologueHeld({}, bloom, source, w0, h0);
    DownAcquired(n, w0, h0);
    MiddleHeld({BloomPrefilterId}, bloom);
    TeardownHeld({}, n, CombinePass(bloom.mode));
    LowerMembers(2);
    EpilogueHeld({}, bloom, source, size, n);
    AcquiredConcat(pro, down);
    AcquiredConcat(pro + down, middle);
    AcquiredConcat(pro + down + middle, tear);
    AcquiredConcat(pro + down + middle + tear, epi);
  }

  /** Every target bloom acquires is one of the stack's own IDs. */
  lemma BloomTargetsReserved(bloom: BloomSettings, source: int, w0: nat, h0: nat, size: BufferSize, n: nat)
    requires 1 <= n <= MaxBloomPyramidLevels
    ensures forall id :: id in Acquired(BloomCommands(bloom, source, w0, h0, size, n)) ==> PostFXTarget(id)
  {
    BloomAcquired(bloom, source, w0, h0, size, n);
    LowerMembers(2 * n);
  }

  // ---------------------------------------------------------------------------------------
  // Colour grading and the final draw

  /** The camera-dependent state DoFinal reads. */
  datatype Frame = Frame(
    camera: Camera,
    bufferSize: BufferSize,
    keepAlpha: bool,
    useHDR: bool,
    colorLUTResolution: nat,
    finalBlendMode: FinalBlendMode,
    bicubicRescaling: BicubicRescalingMode,
    fxaa: FXAA)

  /** The colour-grading uniforms: colour adjustments, white balance, split toning, channel mixer
      and shadows-midtones-highlights, in that order. */
  const ColorGradingCommands: seq<Command> :=
    [SetVector("_ColorAdjustments"), SetVector("_ColorFilter"), SetVector("_WhiteBalance"),
     SetVector("_SplitToningShadows"), SetVector("_SplitToningHighlights"),
     SetVector("_ChannelMixerRed"), SetVector("_ChannelMixerGreen"), SetVector("_ChannelMixerBlue"),
     SetVector("_SMHShadows"), SetVector("_SMHMidtones"), SetVector("_SMHHighlights"), SetVector("_SMHRange")]

  /** Pass.ColorGradingNone + (int)mode. */
  function GradingPass(mode: ToneMappingMode): (p: Pass)
    ensures p.Ordinal() == ColorGradingNone.Ordinal() + mode.Index()
  {
    match mode
    case NoToneMapping => ColorGradingNone
    case ACES => ToneMappingACES
    case Neutral => ToneMappingNeutral
    case Reinhard => ToneMappingReinhard
  }

  /** Rendering the lookup table, then resetting the final blend to one-zero. */
  function LUTCommands(f: Frame, source: int, mode: ToneMappingMode): seq<Command> {
    var res := f.colorLUTResolution;
    [Acquire(ColorGradingLUTId, res * res, res),
     SetVector("_ColorGradingLUTParameters"),
     SetFloat("_ColorGradingLUTInLogC", if f.useHDR && GradingPass(mode) != ColorGradingNone then 1.0 else 0.0),
     Draw(source, ColorGradingLUTId, GradingPass(mode).Ordinal()),
     SetVector("_ColorGradingLUTParameters"),
     SetFloat("_FinalSrcBlend", 1.0),
     SetFloat("_FinalDstBlend", 0.0)]
  }

  /** The lookup table is rendered in log C exactly when the camera is HDR and tone maps. */
  lemma LUTInLogRule(f: Frame, source: int, mode: ToneMappingMode)
    ensures LUTCommands(f, source, mode)[2]
            == SetFloat("_ColorGradingLUTInLogC", if f.useHDR && mode != NoToneMapping then 1.0 else 0.0)
  {
  }

  const FXAAQualityKeywords: seq<string> := ["FXAA_QUALITY_LOW", "FXAA_QUALITY_MEDIUM"]

  /** ConfigureFXAA: the quality keywords, then the thresholds. */
  function FXAAConfigCommands(q: FXAAQuality): seq<Command> {
    KeywordCommands(FXAAQualityKeywords, q.Index()) + [SetVector("_FXAAConfig")]
  }

  /** Low enables only the low keyword, Medium only the medium one, High neither. */
  lemma FXAAQualityRule(q: FXAAQuality)
    ensures FXAAConfigCommands(q)
            == [if q == Low then EnableKeyword("FXAA_QUALITY_LOW") else DisableKeyword("FXAA_QUALITY_LOW"),
                if q == Medium then EnableKeyword("FXAA_QUALITY_MEDIUM") else DisableKeyword("FXAA_QUALITY_MEDIUM"),
                SetVector("_FXAAConfig")]
    ensures EnableCount(KeywordCommands(FXAAQualityKeywords, q.Index())) == if q == High then 0 else 1
  {
    KeywordCommandsEnableCount(FXAAQualityKeywords, q.Index());
  }

  function ApplyPass(keepAlpha: bool): Pass {
    if keepAlpha then ApplyColorGrading else ApplyColorGradingWithLuma
  }

  function FXAAPassFor(keepAlpha: bool): Pass {
    if keepAlpha then FXAAPass else FXAAWithLuma
  }

  /** With FXAA, the graded image first goes to an LDR target of the buffer's size. */
  function PrepareCommands(f: Frame, source: int): seq<Command> {
    if f.fxaa.enabled then
      FXAAConfigCommands(f.fxaa.quality)
      + [Acquire(ColorGradingResultId, f.bufferSize.x, f.bufferSize.y),
         Draw(source, ColorGradingResultId, ApplyPass(f.keepAlpha).Ordinal())]
    else []
  }

  /** The camera target is not loaded when the final blend overwrites the whole viewport. */
  function FinalLoad(f: Frame): LoadAction {
    if f.finalBlendMode.destination == Zero && f.camera.fullViewRect then DontCare else Load
  }

  /** DrawFinal: the camera's blend factors, then the draw into the camera target. */
  function DrawFinalCommands(f: Frame, from: int, pass: Pass): seq<Command> {
    [SetFloat("_FinalSrcBlend", f.finalBlendMode.source.Code() as real),
     SetFloat("_FinalDstBlend", f.finalBlendMode.destination.Code() as real),
     DrawFinal(from, pass.Ordinal(), FinalLoad(f))]
  }

  /** Bicubic rescaling applies always in UpAndDown mode, and in UpOnly mode when upscaling. */
  function BicubicSampling(f: Frame): bool {
    f.bicubicRescaling == UpAndDown
    || (f.bicubicRescaling == UpOnly && f.bufferSize.x < f.camera.pixelWidth)
  }

  /** The final draw skips loading the camera target exactly when it overwrites the whole of it. */
  lemma FinalLoadRule(f: Frame, from: int, pass: Pass)
    ensures DrawFinalCommands(f, from, pass)[2].DrawFinal?
    ensures DrawFinalCommands(f, from, pass)[2].load == DontCare
            <==> f.finalBlendMode.destination == Zero && f.camera.fullViewRect
  {
  }

  /** The scaled path's draw into the intermediate target, releasing the FXAA input. */
  function RescaleDraw(f: Frame, source: int): seq<Command> {
    if f.fxaa.enabled then
      [Draw(ColorGradingResultId, FinalResultId, FXAAPassFor(f.keepAlpha).Ordinal()),
       Release(ColorGradingResultId)]
    else [Draw(source, FinalResultId, ApplyColorGrading.Ordinal())]
  }

  /** The scaled path up to the final draw: a buffer-sized LDR target, the draw into it and
      the bicubic switch. */
  function RescalePrelude(f: Frame, source: int): seq<Command> {
    [Acquire(FinalResultId, f.bufferSize.x, f.bufferSize.y)] + RescaleDraw(f, source)
    + [SetFloat("_CopyBicubic", if BicubicSampling(f) then 1.0 else 0.0)]
  }

  /** The unscaled path: straight to the camera, from the FXAA target when FXAA is on. */
  function DirectOutput(f: Frame, source: int): seq<Command> {
    if f.fxaa.enabled then
      DrawFinalCommands(f, ColorGradingResultId, FXAAPassFor(f.keepAlpha)) + [Release(ColorGradingResultId)]
    else DrawFinalCommands(f, source, ApplyColorGrading)
  }

  function RescaledOutput(f: Frame, source: int): seq<Command> {
    RescalePrelude(f, source) + DrawFinalCommands(f, FinalResultId, FinalRescale) + [Release(FinalResultId)]
  }

  /** The buffer is drawn straight to the camera when it has the camera's width; otherwise it
      goes through a buffer-sized LDR target and the rescaling pass. */
  function OutputCommands(f: Frame, source: int): seq<Command> {
    if f.bufferSize.x == f.camera.pixelWidth then DirectOutput(f, source) else RescaledOutput(f, source)
  }

  /** Everything DoFinal records. */
  function FinalCommands(f: Frame, mode: ToneMappingMode, source: int): seq<Command> {
    ColorGradingCommands + LUTCommands(f, source, mode) + PrepareCommands(f, source)
    + OutputCommands(f, source) + [Release(ColorGradingLUTId)]
  }

  /** Whether a command is the bicubic switch of the rescaling pass. */
  predicate SetsBicubic(c: Command) {
    c.SetFloat? && c.name == "_CopyBicubic"
  }

  /** A log that never sets the bicubic switch. */
  predicate NoBicubicSwitch(log: seq<Command>) {
    forall k :: 0 <= k < |log| ==> !SetsBicubic(log[k])
  }

  lemma NoBicubicSwitchConcat(a: seq<Command>, b: seq<Command>)
    requires NoBicubicSwitch(a) && NoBicubicSwitch(b)
    ensures NoBicubicSwitch(a + b)
  {
    forall k | 0 <= k < |a + b| ensures !SetsBicubic((a + b)[k]) {
      if k < |a| { assert (a + b)[k] == a[k]; } else { assert (a + b)[k] == b[k - |a|]; }
    }
  }

  /** Every piece of DoFinal other than the rescaling prelude leaves the switch alone. */
  lemma FinalPiecesKeepSwitch(f: Frame, mode: ToneMappingMode, source: int)
    ensures NoBicubicSwitch(ColorGradingCommands + LUTCommands(f, source, mode) + PrepareCommands(f, source))
    ensures NoBicubicSwitch(DirectOutput(f, source))
    ensures NoBicubicSwitch([Acquire(FinalResultId, f.bufferSize.x, f.bufferSize.y)] + RescaleDraw(f, source))
    ensures NoBicubicSwitch(DrawFinalCommands(f, FinalResultId, FinalRescale) + [Release(FinalResultId)])
  {
    var keywords := KeywordCommands(FXAAQualityKeywords, f.fxaa.quality.Index());
    assert NoBicubicSwitch(keywords);
    NoBicubicSwitchConcat(ColorGradingCommands, LUTCommands(f, source, mode));
    if f.fxaa.enabled {
      NoBicubicSwitchConcat(keywords, [SetVector("_FXAAConfig")]);
      NoBicubicSwitchConcat(FXAAConfigCommands(f.fxaa.quality),
        [Acquire(ColorGradingResultId, f.bufferSize.x, f.bufferSize.y),
         Draw(source, ColorGradingResultId, ApplyPass(f.keepAlpha).Ordinal())]);
    }
    NoBicubicSwitchConcat(ColorGradingCommands + LUTCommands(f, source, mode), PrepareCommands(f, source));
  }

  /** A log made of switch-free pieces around one command sets the switch to `v` exactly when
      that command does. */
  lemma SwitchAt(a: seq<Command>, x: Command, b: seq<Command>, v: real)
    requires NoBicubicSwitch(a) && NoBicubicSwitch(b)
    ensures SetFloat("_CopyBicubic", v) in a + [x] + b <==> x == SetFloat("_CopyBicubic", v)
  {
    var l := a + [x] + b;
    assert l[|a|] == x;
    forall k | 0 <= k < |l| && k != |a| ensures !SetsBicubic(l[k]) {
      if k < |a| { assert l[k] == a[k]; } else { assert l[k] == b[k - |a| - 1]; }
    }
  }

  /** DoFinal sets the bicubic switch only when it rescales, and then to 1 exactly in UpAndDown
      mode, or in UpOnly mode when the buffer is narrower than the camera (upscaling), and to 0
      otherwise. */
  lemma BicubicRule(f: Frame, mode: ToneMappingMode, source: int)
    ensures f.bufferSize.x == f.camera.pixelWidth ==>
      SetFloat("_CopyBicubic", 0.0) !in FinalCommands(f, mode, source)
      && SetFloat("_CopyBicubic", 1.0) !in FinalCommands(f, mode, source)
    ensures f.bufferSize.x != f.camera.pixelWidth ==>
      var upscale := f.bicubicRescaling == UpAndDown
                     || (f.bicubicRescaling == UpOnly && f.bufferSize.x < f.camera.pixelWidth);
      (SetFloat("_CopyBicubic", 1.0) in FinalCommands(f, mode, source) <==> upscale)
      && (SetFloat("_CopyBicubic", 0.0) in FinalCommands(f, mode, source) <==> !upscale)
  {
    var pre := ColorGradingCommands + LUTCommands(f, source, mode) + PrepareCommands(f, source);
    var last := [Release(ColorGradingLUTId)];
    assert NoBicubicSwitch(last);
    FinalPiecesKeepSwitch(f, mode, source);
    if f.bufferSize.x == f.camera.pixelWidth {
      NoBicubicSwitchConcat(pre, DirectOutput(f, source));
      NoBicubicSwitchConcat(pre + DirectOutput(f, source), last);
      assert FinalCommands(f, mode, source) == pre + DirectOutput(f, source) + last;
    } else {
      var head := [Acquire(FinalResultId, f.bufferSize.x, f.bufferSize.y)] + RescaleDraw(f, source);
      var switch := SetFloat("_CopyBicubic", if BicubicSampling(f) then 1.0 else 0.0);
      var tail := DrawFinalCommands(f, FinalResultId, FinalRescale) + [Release(FinalResultId)];
      NoBicubicSwitchConcat(pre, head);
      NoBicubicSwitchConcat(tail, last);
      assert FinalCommands(f, mode, source) == (pre + head) + [switch] + (tail + last);
      SwitchAt(pre + head, switch, tail + last, 1.0);
      SwitchAt(pre + head, switch, tail + last, 0.0);
    }
  }

  /** The target DoFinal's single camera draw reads, and the pass it uses. */
  function FinalSource(f: Frame, source: int): int {
    if f.bufferSize.x != f.camera.pixelWidth then FinalResultId
    else if f.fxaa.enabled then ColorGradingResultId
    else source
  }

  function FinalPass(f: Frame): Pass {
    if f.bufferSize.x != f.camera.pixelWidth then FinalRescale
    else if f.fxaa.enabled then FXAAPassFor(f.keepAlpha)
    else ApplyColorGrading
  }

  lemma DrawFinalCommandsShape(f: Frame, from: int, pass: Pass)
    ensures DrawFinalCount(DrawFinalCommands(f, from, pass)) == 1
    ensures PoolFree(DrawFinalCommands(f, from, pass))
  {
    var d := DrawFinalCommands(f, from, pass);
    DrawFinalCountNone(d[..2]);
    assert d == d[..2] + [d[2]];
  }

  /** The output part draws into the camera target once, from the selected target. */
  lemma OutputDrawsOnce(f: Frame, source: int)
    ensures DrawFinalCount(OutputCommands(f, source)) == 1
    ensures DrawFinal(FinalSource(f, source), FinalPass(f).Ordinal(), FinalLoad(f)) in OutputCommands(f, source)
  {
    var out := OutputCommands(f, source);
    var d := DrawFinalCommands(f, FinalSource(f, source), FinalPass(f));
    DrawFinalCommandsShape(f, FinalSource(f, source), FinalPass(f));
    if f.bufferSize.x == f.camera.pixelWidth {
      if f.fxaa.enabled {
        assert out == d + [Release(ColorGradingResultId)];
        DrawFinalCountConcat(d, [Release(ColorGradingResultId)]);
        assert out[2] == d[2];
      } else {
        assert out == d;
      }
    } else {
      var pre := RescalePrelude(f, source);
      assert out == pre + d + [Release(FinalResultId)];
      DrawFinalCountNone(pre);
      DrawFinalCountConcat(pre, d);
      DrawFinalCountConcat(pre + d, [Release(FinalResultId)]);
      assert out[|pre| + 2] == d[2];
    }
  }

  /** DoFinal draws into the camera target exactly once, from the target and with the pass the
      scaling and FXAA choices select. */
  lemma FinalDrawsOnce(f: Frame, mode: ToneMappingMode, source: int)
    ensures DrawFinalCount(FinalCommands(f, mode, source)) == 1
    ensures DrawFinal(FinalSource(f, source), FinalPass(f).Ordinal(), FinalLoad(f)) in FinalCommands(f, mode, source)
  {
    var grading := ColorGradingCommands;
    var lut := LUTCommands(f, source, mode);
    var prep := PrepareCommands(f, source);
    var out := OutputCommands(f, source);
    var last := [Release(ColorGradingLUTId)];
    DrawFinalCountNone(grading);
    DrawFinalCountNone(lut);
    DrawFinalCountNone(prep);
    OutputDrawsOnce(f, source);
    DrawFinalCountConcat(grading, lut);
    DrawFinalCountConcat(grading + lut, prep);
    DrawFinalCountConcat(grading + lut + prep, out);
    DrawFinalCountConcat(grading + lut + prep + out, last);
    assert FinalCommands(f, mode, source) == grading + lut + prep + out + last;
  }

  lemma LUTHeld(held: set<int>, f: Frame, source: int, mode: ToneMappingMode)
    requires ColorGradingLUTId !in held
    ensures Scoped(held, LUTCommands(f, source, mode))
    ensures After(held, LUTCommands(f, source, mode)) == held + {ColorGradingLUTId}
    ensures Acquired(LUTCommands(f, source, mode)) == {ColorGradingLUTId}
  {
    var l := LUTCommands(f, source, mode);
    assert l == [l[0]] + l[1..];
    SingleStep(held, l[0]);
    PoolFreeLog(held + {ColorGradingLUTId}, l[1..]);
    ScopedThen(held, [l[0]], l[1..], held + {ColorGradingLUTId}, held + {ColorGradingLUTId});
    AcquiredSingle(l[0]);
    AcquiredPoolFree(l[1..]);
    AcquiredConcat([l[0]], l[1..]);
  }

  /** What FXAA adds to the held targets. */
  function FXAATargets(f: Frame): set<int> {
    if f.fxaa.enabled then {ColorGradingResultId} else {}
  }

  lemma PrepareHeld(held: set<int>, f: Frame, source: int)
    requires ColorGradingResultId !in held
    ensures Scoped(held, PrepareCommands(f, source))
    ensures After(held, PrepareCommands(f, source)) == held + FXAATargets(f)
    ensures Acquired(PrepareCommands(f, source)) == FXAATargets(f)
  {
    if f.fxaa.enabled {
      var config := FXAAConfigCommands(f.fxaa.quality);
      var acquire := Acquire(ColorGradingResultId, f.bufferSize.x, f.bufferSize.y);
      var draw := Draw(source, ColorGradingResultId, ApplyPass(f.keepAlpha).Ordinal());
      var s1 := held + {ColorGradingResultId};
      KeywordCommandsPoolFree(FXAAQualityKeywords, f.fxaa.quality.Index());
      PoolFreeConcat(KeywordCommands(FXAAQualityKeywords, f.fxaa.quality.Index()), [SetVector("_FXAAConfig")]);
      PoolFreeLog(held, config);
      SingleStep(held, acquire);
      SingleStep(s1, draw);
      ScopedThen(held, [acquire], [draw], s1, s1);
      ScopedThen(held, config, [acquire] + [draw], held, s1);
      AcquiredPoolFree(config);
      AcquiredSingle(acquire);
      AcquiredSingle(draw);
      AcquiredConcat([acquire], [draw]);
      AcquiredConcat(config, [acquire] + [draw]);
      assert PrepareCommands(f, source) == config + ([acquire] + [draw]);
    }
  }

  /** What rescaling acquires. */
  function RescaleTargets(f: Frame): set<int> {
    if f.bufferSize.x != f.camera.pixelWidth then {FinalResultId} else {}
  }

  lemma RescaleDrawHeld(held: set<int>, f: Frame, source: int)
    requires ColorGradingResultId !in held
    ensures Scoped(held + FXAATargets(f), RescaleDraw(f, source))
    ensures After(held + FXAATargets(f), RescaleDraw(f, source)) == held
    ensures Acquired(RescaleDraw(f, source)) == {}
  {
    var l := RescaleDraw(f, source);
    var s := held + FXAATargets(f);
    if f.fxaa.enabled {
      assert l == [l[0]] + [l[1]];
      SingleStep(s, l[0]);
      SingleStep(s, l[1]);
      ScopedThen(s, [l[0]], [l[1]], s, held);
      AcquiredSingle(l[0]);
      AcquiredSingle(l[1]);
      AcquiredConcat([l[0]], [l[1]]);
    } else {
      SingleStep(s, l[0]);
      AcquiredSingle(l[0]);
    }
  }

  lemma OutputHeld(held: set<int>, f: Frame, source: int)
    requires ColorGradingResultId !in held && FinalResultId !in held
    ensures Scoped(held + FXAATargets(f), OutputCommands(f, source))
    ensures After(held + FXAATargets(f), OutputCommands(f, source)) == held
    ensures Acquired(OutputCommands(f, source)) == RescaleTargets(f)
  {
    var s := held + FXAATargets(f);
    var out := OutputCommands(f, source);
    if f.bufferSize.x == f.camera.pixelWidth {
      var d := DrawFinalCommands(f, FinalSource(f, source), FinalPass(f));
      DrawFinalCommandsShape(f, FinalSource(f, source), FinalPass(f));
      PoolFreeLog(s, d);
      AcquiredPoolFree(d);
      if f.fxaa.enabled {
        var r := Release(ColorGradingResultId);
        assert out == d + [r];
        SingleStep(s, r);
        ScopedThen(s, d, [r], s, held);
        AcquiredSingle(r);
        AcquiredConcat(d, [r]);
      }
    } else {
      RescaledOutputHeld(held, f, source);
    }
  }

  lemma RescaledOutputHeld(held: set<int>, f: Frame, source: int)
    requires ColorGradingResultId !in held && FinalResultId !in held
    requires f.bufferSize.x != f.camera.pixelWidth
    ensures Scoped(held + FXAATargets(f), OutputCommands(f, source))
    ensures After(held + FXAATargets(f), OutputCommands(f, source)) == held
    ensures Acquired(OutputCommands(f, source)) == RescaleTargets(f)
  {
    var s := held + FXAATargets(f);
    var out := OutputCommands(f, source);
    var acquire := Acquire(FinalResultId, f.bufferSize.x, f.bufferSize.y);
    var mid := RescaleDraw(f, source);
    var bicubic := SetFloat("_CopyBicubic", if BicubicSampling(f) then 1.0 else 0.0);
    var d := DrawFinalCommands(f, FinalResultId, FinalRescale);
    var r := Release(FinalResultId);
    var s1 := s + {FinalResultId};
    var s2 := held + {FinalResultId};
    assert out == [acquire] + mid + ([bicubic] + d + [r]);
    SingleStep(s, acquire);
    assert s1 == held + {FinalResultId} + FXAATargets(f);
    RescaleDrawHeld(held + {FinalResultId}, f, source);
    ScopedThen(s, [acquire], mid, s1, s2);
    DrawFinalCommandsShape(f, FinalResultId, FinalRescale);
    PoolFreeConcat([bicubic], d);
    PoolFreeLog(s2, [bicubic] + d);
    SingleStep(s2, r);
    ScopedThen(s2, [bicubic] + d, [r], s2, held);
    ScopedThen(s, [acquire] + mid, [bicubic] + d + [r], s2, held);
    AcquiredSingle(acquire);
    AcquiredPoolFree([bicubic] + d);
    AcquiredSingle(r);
    AcquiredConcat([acquire], mid);
    AcquiredConcat([bicubic] + d, [r]);
    AcquiredConcat([acquire] + mid, [bicubic] + d + [r]);
  }

  /** Grading the lookup table leaves it held on top of whatever was. */
  lemma GradedHeld(held: set<int>, f: Frame, mode: ToneMappingMode, source: int)
    requires ColorGradingLUTId !in held
    ensures Scoped(held, ColorGradingCommands + LUTCommands(f, source, mode))
    ensures After(held, ColorGradingCommands + LUTCommands(f, source, mode)) == held + {ColorGradingLUTId}
  {
    PoolFreeLog(held, ColorGradingCommands);
    LUTHeld(held, f, source, mode);
    ScopedThen(held, ColorGradingCommands, LUTCommands(f, source, mode), held, held + {ColorGradingLUTId});
  }

  /** DoFinal releases everything it acquires, on top of whatever is held. */
  lemma FinalHeld(held: set<int>, f: Frame, mode: ToneMappingMode, source: int)
    requires ColorGradingLUTId !in held && ColorGradingResultId !in held && FinalResultId !in held
    ensures Scoped(held, FinalCommands(f, mode, source))
    ensures After(held, FinalCommands(f, mode, source)) == held
  {
    var graded := ColorGradingCommands + LUTCommands(f, source, mode);
    var prep := PrepareCommands(f, source);
    var out := OutputCommands(f, source);
    var last := [Release(ColorGradingLUTId)];
    var s1 := held + {ColorGradingLUTId};
    GradedHeld(held, f, mode, source);
    PrepareHeld(s1, f, source);
    ScopedThen(held, graded, prep, s1, s1 + FXAATargets(f));
    OutputHeld(s1, f, source);
    ScopedThen(held, graded + prep, out, s1 + FXAATargets(f), s1);
    SingleStep(s1, last[0]);
    assert s1 - {ColorGradingLUTId} == held;
    ScopedThen(held, graded + prep + out, last, s1, held);
  }

  /** DoFinal always acquires the lookup table, the FXAA target exactly when FXAA is on, and the
      rescaling target exactly when the buffer does not have the camera's width. */
  lemma FinalAcquired(f: Frame, mode: ToneMappingMode, source: int)
    ensures Acquired(FinalCommands(f, mode, source)) == {ColorGradingLUTId} + FXAATargets(f) + RescaleTargets(f)
    ensures ColorGradingResultId in Acquired(FinalCommands(f, mode, source)) <==> f.fxaa.enabled
    ensures FinalResultId in Acquired(FinalCommands(f, mode, source)) <==> f.bufferSize.x != f.camera.pixelWidth
  {
    var grading := ColorGradingCommands;
    var lut := LUTCommands(f, source, mode);
    var prep := PrepareCommands(f, source);
    var out := OutputCommands(f, source);
    var last := [Release(ColorGradingLUTId)];
    AcquiredPoolFree(grading);
    LUTHeld({}, f, source, mode);
    PrepareHeld({}, f, source);
    OutputHeld({}, f, source);
    AcquiredSingle(last[0]);
    AcquiredConcat(grading, lut);
    AcquiredConcat(grading + lut, prep);
    AcquiredConcat(grading + lut + prep, out);
    AcquiredConcat(grading + lut + prep + out, last);
  }

  // ---------------------------------------------------------------------------------------
  // The whole stack

  /** Everything Render records: bloom when it applies, then the final pass from the bloom
      result (released afterwards) or from the source itself. */
  function RenderCommands(f: Frame, s: PostFXSettings, source: int): seq<Command>
    requires ValidBloomSettings(s.bloom)
  {
    var bloom := s.bloom;
    var w0 := BloomWidth(bloom, f.camera, f.bufferSize);
    var h0 := BloomHeight(bloom, f.camera, f.bufferSize);
    if BloomSkipped(bloom, w0, h0) then FinalCommands(f, s.toneMapping, source)
    else
      BloomCommands(bloom, source, w0, h0, f.bufferSize, PyramidDepth(bloom, w0, h0))
      + FinalCommands(f, s.toneMapping, BloomResultId) + [Release(BloomResultId)]
  }

  /** A frame of post-processing leaves the pool as it found it. */
  lemma RenderHeld(held: set<int>, f: Frame, s: PostFXSettings, source: int)
    requires ValidBloomSettings(s.bloom)
    requires forall id :: id in held ==> !PostFXTarget(id)
    ensures Scoped(held, RenderCommands(f, s, source)) && After(held, RenderCommands(f, s, source)) == held
  {
    var bloom := s.bloom;
    var w0 := BloomWidth(bloom, f.camera, f.bufferSize);
    var h0 := BloomHeight(bloom, f.camera, f.bufferSize);
    if BloomSkipped(bloom, w0, h0) {
      FinalHeld(held, f, s.toneMapping, source);
    } else {
      var n := PyramidDepth(bloom, w0, h0);
      PyramidDepthBounds(bloom, w0, h0);
      var b := BloomCommands(bloom, source, w0, h0, f.bufferSize, n);
      var fin := FinalCommands(f, s.toneMapping, BloomResultId);
      var s1 := held + {BloomResultId};
      BloomHeld(held, bloom, source, w0, h0, f.bufferSize, n);
      FinalHeld(s1, f, s.toneMapping, BloomResultId);
      ScopedThen(held, b, fin, s1, s1);
      SingleStep(s1, Release(BloomResultId));
      assert s1 - {BloomResultId} == held;
      ScopedThen(held, b + fin, [Release(BloomResultId)], s1, held);
    }
  }

  /** Over a whole frame of post-processing the lookup table is always acquired, the FXAA
      target exactly when FXAA is on, and the final-result target exactly when the buffer's
      width differs from the camera's. */
  lemma RenderFinalTargets(f: Frame, s: PostFXSettings, source: int)
    requires ValidBloomSettings(s.bloom)
    ensures ColorGradingLUTId in Acquired(RenderCommands(f, s, source))
    ensures ColorGradingResultId in Acquired(RenderCommands(f, s, source)) <==> f.fxaa.enabled
    ensures FinalResultId in Acquired(RenderCommands(f, s, source)) <==> f.bufferSize.x != f.camera.pixelWidth
  {
    var bloom := s.bloom;
    var w0 := BloomWidth(bloom, f.camera, f.bufferSize);
    var h0 := BloomHeight(bloom, f.camera, f.bufferSize);
    var fin := FinalCommands(f, s.toneMapping, if BloomSkipped(bloom, w0, h0) then source else BloomResultId);
    FinalAcquired(f, s.toneMapping, if BloomSkipped(bloom, w0, h0) then source else BloomResultId);
    if !BloomSkipped(bloom, w0, h0) {
      var n := PyramidDepth(bloom, w0, h0);
      PyramidDepthBounds(bloom, w0, h0);
      var got := Acquired(RenderCommands(f, s, source));
      BloomFrameAcquired(bloom, source, w0, h0, f.bufferSize, n, fin);
      assert got == {BloomPrefilterId, BloomResultId} + Lower(2 * n) + Acquired(fin);
      LowerMembers(2 * n);
      assert ColorGradingLUTId !in Lower(2 * n) && ColorGradingResultId !in Lower(2 * n) && FinalResultId !in Lower(2 * n);
    }
  }

  /** With bloom, a frame acquires the bloom targets and whatever DoFinal acquires. */
  lemma BloomFrameAcquired(bloom: BloomSettings, source: int, w0: nat, h0: nat, size: BufferSize, n: nat,
                           fin: seq<Command>)
    requires 1 <= n <= MaxBloomPyramidLevels
    ensures Acquired(BloomCommands(bloom, source, w0, h0, size, n) + fin + [Release(BloomResultId)])
            == {BloomPrefilterId, BloomResultId} + Lower(2 * n) + Acquired(fin)
  {
    var b := BloomCommands(bloom, source, w0, h0, size, n);
    BloomAcquired(bloom, source, w0, h0, size, n);
    AcquiredSingle(Release(BloomResultId));
    AcquiredConcat(b, fin);
    AcquiredConcat(b + fin, [Release(BloomResultId)]);
  }

  /** Run on its own, the stack's log is balanced. */
  lemma RenderBalanced(f: Frame, s: PostFXSettings, source: int)
    requires ValidBloomSettings(s.bloom)
    ensures Balanced(RenderCommands(f, s, source))
  {
    RenderHeld({}, f, s, source);
  }

  // ---------------------------------------------------------------------------------------
  // The stack object

  class PostFXStack {
    /** Null unless the camera gets post-processing this frame. */
    var settings: Option<PostFXSettings>
    var camera: Camera
    var bufferSize: BufferSize
    var keepAlpha: bool
    var useHDR: bool
    var colorLUTResolution: nat
    var finalBlendMode: FinalBlendMode
    var bicubicRescaling: BicubicRescalingMode
    var fxaa: FXAA
    /** Everything recorded into the "Post FX" command buffer. */
    var buffer: seq<Command>

    predicate IsActive()
      reads this`settings
    {
      settings.Some?
    }

    /** The fields DoFinal reads. */
    function CurrentFrame(): Frame
      reads this`camera, this`bufferSize, this`keepAlpha, this`useHDR, this`colorLUTResolution
      reads this`finalBlendMode, this`bicubicRescaling, this`fxaa
    {
      Frame(camera, bufferSize, keepAlpha, useHDR, colorLUTResolution, finalBlendMode, bicubicRescaling, fxaa)
    }

    /** The constructor registers the 2 * MaxBloomPyramidLevels consecutive pyramid IDs starting
        at BloomPyramidId; the stack starts inactive. */
    constructor()
      ensures !IsActive() && buffer == []
    {
      settings := None;
      camera := Camera(Game, 0, 0, true, false, Skybox, 0.0, false);
      bufferSize := BufferSize(0, 0);
      keepAlpha := false;
      useHDR := false;
      colorLUTResolution := 32;
      finalBlendMode := FinalBlendMode(One, Zero);
      bicubicRescaling := RescaleOff;
      fxaa := FXAA(false, Low);
      buffer := [];
    }

    method Setup(camera: Camera, bufferSize: BufferSize, settings: Option<PostFXSettings>,
                 keepAlpha: bool, useHDR: bool, colorLUTResolution: nat, finalBlendMode: FinalBlendMode,
                 bicubicRescaling: BicubicRescalingMode, fxaa: FXAA, showImageEffects: bool)
      modifies this`settings, this`camera, this`bufferSize, this`keepAlpha, this`useHDR
      modifies this`colorLUTResolution, this`finalBlendMode, this`bicubicRescaling, this`fxaa
      ensures CurrentFrame() == Frame(camera, bufferSize, keepAlpha, useHDR, colorLUTResolution, finalBlendMode, bicubicRescaling, fxaa)
      ensures this.settings == ActiveSettings(camera.cameraType, settings, showImageEffects)
    {
      this.fxaa := fxaa;
      this.bicubicRescaling := bicubicRescaling;
      this.bufferSize := bufferSize;
      this.finalBlendMode := finalBlendMode;
      this.camera := camera;
      this.settings := if camera.cameraType.Code() <= SceneView.Code() then settings else None;
      this.keepAlpha := keepAlpha;
      this.useHDR := useHDR;
      this.colorLUTResolution := colorLUTResolution;
      ApplySceneViewState(showImageEffects);
    }

    /** The editor drops the effects of a scene view that has image effects switched off. */
    method ApplySceneViewState(showImageEffects: bool)
      modifies this`settings
      ensures settings == if camera.cameraType == SceneView && !showImageEffects then None else old(settings)
    {
      if camera.cameraType == SceneView && !showImageEffects {
        settings := None;
      }
    }

    method Draw(from: int, to: int, pass: Pass)
      modifies this`buffer
      ensures buffer == old(buffer) + [Commands.Draw(from, to, pass.Ordinal())]
    {
      buffer := buffer + [Commands.Draw(from, to, pass.Ordinal())];
    }

    method DrawFinal(from: int, pass: Pass)
      modifies this`buffer
      ensures buffer == old(buffer) + DrawFinalCommands(CurrentFrame(), from, pass)
    {
      buffer := buffer + [SetFloat("_FinalSrcBlend", finalBlendMode.source.Code() as real)];
      buffer := buffer + [SetFloat("_FinalDstBlend", finalBlendMode.destination.Code() as real)];
      var load := if finalBlendMode.destination == Zero && camera.fullViewRect then DontCare else Load;
      buffer := buffer + [Commands.DrawFinal(from, pass.Ordinal(), load)];
    }

    method Render(sourceId: int)
      requires IsActive() && ValidBloomSettings(settings.value.bloom)
      modifies this`buffer
      ensures buffer == old(buffer) + RenderCommands(CurrentFrame(), settings.value, sourceId)
    {
      ghost var bloom := settings.value.bloom;
      ghost var w0 := BloomWidth(bloom, camera, bufferSize);
      ghost var h0 := BloomHeight(bloom, camera, bufferSize);
      var bloomApplied := DoBloom(sourceId);
      if bloomApplied {
        DoFinal(BloomResultId);
        buffer := buffer + [Release(BloomResultId)];
        Regroup4(old(buffer), BloomCommands(bloom, sourceId, w0, h0, bufferSize, PyramidDepth(bloom, w0, h0)),
                 FinalCommands(CurrentFrame(), settings.value.toneMapping, BloomResultId), [Release(BloomResultId)]);
      } else {
        DoFinal(sourceId);
      }
    }

    /** Bloom: a prefilter at half size, a pyramid of blurred levels each half the previous one,
        then combining back up into a buffer-sized result. Returns false, recording nothing,
        when the early-return conditions hold. */
    method DoBloom(sourceId: int) returns (applied: bool)
      requires IsActive() && ValidBloomSettings(settings.value.bloom)
      modifies this`buffer
      ensures var bloom := settings.value.bloom;
        var w0 := BloomWidth(bloom, camera, bufferSize);
        var h0 := BloomHeight(bloom, camera, bufferSize);
        && applied == !BloomSkipped(bloom, w0, h0)
        && (applied ==> buffer == old(buffer) + BloomCommands(bloom, sourceId, w0, h0, bufferSize, PyramidDepth(bloom, w0, h0)))
        && (!applied ==> buffer == old(buffer))
    {
      var bloom := settings.value.bloom;
      var width: nat, height: nat;
      if bloom.ignoreRenderScale {
        width := camera.pixelWidth / 2;
        height := camera.pixelHeight / 2;
      } else {
        width := bufferSize.x / 2;
        height := bufferSize.y / 2;
      }
      if bloom.maxIterations == 0 || bloom.intensity <= 0.0
         || height < bloom.downscaleLimit * 2 || width < bloom.downscaleLimit * 2 {
        return false;
      }
      ghost var n := PyramidDepth(bloom, width, height);
      ghost var pro := BloomPrologue(bloom, sourceId, width, height);
      ghost var down := DownCommands(n, width, height);
      ghost var middle := BloomMiddle(bloom);
      ghost var tear := BloomTeardown(n, CombinePass(bloom.mode));
      ghost var epi := BloomEpilogue(bloom, sourceId, bufferSize, n);
      Prefilter(bloom, sourceId, width, height);
      var i, fromId, toId := BuildPyramid(bloom, width, height);
      var combinePass, finalPass, finalIntensity := SetBloomIntensity(bloom);
      if i > 1 {
        fromId := CombinePyramid(i, fromId, toId, combinePass);
      } else {
        buffer := buffer + [Release(BloomPyramidId)];
      }
      FinishBloom(sourceId, fromId, finalPass, finalIntensity);
      assert finalIntensity == FinalIntensity(bloom) && finalPass == FinalBloomPass(bloom.mode);
      Regroup(old(buffer), pro, down, middle, tear, epi);
      return true;
    }

    /** The threshold and the half-size prefilter of the source. */
    method Prefilter(bloom: BloomSettings, sourceId: int, width: nat, height: nat)
      modifies this`buffer
      ensures buffer == old(buffer) + BloomPrologue(bloom, sourceId, width, height)
    {
      buffer := buffer + [SetVector("_BloomThreshold")];
      buffer := buffer + [Acquire(BloomPrefilterId, width, height)];
      Draw(sourceId, BloomPrefilterId, if bloom.fadeFireflies then BloomPrefilterFireflies else BloomPrefilter);
    }

    /** The downsampling loop; `i` ends as the number of levels built. */
    method BuildPyramid(bloom: BloomSettings, w0: nat, h0: nat) returns (i: nat, fromId: int, toId: int)
      requires ValidBloomSettings(bloom) && !BloomSkipped(bloom, w0, h0)
      modifies this`buffer
      ensures i == PyramidDepth(bloom, w0, h0)
      ensures fromId == LevelTo(i - 1) && toId == LevelTo(i)
      ensures buffer == old(buffer) + DownCommands(i, w0, h0)
    {
      ghost var n := PyramidDepth(bloom, w0, h0);
      var width, height := w0 / 2, h0 / 2;
      fromId, toId := BloomPrefilterId, BloomPyramidId + 1;
      i := 0;
      while i < bloom.maxIterations
        invariant i <= n == Depth(bloom, w0, h0, i)
        invariant width == Half(w0, i + 1) && height == Half(h0, i + 1)
        invariant fromId == DownFrom(i) && toId == LevelTo(i)
        invariant buffer == old(buffer) + DownCommands(i, w0, h0)
      {
        if height < bloom.downscaleLimit || width < bloom.downscaleLimit {
          break;
        }
        ghost var before := buffer;
        var midId := toId - 1;
        buffer := buffer + [Acquire(midId, width, height)];
        buffer := buffer + [Acquire(toId, width, height)];
        Draw(fromId, midId, BloomHorizontal);
        Draw(midId, toId, BloomVertical);
        assert buffer == before + DownLevel(i, w0, h0);
        Assoc(old(buffer), DownCommands(i, w0, h0), DownLevel(i, w0, h0));
        fromId := toId;
        toId := toId + 2;
        width := width / 2;
        height := height / 2;
        i := i + 1;
      }
      PyramidDepthBounds(bloom, w0, h0);
    }

    /** Releasing the prefilter and setting the intensities; returns the passes and the final
        intensity of the bloom mode. */
    method SetBloomIntensity(bloom: BloomSettings) returns (combinePass: Pass, finalPass: Pass, finalIntensity: real)
      modifies this`buffer
      ensures buffer == old(buffer) + BloomMiddle(bloom)
      ensures combinePass == CombinePass(bloom.mode) && finalPass == FinalBloomPass(bloom.mode)
      ensures finalIntensity == FinalIntensity(bloom)
    {
      buffer := buffer + [Release(BloomPrefilterId)];
      buffer := buffer + [SetFloat("_BloomBicubicUpsampling", if bloom.bicubicUpsampling then 1.0 else 0.0)];
      buffer := buffer + [SetFloat("_BloomIntensity", 1.0)];
      if bloom.mode == Additive {
        combinePass, finalPass := BloomAdd, BloomAdd;
        buffer := buffer + [SetFloat("_BloomIntensity", 1.0)];
        finalIntensity := bloom.intensity;
      } else {
        combinePass, finalPass := BloomScatter, BloomScatterFinal;
        buffer := buffer + [SetFloat("_BloomIntensity", bloom.scatter)];
        finalIntensity := if bloom.intensity < 0.95 then bloom.intensity else 0.95;
      }
    }

    /** The upsampling loop over a pyramid of `n` > 1 levels; returns the combined target. */
    method CombinePyramid(n: nat, fromId0: int, toId0: int, combinePass: Pass) returns (fromId: int)
      requires 1 < n && fromId0 == LevelTo(n - 1) && toId0 == LevelTo(n)
      modifies this`buffer
      ensures buffer == old(buffer) + BloomTeardown(n, combinePass)
      ensures fromId == UpFrom(n, 0)
    {
      fromId := fromId0;
      buffer := buffer + [Release(fromId - 1)];
      var toId := toId0 - 5;
      var i := n - 1;
      while i > 0
        invariant i < n
        invariant fromId == UpFrom(n, i) && toId == BloomPyramidId + 2 * i - 2
        invariant buffer == old(buffer) + [Release(LevelMid(n - 1))] + UpCommands(n, i, combinePass)
      {
        ghost var before := buffer;
        buffer := buffer + [SetTexture("_PostFXSource2", toId + 1)];
        Draw(fromId, toId, combinePass);
        buffer := buffer + [Release(fromId)];
        buffer := buffer + [Release(toId + 1)];
        assert buffer == before + UpStep(n, i, combinePass);
        Assoc(old(buffer) + [Release(LevelMid(n - 1))], UpCommands(n, i, combinePass), UpStep(n, i, combinePass));
        fromId := toId;
        toId := toId - 2;
        i := i - 1;
      }
      Assoc(old(buffer), [Release(LevelMid(n - 1))], UpCommands(n, 0, combinePass));
    }

    /** The final combine into the buffer-sized bloom result. */
    method FinishBloom(sourceId: int, fromId: int, finalPass: Pass, finalIntensity: real)
      modifies this`buffer
      ensures buffer == old(buffer) + [SetFloat("_BloomIntensity", finalIntensity), SetTexture("_PostFXSource2", sourceId),
        Acquire(BloomResultId, bufferSize.x, bufferSize.y), Commands.Draw(fromId, BloomResultId, finalPass.Ordinal()),
        Release(fromId)]
    {
      buffer := buffer + [SetFloat("_BloomIntensity", finalIntensity)];
      buffer := buffer + [SetTexture("_PostFXSource2", sourceId)];
      buffer := buffer + [Acquire(BloomResultId, bufferSize.x, bufferSize.y)];
      Draw(fromId, BloomResultId, finalPass);
      buffer := buffer + [Release(fromId)];
    }

    /** Colour grading into a lookup table, optional FXAA, and the final draw, rescaling through
        an intermediate target when the buffer does not have the camera's width. */
    method DoFinal(sourceId: int)
      requires IsActive()
      modifies this`buffer
      ensures buffer == old(buffer) + FinalCommands(CurrentFrame(), settings.value.toneMapping, sourceId)
    {
      ghost var f := CurrentFrame();
      ghost var mode := settings.value.toneMapping;
      buffer := buffer + ColorGradingCommands;
      ghost var graded := buffer;
      RenderLUT(sourceId);
      ghost var lut := buffer;
      if fxaa.enabled {
        ConfigureFXAA();
        buffer := buffer + [Acquire(ColorGradingResultId, bufferSize.x, bufferSize.y)];
        Draw(sourceId, ColorGradingResultId, if keepAlpha then ApplyColorGrading else ApplyColorGradingWithLuma);
        Assoc(lut, FXAAConfigCommands(fxaa.quality), [Acquire(ColorGradingResultId, bufferSize.x, bufferSize.y),
          Commands.Draw(sourceId, ColorGradingResultId, ApplyPass(keepAlpha).Ordinal())]);
      }
      assert buffer == lut + PrepareCommands(f, sourceId);
      ghost var prepared := buffer;
      if bufferSize.x == camera.pixelWidth {
        DrawDirect(sourceId);
      } else {
        DrawRescaled(sourceId);
      }
      assert buffer == prepared + OutputCommands(f, sourceId);
      buffer := buffer + [Release(ColorGradingLUTId)];
      Regroup(old(buffer), ColorGradingCommands, LUTCommands(f, sourceId, mode), PrepareCommands(f, sourceId),
              OutputCommands(f, sourceId), [Release(ColorGradingLUTId)]);
    }

    /** The lookup table: its target, its parameters and the grading pass of the tone-mapping mode. */
    method RenderLUT(sourceId: int)
      requires IsActive()
      modifies this`buffer
      ensures buffer == old(buffer) + LUTCommands(CurrentFrame(), sourceId, settings.value.toneMapping)
    {
      var lutHeight := colorLUTResolution;
      var lutWidth := lutHeight * lutHeight;
      buffer := buffer + [Acquire(ColorGradingLUTId, lutWidth, lutHeight)];
      buffer := buffer + [SetVector("_ColorGradingLUTParameters")];
      var mode := settings.value.toneMapping;
      var pass := GradingPass(mode);
      buffer := buffer + [SetFloat("_ColorGradingLUTInLogC", if useHDR && pass != ColorGradingNone then 1.0 else 0.0)];
      Draw(sourceId, ColorGradingLUTId, pass);
      buffer := buffer + [SetVector("_ColorGradingLUTParameters")];
      buffer := buffer + [SetFloat("_FinalSrcBlend", 1.0)];
      buffer := buffer + [SetFloat("_FinalDstBlend", 0.0)];
    }

    /** The path for a buffer of the camera's width: straight to the camera target. */
    method DrawDirect(sourceId: int)
      modifies this`buffer
      ensures buffer == old(buffer) + DirectOutput(CurrentFrame(), sourceId)
    {
      if fxaa.enabled {
        DrawFinal(ColorGradingResultId, if keepAlpha then FXAAPass else FXAAWithLuma);
        buffer := buffer + [Release(ColorGradingResultId)];
      } else {
        DrawFinal(sourceId, ApplyColorGrading);
      }
    }

    /** The path for a buffer narrower or wider than the camera: grade (or FXAA) into a
        buffer-sized target, then draw it to the camera with the rescaling pass. */
    method DrawRescaled(sourceId: int)
      requires bufferSize.x != camera.pixelWidth
      modifies this`buffer
      ensures buffer == old(buffer) + RescaledOutput(CurrentFrame(), sourceId)
    {
      ghost var f := CurrentFrame();
      buffer := buffer + [Acquire(FinalResultId, bufferSize.x, bufferSize.y)];
      ghost var acquired := buffer;
      if fxaa.enabled {
        Draw(ColorGradingResultId, FinalResultId, if keepAlpha then FXAAPass else FXAAWithLuma);
        buffer := buffer + [Release(ColorGradingResultId)];
      } else {
        Draw(sourceId, FinalResultId, ApplyColorGrading);
      }
      assert buffer == acquired + RescaleDraw(f, sourceId);
      var bicubicSampling := bicubicRescaling == UpAndDown
        || (bicubicRescaling == UpOnly && bufferSize.x < camera.pixelWidth);
      buffer := buffer + [SetFloat("_CopyBicubic", if bicubicSampling then 1.0 else 0.0)];
      assert buffer == old(buffer) + RescalePrelude(f, sourceId);
      DrawFinal(FinalResultId, FinalRescale);
      buffer := buffer + [Release(FinalResultId)];
      Regroup4(old(buffer), RescalePrelude(f, sourceId), DrawFinalCommands(f, FinalResultId, FinalRescale),
               [Release(FinalResultId)]);
    }

    method ConfigureFXAA()
      modifies this`buffer
      ensures buffer == old(buffer) + FXAAConfigCommands(fxaa.quality)
    {
      if fxaa.quality == Low {
        buffer := buffer + [EnableKeyword("FXAA_QUALITY_LOW"), DisableKeyword("FXAA_QUALITY_MEDIUM")];
      } else if fxaa.quality == Medium {
        buffer := buffer + [DisableKeyword("FXAA_QUALITY_LOW"), EnableKeyword("FXAA_QUALITY_MEDIUM")];
      } else {
        buffer := buffer + [DisableKeyword("FXAA_QUALITY_LOW"), DisableKeyword("FXAA_QUALITY_MEDIUM")];
      }
      buffer := buffer + [SetVector("_FXAAConfig")];
      FXAAQualityRule(fxaa.quality);
    }
  }
}
