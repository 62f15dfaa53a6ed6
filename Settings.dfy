/** Configuration records that feed the core: shadow settings, post-FX settings and the
    camera buffer settings of the pipeline asset. They hold data only. */
module Settings {

  /** ShadowSettings.MapSize: powers of two from 256 to 8192. */
  datatype MapSize = Map256 | Map512 | Map1024 | Map2048 | Map4096 | Map8192 {
    function Pixels(): (p: nat)
      ensures 256 <= p <= 8192 && p % 16 == 0
    {
      match this
      case Map256 => 256
      case Map512 => 512
      case Map1024 => 1024
      case Map2048 => 2048
      case Map4096 => 4096
      case Map8192 => 8192
    }
  }

  /** ShadowSettings.FilterMode; `Index` is the enum value. */
  datatype ShadowFilter = PCF2x2 | PCF3x3 | PCF5x5 | PCF7x7 {
    function Index(): int {
      match this
      case PCF2x2 => 0
      case PCF3x3 => 1
      case PCF5x5 => 2
      case PCF7x7 => 3
    }
  }

  datatype CascadeBlendMode = HardBlend | SoftBlend | DitherBlend {
    function Index(): int {
      match this
      case HardBlend => 0
      case SoftBlend => 1
      case DitherBlend => 2
    }
  }

  datatype DirectionalShadowSettings = DirectionalShadowSettings(
    atlasSize: MapSize,
    filter: ShadowFilter,
    cascadeCount: int,
    cascadeBlend: CascadeBlendMode)

  datatype OtherShadowSettings = OtherShadowSettings(atlasSize: MapSize, filter: ShadowFilter)

  datatype ShadowSettings = ShadowSettings(
    maxDistance: real,
    distanceFade: real,
    directional: DirectionalShadowSettings,
    other: OtherShadowSettings)

  /** The field initialisers of ShadowSettings. */
  function DefaultShadowSettings(): (s: ShadowSettings)
    ensures s.directional.cascadeCount == 4 && s.directional.atlasSize == Map1024
  {
    ShadowSettings(100.0, 0.1,
      DirectionalShadowSettings(Map1024, PCF2x2, 4, HardBlend),
      OtherShadowSettings(Map1024, PCF2x2))
  }

  /** The cascade count is edited on the range 1 to 4. */
  predicate ValidShadowSettings(s: ShadowSettings) {
    1 <= s.directional.cascadeCount <= 4
  }

  datatype BloomMode = Additive | Scattering

  datatype BloomSettings = BloomSettings(
    ignoreRenderScale: bool,
    maxIterations: int,
    downscaleLimit: int,
    bicubicUpsampling: bool,
    intensity: real,
    fadeFireflies: bool,
    mode: BloomMode,
    scatter: real)

  /** The bloom iteration count is edited on the range 0 to 16. */
  predicate ValidBloomSettings(b: BloomSettings) {
    0 <= b.maxIterations <= 16
  }

  /** ToneMappingSettings.Mode; `Index` is the enum value. */
  datatype ToneMappingMode = NoToneMapping | ACES | Neutral | Reinhard {
    function Index(): nat {
      match this
      case NoToneMapping => 0
      case ACES => 1
      case Neutral => 2
      case Reinhard => 3
    }
  }

  /** The part of PostFXSettings the compositor branches on. */
  datatype PostFXSettings = PostFXSettings(bloom: BloomSettings, toneMapping: ToneMappingMode)

  datatype BicubicRescalingMode = RescaleOff | UpOnly | UpAndDown

  /** FXAA.Quality; `Index` is the enum value. */
  datatype FXAAQuality = Low | Medium | High {
    function Index(): nat {
      match this
      case Low => 0
      case Medium => 1
      case High => 2
    }
  }

  datatype FXAA = FXAA(enabled: bool, quality: FXAAQuality)

  datatype CameraBufferSettings = CameraBufferSettings(
    allowHDR: bool,
    copyColor: bool,
    copyColorReflection: bool,
    copyDepth: bool,
    copyDepthReflection: bool,
    renderScale: real,
    bicubicRescaling: BicubicRescalingMode,
    fxaa: FXAA)
}
