/** What the pipeline reads from the engine each frame: the camera, the culled lights and
    the answers of the culling service. Colours, directions and positions are kept as
    plain vectors; the pipeline only moves them into its light arrays. */
module Engine {

  datatype Option<T> = None | Some(value: T)

  datatype Vec3 = Vec3(x: real, y: real, z: real)

  datatype Color = Color(r: real, g: real, b: real, a: real)

  /** UnityEngine.LightType, in the engine's order. */
  datatype LightType = Spot | Directional | Point | Area

  datatype LightShadows = NoShadows | HardShadows | SoftShadows

  datatype LightmapBakeType = Realtime | Baked | Mixed

  datatype MixedLightingMode = IndirectOnly | Shadowmask | Subtractive

  /** The fields of a scene light that the pipeline reads. */
  datatype Light = Light(
    lightType: LightType,
    shadows: LightShadows,
    shadowStrength: real,
    shadowBias: real,
    shadowNormalBias: real,
    shadowNearPlane: real,
    bakeType: LightmapBakeType,
    mixedMode: MixedLightingMode,
    occlusionMaskChannel: int,
    renderingLayerMask: bv32)

  /** A culled light. `innerCos` and `outerCos` are the engine's cosines of half the inner
      and outer spot angles; the trigonometry itself is not modelled. */
  datatype VisibleLight = VisibleLight(
    light: Light,
    finalColor: Color,
    forward: Vec3,        // third column of localToWorldMatrix
    position: Vec3,       // fourth column of localToWorldMatrix
    range: real,
    innerCos: real,
    outerCos: real)

  /** The culling service's answers for one camera. */
  datatype CullingResults = CullingResults(
    visibleLights: seq<VisibleLight>,
    shadowCasterBounds: set<nat>,   // visible indices for which GetShadowCasterBounds succeeds
    lightIndexMapLength: nat)       // length of the array GetLightIndexMap hands out

  /** The engine hands out a light index map with room for every visible light. */
  predicate WellFormedCulling(c: CullingResults) {
    c.lightIndexMapLength >= |c.visibleLights|
  }

  /** UnityEngine.CameraType; `Code` is the flag value the engine compares. */
  datatype CameraType = Game | SceneView | Preview | VR | Reflection {
    function Code(): int {
      match this
      case Game => 1
      case SceneView => 2
      case Preview => 4
      case Reflection => 8
      case VR => 256
    }
  }

  /** UnityEngine.CameraClearFlags; `Code` is the engine's enum value. */
  datatype CameraClearFlags = Skybox | SolidColor | DepthOnly | Nothing {
    function Code(): int {
      match this
      case Skybox => 1
      case SolidColor => 2
      case DepthOnly => 3
      case Nothing => 4
    }
  }

  datatype Camera = Camera(
    cameraType: CameraType,
    pixelWidth: nat,
    pixelHeight: nat,
    fullViewRect: bool,             // camera.rect == (0, 0, 1, 1)
    allowHDR: bool,
    clearFlags: CameraClearFlags,
    farClipPlane: real,
    hasCullingParameters: bool)     // TryGetCullingParameters succeeds

  /** UnityEngine.Rendering.BlendMode, in the engine's order. */
  datatype BlendMode =
    | Zero | One | DstColor | SrcColor | OneMinusDstColor | SrcAlpha
    | OneMinusSrcColor | DstAlpha | OneMinusDstAlpha | SrcAlphaSaturate | OneMinusSrcAlpha
  {
    /** The enum value, as the shader receives it. */
    function Code(): nat {
      match this
      case Zero => 0
      case One => 1
      case DstColor => 2
      case SrcColor => 3
      case OneMinusDstColor => 4
      case SrcAlpha => 5
      case OneMinusSrcColor => 6
      case DstAlpha => 7
      case OneMinusDstAlpha => 8
      case SrcAlphaSaturate => 9
      case OneMinusSrcAlpha => 10
    }
  }

  /** The Vector2Int size of the camera's intermediate buffer; it is never negative. */
  datatype BufferSize = BufferSize(x: nat, y: nat)

  /** QualitySettings.shadowmaskMode. */
  datatype ShadowmaskMode = ShadowmaskAlways | DistanceShadowmask
}
