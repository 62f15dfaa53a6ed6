/** Per-camera settings (the CameraSettings component) and the render-scale policy. */
module CameraConfig {
  import opened Engine
  import opened Settings

  datatype RenderScaleMode = Inherit | Multiply | Override

  datatype FinalBlendMode = FinalBlendMode(source: BlendMode, destination: BlendMode)

  datatype CameraSettings = CameraSettings(
    copyColor: bool,
    copyDepth: bool,
    renderingLayerMask: bv32,
    maskLights: bool,
    renderScaleMode: RenderScaleMode,
    renderScale: real,
    overridePostFX: bool,
    postFXSettings: Option<PostFXSettings>,
    allowFXAA: bool,
    keepAlpha: bool,
    finalBlendMode: FinalBlendMode)

  /** The field initialisers of CameraSettings: the settings of a camera without the component.
      A rendering-layer mask of -1 is all 32 bits set. */
  function DefaultCameraSettings(): (s: CameraSettings)
    ensures s.renderScaleMode == Inherit && s.renderScale == 1.0
    ensures s.copyColor && s.copyDepth && !s.maskLights && !s.overridePostFX
    ensures s.renderingLayerMask == 0xFFFF_FFFF
    ensures !s.allowFXAA && !s.keepAlpha && s.postFXSettings.None?
    ensures s.finalBlendMode == FinalBlendMode(One, Zero)
  {
    CameraSettings(
      copyColor := true,
      copyDepth := true,
      renderingLayerMask := 0xFFFF_FFFF,
      maskLights := false,
      renderScaleMode := Inherit,
      renderScale := 1.0,
      overridePostFX := false,
      postFXSettings := None,
      allowFXAA := false,
      keepAlpha := false,
      finalBlendMode := FinalBlendMode(One, Zero))
  }

  /** The camera's render scale given the pipeline's: inherited, overridden or multiplied. */
  function GetRenderScale(s: CameraSettings, scale: real): (r: real)
  {
    if s.renderScaleMode == Inherit then scale
    else if s.renderScaleMode == Override then s.renderScale
    else scale * s.renderScale
  }

  /** Per mode: Inherit passes the pipeline's scale through, Override ignores it (two pipeline
      scales give the camera's own), and Multiply scales it by the camera's, keeping it at 1. */
  lemma RenderScaleModes(s: CameraSettings, scale: real, otherScale: real)
    ensures s.renderScaleMode == Inherit ==> GetRenderScale(s, scale) == scale
    ensures s.renderScaleMode == Override ==>
      GetRenderScale(s, scale) == GetRenderScale(s, otherScale) == s.renderScale
    ensures s.renderScaleMode == Multiply ==>
      && GetRenderScale(s, scale) == scale * s.renderScale
      && (s.renderScale == 1.0 ==> GetRenderScale(s, scale) == scale)
  {
  }

  /** A camera without the component keeps the pipeline's render scale. */
  lemma DefaultIsIdentity(scale: real)
    ensures GetRenderScale(DefaultCameraSettings(), scale) == scale
  {
  }

  /** With camera and pipeline scales in [0.1, 2], the result lies in [0.01, 4]; in every mode the
      result is one of the scale, the camera's scale or their product. */
  lemma RenderScaleRange(s: CameraSettings, scale: real)
    requires 0.1 <= scale <= 2.0 && 0.1 <= s.renderScale <= 2.0
    ensures 0.01 <= GetRenderScale(s, scale) <= 4.0
    ensures var r := GetRenderScale(s, scale);
      r == scale || r == s.renderScale || r == scale * s.renderScale
  {
    if s.renderScaleMode == Multiply {
      assert 0.01 <= scale * s.renderScale by {
        assert scale * s.renderScale >= 0.1 * s.renderScale;
      }
      assert scale * s.renderScale <= 4.0 by {
        assert scale * s.renderScale <= 2.0 * s.renderScale;
      }
    }
  }
}
