/** The per-camera renderer: it takes the decisions of CameraFrames for one camera, records
    them into its command buffer and wires lighting and post-processing into the frame. */
module CameraRendering {
  import opened Commands
  import opened Engine
  import opened Settings
  import opened CameraConfig
  import ShadowAtlas
  import LightSetup
  import PostFX
  import opened CameraFrames

  class CameraRender {
    const lighting: LightSetup.Lighting
    const postFXStack: PostFX.PostFXStack
    /** SystemInfo.copyTextureSupport > None, fixed for the process. */
    const copyTextureSupported: bool
    var camera: Camera
    var useHDR: bool
    var useScaledRendering: bool
    var useColorTexture: bool
    var useDepthTexture: bool
    var useIntermediateBuffer: bool
    var bufferSize: BufferSize
    /** Everything recorded into the "Render Camera" buffer and drawn by the context, in order. */
    var buffer: seq<Command>

    ghost predicate Valid()
      reads lighting.shadows`settings, lighting.shadows`shadowedDirectionalLightCount
      reads lighting.shadows`shadowedOtherLightCount, lighting.shadows`otherReserved
      reads lighting.shadows.directionalLights, lighting.shadows.otherLights
    {
      lighting.Layout() && lighting.shadows.Valid()
    }

    /** The decisions of the frame being recorded. */
    function CurrentFrame(finalBlendMode: FinalBlendMode): CameraFrame
      reads this`camera, this`bufferSize, this`useScaledRendering, this`useColorTexture, this`useDepthTexture
      reads postFXStack`settings
    {
      CameraFrame(camera, bufferSize, useScaledRendering, useColorTexture, useDepthTexture,
                  postFXStack.IsActive(), finalBlendMode, copyTextureSupported)
    }

    /** The four command logs a frame records into. */
    function CurrentLogs(): Logs
      reads this`buffer, postFXStack`buffer, lighting`buffer, lighting.shadows`buffer
    {
      Logs(buffer, postFXStack.buffer, lighting.buffer, lighting.shadows.buffer)
    }

    /** The camera and the decisions Render takes before culling. */
    ghost predicate TargetsChosen(i: FrameInputs)
      reads this`camera, this`useScaledRendering, this`useColorTexture, this`useDepthTexture
    {
      && camera == i.camera
      && useScaledRendering == UseScaledRendering(i.renderScale)
      && useColorTexture == UseColorTexture(i.camera.cameraType, i.bufferSettings, i.settings)
      && useDepthTexture == UseDepthTexture(i.camera.cameraType, i.bufferSettings, i.settings)
    }

    /** The HDR decision and the buffer size of a culled frame. */
    ghost predicate TargetsSized(i: FrameInputs)
      reads this`useHDR, this`bufferSize
    {
      && useHDR == (i.bufferSettings.allowHDR && i.camera.allowHDR)
      && bufferSize == BufferSizeFor(i.camera, i.renderScale)
    }

    /** The post-FX stack set up for the frame. */
    ghost predicate EffectsSetUp(i: FrameInputs)
      reads postFXStack`settings, postFXStack`camera, postFXStack`bufferSize, postFXStack`keepAlpha
      reads postFXStack`useHDR, postFXStack`colorLUTResolution, postFXStack`finalBlendMode
      reads postFXStack`bicubicRescaling, postFXStack`fxaa
    {
      postFXStack.settings == EffectsFor(i) && postFXStack.CurrentFrame() == EffectsFrameFor(i)
    }

    /** The lights collected through the camera's light mask, with their shadow reservations. */
    ghost predicate LightsSetUp(i: FrameInputs)
      reads lighting`cullingResults, lighting.shadows`settings, lighting.shadows`shadowedDirectionalLightCount
      reads lighting.shadows`otherReserved, lighting.shadows`useShadowMask, lighting.shadows.directionalLights
    {
      && lighting.cullingResults == i.cullingResults && lighting.shadows.settings == i.shadowSettings
      && lighting.shadows.shadowedDirectionalLightCount <= lighting.shadows.directionalLights.Length
      && lighting.shadows.State() == LightsOf(i).shadows
    }

    /** The state a culled frame settles on before anything is drawn. */
    ghost predicate FrameSettled(i: FrameInputs)
      reads this`camera, this`useScaledRendering, this`useColorTexture, this`useDepthTexture
      reads this`useHDR, this`bufferSize
      reads postFXStack`settings, postFXStack`camera, postFXStack`bufferSize, postFXStack`keepAlpha
      reads postFXStack`useHDR, postFXStack`colorLUTResolution, postFXStack`finalBlendMode
      reads postFXStack`bicubicRescaling, postFXStack`fxaa
      reads lighting`cullingResults, lighting.shadows`settings, lighting.shadows`shadowedDirectionalLightCount
      reads lighting.shadows`otherReserved, lighting.shadows`useShadowMask, lighting.shadows.directionalLights
    {
      TargetsChosen(i) && TargetsSized(i) && EffectsSetUp(i) && LightsSetUp(i)
    }

    /** What a culled frame leaves behind, from the logs `before` it: its intermediate-buffer
        decision and the four logs, as functions of the frame's inputs alone. */
    ghost predicate FrameRecorded(before: Logs, i: FrameInputs)
      reads this`useIntermediateBuffer, this`buffer, postFXStack`buffer, lighting`buffer, lighting.shadows`buffer
    {
      LogsRecorded(CurrentLogs(), useIntermediateBuffer, before, i, copyTextureSupported)
    }

    constructor(copyTextureSupported: bool)
      ensures Valid() && buffer == [] && this.copyTextureSupported == copyTextureSupported
      ensures !postFXStack.IsActive() && postFXStack.buffer == [] && lighting.buffer == [] && lighting.shadows.buffer == []
    {
      lighting := new LightSetup.Lighting();
      postFXStack := new PostFX.PostFXStack();
      this.copyTextureSupported := copyTextureSupported;
      camera := Camera(Game, 0, 0, true, false, Skybox, 0.0, false);
      useHDR := false;
      useScaledRendering := false;
      useColorTexture := false;
      useDepthTexture := false;
      useIntermediateBuffer := false;
      bufferSize := BufferSize(0, 0);
      buffer := [];
    }

    /** Render one camera. `component` is the camera's CustomRenderPipelineCamera settings, if
        it has the component; `cullingResults` is what the culling service returns, and
        `shadowmaskMode` and `showImageEffects` are the quality and editor state. */
    method Render(camera: Camera, bufferSettings: CameraBufferSettings, component: Option<CameraSettings>,
                  useLightsPerObject: bool, shadowSettings: ShadowSettings, postFXSettings: Option<PostFXSettings>,
                  colorLUTResolution: nat, cullingResults: CullingResults, shadowmaskMode: ShadowmaskMode,
                  showImageEffects: bool)
      requires Valid() && ValidShadowSettings(shadowSettings)
      requires useLightsPerObject ==> WellFormedCulling(cullingResults)
      requires ValidPostFX(PostFXSettingsFor(SettingsOf(component), postFXSettings))
      modifies this`camera, this`useHDR, this`useScaledRendering, this`useColorTexture, this`useDepthTexture
      modifies this`useIntermediateBuffer, this`bufferSize, this`buffer
      modifies lighting, lighting.dirLightSlots, lighting.otherLightSlots
      modifies lighting.shadows, lighting.shadows.directionalLights, lighting.shadows.otherLights, postFXStack
      ensures Valid()
      ensures var i := InputsFor(camera, bufferSettings, component, postFXSettings, colorLUTResolution,
                                 cullingResults, shadowSettings, shadowmaskMode, showImageEffects);
        camera.hasCullingParameters ==> FrameRecorded(old(CurrentLogs()), i)
      ensures !camera.hasCullingParameters ==> CurrentLogs() == old(CurrentLogs())
    {
      ghost var before := CurrentLogs();
      var c, fxSettings, renderScale := ChooseTargets(camera, bufferSettings, component, postFXSettings);
      var i := FrameInputs(camera, bufferSettings, c, fxSettings, renderScale, colorLUTResolution,
                           cullingResults, shadowSettings, shadowmaskMode, showImageEffects);
      assert i == InputsFor(camera, bufferSettings, component, postFXSettings, colorLUTResolution,
                            cullingResults, shadowSettings, shadowmaskMode, showImageEffects);
      assert TargetsChosen(i);
      var culled, _ := Cull(shadowSettings.maxDistance);
      if !culled {
        return;
      }
      RenderCulled(i, useLightsPerObject, before);
    }

    /** The first part of Render: the camera's settings, its copies, its post-FX settings and
        whether it renders at a scaled size. */
    method ChooseTargets(camera: Camera, bufferSettings: CameraBufferSettings, component: Option<CameraSettings>,
                         postFXSettings: Option<PostFXSettings>)
      returns (c: CameraSettings, fxSettings: Option<PostFXSettings>, renderScale: real)
      modifies this`camera, this`useColorTexture, this`useDepthTexture, this`useScaledRendering
      ensures c == SettingsOf(component) && fxSettings == PostFXSettingsFor(c, postFXSettings)
      ensures renderScale == RenderScaleFor(c, bufferSettings)
      ensures this.camera == camera
      ensures useColorTexture == UseColorTexture(camera.cameraType, bufferSettings, c)
      ensures useDepthTexture == UseDepthTexture(camera.cameraType, bufferSettings, c)
      ensures useScaledRendering == UseScaledRendering(renderScale)
    {
      this.camera := camera;
      c := if component.Some? then component.value else DefaultCameraSettings();
      if camera.cameraType == Reflection {
        useColorTexture := bufferSettings.copyColorReflection;
        useDepthTexture := bufferSettings.copyDepthReflection;
      } else {
        useColorTexture := bufferSettings.copyColor && c.copyColor;
        useDepthTexture := bufferSettings.copyDepth && c.copyDepth;
      }
      fxSettings := postFXSettings;
      if c.overridePostFX {
        fxSettings := c.postFXSettings;
      }
      renderScale := GetRenderScale(c, bufferSettings.renderScale);
      useScaledRendering := renderScale < 0.99 || renderScale > 1.01;
    }

    /** TryGetCullingParameters, with the shadow distance the culling parameters then carry. */
    method Cull(maxShadowDistance: real) returns (culled: bool, shadowDistance: real)
      ensures culled <==> camera.hasCullingParameters
      ensures culled ==> shadowDistance == ShadowDistance(maxShadowDistance, camera.farClipPlane)
    {
      if camera.hasCullingParameters {
        shadowDistance := if maxShadowDistance < camera.farClipPlane then maxShadowDistance else camera.farClipPlane;
        return true, shadowDistance;
      }
      return false, 0.0;
    }

    /** The rest of Render once culling has succeeded. */
    method RenderCulled(i: FrameInputs, useLightsPerObject: bool, ghost before: Logs)
      requires before == CurrentLogs() && Valid() && TargetsChosen(i) && ValidShadowSettings(i.shadowSettings) && ValidPostFX(i.postFXSettings)
      requires useLightsPerObject ==> WellFormedCulling(i.cullingResults)
      modifies this`useHDR, this`useIntermediateBuffer, this`bufferSize, this`buffer
      modifies lighting, lighting.dirLightSlots, lighting.otherLightSlots
      modifies lighting.shadows, lighting.shadows.directionalLights, lighting.shadows.otherLights, postFXStack
      ensures Valid() && FrameRecorded(before, i)
    {
      PostFX.ActiveSettingsRule(i.camera.cameraType, i.postFXSettings, i.showImageEffects);
      PrepareFrame(i, useLightsPerObject);
      FinishFrame(i, before);
    }

    /** The frame once prepared: RecordFrame, with the logs the preparation left. */
    method FinishFrame(i: FrameInputs, ghost before: Logs)
      requires Valid() && FrameSettled(i)
      requires ValidShadowSettings(i.shadowSettings) && ValidPostFX(EffectsFor(i))
      requires buffer == before.camera + [SetVector("_CameraBufferSize")] && postFXStack.buffer == before.postFX
      requires var lights := LightsOf(i);
        && lighting.buffer == before.lights + LightSetup.UploadCommands(|lights.dir|, |lights.other|)
        && lighting.shadows.buffer == before.shadows + ShadowAtlas.RenderCommands(lights.shadows, i.shadowSettings, i.shadowmaskMode)
      modifies this`useIntermediateBuffer, this`buffer, postFXStack`buffer, lighting.shadows`buffer
      ensures Valid() && FrameRecorded(before, i)
    {
      ghost var p := FrameFor(i, copyTextureSupported);
      ghost var reserved := LightsOf(i).shadows;
      assert p == CurrentFrame(i.settings.finalBlendMode);
      assert reserved == lighting.shadows.State();
      RecordFrame(i.settings.finalBlendMode, p, EffectsFrameFor(i), EffectsFor(i), reserved);
      Assoc(before.camera, [SetVector("_CameraBufferSize")], SetupOnCommands(p));
      ghost var expected := RecordedLogs(before, i, copyTextureSupported);
      assert buffer == expected.camera;
      assert postFXStack.buffer == expected.postFX;
      assert lighting.shadows.buffer == expected.shadows;
    }

    /** Setup, the geometry, the final output and Cleanup, once the frame is prepared: `p` is the
        frame's camera decisions, `effects` and `fx` what the post-FX stack is set up with, and
        `reserved` the shadow reservations, all as they stand when it starts. */
    method RecordFrame(finalBlendMode: FinalBlendMode, ghost p: CameraFrame, ghost effects: PostFX.Frame,
                       ghost fx: Option<PostFXSettings>, ghost reserved: ShadowAtlas.Reservations)
      requires lighting.shadows.Valid() && ValidPostFX(fx)
      requires p == CurrentFrame(finalBlendMode) && effects == postFXStack.CurrentFrame() && fx == postFXStack.settings
      requires lighting.shadows.shadowedDirectionalLightCount <= lighting.shadows.directionalLights.Length
      requires reserved == lighting.shadows.State()
      modifies this`useIntermediateBuffer, this`buffer, postFXStack`buffer, lighting.shadows`buffer
      ensures lighting.shadows.Valid() && useIntermediateBuffer == p.Intermediate()
      ensures buffer == old(buffer) + SetupOnCommands(p)
      ensures postFXStack.buffer == old(postFXStack.buffer) + EffectsLog(effects, fx)
      ensures lighting.shadows.buffer == old(lighting.shadows.buffer) + ShadowAtlas.CleanupCommands(reserved)
    {
      ghost var start := buffer;
      Setup();
      ghost var setup := TargetSetupCommands(p.Intermediate(), p.bufferSize, p.camera.clearFlags);
      assert buffer == start + setup;
      DrawVisibleGeometry();
      ghost var geometry := GeometryCommands(p.useColorTexture, p.useDepthTexture, p.bufferSize, p.copyTextureSupported);
      assert buffer == start + setup + geometry;
      Output(finalBlendMode, p, effects, fx);
      Cleanup();
      assert buffer == start + setup + geometry + OutputCommands(p) + ReleaseFor(p);
      Regroup5(start, setup, geometry, OutputCommands(p), ReleaseFor(p));
    }

    /** The final output: the post-FX chain when active, otherwise the final blit when rendering
        went to the intermediate buffer. */
    method Output(finalBlendMode: FinalBlendMode, ghost p: CameraFrame, ghost effects: PostFX.Frame,
                  ghost fx: Option<PostFXSettings>)
      requires ValidPostFX(fx)
      requires p == CameraFrame(camera, bufferSize, useScaledRendering, useColorTexture, useDepthTexture,
                                fx.Some?, finalBlendMode, copyTextureSupported)
      requires effects == postFXStack.CurrentFrame() && fx == postFXStack.settings
      requires useIntermediateBuffer == p.Intermediate()
      modifies this`buffer, postFXStack`buffer
      ensures buffer == old(buffer) + OutputCommands(p)
      ensures postFXStack.buffer == old(postFXStack.buffer) + EffectsLog(effects, fx)
    {
      if postFXStack.IsActive() {
        postFXStack.Render(ColorAttachmentId);
      } else if useIntermediateBuffer {
        DrawFinal(finalBlendMode);
      }
    }

    /** The buffer size, the lights and the post-FX stack for this frame. */
    method PrepareFrame(i: FrameInputs, useLightsPerObject: bool)
      requires Valid() && TargetsChosen(i) && ValidShadowSettings(i.shadowSettings)
      requires useLightsPerObject ==> WellFormedCulling(i.cullingResults)
      modifies this`useHDR, this`bufferSize, this`buffer
      modifies lighting`cullingResults, lighting`buffer, lighting`lightIndexMap, lighting`lightsPerObject
      modifies lighting.dirLightSlots, lighting.otherLightSlots
      modifies lighting.shadows, lighting.shadows.directionalLights, lighting.shadows.otherLights
      modifies postFXStack`settings, postFXStack`camera, postFXStack`bufferSize, postFXStack`keepAlpha
      modifies postFXStack`useHDR, postFXStack`colorLUTResolution, postFXStack`finalBlendMode
      modifies postFXStack`bicubicRescaling, postFXStack`fxaa
      ensures Valid() && FrameSettled(i)
      ensures buffer == old(buffer) + [SetVector("_CameraBufferSize")]
      ensures var lights := LightsOf(i);
        && lighting.buffer == old(lighting.buffer) + LightSetup.UploadCommands(|lights.dir|, |lights.other|)
        && lighting.shadows.buffer == old(lighting.shadows.buffer)
             + ShadowAtlas.RenderCommands(lights.shadows, i.shadowSettings, i.shadowmaskMode)
    {
      SizeTargets(i);
      SetupLightsAndEffects(i, useLightsPerObject);
    }

    /** Lighting.Setup, then the post-FX stack, once the targets are sized. */
    method SetupLightsAndEffects(i: FrameInputs, useLightsPerObject: bool)
      requires Valid() && camera == i.camera && TargetsSized(i) && ValidShadowSettings(i.shadowSettings)
      requires useLightsPerObject ==> WellFormedCulling(i.cullingResults)
      modifies lighting`cullingResults, lighting`buffer, lighting`lightIndexMap, lighting`lightsPerObject
      modifies lighting.dirLightSlots, lighting.otherLightSlots
      modifies lighting.shadows, lighting.shadows.directionalLights, lighting.shadows.otherLights
      modifies postFXStack`settings, postFXStack`camera, postFXStack`bufferSize, postFXStack`keepAlpha
      modifies postFXStack`useHDR, postFXStack`colorLUTResolution, postFXStack`finalBlendMode
      modifies postFXStack`bicubicRescaling, postFXStack`fxaa
      ensures Valid() && LightsSetUp(i) && EffectsSetUp(i)
      ensures var lights := LightsOf(i);
        && lighting.buffer == old(lighting.buffer) + LightSetup.UploadCommands(|lights.dir|, |lights.other|)
        && lighting.shadows.buffer == old(lighting.shadows.buffer)
             + ShadowAtlas.RenderCommands(lights.shadows, i.shadowSettings, i.shadowmaskMode)
    {
      SetupLights(i, useLightsPerObject);
      SetupEffects(i);
    }

    /** The HDR decision, the buffer size and its upload. */
    method SizeTargets(i: FrameInputs)
      requires Valid() && camera == i.camera
      modifies this`useHDR, this`bufferSize, this`buffer
      ensures Valid() && TargetsSized(i)
      ensures buffer == old(buffer) + [SetVector("_CameraBufferSize")]
    {
      useHDR := i.bufferSettings.allowHDR && camera.allowHDR;
      if i.renderScale < 0.99 || i.renderScale > 1.01 {
        var r := Clamp(i.renderScale, RenderScaleMin, RenderScaleMax);
        bufferSize := BufferSize(Scaled(camera.pixelWidth, r), Scaled(camera.pixelHeight, r));
      } else {
        bufferSize := BufferSize(camera.pixelWidth, camera.pixelHeight);
      }
      buffer := buffer + [SetVector("_CameraBufferSize")];
    }

    /** Lighting.Setup with the camera's light mask. */
    method SetupLights(i: FrameInputs, useLightsPerObject: bool)
      requires Valid() && ValidShadowSettings(i.shadowSettings)
      requires useLightsPerObject ==> WellFormedCulling(i.cullingResults)
      modifies lighting`cullingResults, lighting`buffer, lighting`lightIndexMap, lighting`lightsPerObject
      modifies lighting.dirLightSlots, lighting.otherLightSlots
      modifies lighting.shadows, lighting.shadows.directionalLights, lighting.shadows.otherLights
      ensures Valid() && LightsSetUp(i)
      ensures var lights := LightsOf(i);
        && lighting.buffer == old(lighting.buffer) + LightSetup.UploadCommands(|lights.dir|, |lights.other|)
        && lighting.shadows.buffer == old(lighting.shadows.buffer)
             + ShadowAtlas.RenderCommands(lights.shadows, i.shadowSettings, i.shadowmaskMode)
    {
      lighting.Setup(i.cullingResults, i.shadowSettings, useLightsPerObject,
                     if i.settings.maskLights then i.settings.renderingLayerMask else 0xFFFF_FFFF, i.shadowmaskMode);
    }

    /** PostFXStack.Setup, with FXAA kept only for a camera that allows it. */
    method SetupEffects(i: FrameInputs)
      requires Valid() && camera == i.camera && TargetsSized(i)
      modifies postFXStack`settings, postFXStack`camera, postFXStack`bufferSize, postFXStack`keepAlpha
      modifies postFXStack`useHDR, postFXStack`colorLUTResolution, postFXStack`finalBlendMode
      modifies postFXStack`bicubicRescaling, postFXStack`fxaa
      ensures Valid() && EffectsSetUp(i)
    {
      var fxaa := i.bufferSettings.fxaa.(enabled := i.bufferSettings.fxaa.enabled && i.settings.allowFXAA);
      postFXStack.Setup(camera, bufferSize, i.postFXSettings, i.settings.keepAlpha, useHDR, i.colorLUTResolution,
                        i.settings.finalBlendMode, i.bufferSettings.bicubicRescaling, fxaa, i.showImageEffects);
    }

    /** Setup: decide on the intermediate buffer, acquire and bind its attachments, clear. */
    method Setup()
      modifies this`useIntermediateBuffer, this`buffer
      ensures useIntermediateBuffer
              == UseIntermediateBuffer(useScaledRendering, useColorTexture, useDepthTexture, postFXStack.IsActive())
      ensures buffer == old(buffer) + TargetSetupCommands(useIntermediateBuffer, bufferSize, camera.clearFlags)
    {
      var flags := camera.clearFlags;
      useIntermediateBuffer := useScaledRendering || useColorTexture || useDepthTexture || postFXStack.IsActive();
      if useIntermediateBuffer {
        if flags.Code() > SolidColor.Code() {
          flags := SolidColor;
        }
        buffer := buffer + [Acquire(ColorAttachmentId, bufferSize.x, bufferSize.y),
                            Acquire(DepthAttachmentId, bufferSize.x, bufferSize.y),
                            SetRenderTargets(ColorAttachmentId, DepthAttachmentId, DontCare)];
      }
      var clear := ClearTarget(flags.Code() <= DepthOnly.Code(), flags == SolidColor);
      assert clear == ClearCommand(ClearFlagsFor(camera.clearFlags, useIntermediateBuffer));
      buffer := buffer + [clear, SetTexture("_CameraColorTexture", MissingTextureId),
                          SetTexture("_CameraDepthTexture", MissingTextureId)];
    }

    /** DrawVisibleGeometry: opaque objects, the skybox, the copies when wanted, transparent objects. */
    method DrawVisibleGeometry()
      modifies this`buffer
      ensures buffer == old(buffer) + GeometryCommands(useColorTexture, useDepthTexture, bufferSize, copyTextureSupported)
    {
      buffer := buffer + [DrawGeometry(Opaque), DrawSkybox];
      if useColorTexture || useDepthTexture {
        CopyAttachments();
      }
      buffer := buffer + [DrawGeometry(Transparent)];
    }

    method CopyAttachments()
      modifies this`buffer
      ensures buffer == old(buffer) + CopyCommands(useColorTexture, useDepthTexture, bufferSize, copyTextureSupported)
    {
      if useColorTexture {
        buffer := buffer + [Acquire(ColorTextureId, bufferSize.x, bufferSize.y)];
        if copyTextureSupported {
          buffer := buffer + [CopyTexture(ColorAttachmentId, ColorTextureId)];
        } else {
          Draw(ColorAttachmentId, ColorTextureId, false);
        }
      }
      if useDepthTexture {
        buffer := buffer + [Acquire(DepthTextureId, bufferSize.x, bufferSize.y)];
        if copyTextureSupported {
          buffer := buffer + [CopyTexture(DepthAttachmentId, DepthTextureId)];
        } else {
          Draw(DepthAttachmentId, DepthTextureId, true);
        }
      }
      if !copyTextureSupported {
        buffer := buffer + [SetRenderTargets(ColorAttachmentId, DepthAttachmentId, Load)];
      }
    }

    /** A full-screen copy, with the depth pass for depth. */
    method Draw(from: int, to: int, isDepth: bool)
      modifies this`buffer
      ensures buffer == old(buffer) + [Commands.Draw(from, to, if isDepth then 1 else 0)]
    {
      buffer := buffer + [Commands.Draw(from, to, if isDepth then 1 else 0)];
    }

    /** DrawFinal: blit the colour attachment into the camera target with the camera's blending. */
    method DrawFinal(finalBlendMode: FinalBlendMode)
      modifies this`buffer
      ensures buffer == old(buffer) + FinalBlitCommands(camera, finalBlendMode)
    {
      buffer := buffer + [SetFloat("_CameraSrcBlend", finalBlendMode.source.Code() as real)];
      buffer := buffer + [SetFloat("_CameraDstBlend", finalBlendMode.destination.Code() as real)];
      var load := if finalBlendMode.destination == Zero && camera.fullViewRect then DontCare else Load;
      buffer := buffer + [Commands.DrawFinal(ColorAttachmentId, 0, load)];
      buffer := buffer + [SetFloat("_CameraSrcBlend", 1.0), SetFloat("_CameraDstBlend", 0.0)];
    }

    /** Cleanup: the lights' atlases, then the camera's attachments and copies. */
    method Cleanup()
      requires lighting.shadows.Valid()
      modifies this`buffer, lighting.shadows`buffer
      ensures lighting.shadows.Valid()
      ensures buffer == old(buffer) + ReleaseCommands(useIntermediateBuffer, useColorTexture, useDepthTexture)
      ensures lighting.shadows.buffer == old(lighting.shadows.buffer) + ShadowAtlas.CleanupCommands(lighting.shadows.State())
    {
      lighting.Cleanup();
      if useIntermediateBuffer {
        buffer := buffer + [Release(ColorAttachmentId), Release(DepthAttachmentId)];
        if useColorTexture {
          buffer := buffer + [Release(ColorTextureId)];
        }
        if useDepthTexture {
          buffer := buffer + [Release(DepthTextureId)];
        }
      }
    }
  }
}
