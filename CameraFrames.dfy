/** The per-camera decisions of the renderer and the command logs they determine: which
    intermediate targets a camera gets, how they are set up, copied, blitted to the camera
    and released, and what a culled frame leaves in every log. */
module CameraFrames {
  import opened Commands
  import opened Engine
  import opened Settings
  import opened CameraConfig
  import ShadowAtlas
  import LightSetup
  import PostFX

  /** Shader property IDs of the camera's pooled targets. */
  const ColorAttachmentId: int := 10
  const DepthAttachmentId: int := 11
  const ColorTextureId: int := 12
  const DepthTextureId: int := 13
  /** The 1x1 grey "Missing" texture bound in place of the copies. */
  const MissingTextureId: int := 0

  const RenderScaleMin: real := 0.1
  const RenderScaleMax: real := 2.0

  // ---------------------------------------------------------------------------------------
  // Per-camera decisions

  /** A camera without the CustomRenderPipelineCamera component renders with the defaults. */
  function SettingsOf(component: Option<CameraSettings>): (c: CameraSettings)
    ensures component.None? ==> c == DefaultCameraSettings()
    ensures component.Some? ==> c == component.value
  {
    if component.Some? then component.value else DefaultCameraSettings()
  }

  /** Reflection-probe cameras follow the pipeline's reflection flag; other cameras copy
      only when both the pipeline and the camera ask for it. */
  predicate UseColorTexture(cameraType: CameraType, b: CameraBufferSettings, c: CameraSettings) {
    if cameraType == Reflection then b.copyColorReflection else b.copyColor && c.copyColor
  }

  predicate UseDepthTexture(cameraType: CameraType, b: CameraBufferSettings, c: CameraSettings) {
    if cameraType == Reflection then b.copyDepthReflection else b.copyDepth && c.copyDepth
  }

  /** A camera that overrides post-processing uses its own settings, even when they are null. */
  function PostFXSettingsFor(c: CameraSettings, pipeline: Option<PostFXSettings>): Option<PostFXSettings> {
    if c.overridePostFX then c.postFXSettings else pipeline
  }

  /** Post-FX settings whose bloom iteration count is in the edited range (or no settings). */
  predicate ValidPostFX(s: Option<PostFXSettings>) {
    s.Some? ==> ValidBloomSettings(s.value.bloom)
  }

  /** FXAA stays on only for a camera that allows it; the quality is the pipeline's. */
  function FXAAFor(b: CameraBufferSettings, c: CameraSettings): FXAA {
    b.fxaa.(enabled := b.fxaa.enabled && c.allowFXAA)
  }

  /** Lights are filtered by the camera's rendering-layer mask only when it masks lights;
      otherwise the mask is -1, every bit set. */
  function LightMask(c: CameraSettings): bv32 {
    if c.maskLights then c.renderingLayerMask else 0xFFFF_FFFF
  }

  /** The camera's render scale, from the pipeline's. */
  function RenderScaleFor(c: CameraSettings, b: CameraBufferSettings): real {
    GetRenderScale(c, b.renderScale)
  }

  /** Scales within one percent of 1 render at the camera's own size. */
  predicate UseScaledRendering(scale: real) {
    scale < 0.99 || scale > 1.01
  }

  /** Mathf.Clamp. */
  function Clamp(x: real, lo: real, hi: real): real
    requires lo <= hi
  {
    if x < lo then lo else if x > hi then hi else x
  }

  /** The (int) cast of a non-negative product, which truncates. */
  function Scaled(pixels: nat, scale: real): nat
    requires scale >= 0.0
  {
    var p := pixels as real * scale;
    assert p >= 0.0;
    p.Floor
  }

  /** The size of the camera's intermediate buffer. */
  function BufferSizeFor(camera: Camera, scale: real): BufferSize {
    if UseScaledRendering(scale) then
      var r := Clamp(scale, RenderScaleMin, RenderScaleMax);
      BufferSize(Scaled(camera.pixelWidth, r), Scaled(camera.pixelHeight, r))
    else BufferSize(camera.pixelWidth, camera.pixelHeight)
  }

  /** Mathf.Min(maxShadowDistance, farClipPlane). */
  function ShadowDistance(maxShadowDistance: real, farClipPlane: real): real {
    if maxShadowDistance < farClipPlane then maxShadowDistance else farClipPlane
  }

  predicate UseIntermediateBuffer(scaled: bool, colorTexture: bool, depthTexture: bool, postFXActive: bool) {
    scaled || colorTexture || depthTexture || postFXActive
  }

  /** Rendering into the intermediate buffer lowers every flag above Color to Color. */
  function ClearFlagsFor(flags: CameraClearFlags, intermediate: bool): CameraClearFlags {
    if intermediate && flags.Code() > SolidColor.Code() then SolidColor else flags
  }

  /** ClearRenderTarget: depth up to Depth, colour only for Color. */
  function ClearCommand(flags: CameraClearFlags): Command {
    ClearTarget(flags.Code() <= DepthOnly.Code(), flags == SolidColor)
  }

  // ---------------------------------------------------------------------------------------
  // What the camera records

  /** The decisions one frame of a camera is recorded from. */
  datatype CameraFrame = CameraFrame(
    camera: Camera,
    bufferSize: BufferSize,
    useScaledRendering: bool,
    useColorTexture: bool,
    useDepthTexture: bool,
    postFXActive: bool,
    finalBlendMode: FinalBlendMode,
    copyTextureSupported: bool)
  {
    predicate Intermediate() {
      UseIntermediateBuffer(useScaledRendering, useColorTexture, useDepthTexture, postFXActive)
    }
  }

  /** Setup: the attachments when rendering to the intermediate buffer, the clear, and the
      missing texture bound in place of both copies. */
  function TargetSetupCommands(intermediate: bool, size: BufferSize, flags: CameraClearFlags): seq<Command> {
    (if intermediate then
       [Acquire(ColorAttachmentId, size.x, size.y), Acquire(DepthAttachmentId, size.x, size.y),
        SetRenderTargets(ColorAttachmentId, DepthAttachmentId, DontCare)]
     else [])
    + [ClearCommand(ClearFlagsFor(flags, intermediate)),
       SetTexture("_CameraColorTexture", MissingTextureId),
       SetTexture("_CameraDepthTexture", MissingTextureId)]
  }

  /** One copy: the texture is acquired, then filled by CopyTexture or by a draw. */
  function CopyOne(from: int, to: int, pass: nat, size: BufferSize, supported: bool): seq<Command> {
    [Acquire(to, size.x, size.y), if supported then CopyTexture(from, to) else Draw(from, to, pass)]
  }

  /** CopyAttachments: the drawn copies leave the copy bound, so the attachments are bound
      again (and loaded) on that path. */
  function CopyCommands(color: bool, depth: bool, size: BufferSize, supported: bool): seq<Command> {
    (if color then CopyOne(ColorAttachmentId, ColorTextureId, 0, size, supported) else [])
    + (if depth then CopyOne(DepthAttachmentId, DepthTextureId, 1, size, supported) else [])
    + (if supported then [] else [SetRenderTargets(ColorAttachmentId, DepthAttachmentId, Load)])
  }

  /** DrawVisibleGeometry: opaque objects, the skybox, the copies, then transparent objects. */
  function GeometryCommands(color: bool, depth: bool, size: BufferSize, supported: bool): seq<Command> {
    [DrawGeometry(Opaque), DrawSkybox]
    + (if color || depth then CopyCommands(color, depth, size, supported) else [])
    + [DrawGeometry(Transparent)]
  }

  /** The final blit keeps nothing of the camera target only when it overwrites all of it. */
  function FinalBlitLoad(camera: Camera, blend: FinalBlendMode): LoadAction {
    if blend.destination == Zero && camera.fullViewRect then DontCare else Load
  }

  /** DrawFinal: the camera's blend factors, the draw of the colour attachment into the camera
      target, then the factors reset to One, Zero. */
  function FinalBlitCommands(camera: Camera, blend: FinalBlendMode): seq<Command> {
    [SetFloat("_CameraSrcBlend", blend.source.Code() as real),
     SetFloat("_CameraDstBlend", blend.destination.Code() as real),
     DrawFinal(ColorAttachmentId, 0, FinalBlitLoad(camera, blend)),
     SetFloat("_CameraSrcBlend", 1.0),
     SetFloat("_CameraDstBlend", 0.0)]
  }

  /** Cleanup: the attachments, and each copy that was made, are released. */
  function ReleaseCommands(intermediate: bool, color: bool, depth: bool): seq<Command> {
    if intermediate then
      [Release(ColorAttachmentId), Release(DepthAttachmentId)]
      + (if color then [Release(ColorTextureId)] else [])
      + (if depth then [Release(DepthTextureId)] else [])
    else []
  }

  /** Everything up to the final output: the buffer-size vector, Setup and the geometry. */
  function PreludeCommands(p: CameraFrame): seq<Command> {
    [SetVector("_CameraBufferSize")]
    + TargetSetupCommands(p.Intermediate(), p.bufferSize, p.camera.clearFlags)
    + GeometryCommands(p.useColorTexture, p.useDepthTexture, p.bufferSize, p.copyTextureSupported)
  }

  /** Without post-processing the intermediate buffer is blitted to the camera; a camera that
      renders straight to its target needs nothing. */
  function OutputCommands(p: CameraFrame): seq<Command> {
    if !p.postFXActive && p.Intermediate() then FinalBlitCommands(p.camera, p.finalBlendMode) else []
  }

  function ReleaseFor(p: CameraFrame): seq<Command> {
    ReleaseCommands(p.Intermediate(), p.useColorTexture, p.useDepthTexture)
  }

  /** What the camera records from Setup on. */
  function SetupOnCommands(p: CameraFrame): seq<Command> {
    TargetSetupCommands(p.Intermediate(), p.bufferSize, p.camera.clearFlags)
    + GeometryCommands(p.useColorTexture, p.useDepthTexture, p.bufferSize, p.copyTextureSupported)
    + OutputCommands(p) + ReleaseFor(p)
  }

  /** The camera's own log for one culled frame. */
  function CameraCommands(p: CameraFrame): seq<Command> {
    [SetVector("_CameraBufferSize")] + SetupOnCommands(p)
  }

  lemma CameraCommandsSplit(p: CameraFrame)
    ensures CameraCommands(p) == PreludeCommands(p) + OutputCommands(p) + ReleaseFor(p)
  {
    Regroup5([SetVector("_CameraBufferSize")], TargetSetupCommands(p.Intermediate(), p.bufferSize, p.camera.clearFlags),
             GeometryCommands(p.useColorTexture, p.useDepthTexture, p.bufferSize, p.copyTextureSupported),
             OutputCommands(p), ReleaseFor(p));
  }

  /** The frame as the context receives it: the post-FX log `fx` runs between the geometry
      and the camera's cleanup. */
  function ContextCommands(p: CameraFrame, fx: seq<Command>): seq<Command> {
    PreludeCommands(p) + fx + OutputCommands(p) + ReleaseFor(p)
  }

  /** The targets the camera holds once its geometry is drawn. */
  function Attachments(p: CameraFrame): set<int> {
    (if p.Intermediate() then {ColorAttachmentId, DepthAttachmentId} else {})
    + (if p.useColorTexture then {ColorTextureId} else {})
    + (if p.useDepthTexture then {DepthTextureId} else {})
  }

  // ---------------------------------------------------------------------------------------
  // Properties of the decisions

  /** A reflection-probe camera's copies do not depend on the camera settings; any other
      camera copies only what both sides ask for, and without the component the pipeline
      alone decides. */
  lemma CopyFlagsRule(t: CameraType, b: CameraBufferSettings, c: CameraSettings, c': CameraSettings)
    ensures t == Reflection ==>
      UseColorTexture(t, b, c) == UseColorTexture(t, b, c') == b.copyColorReflection
      && UseDepthTexture(t, b, c) == UseDepthTexture(t, b, c') == b.copyDepthReflection
    ensures t != Reflection ==>
      (UseColorTexture(t, b, c) <==> b.copyColor && c.copyColor)
      && (UseDepthTexture(t, b, c) <==> b.copyDepth && c.copyDepth)
    ensures t != Reflection ==>
      UseColorTexture(t, b, DefaultCameraSettings()) == b.copyColor
      && UseDepthTexture(t, b, DefaultCameraSettings()) == b.copyDepth
  {
  }

  /** A camera that does not mask lights lets every light with some layer through. */
  lemma UnmaskedLightsRule(c: CameraSettings, v: VisibleLight)
    requires !c.maskLights
    ensures LightSetup.InLayer(v, LightMask(c)) <==> v.light.renderingLayerMask != 0
  {
    assert LightMask(c) == 0xFFFF_FFFF;
  }

  /** The shadow distance is the smaller of the two, hence never beyond the far plane. */
  lemma ShadowDistanceRule(maxShadowDistance: real, farClipPlane: real)
    ensures var d := ShadowDistance(maxShadowDistance, farClipPlane);
      d <= maxShadowDistance && d <= farClipPlane && (d == maxShadowDistance || d == farClipPlane)
  {
  }

  lemma ClampRule(x: real, lo: real, hi: real)
    requires lo <= hi
    ensures lo <= Clamp(x, lo, hi) <= hi
    ensures lo <= x <= hi ==> Clamp(x, lo, hi) == x
  {
  }

  /** The truncated product lies within one pixel below the exact product. */
  lemma ScaledRule(pixels: nat, scale: real)
    requires scale >= 0.0
    ensures Scaled(pixels, scale) as real <= pixels as real * scale < Scaled(pixels, scale) as real + 1.0
  {
  }

  /** One side of a scaled buffer: the side times the clamped scale, truncated, hence within one
      pixel below the exact product and at most twice the side. */
  lemma ScaledSideRule(pixels: nat, scale: real)
    ensures var r := Clamp(scale, RenderScaleMin, RenderScaleMax);
      var n := Scaled(pixels, r);
      n as real <= pixels as real * r < n as real + 1.0 && n <= 2 * pixels
  {
    var r := Clamp(scale, RenderScaleMin, RenderScaleMax);
    ClampRule(scale, RenderScaleMin, RenderScaleMax);
    ScaledRule(pixels, r);
    assert pixels as real * r <= pixels as real * 2.0;
    assert (2 * pixels) as real == pixels as real * 2.0;
  }

  /** Without scaled rendering the buffer has the camera's size; with it each side is the
      camera's side times the clamped scale, truncated, so at most twice the camera's. */
  lemma BufferSizeRule(camera: Camera, scale: real)
    ensures var s := BufferSizeFor(camera, scale);
      !UseScaledRendering(scale) ==> s == BufferSize(camera.pixelWidth, camera.pixelHeight)
    ensures var s := BufferSizeFor(camera, scale);
      var r := Clamp(scale, RenderScaleMin, RenderScaleMax);
      UseScaledRendering(scale) ==>
        && s.x as real <= camera.pixelWidth as real * r < s.x as real + 1.0
        && s.y as real <= camera.pixelHeight as real * r < s.y as real + 1.0
        && s.x <= 2 * camera.pixelWidth && s.y <= 2 * camera.pixelHeight
  {
    ScaledSideRule(camera.pixelWidth, scale);
    ScaledSideRule(camera.pixelHeight, scale);
  }

  /** With the intermediate buffer depth is always cleared and colour unless the flags are
      Skybox; rendering straight to the camera clears depth unless the flags are Nothing and
      colour only for Color. */
  lemma ClearRule(flags: CameraClearFlags, intermediate: bool)
    ensures var c := ClearCommand(ClearFlagsFor(flags, intermediate));
      intermediate ==> c.clearDepth && (c.clearColor <==> flags != Skybox)
    ensures var c := ClearCommand(ClearFlagsFor(flags, intermediate));
      !intermediate ==> (c.clearDepth <==> flags != Nothing) && (c.clearColor <==> flags == SolidColor)
  {
  }

  // ---------------------------------------------------------------------------------------
  // Properties of the log

  /** The copy step copies with CopyTexture exactly when that is supported, draws otherwise,
      and binds the attachments again, loading them, only on the drawn path. */
  lemma CopyRule(color: bool, depth: bool, size: BufferSize, supported: bool)
    ensures var l := CopyCommands(color, depth, size, supported);
      (SetRenderTargets(ColorAttachmentId, DepthAttachmentId, Load) in l <==> !supported)
      && (CopyTexture(ColorAttachmentId, ColorTextureId) in l <==> color && supported)
      && (Draw(ColorAttachmentId, ColorTextureId, 0) in l <==> color && !supported)
      && (CopyTexture(DepthAttachmentId, DepthTextureId) in l <==> depth && supported)
      && (Draw(DepthAttachmentId, DepthTextureId, 1) in l <==> depth && !supported)
  {
    var a := if color then CopyOne(ColorAttachmentId, ColorTextureId, 0, size, supported) else [];
    var b := if depth then CopyOne(DepthAttachmentId, DepthTextureId, 1, size, supported) else [];
    var c: seq<Command> := if supported then [] else [SetRenderTargets(ColorAttachmentId, DepthAttachmentId, Load)];
    var l := CopyCommands(color, depth, size, supported);
    assert l == a + b + c;
    forall x | x in l ensures x in a || x in b || x in c {
    }
    if color {
      assert l[1] == a[1];
    }
    if depth {
      assert l[|a| + 1] == b[1];
    }
    if !supported {
      assert l[|a| + |b|] == c[0];
    }
  }

  lemma SetupHeld(p: CameraFrame)
    ensures var l := [SetVector("_CameraBufferSize")] + TargetSetupCommands(p.Intermediate(), p.bufferSize, p.camera.clearFlags);
      Scoped({}, l) && After({}, l) == if p.Intermediate() then {ColorAttachmentId, DepthAttachmentId} else {}
  {
    var size := p.bufferSize;
    var tail := [ClearCommand(ClearFlagsFor(p.camera.clearFlags, p.Intermediate())),
                 SetTexture("_CameraColorTexture", MissingTextureId), SetTexture("_CameraDepthTexture", MissingTextureId)];
    var head := [SetVector("_CameraBufferSize")];
    PoolFreeLog({}, head);
    if p.Intermediate() {
      var held := {ColorAttachmentId, DepthAttachmentId};
      var acq := [Acquire(ColorAttachmentId, size.x, size.y), Acquire(DepthAttachmentId, size.x, size.y),
                  SetRenderTargets(ColorAttachmentId, DepthAttachmentId, DontCare)];
      assert acq == [acq[0]] + ([acq[1]] + [acq[2]]);
      SingleStep({}, acq[0]);
      SingleStep({ColorAttachmentId}, acq[1]);
      SingleStep(held, acq[2]);
      ScopedThen({ColorAttachmentId}, [acq[1]], [acq[2]], held, held);
      ScopedThen({}, [acq[0]], [acq[1]] + [acq[2]], {ColorAttachmentId}, held);
      PoolFreeLog(held, tail);
      ScopedThen({}, acq, tail, held, held);
      ScopedThen({}, head, acq + tail, {}, held);
      assert head + TargetSetupCommands(p.Intermediate(), size, p.camera.clearFlags) == head + (acq + tail);
    } else {
      PoolFreeLog({}, tail);
      ScopedThen({}, head, tail, {}, {});
      assert TargetSetupCommands(p.Intermediate(), size, p.camera.clearFlags) == tail;
    }
  }

  lemma CopyOneHeld(held: set<int>, from: int, to: int, pass: nat, size: BufferSize, supported: bool)
    requires to !in held
    ensures Scoped(held, CopyOne(from, to, pass, size, supported))
    ensures After(held, CopyOne(from, to, pass, size, supported)) == held + {to}
  {
    var l := CopyOne(from, to, pass, size, supported);
    assert l == [l[0]] + [l[1]];
    SingleStep(held, l[0]);
    SingleStep(held + {to}, l[1]);
    ScopedThen(held, [l[0]], [l[1]], held + {to}, held + {to});
  }

  lemma CopyHeld(held: set<int>, color: bool, depth: bool, size: BufferSize, supported: bool)
    requires ColorTextureId !in held && DepthTextureId !in held
    ensures var l := CopyCommands(color, depth, size, supported);
      Scoped(held, l)
      && After(held, l) == held + (if color then {ColorTextureId} else {}) + (if depth then {DepthTextureId} else {})
  {
    var a := if color then CopyOne(ColorAttachmentId, ColorTextureId, 0, size, supported) else [];
    var b := if depth then CopyOne(DepthAttachmentId, DepthTextureId, 1, size, supported) else [];
    var c: seq<Command> := if supported then [] else [SetRenderTargets(ColorAttachmentId, DepthAttachmentId, Load)];
    var h1 := held + (if color then {ColorTextureId} else {});
    var h2 := h1 + (if depth then {DepthTextureId} else {});
    if color { CopyOneHeld(held, ColorAttachmentId, ColorTextureId, 0, size, supported); }
    else { PoolFreeLog(held, a); }
    if depth { CopyOneHeld(h1, DepthAttachmentId, DepthTextureId, 1, size, supported); }
    else { PoolFreeLog(h1, b); }
    PoolFreeLog(h2, c);
    ScopedThen(held, a, b, h1, h2);
    ScopedThen(held, a + b, c, h2, h2);
  }

  lemma GeometryHeld(held: set<int>, color: bool, depth: bool, size: BufferSize, supported: bool)
    requires ColorTextureId !in held && DepthTextureId !in held
    ensures var l := GeometryCommands(color, depth, size, supported);
      Scoped(held, l)
      && After(held, l) == held + (if color then {ColorTextureId} else {}) + (if depth then {DepthTextureId} else {})
  {
    var out := held + (if color then {ColorTextureId} else {}) + (if depth then {DepthTextureId} else {});
    var pre := [DrawGeometry(Opaque), DrawSkybox];
    var mid := if color || depth then CopyCommands(color, depth, size, supported) else [];
    var post := [DrawGeometry(Transparent)];
    PoolFreeLog(held, pre);
    if color || depth { CopyHeld(held, color, depth, size, supported); }
    else { PoolFreeLog(held, mid); }
    PoolFreeLog(out, post);
    ScopedThen(held, pre, mid, held, out);
    ScopedThen(held, pre + mid, post, out, out);
  }

  /** Setup and the geometry leave the camera holding exactly its attachments and copies. */
  lemma PreludeHeld(p: CameraFrame)
    ensures Scoped({}, PreludeCommands(p)) && After({}, PreludeCommands(p)) == Attachments(p)
  {
    var setup := [SetVector("_CameraBufferSize")] + TargetSetupCommands(p.Intermediate(), p.bufferSize, p.camera.clearFlags);
    var at := if p.Intermediate() then {ColorAttachmentId, DepthAttachmentId} else {};
    SetupHeld(p);
    GeometryHeld(at, p.useColorTexture, p.useDepthTexture, p.bufferSize, p.copyTextureSupported);
    ScopedThen({}, setup, GeometryCommands(p.useColorTexture, p.useDepthTexture, p.bufferSize, p.copyTextureSupported),
               at, Attachments(p));
  }

  /** Cleanup releases exactly what the camera holds. */
  lemma ReleaseHeld(p: CameraFrame)
    ensures Scoped(Attachments(p), ReleaseFor(p)) && After(Attachments(p), ReleaseFor(p)) == {}
  {
    var held := Attachments(p);
    if p.Intermediate() {
      var h1 := held - {ColorAttachmentId};
      var h2 := h1 - {DepthAttachmentId};
      var h3 := h2 - (if p.useColorTexture then {ColorTextureId} else {});
      var c: seq<Command> := if p.useColorTexture then [Release(ColorTextureId)] else [];
      var d: seq<Command> := if p.useDepthTexture then [Release(DepthTextureId)] else [];
      SingleStep(held, Release(ColorAttachmentId));
      SingleStep(h1, Release(DepthAttachmentId));
      ScopedThen(held, [Release(ColorAttachmentId)], [Release(DepthAttachmentId)], h1, h2);
      if p.useColorTexture { SingleStep(h2, Release(ColorTextureId)); } else { PoolFreeLog(h2, c); }
      if p.useDepthTexture { SingleStep(h3, Release(DepthTextureId)); } else { PoolFreeLog(h3, d); }
      assert h3 - (if p.useDepthTexture then {DepthTextureId} else {}) == {};
      ScopedThen(held, [Release(ColorAttachmentId), Release(DepthAttachmentId)], c, h2, h3);
      ScopedThen(held, [Release(ColorAttachmentId), Release(DepthAttachmentId)] + c, d, h3, {});
    }
  }

  lemma OutputPoolFree(p: CameraFrame)
    ensures PoolFree(OutputCommands(p))
  {
  }

  /** The camera's own log releases exactly what it acquires. */
  lemma CameraCommandsBalanced(p: CameraFrame)
    ensures Balanced(CameraCommands(p))
  {
    CameraCommandsSplit(p);
    PreludeHeld(p);
    OutputPoolFree(p);
    PoolFreeLog(Attachments(p), OutputCommands(p));
    ReleaseHeld(p);
    ScopedThen({}, PreludeCommands(p), OutputCommands(p), Attachments(p), Attachments(p));
    ScopedThen({}, PreludeCommands(p) + OutputCommands(p), ReleaseFor(p), Attachments(p), {});
  }

  /** The camera acquires its attachments exactly when it renders scaled, copies colour or
      depth, or runs post-processing, and each copy exactly when that copy is wanted. */
  lemma CameraAcquires(p: CameraFrame)
    ensures ColorAttachmentId in After({}, PreludeCommands(p))
            <==> p.useScaledRendering || p.useColorTexture || p.useDepthTexture || p.postFXActive
    ensures DepthAttachmentId in After({}, PreludeCommands(p))
            <==> p.useScaledRendering || p.useColorTexture || p.useDepthTexture || p.postFXActive
    ensures ColorTextureId in After({}, PreludeCommands(p)) <==> p.useColorTexture
    ensures DepthTextureId in After({}, PreludeCommands(p)) <==> p.useDepthTexture
  {
    PreludeHeld(p);
  }

  /** Post-processing runs between the geometry and the cleanup; the frame as the context
      receives it is balanced too, since post-FX never touches the camera's targets. */
  lemma ContextBalanced(p: CameraFrame, f: PostFX.Frame, s: PostFXSettings)
    requires ValidBloomSettings(s.bloom)
    ensures Balanced(ContextCommands(p, PostFX.RenderCommands(f, s, ColorAttachmentId)))
  {
    var fx := PostFX.RenderCommands(f, s, ColorAttachmentId);
    var held := Attachments(p);
    PreludeHeld(p);
    PostFX.RenderHeld(held, f, s, ColorAttachmentId);
    OutputPoolFree(p);
    PoolFreeLog(held, OutputCommands(p));
    ReleaseHeld(p);
    ScopedThen({}, PreludeCommands(p), fx, held, held);
    ScopedThen({}, PreludeCommands(p) + fx, OutputCommands(p), held, held);
    ScopedThen({}, PreludeCommands(p) + fx + OutputCommands(p), ReleaseFor(p), held, {});
  }

  lemma PreludeDrawsNothingFinal(p: CameraFrame)
    ensures DrawFinalCount(PreludeCommands(p)) == 0
  {
    var l := PreludeCommands(p);
    forall k | 0 <= k < |l| ensures !l[k].DrawFinal? {
      var setup := [SetVector("_CameraBufferSize")] + TargetSetupCommands(p.Intermediate(), p.bufferSize, p.camera.clearFlags);
      var geo := GeometryCommands(p.useColorTexture, p.useDepthTexture, p.bufferSize, p.copyTextureSupported);
      if k < |setup| {
        assert l[k] == setup[k];
      } else {
        assert l[k] == geo[k - |setup|];
        var copies := if p.useColorTexture || p.useDepthTexture
          then CopyCommands(p.useColorTexture, p.useDepthTexture, p.bufferSize, p.copyTextureSupported) else [];
        assert geo == [DrawGeometry(Opaque), DrawSkybox] + copies + [DrawGeometry(Transparent)];
      }
    }
    DrawFinalCountNone(l);
  }

  /** Without post-processing the camera draws into its target once exactly when it renders
      to the intermediate buffer, the blit of the colour attachment; otherwise it leaves the
      camera target to post-FX or to the direct rendering. */
  lemma CameraOutputRule(p: CameraFrame)
    ensures DrawFinalCount(CameraCommands(p)) == if !p.postFXActive && p.Intermediate() then 1 else 0
    ensures (!p.postFXActive && p.Intermediate()) <==>
            DrawFinal(ColorAttachmentId, 0, FinalBlitLoad(p.camera, p.finalBlendMode)) in CameraCommands(p)
  {
    var blit := DrawFinal(ColorAttachmentId, 0, FinalBlitLoad(p.camera, p.finalBlendMode));
    CameraDrawFinalCount(p);
    if !p.postFXActive && p.Intermediate() {
      CameraCommandsSplit(p);
      var pre := PreludeCommands(p);
      assert CameraCommands(p)[|pre| + 2] == OutputCommands(p)[2] == blit;
    } else if blit in CameraCommands(p) {
      var k :| 0 <= k < |CameraCommands(p)| && CameraCommands(p)[k] == blit;
      DrawFinalCountPositive(CameraCommands(p), k);
    }
  }

  /** The final blit draws into the camera target exactly once. */
  lemma FinalBlitDrawsOnce(camera: Camera, blend: FinalBlendMode)
    ensures DrawFinalCount(FinalBlitCommands(camera, blend)) == 1
  {
    var b := FinalBlitCommands(camera, blend);
    DrawFinalCountNone(b[..2]);
    DrawFinalCountNone(b[3..]);
    assert DrawFinalCount([b[2]]) == 1 by { assert [b[2]][..0] == []; }
    DrawFinalCountConcat(b[..2], [b[2]]);
    assert b == b[..2] + [b[2]] + b[3..];
    DrawFinalCountConcat(b[..2] + [b[2]], b[3..]);
  }

  /** The camera's log draws into the camera target once with the final blit, never otherwise. */
  lemma CameraDrawFinalCount(p: CameraFrame)
    ensures DrawFinalCount(CameraCommands(p)) == if !p.postFXActive && p.Intermediate() then 1 else 0
  {
    var pre := PreludeCommands(p);
    var out := OutputCommands(p);
    var rel := ReleaseFor(p);
    PreludeDrawsNothingFinal(p);
    if !p.postFXActive && p.Intermediate() {
      FinalBlitDrawsOnce(p.camera, p.finalBlendMode);
    } else {
      DrawFinalCountNone(out);
    }
    DrawFinalCountNone(rel);
    DrawFinalCountConcat(pre, out);
    DrawFinalCountConcat(pre + out, rel);
    CameraCommandsSplit(p);
  }

  /** A log holding a draw into the camera target counts at least one. */
  lemma {:induction false} DrawFinalCountPositive(log: seq<Command>, k: nat)
    requires k < |log| && log[k].DrawFinal?
    ensures DrawFinalCount(log) >= 1
    decreases |log|
  {
    if k < |log| - 1 {
      assert log[..|log| - 1][k] == log[k];
      DrawFinalCountPositive(log[..|log| - 1], k);
    }
  }

  // ---------------------------------------------------------------------------------------
  // The camera renderer

  /** What Lighting.Setup collects for a culled camera with the given light mask. */
  function LightsFor(cullingResults: CullingResults, mask: bv32, shadowSettings: ShadowSettings): LightSetup.Collected {
    LightSetup.Collect(cullingResults.visibleLights, mask, cullingResults.shadowCasterBounds,
                       shadowSettings.directional.cascadeCount, ShadowAtlas.NoReservations)
  }

  /** The inputs of one camera's frame once its settings are resolved. */
  datatype FrameInputs = FrameInputs(
    camera: Camera,
    bufferSettings: CameraBufferSettings,
    settings: CameraSettings,
    postFXSettings: Option<PostFXSettings>,
    renderScale: real,
    colorLUTResolution: nat,
    cullingResults: CullingResults,
    shadowSettings: ShadowSettings,
    shadowmaskMode: ShadowmaskMode,
    showImageEffects: bool)

  /** The frame inputs Render resolves from its arguments: the component's settings (or the
      defaults), the post-FX override and the render scale. */
  function InputsFor(camera: Camera, bufferSettings: CameraBufferSettings, component: Option<CameraSettings>,
                     postFXSettings: Option<PostFXSettings>, colorLUTResolution: nat, cullingResults: CullingResults,
                     shadowSettings: ShadowSettings, shadowmaskMode: ShadowmaskMode, showImageEffects: bool): FrameInputs
  {
    var c := SettingsOf(component);
    FrameInputs(camera, bufferSettings, c, PostFXSettingsFor(c, postFXSettings), RenderScaleFor(c, bufferSettings),
                colorLUTResolution, cullingResults, shadowSettings, shadowmaskMode, showImageEffects)
  }

  /** The post-FX settings the stack is active with for this frame, if any. */
  function EffectsFor(i: FrameInputs): Option<PostFXSettings> {
    PostFX.ActiveSettings(i.camera.cameraType, i.postFXSettings, i.showImageEffects)
  }

  /** The camera decisions of a culled frame, from its inputs alone. */
  function FrameFor(i: FrameInputs, copyTextureSupported: bool): CameraFrame {
    CameraFrame(i.camera, BufferSizeFor(i.camera, i.renderScale), UseScaledRendering(i.renderScale),
                UseColorTexture(i.camera.cameraType, i.bufferSettings, i.settings),
                UseDepthTexture(i.camera.cameraType, i.bufferSettings, i.settings),
                EffectsFor(i).Some?, i.settings.finalBlendMode, copyTextureSupported)
  }

  /** What the post-FX stack is set up with for the frame: FXAA only where the camera allows it,
      HDR only where both the pipeline and the camera allow it. */
  function EffectsFrameFor(i: FrameInputs): PostFX.Frame {
    PostFX.Frame(i.camera, BufferSizeFor(i.camera, i.renderScale), i.settings.keepAlpha,
                 i.bufferSettings.allowHDR && i.camera.allowHDR, i.colorLUTResolution, i.settings.finalBlendMode,
                 i.bufferSettings.bicubicRescaling, FXAAFor(i.bufferSettings, i.settings))
  }

  /** The lights the frame collects, through the camera's light mask. */
  function LightsOf(i: FrameInputs): LightSetup.Collected {
    LightsFor(i.cullingResults, LightMask(i.settings), i.shadowSettings)
  }

  /** What the post-FX stack records for a frame: its whole chain on the colour attachment when
      it is active, nothing otherwise. */
  function EffectsLog(f: PostFX.Frame, settings: Option<PostFXSettings>): seq<Command>
    requires ValidPostFX(settings)
  {
    if settings.Some? then PostFX.RenderCommands(f, settings.value, ColorAttachmentId) else []
  }

  /** The camera's, the post-FX stack's, the lights' and the shadows' command logs. */
  datatype Logs = Logs(camera: seq<Command>, postFX: seq<Command>, lights: seq<Command>, shadows: seq<Command>)

  /** The logs a culled frame leaves behind, from the logs `before` it: the camera's own log; post-FX
      run on the colour attachment when active; the lights' uploads; their shadows rendered, then
      released. */
  function RecordedLogs(before: Logs, i: FrameInputs, copyTextureSupported: bool): Logs
    requires ValidShadowSettings(i.shadowSettings) && ValidPostFX(EffectsFor(i))
  {
    var fx := EffectsFor(i);
    var lights := LightsOf(i);
    Logs(before.camera + CameraCommands(FrameFor(i, copyTextureSupported)),
         before.postFX + EffectsLog(EffectsFrameFor(i), fx),
         before.lights + LightSetup.UploadCommands(|lights.dir|, |lights.other|),
         before.shadows + ShadowAtlas.RenderCommands(lights.shadows, i.shadowSettings, i.shadowmaskMode)
           + ShadowAtlas.CleanupCommands(lights.shadows))
  }

  /** A culled frame's outcome: the intermediate-buffer decision and the four logs, as functions
      of the frame's inputs and of the logs `before` it. */
  predicate LogsRecorded(logs: Logs, intermediate: bool, before: Logs, i: FrameInputs, copyTextureSupported: bool) {
    && ValidShadowSettings(i.shadowSettings) && ValidPostFX(EffectsFor(i))
    && intermediate == FrameFor(i, copyTextureSupported).Intermediate()
    && var expected := RecordedLogs(before, i, copyTextureSupported);
    && logs.camera == expected.camera && logs.postFX == expected.postFX
    && logs.lights == expected.lights && logs.shadows == expected.shadows
  }

  // ---------------------------------------------------------------------------------------
  // Properties of a whole frame

  /** A camera without the component renders with the pipeline's scale, post-FX settings and
      copy flags, without FXAA or alpha, with every light and the one-zero final blend. */
  lemma ComponentlessCamera(camera: Camera, bufferSettings: CameraBufferSettings,
                            postFXSettings: Option<PostFXSettings>, colorLUTResolution: nat,
                            cullingResults: CullingResults, shadowSettings: ShadowSettings,
                            shadowmaskMode: ShadowmaskMode, showImageEffects: bool)
    ensures var i := InputsFor(camera, bufferSettings, None, postFXSettings, colorLUTResolution, cullingResults,
                               shadowSettings, shadowmaskMode, showImageEffects);
      && i.renderScale == bufferSettings.renderScale
      && i.postFXSettings == postFXSettings
      && !EffectsFrameFor(i).fxaa.enabled && !EffectsFrameFor(i).keepAlpha
      && LightMask(i.settings) == 0xFFFF_FFFF
      && i.settings.finalBlendMode == FinalBlendMode(One, Zero)
      && (camera.cameraType != Reflection ==>
            UseColorTexture(camera.cameraType, bufferSettings, i.settings) == bufferSettings.copyColor
            && UseDepthTexture(camera.cameraType, bufferSettings, i.settings) == bufferSettings.copyDepth)
  {
    DefaultIsIdentity(bufferSettings.renderScale);
  }

  /** The post-FX stack gets FXAA only when both the pipeline and the camera allow it, at the
      pipeline's quality; so the stack's log acquires the FXAA target exactly when it is active
      and FXAA is allowed on both sides. */
  lemma FXAARule(i: FrameInputs)
    requires ValidPostFX(EffectsFor(i))
    ensures EffectsFrameFor(i).fxaa.enabled <==> i.bufferSettings.fxaa.enabled && i.settings.allowFXAA
    ensures EffectsFrameFor(i).fxaa.quality == i.bufferSettings.fxaa.quality
    ensures PostFX.ColorGradingResultId in Acquired(EffectsLog(EffectsFrameFor(i), EffectsFor(i)))
            <==> EffectsFor(i).Some? && i.bufferSettings.fxaa.enabled && i.settings.allowFXAA
  {
    if EffectsFor(i).Some? {
      PostFX.RenderFinalTargets(EffectsFrameFor(i), EffectsFor(i).value, ColorAttachmentId);
    }
  }

  /** With light masking, a light that shares no rendering layer with the camera is collected
      as neither kind and gets -1 in the index map; a point or spot light that shares one gets
      its rank among the earlier candidates while there is room. */
  lemma MaskedLightsRule(i: FrameInputs, k: nat)
    requires i.settings.maskLights && k < |i.cullingResults.visibleLights|
    ensures |LightsOf(i).indexMap| == |i.cullingResults.visibleLights|
    ensures var v := i.cullingResults.visibleLights[k];
      !LightSetup.InLayer(v, i.settings.renderingLayerMask) ==>
        && !LightSetup.Candidate(v, LightMask(i.settings), true)
        && !LightSetup.Candidate(v, LightMask(i.settings), false)
        && LightsOf(i).indexMap[k] == -1
    ensures var v := i.cullingResults.visibleLights[k];
      var rank := LightSetup.Candidates(i.cullingResults.visibleLights[..k], LightMask(i.settings), false);
      LightSetup.InLayer(v, i.settings.renderingLayerMask) && LightSetup.IsOther(v)
        && rank < LightSetup.MaxOtherLightCount ==>
        LightsOf(i).indexMap[k] == rank
  {
    var v := i.cullingResults.visibleLights[k];
    var mask := LightMask(i.settings);
    assert mask == i.settings.renderingLayerMask;
    MaskedLightRank(i, k);
    if !LightSetup.InLayer(v, mask) {
      assert !LightSetup.Candidate(v, mask, true) && !LightSetup.Candidate(v, mask, false);
    } else if LightSetup.IsOther(v) {
      assert LightSetup.Candidate(v, mask, false);
    }
  }

  /** The index-map entry of a collected light, through the camera's mask. */
  lemma MaskedLightRank(i: FrameInputs, k: nat)
    requires i.settings.maskLights && k < |i.cullingResults.visibleLights|
    ensures |LightsOf(i).indexMap| == |i.cullingResults.visibleLights|
    ensures var lights := i.cullingResults.visibleLights;
      var rank := LightSetup.Candidates(lights[..k], LightMask(i.settings), false);
      LightsOf(i).indexMap[k]
      == if LightSetup.Candidate(lights[k], LightMask(i.settings), false) && rank < LightSetup.MaxOtherLightCount then rank as int else -1
  {
    var lights := i.cullingResults.visibleLights;
    var mask := LightMask(i.settings);
    assert mask == i.settings.renderingLayerMask;
    LightSetup.IndexMapIsRank(lights, mask, i.cullingResults.shadowCasterBounds,
                              i.shadowSettings.directional.cascadeCount, ShadowAtlas.NoReservations, k);
  }

  /** Recording a culled frame keeps every log balanced: each target the camera, the post-FX
      stack, the lights or the shadows acquire is released again, within the same log. */
  lemma FrameLogsBalanced(before: Logs, i: FrameInputs, copyTextureSupported: bool)
    requires ValidShadowSettings(i.shadowSettings) && ValidPostFX(EffectsFor(i))
    requires Balanced(before.camera) && Balanced(before.postFX) && Balanced(before.lights) && Balanced(before.shadows)
    ensures var after := RecordedLogs(before, i, copyTextureSupported);
      Balanced(after.camera) && Balanced(after.postFX) && Balanced(after.lights) && Balanced(after.shadows)
  {
    var lights := LightsOf(i);
    var fx := EffectsLog(EffectsFrameFor(i), EffectsFor(i));
    var upload := LightSetup.UploadCommands(|lights.dir|, |lights.other|);
    var atlas := ShadowAtlas.RenderCommands(lights.shadows, i.shadowSettings, i.shadowmaskMode)
                 + ShadowAtlas.CleanupCommands(lights.shadows);
    CameraCommandsBalanced(FrameFor(i, copyTextureSupported));
    BalancedConcat(before.camera, CameraCommands(FrameFor(i, copyTextureSupported)));
    if EffectsFor(i).Some? {
      PostFX.RenderBalanced(EffectsFrameFor(i), EffectsFor(i).value, ColorAttachmentId);
    }
    BalancedConcat(before.postFX, fx);
    LightSetup.UploadCommandsPoolFree(|lights.dir|, |lights.other|);
    PoolFreeLog({}, upload);
    BalancedConcat(before.lights, upload);
    ShadowAtlas.ShadowFrameBalanced(lights.shadows, i.shadowSettings, i.shadowmaskMode);
    BalancedConcat(before.shadows, atlas);
    Assoc(before.shadows, ShadowAtlas.RenderCommands(lights.shadows, i.shadowSettings, i.shadowmaskMode),
          ShadowAtlas.CleanupCommands(lights.shadows));
  }
}
