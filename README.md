# A model of the SRP custom render pipeline's bookkeeping

This project models the discrete bookkeeping of a small Unity scriptable render pipeline.
It does not model GPU work.

The modelled parts are:

- the per-frame **shadow atlas planner** (`Shadows`): it reserves atlas tiles for up to four
  directional lights and sixteen point or spot tiles, tiles the two atlases, and renders and
  releases them;
- the **light collector** (`Lighting`): it filters visible lights by rendering layer, caps them at
  4 directional and 64 other lights, fills the per-light slot arrays and builds the per-object
  light index map;
- the **post-processing stack** (`PostFXStack`): the bloom pyramid of temporary targets, colour
  grading through a lookup table, optional FXAA, rescaling, and the final draw into the camera;
- the **per-camera renderer** (`CameraRender`): copy flags, scaled rendering, buffer size,
  intermediate buffer, clear flags, attachment copies, the final blit and the release of every
  temporary target;
- the **render-scale policy** of `CameraSettings`.

Every command buffer is an append-only log of abstract commands (`Commands.Command`). Examples are
`Acquire`/`Release` of a temporary render target, `Draw`, `DrawFinal`, `Viewport`,
`DrawShadows`, and keyword enables and disables. Each class keeps its own log in a `buffer` field.
A method states its effect as `buffer == old(buffer) + F(...)`, where `F` is a specification
function over the class's state. The properties that matter are then proved about `F`:

- **Pool balance.** `Scoped`/`After`/`Balanced` track the set of targets held. A log is balanced
  when every acquire names a target not already held, every release names one that is held, and
  nothing is left held at the end.
- **Draw counts.** A frame draws into the camera target exactly once, or not at all.
- **Keyword choices.** At most one keyword of a group is enabled.

Render targets are integer shader property IDs. The bloom pyramid occupies 32 consecutive IDs
from `BloomPyramidId`, in the order the constructor registers them.

Engine queries are inputs. These are:

- the culling results (visible lights, the lights that have shadow-caster bounds, the length of
  the light index map);
- whether `TryGetCullingParameters` succeeds;
- `copyTextureSupport`;
- the camera's type, pixel size, rect and clear flags;
- the quality shadowmask mode;
- the scene view's image-effects toggle.

Lights are stored as records. The source's parallel static `Vector4` arrays become one array of
records per light category: `dirLightSlots` and `otherLightSlots`.

One Dafny module corresponds to each part of the program:

| module | models |
|---|---|
| `Commands` | the command log and the pool-scoping vocabulary |
| `Engine` | engine-side records |
| `Settings` | the configuration records |
| `CameraConfig` | CameraSettings.cs |
| `ShadowAtlas` | Shadows.cs |
| `LightSetup` | Lighting.cs |
| `PostFX` | PostFXStack.cs and its editor partial |
| `CameraFrames` | the pure decisions of CameraRender.cs |
| `CameraRendering` | the `CameraRender` class |

## Model

| member | source | states |
|---|---|---|
| CameraConfig.DefaultCameraSettings | Assets/Scripts/CameraSettings.cs:7-39 | A new CameraSettings has the declared initial values: both copies on, light masking off, FXAA and alpha off, no post-FX override, mode Inherit, scale 1, every layer bit set, blend One/Zero. |
| CameraConfig.RenderScaleModes | Assets/Scripts/CameraSettings.cs:42-46 | Inherit returns the incoming scale unchanged; Override returns the camera's own scale whatever comes in; Multiply returns the product, the identity when the camera's scale is 1. |
| CameraConfig.DefaultIsIdentity | Assets/Scripts/CameraSettings.cs:17-47 | A camera without the component leaves the pipeline's render scale unchanged. |
| CameraConfig.RenderScaleRange | Assets/Scripts/CameraSettings.cs:19-20 | With both scales in the inspector range [0.1, 2], the result lies in [0.01, 4], and it is always the incoming scale, the camera's scale or their product. |
| ShadowAtlas.DirectionalRefusal | Assets/Scripts/Shadows.cs:107-109 | With four directional lights reserved, shadows off or strength ≤ 0, the result is (0,0,0,-1) and the state is unchanged. The shadow mask is not set, because the capacity check comes first. |
| ShadowAtlas.DirectionalOutcome | Assets/Scripts/Shadows.cs:105-135 | Strength > 0 iff the count grows by exactly one. The accepted light's tile index is cascadeCount × the old count and it is appended. A negative strength happens iff the light passed the guard but has no caster bounds. Other reservations never change. |
| ShadowAtlas.DirectionalCapacity | Assets/Scripts/Shadows.cs:107 | Reserving keeps at most four directional lights and at most sixteen other tiles. |
| ShadowAtlas.OtherOutcome | Assets/Scripts/Shadows.cs:138-175 | Accepted iff shadows are on, strength > 0, the light has caster bounds and the old tiles + 6 (point) or + 1 (spot) fit in 16. An accepted light gets the old tile count as its index and is appended, and the count grows by its size. A refused light changes no reservation. |
| ShadowAtlas.OtherCapacity | Assets/Scripts/Shadows.cs:154-159 | Reserving never takes the other tiles above 16. |
| ShadowAtlas.OtherShadowmaskBeforeRejection | Assets/Scripts/Shadows.cs:145-159 | A shadowed Mixed+Shadowmask light sets the shadow mask and reports its channel even when it is then refused. |
| ShadowAtlas.OtherRangesDisjoint | Assets/Scripts/Shadows.cs:161-173 | The tile range of reservation j ends no later than the start of any later reservation k, and every start lies within the reserved count. |
| ShadowAtlas.OtherStartMonotone | Assets/Scripts/Shadows.cs:161-173 | No reservation starts past the reserved tile count. |
| ShadowAtlas.Split | Assets/Scripts/Shadows.cs:223-224 | The split is 1, 2 or 4. It gives room for all tiles (tiles ≤ split²), and it is the smallest such split (tiles > (split/2)²). |
| ShadowAtlas.SplitDividesAtlas | Assets/Scripts/Shadows.cs:223-225 | For every atlas size, split × tileSize equals the atlas size. |
| ShadowAtlas.TileOffsetsDistinct | Assets/Scripts/Shadows.cs:405-410 | For tile indices below split², the (index % split, index / split) offsets lie inside the grid and are pairwise distinct. |
| ShadowAtlas.TileInsideAtlas | Assets/Scripts/Shadows.cs:223-225 | Every used tile's viewport lies inside the atlas. |
| ShadowAtlas.DirOwnersAt | Assets/Scripts/Shadows.cs:252-279 | Tile i × cascadeCount + c is cascade c of directional light i, with that light's bias. |
| ShadowAtlas.OtherOwnersAt | Assets/Scripts/Shadows.cs:298-309 | Tile OtherStart(j) + f is face f of other light j: six faces for a point light, one for a spot light. |
| ShadowAtlas.TileSpanAt | Assets/Scripts/Shadows.cs:252-279 | Commands 4k..4k+3 of a tile span are the viewport, bias, draw and bias reset of tile lo + k. |
| ShadowAtlas.RenderHolds | Assets/Scripts/Shadows.cs:178-208 | Render always acquires the directional atlas, using 1×1 when there are no directional lights. It acquires the other atlas iff other tiles were reserved, and nothing else. |
| ShadowAtlas.CleanupReleases | Assets/Scripts/Shadows.cs:448-456 | Cleanup releases exactly the atlases Render holds. |
| ShadowAtlas.ShadowFrameBalanced | Assets/Scripts/Shadows.cs:178-208 | Render followed by Cleanup is a balanced log for every reservation state. |
| ShadowAtlas.MaskAndCascadeFree | Assets/Scripts/Shadows.cs:198-205 | The keywords and the cascade-count upload touch no target. |
| ShadowAtlas.OneDirectionalLightScenario | Assets/Scripts/Shadows.cs:211-236 | One directional light with four cascades in a 1024 atlas gives split 2, tile size 512, a 1024×1024 acquire and four tiles. |
| ShadowAtlas.StoreAtNextTile | Assets/Scripts/Shadows.cs:161-171 | Storing a reservation at the current count keeps every reservation stored at its first tile and advances the count by its size. |
| ShadowAtlas.Shadows.Setup | Assets/Scripts/Shadows.cs:87-95 | Afterwards no reservation of any kind remains and the shadow mask is cleared. The culling results and settings are stored and nothing is recorded. |
| ShadowAtlas.Shadows.ReserveDirectionalShadows | Assets/Scripts/Shadows.cs:105-135 | The new state and the returned data are ReserveDirectional of the old state, with the caster-bounds oracle for the light. |
| ShadowAtlas.Shadows.ReserveOtherShadows | Assets/Scripts/Shadows.cs:138-175 | The new state and the returned data are ReserveOther of the old state. The class invariant is kept: the tile count matches the reservations and each reservation is stored at its first tile. |
| ShadowAtlas.Shadows.ReserveShadowedOther | Assets/Scripts/Shadows.cs:145-174 | For a light that casts shadows, the new state and the data are ReserveOther of the old state, and the class invariant is kept. |
| ShadowAtlas.Shadows.MarkShadowmask | Assets/Scripts/Shadows.cs:145-152 | The shadow-mask flag is raised exactly for a mixed light in shadow-mask mode, and the channel is its occlusion channel or -1. |
| ShadowAtlas.Shadows.StoreOtherLight | Assets/Scripts/Shadows.cs:161-171 | The reservation is appended and the class invariant is kept. |
| ShadowAtlas.Shadows.SetTileViewport | Assets/Scripts/Shadows.cs:405-410 | The returned offset is TileOffset(index, split), and the viewport command is scaled by the tile size. |
| ShadowAtlas.Shadows.SetKeywords | Assets/Scripts/Shadows.cs:412-422 | Keyword i is enabled iff i is the chosen index, and every other keyword is disabled, in order. |
| ShadowAtlas.Shadows.RenderDirectionalLight | Assets/Scripts/Shadows.cs:239-280 | The cascade loop renders tiles i × cascadeCount to i × cascadeCount + cascadeCount − 1 of the directional owners. |
| ShadowAtlas.Shadows.RenderDirectionalTiles | Assets/Scripts/Shadows.cs:226-228 | The light loop renders exactly the tiles 0 to count × cascadeCount − 1, in order. |
| ShadowAtlas.Shadows.RenderDirectionalShadows | Assets/Scripts/Shadows.cs:211-236 | Records exactly DirectionalAtlasCommands of the reserved lights. |
| ShadowAtlas.Shadows.RenderSpotShadows | Assets/Scripts/Shadows.cs:318-345 | A spot light renders its single tile. |
| ShadowAtlas.Shadows.RenderPointShadows | Assets/Scripts/Shadows.cs:347-382 | A point light renders its six consecutive face tiles. |
| ShadowAtlas.Shadows.RenderOtherLight | Assets/Scripts/Shadows.cs:298-309 | One step of the stride loop moves from one reservation's start to the next (by 6 or 1) and renders exactly the tiles in between. |
| ShadowAtlas.Shadows.RenderOtherTiles | Assets/Scripts/Shadows.cs:298-309 | The stride-6/1 loop renders every reserved tile once, in order, and stops at the reserved count. |
| ShadowAtlas.Shadows.RenderOtherShadows | Assets/Scripts/Shadows.cs:283-316 | Records exactly OtherAtlasCommands of the reservations. |
| ShadowAtlas.Shadows.Render | Assets/Scripts/Shadows.cs:178-208 | Records exactly RenderCommands of the reservation state, the settings and the shadowmask mode. |
| ShadowAtlas.Shadows.Cleanup | Assets/Scripts/Shadows.cs:448-456 | Records exactly CleanupCommands of the reservation state. |
| LightSetup.RangeAttenuation | Assets/Scripts/Lighting.cs:146 | 1 / max(range², 0.00001) is positive, at most 100000, and the exact inverse of range² when range² ≥ 0.00001. |
| LightSetup.SpotAngleData | Assets/Scripts/Lighting.cs:169-170 | The spot-angle pair maps the outer cosine to 0. It maps the inner cosine to 1 whenever the cone difference is at least 0.001. |
| LightSetup.CollectCounts | Assets/Scripts/Lighting.cs:63-98 | The loop gives one index-map entry per visible light. It fills min(candidates, 4) directional slots and min(candidates, 64) other slots. |
| LightSetup.IndexMapIsRank | Assets/Scripts/Lighting.cs:78-97 | Entry i is the number of earlier accepted point and spot lights when light i is an accepted point or spot light. Otherwise it is −1 (directional, masked-out, Area or over-capacity). |
| LightSetup.IndexMapSlots | Assets/Scripts/Lighting.cs:94-108 | The padded map has the engine's length and every entry past the visible lights is −1. Every entry lies in [−1, otherLightCount), and the non-negative entries strictly increase, so they are distinct. |
| LightSetup.OtherSlotOfLight | Assets/Scripts/Lighting.cs:142-173 | The slot an index-map entry names holds that light's colour, position and range attenuation. Its spot angles are (0, 1) for a point light and the cone data for a spot light. |
| LightSetup.DirectionalSlotOfLight | Assets/Scripts/Lighting.cs:72-77 | The k-th accepted directional light fills directional slot k with its colour and its negated forward direction and layer mask. |
| LightSetup.StepReservations | Assets/Scripts/Lighting.cs:68-91 | One visible light requests at most one reservation, of the right kind, and only when it gets a slot. |
| LightSetup.DirectionalReservationsOfAcceptedLights | Assets/Scripts/Lighting.cs:72-77 | Every directional reservation belongs to an accepted directional light, in visibility order. |
| LightSetup.OtherReservationsOfAcceptedLights | Assets/Scripts/Lighting.cs:78-91 | Every other-light reservation belongs to an accepted point or spot light, in visibility order. |
| LightSetup.UploadCommandsShape | Assets/Scripts/Lighting.cs:113-128 | Both counts are published. The arrays of a category are uploaded iff its count is positive. |
| LightSetup.UploadCommandsPoolFree | Assets/Scripts/Lighting.cs:113-128 | The uploads touch no target. |
| LightSetup.Lighting.SetupDirectionalLight | Assets/Scripts/Lighting.cs:132-139 | Slot index gets the light's record, and the light's directional reservation is made. No other slot changes. |
| LightSetup.Lighting.SetupPointLight | Assets/Scripts/Lighting.cs:142-154 | Slot index gets the point light's record, with spot angles (0, 1), and its other reservation is made. No other slot changes. |
| LightSetup.Lighting.SetupSpotLight | Assets/Scripts/Lighting.cs:157-173 | Slot index gets the spot light's record and its reservation is made. No other slot changes. |
| LightSetup.Lighting.CollectDirectional | Assets/Scripts/Lighting.cs:72-77 | The directional case is one CollectStep. |
| LightSetup.Lighting.CollectPoint | Assets/Scripts/Lighting.cs:78-84 | The point case is one CollectStep. |
| LightSetup.Lighting.CollectSpot | Assets/Scripts/Lighting.cs:85-91 | The spot case is one CollectStep. |
| LightSetup.Lighting.SetupVisibleLight | Assets/Scripts/Lighting.cs:65-93 | The loop body (the layer test, then the switch on the light type) is one CollectStep. |
| LightSetup.Lighting.VisitLight | Assets/Scripts/Lighting.cs:65-97 | One pass of the loop is one CollectStep, and with per-object lights it writes that light's index-map entry. |
| LightSetup.Lighting.CollectVisibleLights | Assets/Scripts/Lighting.cs:63-98 | The slots, counts, entries and reservations after the loop are Collect of the visible lights, and the slots past each count keep their old contents. The index map's first entries are those entries, with later entries untouched. |
| LightSetup.Lighting.FillIndexMapTail | Assets/Scripts/Lighting.cs:99-104 | Every entry from the first loop's end on is −1, and earlier entries are unchanged. |
| LightSetup.Lighting.SetupLight | Assets/Scripts/Lighting.cs:56-129 | The slots and reservations are those of Collect, and the slots past the counts keep their old contents. The index map is the padded rank map with per-object lights, and untouched otherwise. The uploads match the filled counts. |
| LightSetup.Lighting.UploadLights | Assets/Scripts/Lighting.cs:113-128 | Records exactly UploadCommands of the two counts. |
| LightSetup.Lighting.Setup | Assets/Scripts/Lighting.cs:43-53 | Shadows are reset, then lights collected and reservations made, then the shadows rendered from exactly those reservations. The slots past the counts keep their old contents. With lights per object the index map becomes the collected map padded with -1 to the engine's length (Lighting.cs:94-105); without, the stored map is unchanged. |
| LightSetup.Lighting.Cleanup | Assets/Scripts/Lighting.cs:175-178 | Records the shadows' CleanupCommands. |
| PostFX.ActiveSettingsRule | Assets/Scripts/PostFXStack.cs:111 | The stack is active iff settings exist and the camera is a game camera, or a scene view with image effects shown. An active stack keeps the given settings. |
| PostFX.DepthFrom | Assets/Scripts/PostFXStack.cs:205-220 | The pyramid loop runs at most maxIterations times. Every level it builds fits the downscale limit, and it stops before maxIterations only at a level that does not fit. |
| PostFX.PyramidDepthBounds | Assets/Scripts/PostFXStack.cs:177-220 | Past the early return, the pyramid has between 1 and maxIterations ≤ 16 levels, each fitting the limit. |
| PostFX.LowerMembers | Assets/Scripts/PostFXStack.cs:95-99 | The pyramid targets below m are exactly the IDs BloomPyramidId to BloomPyramidId + m − 1. |
| PostFX.DownHeld | Assets/Scripts/PostFXStack.cs:205-220 | n levels acquire exactly the 2n consecutive pyramid IDs, each once. |
| PostFX.DownAcquired | Assets/Scripts/PostFXStack.cs:211-213 | The downsampling loop acquires exactly the lower 2n pyramid IDs. |
| PostFX.UpHeld | Assets/Scripts/PostFXStack.cs:245-253 | The upsampling loop releases, pair by pair, everything above level 0's first target, with every release matching a held target. |
| PostFX.UpAcquired | Assets/Scripts/PostFXStack.cs:245-253 | The upsampling loop acquires nothing. |
| PostFX.TeardownStart | Assets/Scripts/PostFXStack.cs:241-244 | Releasing the top level's horizontal target leaves every lower pyramid target held, together with the top level's result. |
| PostFX.TeardownHeld | Assets/Scripts/PostFXStack.cs:241-258 | In both branches (more than one level, by way of `fromId - 1` and `toId -= 5`, or a single level) the teardown leaves exactly the last source held. |
| PostFX.BloomHeld | Assets/Scripts/PostFXStack.cs:162-271 | After DoBloom only the bloom result is held; the prefilter and every pyramid target are released. |
| PostFX.BloomAcquired | Assets/Scripts/PostFXStack.cs:195-266 | DoBloom acquires exactly the prefilter, the result and the 2n pyramid IDs. |
| PostFX.BloomTargetsReserved | Assets/Scripts/PostFXStack.cs:95-99 | Every target DoBloom acquires is one of the stack's own IDs, within the 32 pyramid IDs the constructor registers. |
| PostFX.BloomModeRule | Assets/Scripts/PostFXStack.cs:228-240 | Additive mode uses BloomAdd for both passes at full intensity. Scattering uses BloomScatter/BloomScatterFinal with final intensity min(intensity, 0.95). |
| PostFX.GradingPass | Assets/Scripts/PostFXStack.cs:367-368 | The grading pass is ColorGradingNone + the tone-mapping mode. |
| PostFX.LUTInLogRule | Assets/Scripts/PostFXStack.cs:369 | The LUT is rendered in log C iff the camera is HDR and a tone-mapping mode is chosen. |
| PostFX.FXAAQualityRule | Assets/Scripts/PostFXStack.cs:327-343 | Low enables only the low keyword, Medium only the medium one, High neither, so at most one is enabled. |
| PostFX.FinalLoadRule | Assets/Scripts/PostFXStack.cs:148-153 | The camera target is not loaded iff the destination blend is Zero and the camera rect is full. |
| PostFX.BicubicRule | Assets/Scripts/PostFXStack.cs:399-418 | The final pass records no `_CopyBicubic` float when the buffer is as wide as the camera. Otherwise it records `_CopyBicubic` = 1 iff the mode is UpAndDown, or UpOnly with a narrower buffer, and `_CopyBicubic` = 0 in every other case. |
| PostFX.RenderFinalTargets | Assets/Scripts/PostFXStack.cs:118-129 | A bloom-and-final chain acquires the LUT; it acquires the colour-grading result iff FXAA is enabled and the final result iff the buffer width differs from the camera's. |
| PostFX.DrawFinalCommandsShape | Assets/Scripts/PostFXStack.cs:143-159 | DrawFinal draws once into the camera and touches no target. |
| PostFX.FinalDrawsOnce | Assets/Scripts/PostFXStack.cs:387-421 | DoFinal issues exactly one draw into the camera, from the selected source with the selected pass. |
| PostFX.LUTHeld | Assets/Scripts/PostFXStack.cs:356-370 | The LUT commands acquire exactly the LUT target, which is still held after the grading draw. |
| PostFX.PrepareHeld | Assets/Scripts/PostFXStack.cs:379-385 | The grading result is acquired iff FXAA is enabled. |
| PostFX.OutputHeld | Assets/Scripts/PostFXStack.cs:387-421 | On both size branches, the grading result (if acquired) and the final result (if acquired) are released. |
| PostFX.FinalHeld | Assets/Scripts/PostFXStack.cs:346-423 | DoFinal leaves the pool as it found it. |
| PostFX.FinalAcquired | Assets/Scripts/PostFXStack.cs:356-422 | DoFinal acquires the LUT always, the grading result iff FXAA is on, and the final result iff bufferSize.x ≠ pixelWidth. |
| PostFX.RenderHeld | Assets/Scripts/PostFXStack.cs:118-129 | Render leaves the pool as it found it, including the bloom result it releases after DoFinal. |
| PostFX.RenderBalanced | Assets/Scripts/PostFXStack.cs:118-129 | Render's log is balanced. |
| PostFX.PostFXStack.Setup | Assets/Scripts/PostFXStack.cs:102-116 | Every frame field is stored, and the kept settings follow the activity rule, applied after the scene-view toggle. |
| PostFX.PostFXStack.ApplySceneViewState | Assets/Scripts/PostFXStack.Editor.cs:13-20 | A scene view with image effects off drops the settings; otherwise they are unchanged. |
| PostFX.PostFXStack.Draw | Assets/Scripts/PostFXStack.cs:132-140 | One draw of the pass from one target into another. |
| PostFX.PostFXStack.DrawFinal | Assets/Scripts/PostFXStack.cs:143-159 | Records DrawFinalCommands of the current frame. |
| PostFX.PostFXStack.Render | Assets/Scripts/PostFXStack.cs:118-129 | Records exactly RenderCommands of the current frame and settings. |
| PostFX.PostFXStack.DoBloom | Assets/Scripts/PostFXStack.cs:162-271 | Returns false, recording nothing, exactly on the early-return condition over the camera or buffer half size. Otherwise it records BloomCommands for the pyramid depth. |
| PostFX.PostFXStack.Prefilter | Assets/Scripts/PostFXStack.cs:184-198 | Records the threshold vector, the prefilter acquire and the prefilter draw. |
| PostFX.PostFXStack.BuildPyramid | Assets/Scripts/PostFXStack.cs:201-220 | The loop counter ends at the pyramid depth, with fromId and toId at the last level's IDs, after recording every level in order. |
| PostFX.PostFXStack.SetBloomIntensity | Assets/Scripts/PostFXStack.cs:223-240 | The prefilter is released and the passes and final intensity are chosen by the mode. |
| PostFX.PostFXStack.CombinePyramid | Assets/Scripts/PostFXStack.cs:241-258 | The teardown of an n-level pyramid, ending with fromId at the last combined target. |
| PostFX.PostFXStack.FinishBloom | Assets/Scripts/PostFXStack.cs:261-268 | The final bloom draw into a buffer-sized result, then the release of its source. |
| PostFX.PostFXStack.DoFinal | Assets/Scripts/PostFXStack.cs:346-423 | Records exactly FinalCommands of the current frame and tone-mapping mode. |
| PostFX.PostFXStack.RenderLUT | Assets/Scripts/PostFXStack.cs:356-378 | The LUT acquire, parameters and grading draw. |
| PostFX.PostFXStack.DrawDirect | Assets/Scripts/PostFXStack.cs:387-398 | The unscaled branch. |
| PostFX.PostFXStack.DrawRescaled | Assets/Scripts/PostFXStack.cs:399-421 | The scaled branch through the final-result target. |
| PostFX.PostFXStack.ConfigureFXAA | Assets/Scripts/PostFXStack.cs:327-343 | Records the quality keywords and the config vector. |
| CameraFrames.CopyFlagsRule | Assets/Scripts/CameraRender.cs:69-78 | Reflection cameras use the reflection flags, whatever their settings. Other cameras copy iff both the pipeline and the camera ask. |
| CameraFrames.FXAARule | Assets/Scripts/CameraRender.cs:114-116 | The post-FX stack's frame has FXAA enabled iff the pipeline enables it and the camera allows it, with the pipeline's quality. The stack's log then acquires the colour-grading result target iff post-FX runs with FXAA enabled. |
| CameraFrames.UnmaskedLightsRule | Assets/Scripts/CameraRender.cs:113 | Without light masking every light with some layer bit passes the layer test. |
| CameraFrames.MaskedLightsRule | Assets/Scripts/CameraRender.cs:113 | With light masking, CollectVisibleLights (Lighting.cs:63-97) takes a light that shares no layer bit with the camera as neither directional nor other, and maps it to -1. A point or spot light that shares one is mapped to its rank among the earlier candidates while there is room. |
| CameraFrames.MaskedLightRank | Assets/Scripts/CameraRender.cs:113 | With light masking, a light's index-map entry is its rank among the earlier other-light candidates under the camera's mask, or -1 when it is not a candidate or the other lights are full. |
| CameraFrames.ComponentlessCamera | Assets/Scripts/CameraRender.cs:66-67 | A camera without the component renders with the default settings: the pipeline's render scale and post-FX, FXAA and alpha off, every light kept, One/Zero blending, and the pipeline's copy flags unless it is a reflection camera. |
| CameraFrames.FrameLogsBalanced | Assets/Scripts/CameraRender.cs:60-138 | A culled frame appended to balanced logs leaves the camera, post-FX, lighting and shadow logs all balanced. |
| CameraFrames.ShadowDistanceRule | Assets/Scripts/CameraRender.cs:143 | The shadow distance is the smaller of the maximum distance and the far plane. |
| CameraFrames.BufferSizeRule | Assets/Scripts/CameraRender.cs:97-107 | Unscaled cameras get their pixel size exactly. Scaled cameras get the truncated size at the scale clamped to [0.1, 2], at most twice the pixel size. |
| CameraFrames.ClearRule | Assets/Scripts/CameraRender.cs:153-183 | With an intermediate buffer, depth is always cleared and colour unless the flags are Skybox. Otherwise depth is cleared iff the flags are not Nothing, and colour iff they are Color. |
| CameraFrames.CopyRule | Assets/Scripts/CameraRender.cs:271-311 | Each copy is a CopyTexture when supported and a draw otherwise. The attachments are re-bound with Load iff copying is unsupported. |
| CameraFrames.CameraAcquires | Assets/Scripts/CameraRender.cs:155-170 | The colour and depth attachments are acquired iff scaled rendering, a colour copy, a depth copy or active post-FX applies, and the copies iff they are wanted. |
| CameraFrames.ReleaseHeld | Assets/Scripts/CameraRender.cs:313-326 | Cleanup releases exactly what Setup and CopyAttachments acquired. |
| CameraFrames.CameraCommandsBalanced | Assets/Scripts/CameraRender.cs:150-326 | The camera's own log for a frame is balanced. |
| CameraFrames.ContextBalanced | Assets/Scripts/CameraRender.cs:118-135 | The camera's log with the post-FX chain run between its geometry and cleanup is still balanced. |
| CameraFrames.CameraOutputRule | Assets/Scripts/CameraRender.cs:124-132 | The camera draws into its target once iff post-FX is off and an intermediate buffer is used, and otherwise not at all. |
| CameraFrames.FinalBlitDrawsOnce | Assets/Scripts/CameraRender.cs:239-255 | The final blit draws into the camera exactly once. |
| CameraRendering.CameraRender.Render | Assets/Scripts/CameraRender.cs:60-138 | A camera that cannot be culled leaves every log unchanged. A culled camera records, into the camera, post-FX, lighting and shadow logs, exactly the frame determined by its inputs. |
| CameraRendering.CameraRender.ChooseTargets | Assets/Scripts/CameraRender.cs:63-86 | The settings, post-FX override, render scale, copy flags and scaled-rendering decision are those of the frame rules. |
| CameraRendering.CameraRender.Cull | Assets/Scripts/CameraRender.cs:140-148 | Culling succeeds iff the camera has culling parameters, with the clamped shadow distance. |
| CameraRendering.CameraRender.RenderCulled | Assets/Scripts/CameraRender.cs:96-137 | A culled frame records exactly RecordedLogs of its inputs. |
| CameraRendering.CameraRender.PrepareFrame | Assets/Scripts/CameraRender.cs:96-116 | HDR, the buffer size, the lights and shadows, and the post-FX stack are set up as the inputs determine. |
| CameraRendering.CameraRender.SizeTargets | Assets/Scripts/CameraRender.cs:96-110 | HDR and the buffer size follow the rules, and the buffer-size vector is recorded. |
| CameraRendering.CameraRender.SetupLights | Assets/Scripts/CameraRender.cs:113 | Lighting runs with the camera's light mask. |
| CameraRendering.CameraRender.FinishFrame | Assets/Scripts/CameraRender.cs:118-135 | Setup, geometry, output and cleanup complete the frame's logs. |
| CameraRendering.CameraRender.RecordFrame | Assets/Scripts/CameraRender.cs:118-135 | The camera log from Setup on, the post-FX chain and the shadow release. |
| CameraRendering.CameraRender.Output | Assets/Scripts/CameraRender.cs:124-132 | Post-FX renders when active; otherwise the final blit runs iff the intermediate buffer is used. |
| CameraRendering.CameraRender.Setup | Assets/Scripts/CameraRender.cs:150-189 | The intermediate-buffer decision and the attachment, clear and missing-texture commands. |
| CameraRendering.CameraRender.DrawVisibleGeometry | Assets/Scripts/CameraRender.cs:192-225 | Opaque, skybox, the copies only when a copy is wanted, then transparent. |
| CameraRendering.CameraRender.CopyAttachments | Assets/Scripts/CameraRender.cs:271-311 | Records exactly CopyCommands of the copy flags and copy support. |
| CameraRendering.CameraRender.Draw | Assets/Scripts/CameraRender.cs:227-236 | One draw with pass 1 for depth and 0 for colour. |
| CameraRendering.CameraRender.DrawFinal | Assets/Scripts/CameraRender.cs:239-255 | The blend factors, the blit with the load rule, then the factors reset to One/Zero. |
| CameraRendering.CameraRender.Cleanup | Assets/Scripts/CameraRender.cs:313-326 | Lighting cleanup, then the attachments released iff the intermediate buffer was used, and the copies iff they were made. |

## Left out

- Floating-point shading math is out: shadow matrices (ConvertToAtlasMatrix), SetCascadeData, SetOtherTileData, the point-light fovBias and normal-bias terms, the distance-fade vector, the bloom threshold curve, and the colour-adjustment, white-balance, split-toning, channel-mixer and shadows/midtones/highlights packing. Each is one opaque `SetVector`/`SetArray` command, because the values do not affect any target, draw or keyword decision.
- The light vectors go in as inputs rather than being computed: colours, positions, directions, and the spot cosines from the light's angles. The model keeps them as real-valued records and does not model float rounding. RangeAttenuation and SpotAngleData compute over exact reals.
- Texture formats, filter modes, depth bits and MSAA are not modelled. Targets carry only an ID and a size.
- ExecuteBuffer, ExecuteCommandBuffer, Clear and Submit are not modelled. Each class's log is cumulative, so a log holds everything its buffer ever recorded and executed.
- BeginSample/EndSample, SetupCameraProperties, the constructor's material and missing-texture creation, and Dispose are profiling or engine hooks with no bookkeeping in the model.
- The editor half of CameraRender (CameraRender.Editor.cs: PrepareBuffer, PrepareForSceneWindow, DrawUnsupportedShaders, the gizmo draws) is not part of this model; CameraRender.cs calls those hooks at lines 88-89, 121-122 and 133, and the model records nothing for them.
- CameraRendering.CameraRender.ChooseTargets: a scene-view camera's scaled rendering is not forced off. Whatever PrepareForSceneWindow (CameraRender.cs:89) does to `useScaledRendering` is not modelled, so CameraFrames.UseScaledRendering and CameraFrames.BufferSizeFor apply the render scale to scene-view cameras too.
- The culling service is an input: TryGetCullingParameters succeeding, the culled visible lights, GetShadowCasterBounds per light, and the index map's length. Cull's shadow distance is computed but the culling itself is not modelled.
- SetLightIndexMap and the `_LIGHTS_PER_OBJECT` global keyword are one boolean field and one sequence field of `Lighting`. We assume the engine's light index map has room for every visible light (`WellFormedCulling`), which Unity guarantees.
- DrawRenderers' sorting, batching, instancing and per-object data flags and the camera's rendering-layer filter on renderers (CameraRender.cs:210-211) are not modelled; each queue is one `DrawGeometry` command.
- The dynamic-batching and GPU-instancing arguments of Render are not modelled, since only DrawRenderers reads them.
- CameraRendering.CameraRender.Render: it requires the cascade count to be in its inspector range 1..4, and bloom's maximum iterations in 0..16 (`ValidShadowSettings`, `ValidPostFX`). The source relies on the inspector ranges for these too.
- PostFX.PostFXStack.Render: it requires bloom's maximum iterations in 0..16, the inspector range, so that the pyramid stays within the 32 IDs the constructor registers.
- CameraConfig.GetRenderScale, CameraFrames.UseScaledRendering, CameraFrames.BufferSizeFor, PostFX.BloomModeRule: the render scale, its product with the pixel size and the 0.99/1.01/0.95 comparisons are over exact reals. The source's single-precision rounding is not modelled, so a truncated size can differ by one pixel (20 × 1.05f and 1000 × 0.7f round differently in the source).
- The scene view's image-effects toggle (`SceneView.currentDrawingSceneView`) is a boolean input to Setup.
- The camera's pipeline loop (CustomRenderPipeline.cs), the asset classes, the lightmapper delegate and the instancing demo are not part of this model.
