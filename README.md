# MSRP render pipeline core, modelled in Dafny

This project models the core of MSRP, a custom scriptable render pipeline for
Unity, as it records work for the GPU.

- **Command streams.** Each command buffer or render context is an
  append-only sequence of commands.
- **Engine objects.** Cameras, lights and render textures are values, or
  small classes where the pipeline updates them in place.
- **Proofs.** What is proved is what each step records and leaves behind: the
  order of a frame's phases, which temporaries are acquired and released,
  which slots the light tables fill, which history texture TAA reads, and
  which textures the FFT ocean ping-pongs between.

| module | file | models |
|---|---|---|
| `Rendering` | rendering.dfy | the shared vocabulary: property ids, textures, commands, and multiset counts of acquired and released temporaries |
| `Settings` | settings.dfy | `CameraSettings`, with its render-scale modes; the buffer and light settings records |
| `RenderTextures` | pool.dfy | `RenderTexture.GetTemporary` / `ReleaseTemporary` as a pool of live handles |
| `CameraRendering` | camera_renderer.dfy | `CameraRenderer`: one camera's frame, from culling to submit, on the Forward and Deferred paths |
| `Lighting` | lighting.dfy | `Lighting`: the light loop, the fixed-size light tables, the light index map, area-light quads |
| `LtcAreaLights` | ltc.dfy | `LTCAreaLight`: the lazily created singleton and its LTC lookup texture |
| `Taa` | taa.dfy | `TAA`: per-camera jitter records, the pair of history textures, the resolve |
| `PreIntegratedBrdf` | brdf.dfy | `PreIntegrateBRDF`: the 512x512 BRDF lookup table |
| `VelocityBuffer` | velocity.dfy | `VelocityBufferRenderer`: the motion-vector pass |
| `Pipeline` | pipeline.dfy | `CustomRenderPipeline.Render`: the camera loop with the planar-reflection pre-pass |
| `OceanSimulation` | fft_ocean.dfy | `FFTOceanSimulation`: the ocean's textures and its per-frame compute schedule |
| `TextureConversion` | texture_convert.dfy | the editor's `TextureConvert` colour-key remap and its paths |

Stateful source classes are Dafny classes. Their fields are updated in place,
and their methods carry `modifies` clauses and are proved against
specification functions. Code that only computes a value is modelled as
functions and lemmas.

Clear flags follow the code. A camera rendering through an intermediate buffer
has `Depth` and `Nothing` raised to `SolidColor`, and `Skybox` is kept. So the
intermediate buffer always clears depth and clears colour unless a skybox is
drawn (`IntermediateClear`).

## Model

| member | source | states |
|---|---|---|
| Settings.DefaultCameraSettings | Assets/MSRP/Runtime/CameraSettings.cs:11-42 | a camera without its own settings copies colour and depth, renders every layer, inherits the render scale (1), keeps the pipeline's post-processing and blends One/Zero |
| Settings.GetRenderScaleModes | Assets/MSRP/Runtime/CameraSettings.cs:44-49 | Inherit returns the pipeline scale whatever the camera's own scale; Override returns the camera's scale whatever the pipeline's; Multiply returns their product |
| Settings.GetRenderScaleBounds | Assets/MSRP/Runtime/CameraSettings.cs:44-49 | with both scales in the inspector's range [0.1, 2] the resolved scale is in [0.01, 4], and in [0.1, 2] unless the mode is Multiply |
| RenderTextures.TexturePool.GetTemporary | Assets/MSRP/Runtime/TAA.cs:197-198 | a texture with the requested size, format and sampling under a handle not live before, which becomes live |
| RenderTextures.TexturePool.ReleaseTemporary | Assets/MSRP/Runtime/TAA.cs:191 | the handle is no longer live; nothing else changes |
| Rendering.U32 | Assets/MSRP/Runtime/CameraRenderer.cs:469 | the `(uint)` cast of a layer mask: non-negative values are kept, negative 32-bit values wrap by 2^32 |
| Rendering.AcquiredMembers | Assets/MSRP/Runtime/CameraRenderer.cs:112-119 | a temporary counts as acquired by a stream exactly when some `GetTemporaryRT` in it names that id |
| Rendering.ReleasedMembers | Assets/MSRP/Runtime/CameraRenderer.cs:387-388 | a temporary counts as released exactly when a `ReleaseTemporaryRT` of that id is in the stream |
| CameraRendering.ClampScale | Assets/MSRP/Runtime/CameraRenderer.cs:266 | `Mathf.Clamp` to [0.1, 2]: in range unchanged, below gives 0.1, above gives 2 |
| CameraRendering.Truncate | Assets/MSRP/Runtime/CameraRenderer.cs:267-268 | C#'s `(int)` cast rounds toward zero: from below for non-negative reals, from above for negative ones |
| CameraRendering.BufferSideBounds | Assets/MSRP/Runtime/CameraRenderer.cs:264-274 | unscaled, a buffer side is the camera's pixel side; scaled, it is that side times the clamped scale, truncated; never more than twice the camera's side |
| CameraRendering.BufferSizeBounds | Assets/MSRP/Runtime/CameraRenderer.cs:264-274 | both buffer sides obey the bounds of `BufferSideBounds` |
| CameraRendering.ShadowDistance | Assets/MSRP/Runtime/CameraRenderer.cs:369 | the culling shadow distance is the smaller of the configured maximum and the far clip plane, and is one of the two |
| CameraRendering.AdjustClearFlags | Assets/MSRP/Runtime/CameraRenderer.cs:105-110 | without an intermediate buffer the flags are kept; with one they are at most SolidColor, and flags already at most SolidColor are kept |
| CameraRendering.IntermediateClear | Assets/MSRP/Runtime/CameraRenderer.cs:128-132 | through an intermediate buffer the clear always clears depth, and clears colour to the background exactly when the flags are not Skybox |
| CameraRendering.DirectClear | Assets/MSRP/Runtime/CameraRenderer.cs:128-132 | straight to the camera target, depth is cleared exactly when the flags are not Nothing, colour exactly when they are SolidColor |
| CameraRendering.AcquireAllCounts | Assets/MSRP/Runtime/CameraRenderer.cs:153-185 | acquiring a list of ids acquires exactly that multiset of ids and releases nothing |
| CameraRendering.ReleaseAllCounts | Assets/MSRP/Runtime/CameraRenderer.cs:400-406 | releasing a list of ids releases exactly that multiset and acquires nothing |
| CameraRendering.SetupSurfaces | Assets/MSRP/Runtime/CameraRenderer.cs:140-207 | a path's setup acquires exactly its attachments when there is an intermediate buffer, nothing otherwise, and releases nothing |
| CameraRendering.AcquiresSurfaces | Assets/MSRP/Runtime/CameraRenderer.cs:147-195 | the acquisition block of a setup acquires the path's attachments (two for Forward, eight for Deferred) and releases nothing |
| CameraRendering.CopyColorSurfaces | Assets/MSRP/Runtime/CameraRenderer.cs:544-558 | the colour copy acquires the colour texture exactly when it is requested, and releases nothing |
| CameraRendering.CopyDepthSurfaces | Assets/MSRP/Runtime/CameraRenderer.cs:560-574 | the depth copy acquires the depth texture exactly when it is requested, and releases nothing |
| CameraRendering.CopySurfaces | Assets/MSRP/Runtime/CameraRenderer.cs:542-587 | `CopyAttachments` acquires exactly the requested copy textures and releases nothing |
| CameraRendering.GeometrySurfaces | Assets/MSRP/Runtime/CameraRenderer.cs:440-489 | the geometry pass acquires exactly the requested copy textures and releases nothing |
| CameraRendering.CopyReleaseCounts | Assets/MSRP/Runtime/CameraRenderer.cs:389-397 | cleanup releases exactly the copy textures that were requested |
| CameraRendering.ReleasesSurfaces | Assets/MSRP/Runtime/CameraRenderer.cs:381-419 | with an intermediate buffer, cleanup releases the path's release list plus the copy textures; without one, nothing |
| CameraRendering.CleanupSurfaces | Assets/MSRP/Runtime/CameraRenderer.cs:377-425 | `Cleanup` acquires nothing and releases exactly what `ReleasesSurfaces` names |
| CameraRendering.PassSurfaces | Assets/MSRP/Runtime/CameraRenderer.cs:299-340 | from setup to the transparent draw a frame acquires the path's attachments (when intermediate) plus the copy textures and releases nothing |
| CameraRendering.FinalInert | Assets/MSRP/Runtime/CameraRenderer.cs:345-358 | the TAA resolve and the final blit acquire and release no temporary |
| CameraRendering.EpilogueSurfaces | Assets/MSRP/Runtime/CameraRenderer.cs:345-362 | from the TAA resolve to submit a frame acquires nothing and releases exactly what cleanup releases |
| CameraRendering.PreludeInert | Assets/MSRP/Runtime/CameraRenderer.cs:276-297 | the buffer-size global, lighting, post-processing and BRDF setup acquire and release no camera temporary |
| CameraRendering.PlanSurfaces | Assets/MSRP/Runtime/CameraRenderer.cs:276-362 | after culling, a frame acquires the path's attachments and copy textures and releases the path's release list and copy textures |
| CameraRendering.FrameSurfaces | Assets/MSRP/Runtime/CameraRenderer.cs:215-363 | a frame acquires and releases nothing when culling fails or without an intermediate buffer; otherwise it acquires the path's attachments plus exactly the requested copies and releases the path's release list plus those copies |
| CameraRendering.CullInert | Assets/MSRP/Runtime/CameraRenderer.cs:258-261 | culling acquires and releases nothing: a culled frame counts like its plan |
| CameraRendering.AttachmentLists | Assets/MSRP/Runtime/CameraRenderer.cs:384-415 | Forward releases the attachments it acquires; Deferred releases all of its attachments except the colour attachment, which is not in its release list |
| CameraRendering.LeakOne | Assets/MSRP/Runtime/CameraRenderer.cs:399-415 | an acquire list with exactly one id more than its release list, that id not copied, leaves that id acquired and not released |
| CameraRendering.ForwardFrameBalanced | Assets/MSRP/Runtime/CameraRenderer.cs:386-398 | on the Forward path every temporary a frame acquires is released, with the same multiplicity |
| CameraRendering.DeferredFrameLeaksColorAttachment | Assets/MSRP/Runtime/CameraRenderer.cs:399-415 | on the Deferred path with an intermediate buffer, the frame acquires exactly one temporary more than it releases: the colour attachment, which is never released |
| CameraRendering.FinalBlitRestoresBlend | Assets/MSRP/Runtime/CameraRenderer.cs:603-621 | the final blit blends with the camera's mode and leaves the blend factors at One/Zero afterwards, whatever mode it used |
| CameraRendering.PostFxNeedsIntermediate | Assets/MSRP/Runtime/CameraRenderer.cs:103-104 | an active post-processing stack forces an intermediate buffer |
| CameraRendering.SetupRanks | Assets/MSRP/Runtime/CameraRenderer.cs:98-138 | everything `Setup` records belongs to the surface-setup phase |
| CameraRendering.CopyRanks | Assets/MSRP/Runtime/CameraRenderer.cs:542-587 | everything `CopyAttachments` records belongs to the copy phase |
| CameraRendering.GeometryOrdered | Assets/MSRP/Runtime/CameraRenderer.cs:440-489 | the geometry pass draws opaque, then the skybox, then the copies, then transparent |
| CameraRendering.PassOrdered | Assets/MSRP/Runtime/CameraRenderer.cs:299-340 | from setup to the transparent draw the phases come in order |
| CameraRendering.SetUpMarkersOrdered | Assets/MSRP/Runtime/CameraRenderer.cs:304-312 | the TAA setup and the area-light draw are both ranked in the phase after surface setup and before the opaque draw |
| CameraRendering.CleanupRanks | Assets/MSRP/Runtime/CameraRenderer.cs:377-425 | everything `Cleanup` records belongs to the cleanup phase |
| CameraRendering.EpilogueOrdered | Assets/MSRP/Runtime/CameraRenderer.cs:345-362 | the TAA resolve, post-processing or the final blit, cleanup and submit come in that order |
| CameraRendering.PlanOrdered | Assets/MSRP/Runtime/CameraRenderer.cs:276-362 | after culling, the whole frame is in phase order |
| CameraRendering.FrameOrdered | Assets/MSRP/Runtime/CameraRenderer.cs:215-363 | a frame's commands come in order: cull, lighting, post-processing and BRDF setup; surface acquisition and clear; TAA setup and the area-light draw; opaque; skybox; copies, including their full-screen draws and rebinding; transparent; TAA resolve; post-processing or the final blit and its draw; cleanup and releases; submit |
| CameraRendering.PlanMilestones | Assets/MSRP/Runtime/CameraRenderer.cs:276-362 | a culled frame sets up lighting, draws the opaque queue, the skybox and the transparent queue, and ends with `Submit` |
| CameraRendering.FrameMilestones | Assets/MSRP/Runtime/CameraRenderer.cs:283-362 | when culling succeeds the frame sets up lighting with the camera's light mask, draws both queues with the camera's layer mask, draws the skybox, and ends with `Submit` |
| CameraRendering.FinalBinds | Assets/MSRP/Runtime/CameraRenderer.cs:350-358 | the final step binds the camera target exactly when post-processing is inactive and an intermediate buffer was used, loading it exactly when the destination factor is not Zero |
| CameraRendering.BindsOnlyInFinal | Assets/MSRP/Runtime/CameraRenderer.cs:603-614 | only the final blit binds the camera target |
| CameraRendering.PlanFinalBlit | Assets/MSRP/Runtime/CameraRenderer.cs:350-358 | a plan binds the camera target exactly when post-processing is inactive and an intermediate buffer was used, loading it exactly when the destination factor is not Zero |
| CameraRendering.FinalBlit | Assets/MSRP/Runtime/CameraRenderer.cs:350-358 | a frame binds the camera target exactly when culling succeeded, post-processing is inactive and an intermediate buffer was used; it loads it exactly when the camera's destination blend factor is not Zero |
| CameraRendering.PlanMatches | Assets/MSRP/Runtime/CameraRenderer.cs:222-274 | the per-frame fields `Render` assigns step by step equal the plan computed from the request, whatever the renderer held before |
| CameraRendering.CameraRenderer.constructor | Assets/MSRP/Runtime/CameraRenderer.cs:38-39 | a new renderer has recorded nothing and knows whether `CopyTexture` is supported |
| CameraRendering.CameraRenderer.Setup | Assets/MSRP/Runtime/CameraRenderer.cs:98-207 | chooses the intermediate buffer (scaled, copies or post-processing) and appends the path's setup |
| CameraRendering.CameraRenderer.Cull | Assets/MSRP/Runtime/CameraRenderer.cs:365-375 | fails and records nothing when the camera cannot be culled; otherwise records the cull with the smaller shadow distance |
| CameraRendering.CameraRenderer.Draw | Assets/MSRP/Runtime/CameraRenderer.cs:589-601 | appends a full-screen triangle from one texture into another (pass 1 for depth) |
| CameraRendering.CameraRenderer.CopyInto | Assets/MSRP/Runtime/CameraRenderer.cs:550-557 | copies by `CopyTexture` where supported, by `Draw` otherwise |
| CameraRendering.CameraRenderer.CopyAttachments | Assets/MSRP/Runtime/CameraRenderer.cs:542-587 | appends the requested copies, then rebinds the attachments (loading them) when copying drew |
| CameraRendering.CameraRenderer.DrawVisibleGeometry | Assets/MSRP/Runtime/CameraRenderer.cs:440-540 | appends opaque, skybox, the copies when either is requested, transparent, with the path's lit pass tag |
| CameraRendering.CameraRenderer.DrawFinal | Assets/MSRP/Runtime/CameraRenderer.cs:603-621 | appends the final blend onto the camera target |
| CameraRendering.CameraRenderer.Cleanup | Assets/MSRP/Runtime/CameraRenderer.cs:377-425 | appends the collaborators' cleanups and the path's releases |
| CameraRendering.CameraRenderer.Submit | Assets/MSRP/Runtime/CameraRenderer.cs:427-432 | appends `Submit` |
| CameraRendering.CameraRenderer.RecordFrame | Assets/MSRP/Runtime/CameraRenderer.cs:276-362 | appends the whole plan of the frame after culling |
| CameraRendering.CameraRenderer.RecordPass | Assets/MSRP/Runtime/CameraRenderer.cs:299-340 | appends TAA setup, area lights and geometry |
| CameraRendering.CameraRenderer.RecordEpilogue | Assets/MSRP/Runtime/CameraRenderer.cs:345-362 | appends the TAA resolve, post-processing or the final blit, cleanup and submit |
| CameraRendering.CameraRenderer.BeginFrame | Assets/MSRP/Runtime/CameraRenderer.cs:222-257 | stores the path, camera, copies (reflection cameras use the reflection flags), post-processing override and whether the resolved scale is off 1 by more than 1% |
| CameraRendering.CameraRenderer.SizeFrame | Assets/MSRP/Runtime/CameraRenderer.cs:263-295 | stores HDR, the clamped and truncated buffer size, the light mask, FXAA, the layer mask and whether area lights are drawn |
| CameraRendering.CameraRenderer.Render | Assets/MSRP/Runtime/CameraRenderer.cs:215-363 | appends exactly the frame trace of the request (nothing when culling fails), leaving the plan in the renderer |
| Lighting.InvRangeSquared | Assets/MSRP/Runtime/Lighting.cs:252-253 | positive; the inverse of range squared, or of the floor 0.00001 when range squared is below it |
| Lighting.SpotFactorEnds | Assets/MSRP/Runtime/Lighting.cs:277-282 | point and area lights get a constant spot factor of 1; a spot light's factor is 0 at the outer cone and 1 at the inner cone |
| Lighting.TallyAt | Assets/MSRP/Runtime/Lighting.cs:108-173 | the loop's counters never exceed 4 directional and 64 other lights, and together never exceed the lights seen |
| Lighting.OtherSlot | Assets/MSRP/Runtime/Lighting.cs:132-165 | light `i` gets an other-light slot below 64 exactly when it is an in-mask point, spot or area light and the table is not yet full; otherwise -1 |
| Lighting.DirSlot | Assets/MSRP/Runtime/Lighting.cs:123-131 | light `i` gets a directional slot below 4 exactly when it is an in-mask directional light and the table is not yet full |
| Lighting.TallyCounts | Assets/MSRP/Runtime/Lighting.cs:119-166 | each counter is the number of competing in-mask lights, saturated at the table size |
| Lighting.TallyMonotone | Assets/MSRP/Runtime/Lighting.cs:111-173 | the counters never decrease along the loop |
| Lighting.SlotBelow | Assets/MSRP/Runtime/Lighting.cs:111-173 | every slot handed out so far is below the current count |
| Lighting.SlotsIncrease | Assets/MSRP/Runtime/Lighting.cs:124-164 | slots are handed out in increasing order, so no two stored lights share one |
| Lighting.SlotAdvance | Assets/MSRP/Runtime/Lighting.cs:124-164 | a stored light takes the current count as its slot and advances it by one; a skipped light leaves it unchanged |
| Lighting.SlotIsCountBefore | Assets/MSRP/Runtime/Lighting.cs:124-164 | a stored light's slot is the number of competing lights before it |
| Lighting.OtherSlotOwner | Assets/MSRP/Runtime/Lighting.cs:132-165 | every other-light slot below the count was handed to some earlier light |
| Lighting.DirSlotOwner | Assets/MSRP/Runtime/Lighting.cs:123-131 | every directional slot below the count was handed to some earlier light |
| Lighting.FullSkipsRest | Assets/MSRP/Runtime/Lighting.cs:133-159 | once 64 other lights are stored every later light is skipped |
| Lighting.AreaFlagIff | Assets/MSRP/Runtime/Lighting.cs:146-163 | `areaLightEnable` is set exactly when some stored light is shaded as an area light |
| Lighting.DirTableStored | Assets/MSRP/Runtime/Lighting.cs:234-244 | a stored directional light's colour, direction with mask, and shadow data are in its slot |
| Lighting.DirTableRest | Assets/MSRP/Runtime/Lighting.cs:124-129 | directional slots past the count keep their previous contents |
| Lighting.OtherTableStored | Assets/MSRP/Runtime/Lighting.cs:246-337 | a stored other light's data (by kind: point, spot or area) is in its slot |
| Lighting.OtherTableRest | Assets/MSRP/Runtime/Lighting.cs:133-164 | other-light slots past the count keep their previous contents |
| Lighting.AreaAxisStored | Assets/MSRP/Runtime/Lighting.cs:325-333 | a slot holding an area light holds its X axis (with w = 1) and Y axis; a slot holding another kind keeps its old axes |
| Lighting.AreaAxisRest | Assets/MSRP/Runtime/Lighting.cs:325-333 | area axes past the count keep their previous contents |
| Lighting.PublishedIff | Assets/MSRP/Runtime/Lighting.cs:191-231 | each table's arrays are published exactly when its count is positive, and the LTC table is bound exactly when an area light was stored |
| Lighting.PublishedInert | Assets/MSRP/Runtime/Lighting.cs:191-231 | publishing the tables acquires no temporary |
| Lighting.AreaQuadsMembers | Assets/MSRP/Runtime/Lighting.cs:346-371 | a quad is drawn exactly when it is the quad of an in-mask spot light with an area type |
| Lighting.QuadMatchesShading | Assets/MSRP/Runtime/Lighting.cs:361 | the drawn quad has the extents the light's shading slot stores |
| Lighting.GenQuad | Assets/MSRP/Runtime/Lighting.cs:374-414 | four vertices at the rectangle's corners in z = 0, six indices into them, all normals facing -z |
| Lighting.GenQuadCoversRect | Assets/MSRP/Runtime/Lighting.cs:387-393 | for a non-degenerate rectangle both triangles wind the same way and together cover its area |
| Lighting.Lighting.constructor | Assets/MSRP/Runtime/Lighting.cs:10-72 | the light tables are allocated at their fixed sizes; nothing is recorded yet |
| Lighting.Lighting.SetupDirectionalLight | Assets/MSRP/Runtime/Lighting.cs:234-244 | only the given directional slot changes, to the light's data |
| Lighting.Lighting.SetupPointLight | Assets/MSRP/Runtime/Lighting.cs:246-262 | only the given other slot changes, to the point light's data |
| Lighting.Lighting.SetupSpotLight | Assets/MSRP/Runtime/Lighting.cs:264-285 | only the given other slot changes, to the spot light's data |
| Lighting.Lighting.SetupAreaLight | Assets/MSRP/Runtime/Lighting.cs:309-337 | only the given other slot and its two axis slots change |
| Lighting.Lighting.StoreLight | Assets/MSRP/Runtime/Lighting.cs:113-172 | one loop iteration: counters advance as `TallyAt`, the slot is `OtherSlot`, and only that light's slot changes |
| Lighting.Lighting.StoreLights | Assets/MSRP/Runtime/Lighting.cs:111-173 | after the loop the counters are `TallyAt`, the tables are the table functions, and the index map holds each light's slot |
| Lighting.Lighting.StoreNext | Assets/MSRP/Runtime/Lighting.cs:113-172 | storing light `i` carries the tables from the first `i` lights to the first `i + 1` |
| Lighting.Lighting.SetIndex | Assets/MSRP/Runtime/Lighting.cs:169-172 | writes one index map entry and leaves the rest |
| Lighting.Lighting.FillIndexMap | Assets/MSRP/Runtime/Lighting.cs:175-180 | the index map holds each visible light's slot and -1 past them |
| Lighting.Lighting.GenAreaLightLut | Assets/MSRP/Runtime/Lighting.cs:287-307 | builds the LTC table only when it is missing, then binds it |
| Lighting.Lighting.SetupLights | Assets/MSRP/Runtime/Lighting.cs:104-232 | the tables, counts and index map as specified; the per-object keyword follows the flag; the LTC table exists when an area light was stored |
| Lighting.Lighting.Setup | Assets/MSRP/Runtime/Lighting.cs:74-91 | keeps the visible lights and mask, and leaves the tables as `SetupLights` specifies |
| Lighting.Lighting.Cleanup | Assets/MSRP/Runtime/Lighting.cs:99-102 | records the shadow cleanup only |
| Lighting.Lighting.DrawAreaLight | Assets/MSRP/Runtime/Lighting.cs:339-372 | appends the quads of the kept lights' area spots, in order, and clears `areaLightEnable` |
| LtcAreaLights.ClampValue | Assets/MSRP/Runtime/LTCAreaLight.cs:32 | the half-float maximum for RGBAHalf, the float maximum otherwise |
| LtcAreaLights.MatrixPixelClamped | Assets/MSRP/Runtime/LTCAreaLight.cs:38-41 | a matrix pixel takes columns 0, 2, 4 and 6 of its row, each clamped from above, and keeps values already below the clamp |
| LtcAreaLights.LtcTextureArray.constructor | Assets/MSRP/Runtime/LTCAreaLight.cs:63-69 | a texture array of the given size, format and filtering, with no slice filled |
| LtcAreaLights.LtcTextureArray.SetPixels | Assets/MSRP/Runtime/LTCAreaLight.cs:44 | fills one slice and leaves the others |
| LtcAreaLights.LoadMatrixLut | Assets/MSRP/Runtime/LTCAreaLight.cs:27-45 | the slice holds one clamped matrix pixel per table row for all 64x64 pixels; other slices unchanged |
| LtcAreaLights.LoadScalarLut | Assets/MSRP/Runtime/LTCAreaLight.cs:48-59 | the slice holds each scalar in alpha for all 64x64 pixels; other slices unchanged |
| LtcAreaLights.LtcAreaLight.constructor | Assets/MSRP/Runtime/LTCAreaLight.cs:25 | a new instance has no LTC texture |
| LtcAreaLights.LtcAreaLight.BuildLUT | Assets/MSRP/Runtime/LTCAreaLight.cs:61-76 | a fresh 64x64 RGBAHalf bilinear array of three slices: GGX in slice 0, Disney diffuse in slice 1, slice 2 empty |
| LtcAreaLights.LtcAreaLight.Bind | Assets/MSRP/Runtime/LTCAreaLight.cs:83-86 | records the binding of `_LtcData` to the texture, or to null before it is built |
| LtcAreaLights.LtcInstance.constructor | Assets/MSRP/Runtime/LTCAreaLight.cs:9 | no instance exists yet |
| LtcAreaLights.LtcInstance.Instance | Assets/MSRP/Runtime/LTCAreaLight.cs:11-20 | the first call creates the instance, and every later call returns that same one |
| Taa.JitterBounded | Assets/MSRP/Runtime/TAA.cs:209 | an offset sample in the unit square centred on the origin gives a jitter of at most half the spread per axis |
| Taa.ResolveTraceShape | Assets/MSRP/Runtime/TAA.cs:126-133 | exactly the quality tier's keyword is enabled; the resolve goes through the material into the history texture being written, and the copy comes back out without it |
| Taa.ParityAlternates | Assets/MSRP/Runtime/TAA.cs:114-115 | the write index stays in {0, 1}, changes at every render and returns after two |
| Taa.SharedSchedule | Assets/MSRP/Runtime/TAA.cs:114-115 | a run of renders with one write index and one history pair for every camera has one step per render |
| Taa.PerCameraSchedule | Assets/MSRP/Runtime/TAA.cs:114-115 | the same run with a write index and pair per camera has one step per render |
| Taa.SharedScheduleCrossesCameras | Assets/MSRP/Runtime/TAA.cs:114-125 | as written, with cameras a, b, a the third render reads the texture b wrote, not the one a wrote, so cameras do not read their own history |
| Taa.FirstReadOfCamera | Assets/MSRP/Runtime/TAA.cs:114-125 | with per-camera state, a camera's first render reads at the index the camera started with |
| Taa.PerCameraOwners | Assets/MSRP/Runtime/TAA.cs:114-132 | with per-camera state every render reads and writes its own camera's pair |
| Taa.PerCameraUntouched | Assets/MSRP/Runtime/TAA.cs:114-132 | with per-camera state, renders of other cameras never write what a camera will read |
| Taa.PerCameraPair | Assets/MSRP/Runtime/TAA.cs:114-132 | with per-camera state, a camera's render reads what its previous render wrote |
| Taa.PerCameraReadsOwnHistory | Assets/MSRP/Runtime/TAA.cs:114-132 | with a write index and pair per camera, every camera reads its own previous frame, untouched in between |
| Taa.TAAData.constructor | Assets/MSRP/Runtime/TAA.cs:21-26 | a new record has a zero offset and identity matrices |
| Taa.HistoryParity.constructor | Assets/MSRP/Runtime/TAA.cs:53 | the shared write index starts at 0 |
| Taa.TAA.constructor | Assets/MSRP/Runtime/TAA.cs:74-78 | an empty camera registry, no history, all-zero previous matrices |
| Taa.TAA.SetUp | Assets/MSRP/Runtime/TAA.cs:80-101 | registers the camera once and keeps existing records; for an active setting on a game camera jitters the projection and records the view-projection; otherwise records nothing |
| Taa.TAA.FindOrAdd | Assets/MSRP/Runtime/TAA.cs:85-89 | the registry only grows; an unseen camera gets a fresh default record, a known one keeps its record |
| Taa.TAA.UpdateTAAData | Assets/MSRP/Runtime/TAA.cs:207-220 | the record's previous matrices become the latest ones of any camera, the projection is jittered by the spread-scaled sample, and the offset is stored in scaled pixels |
| Taa.TAA.EnsureArray | Assets/MSRP/Runtime/TAA.cs:166-174 | an array of the requested size: the given one if it has that size, otherwise a fresh one filled with the initial value |
| Taa.TAA.EnsureRenderTarget | Assets/MSRP/Runtime/TAA.cs:185-205 | returns a matching texture; reports creation exactly when the given one was missing or mismatched, releasing a mismatched one |
| Taa.TAA.ClearRT | Assets/MSRP/Runtime/TAA.cs:176-183 | a held texture goes back to the pool and the reference becomes null |
| Taa.TAA.Render | Assets/MSRP/Runtime/TAA.cs:103-142 | nothing for non-game cameras; otherwise both history textures match the frame, the material reads the history at the old index, the parity advances, and the resolve writes the other one |
| Taa.TAA.ClearUp | Assets/MSRP/Runtime/TAA.cs:155-164 | both history textures go back to the pool and the array is dropped |
| PreIntegratedBrdf.SetUpTraceOrder | Assets/MSRP/Runtime/PreIntegrateBRDF.cs:57-58 | the table is drawn through the material before it is published, the published texture is the one drawn into, and no temporary is involved |
| PreIntegratedBrdf.PreIntegrateBRDF.constructor | Assets/MSRP/Runtime/PreIntegrateBRDF.cs:22-24 | no table and no material yet |
| PreIntegratedBrdf.PreIntegrateBRDF.CreateRT | Assets/MSRP/Runtime/PreIntegrateBRDF.cs:26-51 | afterwards a 512x512 HDR point-filtered table is held; a matching one is kept, a mismatched one is released and replaced, a missing one is obtained; the material is created once |
| PreIntegratedBrdf.PreIntegrateBRDF.SetUp | Assets/MSRP/Runtime/PreIntegrateBRDF.cs:53-62 | ensures the table, then records the draw into it and its publication |
| PreIntegratedBrdf.PreIntegrateBRDF.ClearUp | Assets/MSRP/Runtime/PreIntegrateBRDF.cs:64-71 | the held table goes back to the pool; without one nothing changes |
| VelocityBuffer.CleanupMatchesSetup | Assets/MSRP/Runtime/VelocityBufferRenderer.cs:34-65 | the release names exactly the one temporary the setup acquires |
| VelocityBuffer.FirstDraw | Assets/MSRP/Runtime/VelocityBufferRenderer.cs:60 | the position of the first draw in a stream, with no draw before it |
| VelocityBuffer.VelocityBufferRenderer.constructor | Assets/MSRP/Runtime/VelocityBufferRenderer.cs:10-24 | an empty buffer and context, no camera |
| VelocityBuffer.VelocityBufferRenderer.Setup | Assets/MSRP/Runtime/VelocityBufferRenderer.cs:26-46 | as written: the context receives the draw first, then whatever the buffer held, then the acquisition and binding |
| VelocityBuffer.VelocityBufferRenderer.DrawBuffer | Assets/MSRP/Runtime/VelocityBufferRenderer.cs:48-61 | the motion-vector draw goes straight to the context |
| VelocityBuffer.VelocityBufferRenderer.SetupBound | Assets/MSRP/Runtime/VelocityBufferRenderer.cs:26-46 | corrected: the buffer is executed before the draw |
| VelocityBuffer.VelocityBufferRenderer.Cleanup | Assets/MSRP/Runtime/VelocityBufferRenderer.cs:63-66 | the release is recorded into the buffer only |
| VelocityBuffer.VelocityBufferRenderer.CleanupFrames | Assets/MSRP/Runtime/CameraRenderer.cs:377-381 | over any number of frames, each calling `Cleanup` and none `Setup`, the buffer gains one release per frame and the context receives nothing |
| VelocityBuffer.PendingReleasesUnmatched | Assets/MSRP/Runtime/VelocityBufferRenderer.cs:63-66 | n cleanups queue exactly n releases of the velocity target and no acquisition of it |
| VelocityBuffer.SetupDrawsFirst | Assets/MSRP/Runtime/VelocityBufferRenderer.cs:34-45 | as written, the first draw is the very first command, so the velocity target is not acquired and bound before it |
| VelocityBuffer.SetupBoundBindsFirst | Assets/MSRP/Runtime/VelocityBufferRenderer.cs:34-45 | with the buffer executed first, the target is acquired and then bound before the first draw |
| VelocityBuffer.FirstDrawAt | Assets/MSRP/Runtime/VelocityBufferRenderer.cs:42 | the first draw is at the first position holding one |
| Pipeline.ReflectionSettingsInherit | Assets/MSRP/Runtime/CustomRenderPipeline.cs:62-66 | the reflection render shares HDR, bicubic rescaling and render scale with the main one and takes nothing else: no FXAA, no copies, no TAA |
| Pipeline.MainRendersAppend | Assets/MSRP/Runtime/CustomRenderPipeline.cs:54-90 | the main renders of two event runs are those of each, in order |
| Pipeline.CameraMainRender | Assets/MSRP/Runtime/CustomRenderPipeline.cs:84-89 | each camera's turn contains exactly one main render, with the pipeline data and additions drawn |
| Pipeline.EachCameraRenderedOnce | Assets/MSRP/Runtime/CustomRenderPipeline.cs:53-91 | every camera gets exactly one main render, in the order of the camera array |
| Pipeline.CameraEventsOrder | Assets/MSRP/Runtime/CustomRenderPipeline.cs:55-83 | a reflecting game camera sets up reflections, renders the reflection camera without additions, hands the data over and only then renders itself; any other camera cleans up the reflection object exactly when it exists |
| Pipeline.CustomRenderPipeline.constructor | Assets/MSRP/Runtime/CustomRenderPipeline.cs:28-51 | no reflection object and no events yet |
| Pipeline.CustomRenderPipeline.Render | Assets/MSRP/Runtime/CustomRenderPipeline.cs:53-91 | appends every camera's events in order; the reflection object exists afterwards exactly when one existed or some camera reflected, and an existing one is kept |
| Pipeline.CustomRenderPipeline.RenderCamera | Assets/MSRP/Runtime/CustomRenderPipeline.cs:55-89 | one camera's turn, creating the reflection object on first need |
| TextureConversion.CompareIgnoresAlpha | Assets/Scripts/Editor/TextureConvert.cs:60-73 | the colour comparison is symmetric and reflexive, and alpha plays no part in it |
| TextureConversion.KeysApart | Assets/Scripts/Editor/TextureConvert.cs:27-43 | no colour is close to two keys, so the order of the tests does not matter |
| TextureConversion.RemapKeys | Assets/Scripts/Editor/TextureConvert.cs:27-46 | a pixel close to red, yellow, green or blue becomes the grey 10, 20, 30 or 40 / 255; every other pixel is kept |
| TextureConversion.RemapIdempotent | Assets/Scripts/Editor/TextureConvert.cs:27-46 | converting a converted pixel changes nothing |
| TextureConversion.RemapAll | Assets/Scripts/Editor/TextureConvert.cs:25-47 | the remap of a pixel sequence keeps its length and remaps each pixel |
| TextureConversion.RemapAllIdempotent | Assets/Scripts/Editor/TextureConvert.cs:25-47 | converting a converted image changes nothing |
| TextureConversion.RemapPixels | Assets/Scripts/Editor/TextureConvert.cs:24-47 | the loop leaves the array holding the remap of its old contents |
| TextureConversion.SourcePathUnderRoot | Assets/Scripts/Editor/TextureConvert.cs:20 | with a data path ending in `Assets`, the asset path is resolved against the project root |
| TextureConversion.SavePathInsertsBeforeExtension | Assets/Scripts/Editor/TextureConvert.cs:87 | the save path inserts "1" before a four-character extension; removing it gives the source path back |
| TextureConversion.TextureConvertFun | Assets/Scripts/Editor/TextureConvert.cs:11-58 | nothing unless a texture is selected; a data path shorter than six characters is an error; otherwise the file path and the remapped pixels |
| OceanSimulation.Pow2RealAgrees | Assets/MSRP/Runtime/Feature/FFTOcean/FFTOceanSimulation.cs:113 | for N >= 0, `Mathf.Pow(2, N)` is the integer 2^N the size is set to |
| OceanSimulation.ReinitIff | Assets/MSRP/Runtime/Feature/FFTOcean/FFTOceanSimulation.cs:81-84 | for N >= 0 the re-initialisation test holds exactly when the side is larger than 2^N; for N < 0, exactly when the side is positive |
| OceanSimulation.NoReinitAfterInit | Assets/MSRP/Runtime/Feature/FFTOcean/FFTOceanSimulation.cs:81-84 | right after `Init` the test fails, so nothing is rebuilt on the next frame |
| OceanSimulation.GrowthSkipsReinit | Assets/MSRP/Runtime/Feature/FFTOcean/FFTOceanSimulation.cs:81-84 | as written, raising N by one after `Init` does not rebuild the textures, although 2^N grew |
| OceanSimulation.SizeMismatchIff | Assets/MSRP/Runtime/Feature/FFTOcean/FFTOceanSimulation.cs:81-84 | the corrected test holds exactly when the side is not 2^N, in either direction |
| OceanSimulation.Groups | Assets/MSRP/Runtime/Feature/FFTOcean/FFTOceanSimulation.cs:184 | the thread-group count g of every dispatch satisfies 8g <= Size < 8g + 8 |
| OceanSimulation.SmallOceanDispatchesNothing | Assets/MSRP/Runtime/Feature/FFTOcean/FFTOceanSimulation.cs:184 | for N < 3 every dispatch launches no thread group |
| OceanSimulation.PingPongChains | Assets/MSRP/Runtime/Feature/FFTOcean/FFTOceanSimulation.cs:239-245 | each stage writes the texture it does not read, and the next stage reads the one it wrote |
| OceanSimulation.ParityEven | Assets/MSRP/Runtime/Feature/FFTOcean/FFTOceanSimulation.cs:245 | an even number of stages restores the parity |
| OceanSimulation.FFTResultFromPing | Assets/MSRP/Runtime/Feature/FFTOcean/FFTOceanSimulation.cs:236-260 | after N horizontal and N vertical stages the parity is 0, so the result is copied from the PingTex texture, the last stage's output |
| OceanSimulation.PingPongStageShape | Assets/MSRP/Runtime/Feature/FFTOcean/FFTOceanSimulation.cs:236-246 | stage k of a direction sets the stage to k and dispatches at the parity after k flips |
| OceanSimulation.PingPongStagesAlternate | Assets/MSRP/Runtime/Feature/FFTOcean/FFTOceanSimulation.cs:236-258 | stage k reads and writes different textures, and reads what stage k - 1 wrote |
| OceanSimulation.NativeStageShape | Assets/MSRP/Runtime/Feature/FFTOcean/FFTOceanSimulation.cs:272-289 | stage k of the copying FFT sets the stage, dispatches from PingTex into PongTex and copies PongTex back |
| OceanSimulation.ChannelOpsChannel | Assets/MSRP/Runtime/Feature/FFTOcean/FFTOceanSimulation.cs:209-213 | a channel pass sets its channel exactly once |
| OceanSimulation.ChannelOrder | Assets/MSRP/Runtime/Feature/FFTOcean/FFTOceanSimulation.cs:206-313 | displacement writes channels 1, 0, 2 (Y, X, Z) and normals channels 0, 1 (X, Z), in that order |
| OceanSimulation.FrameGroups | Assets/MSRP/Runtime/Feature/FFTOcean/FFTOceanSimulation.cs:99-108 | every dispatch of a frame launches Size / 8 groups |
| OceanSimulation.InitTexturesFresh | Assets/MSRP/Runtime/Feature/FFTOcean/FFTOceanSimulation.cs:115-143 | `Init` creates twelve distinct new square textures of the side it set |
| OceanSimulation.FFTOceanSimulation.constructor | Assets/MSRP/Runtime/Feature/FFTOcean/FFTOceanSimulation.cs:15-51 | size 0, no textures, no mesh instance, nothing destroyed or recorded |
| OceanSimulation.FFTOceanSimulation.Init | Assets/MSRP/Runtime/Feature/FFTOcean/FFTOceanSimulation.cs:111-133 | sets the side to 2^N, creates twelve fresh textures and a mesh instance, binds three of them to the material, and destroys none of the old ones |
| OceanSimulation.FFTOceanSimulation.CleanUp | Assets/MSRP/Runtime/Feature/FFTOcean/FFTOceanSimulation.cs:62-77 | destroys exactly the held textures and the mesh instance |
| OceanSimulation.FFTOceanSimulation.Update | Assets/MSRP/Runtime/Feature/FFTOcean/FFTOceanSimulation.cs:79-109 | re-initialises exactly when the test holds, otherwise keeps the textures; then records the frame's passes at the current side |
| OceanSimulation.FFTOceanSimulation.RunPasses | Assets/MSRP/Runtime/Feature/FFTOcean/FFTOceanSimulation.cs:99-108 | records the parameters, butterfly, h0, spectrum, butterfly, displacement, normal and bubbles passes, then the material parameters |
| OceanSimulation.FFTOceanSimulation.CaculateButterfly | Assets/MSRP/Runtime/Feature/FFTOcean/FFTOceanSimulation.cs:198-204 | dispatches the butterfly kernel into the butterfly texture |
| OceanSimulation.FFTOceanSimulation.CaculateHZero | Assets/MSRP/Runtime/Feature/FFTOcean/FFTOceanSimulation.cs:178-185 | dispatches the h0 kernel into the h0 texture |
| OceanSimulation.FFTOceanSimulation.CaculateSpectrum | Assets/MSRP/Runtime/Feature/FFTOcean/FFTOceanSimulation.cs:187-196 | dispatches the frequency kernel from h0 into the three spectra |
| OceanSimulation.FFTOceanSimulation.CaculateBubbles | Assets/MSRP/Runtime/Feature/FFTOcean/FFTOceanSimulation.cs:315-323 | dispatches the bubbles kernel from the normal and displacement textures |
| OceanSimulation.FFTOceanSimulation.ChannelPass | Assets/MSRP/Runtime/Feature/FFTOcean/FFTOceanSimulation.cs:209-213 | an inverse FFT of the source, then the channel and a dispatch from PingTex into the target |
| OceanSimulation.FFTOceanSimulation.CaculateDisplacement | Assets/MSRP/Runtime/Feature/FFTOcean/FFTOceanSimulation.cs:206-224 | the three displacement channel passes, Y then X then Z |
| OceanSimulation.FFTOceanSimulation.CaculateNormal | Assets/MSRP/Runtime/Feature/FFTOcean/FFTOceanSimulation.cs:294-313 | the normal spectrum, then the X and Z channel passes |
| OceanSimulation.FFTOceanSimulation.CaculateFFTNative | Assets/MSRP/Runtime/Feature/FFTOcean/FFTOceanSimulation.cs:263-292 | copies the source into PingTex, runs N copying stages per direction, and returns PingTex |
| OceanSimulation.FFTOceanSimulation.NativePass | Assets/MSRP/Runtime/Feature/FFTOcean/FFTOceanSimulation.cs:272-279 | the N copying stages of one direction |
| OceanSimulation.FFTOceanSimulation.CaculateFFT | Assets/MSRP/Runtime/Feature/FFTOcean/FFTOceanSimulation.cs:226-261 | copies into PingTex, runs N ping-pong stages per direction, and copies the result from the last stage's output into the destination |
| OceanSimulation.FFTOceanSimulation.PingPongPass | Assets/MSRP/Runtime/Feature/FFTOcean/FFTOceanSimulation.cs:236-246 | the N ping-pong stages of one direction; the parity flips once per stage |

## Left out

- Shadows (`Shadows`), post-processing (`PostProcessingStack`), the planar-reflection component and the editor partial classes are not part of this model. Their calls are marker commands or events.
- Profiling samples (`BeginSample`/`EndSample`) and command-buffer names are not recorded.
- `ExecuteBuffer` / `buffer.Clear` are not separate steps. Commands are appended to the stream in program order. The velocity buffer is the exception: there the split between buffer and context matters, and it is kept.
- Trigonometry and matrix maths are not modelled. Spot angles arrive as cosines; matrices are recorded by where they come from (`Matrix`); `ReinterpretAsFloat` keeps the integer mask.
- Floating point is modelled as exact reals: the `0.99`/`1.01` scale test, `Mathf.Pow` and the colour tolerance. Float rounding is not modelled.
- CameraRendering.BufferSize: a camera pixel size of zero (the `1f / bufferSize` global) is not modelled; the global records the integer size.
- CameraRendering: `Dispose` and the missing-texture and material creation in the constructor are engine-object lifetime and are not modelled.
- The Deferred path's colour-attachment leak and the `default` render-pipeline case are stated as written (`DeferredFrameLeaksColorAttachment`). There is no corrected variant.
- Lighting: the static parallel `Vector4[]` arrays are one array of records per table, held per object. The shadow data a light reserves is an input.
- Lighting.DrawAreaLight: the instantiated material, its colour and the light's transform are not recorded; a quad is recorded by its extents and colour.
- LtcAreaLights: `CleanUp` (destroying the texture) and the numeric tables (`s_LtcGGXMatrixData`, `s_LtcDisneyDiffuseMatrixData`) are not part of this model. The tables are constructor inputs.
- ReflectionSettingsInherit: the "no anti-aliasing, no TAA" part rests on a field and an enum order the source does not declare. `CameraBufferSettings` (CustomRenderPipelineAsset.cs:9-49) has no `antiAliasingType` or `taaSetting`, yet CameraRenderer.cs:290, 304 and 345 read them. The model adds both fields and takes `NoAntiAliasing` as the enum's first member, so `default(CameraBufferSettings)` has no anti-aliasing.
- CameraRendering.CameraRenderer.Render: CustomRenderPipeline.cs:69-74 and 84-89 call `Render` with eleven or twelve arguments, while CameraRenderer.cs:215-220 declares `Render(context, camera, data, drawAddtion)`. The model follows the declaration: the arguments the pipeline passes are collected into one `RenderPipelineData` record.
- Taa: `TAAUtils` and `CameraBufferSettings.TAASetting` are not part of this model. The random offset sample is a parameter, a jittered projection is recorded by its offset, and `IsActive()` is a field. The resolve material is not destroyed.
- Taa.TAA.SetUp: a game camera with an active setting and a zero scaled pixel size is excluded, because the C# division by it yields an infinity the model does not represent.
- RenderTextures.TexturePool: Unity may hand back a released handle. The pool only promises a handle not live at the time.
- VelocityBuffer: `bufferSize` is a field that is never assigned; the size is a parameter of `Setup`.
- VelocityBuffer: the camera renderer calls `Cleanup` every frame (CameraRenderer.cs:380) and never calls `Setup`. As written, each frame queues a release of a temporary that was never acquired, into a buffer that is never executed. `CleanupFrames` and `PendingReleasesUnmatched` state this. `Setup`, `SetupBound` and the lemmas about the draw order describe the pass as it would run if it were set up.
- OceanSimulation: the twelve texture fields are one record (`OceanTextures`). Engine objects are identified by a counter.
- OceanSimulation: `SetCSParam` and `SetMatParam` values (time, random seeds, wind), the `GaussianTexture` binding, and texture attributes other than side and format are not recorded.
- OceanSimulation.FFTOceanSimulation.Update: the mesh positioning from `Camera.main` and the material assignment are not modelled.
- OceanSimulation: the `(int)` cast of `Mathf.Pow(2, N)` overflows for N >= 31. This is not modelled: the side is the exact power.
- OceanSimulation: `OnEnable` and `OnDisable` only call `Init` and `CleanUp`, so they are not separate members. `CaculateFFT` has no caller in the source; it is modelled on its own.
- OceanSimulation.FFTOceanSimulation.Init: re-initialising does not destroy the previous textures or mesh instance. This is stated as written.
- TextureConversion: loading the TGA file, the editor window and writing the file are I/O. The loaded pixels are an input, and the save path is a function.

## Findings

| source | as written | input that shows it | evidently intended | confidence | as-written member | corrected member |
|---|---|---|---|---|---|---|
| Assets/MSRP/Runtime/TAA.cs:114-115 | one static write index and one history pair serve every camera | cameras a, b, a: the third render reads the texture b resolved | each camera reads the history it wrote itself | medium, not executed | Taa.SharedScheduleCrossesCameras | Taa.PerCameraReadsOwnHistory |
| Assets/MSRP/Runtime/VelocityBufferRenderer.cs:34-45 | the motion-vector draw goes to the context before the buffer with the acquisition and binding is executed | any `Setup`: the draw is the first command the context receives | the velocity target is acquired and bound before the draw | high, not executed | VelocityBuffer.SetupDrawsFirst | VelocityBuffer.SetupBoundBindsFirst |
| Assets/MSRP/Runtime/Feature/FFTOcean/FFTOceanSimulation.cs:81-84 | re-initialises only when the side exceeds 2^N | N = 7 after `Init`, then N = 8: side 128 is kept while the FFT runs 8 stages | re-initialise whenever the side differs from 2^N | medium, not executed | OceanSimulation.GrowthSkipsReinit | OceanSimulation.SizeMismatchIff |
