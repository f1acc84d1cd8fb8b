/** Per-camera frame orchestration (CameraRenderer.cs).

    The renderer's `CommandBuffer` and the calls it makes directly on the
    render context are modelled as one stream of `Command`s in program order.
    Calls into the lighting, TAA, BRDF, velocity and post-processing
    components appear in that stream as `Call` markers; those components are
    modelled in their own modules. The pure functions below give the stream a
    frame produces; the `CameraRenderer` class produces it step by step. */
module CameraRendering {
  import opened Rendering
  import opened Settings

  /** Unity's `CameraClearFlags`. The renderer compares them by their numeric
      values, so the order matters. */
  datatype ClearFlags = Skybox | SolidColor | Depth | Nothing {
    function Value(): int {
      match this
      case Skybox => 1
      case SolidColor => 2
      case Depth => 3
      case Nothing => 4
    }
  }

  /** What the renderer reads from a Unity camera. `settings` is the
      `CustomRenderPipelineCamera` component's settings, if the camera has
      one; `cullable` is whether `TryGetCullingParameters` succeeds. */
  datatype Camera = Camera(
    cameraType: CameraType,
    clearFlags: ClearFlags,
    backgroundColor: Color,
    pixelWidth: nat,
    pixelHeight: nat,
    farClipPlane: real,
    allowHDR: bool,
    settings: Option<CameraSettings>,
    cullable: bool
  )

  /** The pipeline-wide data a camera is rendered with. */
  datatype RenderPipelineData = RenderPipelineData(
    cameraBuffer: CameraBufferSettings,
    maxShadowDistance: real,
    useLightsPerObject: bool,
    postProcessingSettings: Option<PostFxAsset>,
    renderPipelineType: RenderPipelineType
  )

  /** One call of `Render`. `postFxActive` stands for what the post-processing
      stack reports as `IsActive` once it has been set up. */
  datatype FrameRequest = FrameRequest(
    camera: Camera,
    data: RenderPipelineData,
    drawAddition: bool,
    postFxActive: bool
  )

  // ----- Settings resolution -----

  /** The camera's own settings, or the defaults when it has none. */
  function SettingsOf(camera: Camera): CameraSettings
  {
    camera.settings.GetOr(DefaultCameraSettings())
  }

  function UseColorTexture(camera: Camera, buffer: CameraBufferSettings): bool
  {
    if camera.cameraType == Reflection then buffer.copyColorReflection
    else buffer.copyColor && SettingsOf(camera).copyColor
  }

  function UseDepthTexture(camera: Camera, buffer: CameraBufferSettings): bool
  {
    if camera.cameraType == Reflection then buffer.copyDepthReflection
    else buffer.copyDepth && SettingsOf(camera).copyDepth
  }

  /** Scaled rendering is on unless the scale is within 1% of 1. */
  predicate ScaledRendering(scale: real)
  {
    scale < 0.99 || scale > 1.01
  }

  /** `Mathf.Clamp(scale, renderScaleMin, renderScaleMax)`. */
  function ClampScale(scale: real): (r: real)
    ensures RenderScaleMin <= r <= RenderScaleMax
    ensures RenderScaleMin <= scale <= RenderScaleMax ==> r == scale
    ensures scale < RenderScaleMin ==> r == RenderScaleMin
    ensures scale > RenderScaleMax ==> r == RenderScaleMax
  {
    if scale < RenderScaleMin then RenderScaleMin
    else if scale > RenderScaleMax then RenderScaleMax
    else scale
  }

  /** C#'s `(int)` cast: truncation toward zero. */
  function Truncate(x: real): (n: int)
    ensures 0.0 <= x ==> 0 <= n && n as real <= x < n as real + 1.0
    ensures x < 0.0 ==> n <= 0 && n as real - 1.0 < x <= n as real
  {
    if 0.0 <= x then x.Floor else -((-x).Floor)
  }

  /** One side of the intermediate buffer for a resolved render scale. */
  function BufferSide(side: nat, scale: real): int
  {
    if ScaledRendering(scale) then Truncate(side as real * ClampScale(scale)) else side
  }

  /** The intermediate buffer's size for a resolved render scale. */
  function BufferSize(camera: Camera, scale: real): (int, int)
  {
    (BufferSide(camera.pixelWidth, scale), BufferSide(camera.pixelHeight, scale))
  }

  /** Without scaled rendering a side is the camera's; with it, the camera's
      side times the clamped scale, truncated, so never more than twice the
      camera's side. */
  lemma BufferSideBounds(side: nat, scale: real)
    ensures !ScaledRendering(scale) ==> BufferSide(side, scale) == side
    ensures ScaledRendering(scale) ==>
      BufferSide(side, scale) as real <= side as real * ClampScale(scale) < BufferSide(side, scale) as real + 1.0
    ensures 0 <= BufferSide(side, scale) <= 2 * side
  {
    if ScaledRendering(scale) {
      var s := ClampScale(scale);
      var x := side as real * s;
      assert 0.0 <= x <= side as real * 2.0 by {
        assert 0.0 <= side as real;
      }
      var t := Truncate(x);
      assert t as real <= x < t as real + 1.0;
      assert t as real <= 2.0 * side as real;
    }
  }

  /** Both sides obey `BufferSideBounds`. */
  lemma BufferSizeBounds(camera: Camera, scale: real)
    ensures !ScaledRendering(scale) ==> BufferSize(camera, scale) == (camera.pixelWidth, camera.pixelHeight)
    ensures ScaledRendering(scale) ==>
      && BufferSize(camera, scale).0 as real <= camera.pixelWidth as real * ClampScale(scale) < BufferSize(camera, scale).0 as real + 1.0
      && BufferSize(camera, scale).1 as real <= camera.pixelHeight as real * ClampScale(scale) < BufferSize(camera, scale).1 as real + 1.0
    ensures 0 <= BufferSize(camera, scale).0 <= 2 * camera.pixelWidth
    ensures 0 <= BufferSize(camera, scale).1 <= 2 * camera.pixelHeight
  {
    BufferSideBounds(camera.pixelWidth, scale);
    BufferSideBounds(camera.pixelHeight, scale);
  }

  /** `Cull`: the culling shadow distance is the smaller of the configured
      maximum and the far clip plane. */
  function ShadowDistance(maxShadowDistance: real, farClipPlane: real): (d: real)
    ensures d <= maxShadowDistance && d <= farClipPlane
    ensures d == maxShadowDistance || d == farClipPlane
  {
    if maxShadowDistance <= farClipPlane then maxShadowDistance else farClipPlane
  }

  predicate UseIntermediate(scaled: bool, copyColor: bool, copyDepth: bool, postFxActive: bool)
  {
    scaled || copyColor || copyDepth || postFxActive
  }

  /** With an intermediate buffer, flags above `SolidColor` become
      `SolidColor`; otherwise the camera's flags are kept. */
  function AdjustClearFlags(flags: ClearFlags, intermediate: bool): (r: ClearFlags)
    ensures !intermediate ==> r == flags
    ensures intermediate ==> r.Value() <= SolidColor.Value()
    ensures flags.Value() <= SolidColor.Value() ==> r == flags
  {
    if intermediate && flags.Value() > SolidColor.Value() then SolidColor else flags
  }

  /** `Color.clear`. */
  const Transparent := Color(0.0, 0.0, 0.0, 0.0)

  function ClearFor(flags: ClearFlags, background: Color): Command
  {
    ClearRenderTarget(
      flags.Value() <= Depth.Value(),
      flags == SolidColor,
      if flags == SolidColor then background else Transparent)
  }

  /** Rendering into an intermediate buffer always clears depth, and clears
      colour (to the background) unless the camera draws a skybox. */
  lemma IntermediateClear(flags: ClearFlags, background: Color)
    ensures ClearFor(AdjustClearFlags(flags, true), background)
         == ClearRenderTarget(true, flags != Skybox, if flags != Skybox then background else Transparent)
  {
  }

  /** Rendering straight to the camera target clears depth unless the flags
      are `Nothing`, and colour only for `SolidColor`. */
  lemma DirectClear(flags: ClearFlags, background: Color)
    ensures ClearFor(AdjustClearFlags(flags, false), background).clearDepth <==> flags != Nothing
    ensures ClearFor(AdjustClearFlags(flags, false), background).clearColor <==> flags == SolidColor
  {
  }

  // ----- The commands of each step -----

  function ColorFormat(hdr: bool): TextureFormat
  {
    if hdr then DefaultHDR else DefaultFormat
  }

  /** The ids acquired like a depth buffer (32 bits, point filtering); the
      others are acquired like a colour buffer. */
  predicate DepthLike(id: Prop)
  {
    id == CameraDepthAttachment || id == GBufferB || id == CameraDepthTexture
  }

  function Surface(id: Prop, width: int, height: int, hdr: bool): Command
  {
    if DepthLike(id) then GetTemporaryRT(id, width, height, 32, Point, DepthFormat)
    else GetTemporaryRT(id, width, height, 0, Bilinear, ColorFormat(hdr))
  }

  /** One `GetTemporaryRT` per id, in order. */
  function AcquireAll(ids: seq<Prop>, width: int, height: int, hdr: bool): seq<Command>
  {
    if |ids| == 0 then [] else [Surface(ids[0], width, height, hdr)] + AcquireAll(ids[1..], width, height, hdr)
  }

  /** One `ReleaseTemporaryRT` per id, in order. */
  function ReleaseAll(ids: seq<Prop>): seq<Command>
  {
    if |ids| == 0 then [] else [ReleaseTemporaryRT(ids[0])] + ReleaseAll(ids[1..])
  }

  lemma {:induction false} AcquireAllCounts(ids: seq<Prop>, width: int, height: int, hdr: bool)
    ensures Acquired(AcquireAll(ids, width, height, hdr)) == multiset(ids)
    ensures Released(AcquireAll(ids, width, height, hdr)) == multiset{}
    ensures forall c :: c in AcquireAll(ids, width, height, hdr) ==> c.GetTemporaryRT? && c.id in ids
  {
    if |ids| != 0 {
      AcquireAllCounts(ids[1..], width, height, hdr);
      AcquiredCons(Surface(ids[0], width, height, hdr), AcquireAll(ids[1..], width, height, hdr));
      assert ids == [ids[0]] + ids[1..];
      assert forall x :: x in ids[1..] ==> x in ids;
    }
  }

  lemma {:induction false} ReleaseAllCounts(ids: seq<Prop>)
    ensures Released(ReleaseAll(ids)) == multiset(ids)
    ensures Acquired(ReleaseAll(ids)) == multiset{}
    ensures forall c :: c in ReleaseAll(ids) ==> c.ReleaseTemporaryRT?
  {
    if |ids| != 0 {
      ReleaseAllCounts(ids[1..]);
      AcquiredCons(ReleaseTemporaryRT(ids[0]), ReleaseAll(ids[1..]));
      assert ids == [ids[0]] + ids[1..];
    }
  }

  /** The surfaces `SetupForward` / `SetupDeferred` acquire, in order. */
  function AcquiredAttachments(path: RenderPipelineType): seq<Prop>
  {
    match path
    case Forward => [CameraColorAttachment, CameraDepthAttachment]
    case Deferred =>
      [CameraColorAttachment, CameraDepthAttachment, GBufferA, GBufferB, GBufferC, GBufferD, GBufferE, GBufferF]
  }

  /** The attachments `Cleanup` releases, in order. */
  function ReleasedAttachments(path: RenderPipelineType): seq<Prop>
  {
    match path
    case Forward => [CameraColorAttachment, CameraDepthAttachment]
    case Deferred => [GBufferA, GBufferB, GBufferC, GBufferD, GBufferE, GBufferF, CameraDepthAttachment]
  }

  function AttachmentBinding(path: RenderPipelineType): Command
  {
    match path
    case Forward =>
      SetRenderTarget(Single(Temporary(CameraColorAttachment)), Some(Temporary(CameraDepthAttachment)), false)
    case Deferred =>
      SetRenderTarget(GBuffers, Some(Temporary(CameraDepthAttachment)), false)
  }

  /** `SetupForward` / `SetupDeferred`. */
  function SetupTrace(path: RenderPipelineType, camera: Camera, intermediate: bool,
                      width: int, height: int, hdr: bool): seq<Command>
  {
    [SetupCameraProperties]
    + (if intermediate then AcquireAll(AcquiredAttachments(path), width, height, hdr) + [AttachmentBinding(path)] else [])
    + [ClearFor(AdjustClearFlags(camera.clearFlags, intermediate), camera.backgroundColor),
       SetGlobalTexture(CameraColorTexture, MissingTexture),
       SetGlobalTexture(CameraDepthTexture, MissingTexture)]
  }

  /** What `Setup` records, given the clear flags and acquisitions it chose. */
  lemma SetupTraceOf(f: FramePlan, flags: ClearFlags, acquires: seq<Command>)
    requires flags == AdjustClearFlags(f.camera.clearFlags, f.intermediate)
    requires acquires == if f.intermediate then AcquireAll(AcquiredAttachments(f.path), f.width, f.height, f.hdr) + [AttachmentBinding(f.path)] else []
    ensures [SetupCameraProperties] + acquires
            + [ClearFor(flags, f.camera.backgroundColor),
               SetGlobalTexture(CameraColorTexture, MissingTexture),
               SetGlobalTexture(CameraDepthTexture, MissingTexture)]
         == SetupTrace(f.path, f.camera, f.intermediate, f.width, f.height, f.hdr)
  {
  }

  function LitPassTag(path: RenderPipelineType): ShaderTag
  {
    match path
    case Forward => CustomLitForward
    case Deferred => CustomLitGBuffer
  }

  /** `Draw`: a full-screen triangle from one texture into another. */
  function DrawTrace(from: Texture, to: Texture, isDepth: bool): seq<Command>
  {
    [SetGlobalTexture(SourceTextureProp, from), SetRenderTarget(Single(to), None, false),
     SetViewport, DrawProcedural(to, if isDepth then 1 else 0)]
  }

  function CopyOne(from: Texture, to: Texture, isDepth: bool, copySupported: bool): seq<Command>
  {
    if copySupported then [CopyTexture(from, to)] else DrawTrace(from, to, isDepth)
  }

  function CopyColorTrace(copyColor: bool, width: int, height: int, hdr: bool, copySupported: bool): seq<Command>
  {
    if copyColor then
      [Surface(CameraColorTexture, width, height, hdr)]
      + CopyOne(Temporary(CameraColorAttachment), Temporary(CameraColorTexture), false, copySupported)
    else []
  }

  function CopyDepthTrace(copyDepth: bool, width: int, height: int, copySupported: bool): seq<Command>
  {
    if copyDepth then
      [Surface(CameraDepthTexture, width, height, false)]
      + CopyOne(Temporary(CameraDepthAttachment), Temporary(CameraDepthTexture), true, copySupported)
    else []
  }

  /** Without `CopyTexture` support the copies rebind the attachments, loading them. */
  function RebindTrace(copySupported: bool): seq<Command>
  {
    if copySupported then []
    else [SetRenderTarget(Single(Temporary(CameraColorAttachment)), Some(Temporary(CameraDepthAttachment)), true)]
  }

  /** `CopyAttachments`. */
  function CopyTrace(copyColor: bool, copyDepth: bool, width: int, height: int, hdr: bool,
                     copySupported: bool): seq<Command>
  {
    CopyColorTrace(copyColor, width, height, hdr, copySupported)
    + CopyDepthTrace(copyDepth, width, height, copySupported)
    + RebindTrace(copySupported)
  }

  function DrawOpaque(path: RenderPipelineType, layerMask: int, lightsPerObject: bool): Command
  {
    DrawRenderers(OpaqueQueue, CommonOpaque, true, LitPassTag(path), U32(layerMask), lightsPerObject)
  }

  function DrawTransparent(path: RenderPipelineType, layerMask: int, lightsPerObject: bool): Command
  {
    DrawRenderers(TransparentQueue, CommonTransparent, true, LitPassTag(path), U32(layerMask), lightsPerObject)
  }

  /** `DrawForwardVisibleGeometry` / `DrawDeferredVisibleGeometry`. */
  function GeometryTrace(path: RenderPipelineType, copyColor: bool, copyDepth: bool,
                         width: int, height: int, hdr: bool, copySupported: bool,
                         lightsPerObject: bool, layerMask: int): seq<Command>
  {
    [DrawOpaque(path, layerMask, lightsPerObject), DrawSkybox]
    + (if copyColor || copyDepth then CopyTrace(copyColor, copyDepth, width, height, hdr, copySupported) else [])
    + [DrawTransparent(path, layerMask, lightsPerObject)]
  }

  /** `DrawFinal`: blend the intermediate colour onto the camera target. */
  function DrawFinalTrace(blend: FinalBlendMode): seq<Command>
  {
    [SetGlobalFloat(CameraSrcBlend, blend.source.Value()),
     SetGlobalFloat(CameraDstBlend, blend.destination.Value()),
     SetGlobalTexture(SourceTextureProp, Temporary(CameraColorAttachment)),
     SetRenderTarget(Single(CameraTarget), None, blend.destination != Zero),
     SetViewport,
     DrawProcedural(CameraTarget, 0),
     SetGlobalFloat(CameraSrcBlend, 1.0),
     SetGlobalFloat(CameraDstBlend, 0.0)]
  }

  /** The final blit leaves the blend factors at the default final blend
      mode's values, whatever mode it blended with. */
  lemma FinalBlitRestoresBlend(blend: FinalBlendMode)
    ensures DrawFinalTrace(blend)[6..]
         == [SetGlobalFloat(CameraSrcBlend, DefaultCameraSettings().finalBlendMode.source.Value()),
             SetGlobalFloat(CameraDstBlend, DefaultCameraSettings().finalBlendMode.destination.Value())]
  {
  }

  /** The copy textures released at cleanup. */
  function CopyReleases(copyColor: bool, copyDepth: bool): seq<Command>
  {
    (if copyColor then [ReleaseTemporaryRT(CameraColorTexture)] else [])
    + (if copyDepth then [ReleaseTemporaryRT(CameraDepthTexture)] else [])
  }

  /** `Cleanup`. */
  function CleanupTrace(path: RenderPipelineType, intermediate: bool, copyColor: bool, copyDepth: bool,
                        antiAliasing: AntiAliasingType): seq<Command>
  {
    [Call(LightingCleanup), Call(VelocityCleanup)]
    + (if intermediate then ReleaseAll(ReleasedAttachments(path)) + CopyReleases(copyColor, copyDepth) else [])
    + (if antiAliasing != TAA then [Call(TaaClearUp)] else [])
    + [Call(BrdfClearUp)]
  }

  // ----- One frame -----

  /** What `Render` resolves before it records a frame: the renderer's
      per-frame fields. */
  datatype FramePlan = FramePlan(
    path: RenderPipelineType,
    camera: Camera,
    shadowDistance: real,
    width: int,
    height: int,
    hdr: bool,
    intermediate: bool,
    copyColor: bool,
    copyDepth: bool,
    lightsPerObject: bool,
    lightMask: int,
    layerMask: int,
    postFx: Option<PostFxAsset>,
    fxaa: bool,
    antiAliasing: AntiAliasingType,
    drawsAreaLights: bool,
    postFxActive: bool,
    finalBlend: FinalBlendMode
  )

  function Scale(r: FrameRequest): real
  {
    GetRenderScale(SettingsOf(r.camera), r.data.cameraBuffer.renderScale)
  }

  function CopyColor(r: FrameRequest): bool { UseColorTexture(r.camera, r.data.cameraBuffer) }

  function CopyDepth(r: FrameRequest): bool { UseDepthTexture(r.camera, r.data.cameraBuffer) }

  predicate Intermediate(r: FrameRequest)
  {
    UseIntermediate(ScaledRendering(Scale(r)), CopyColor(r), CopyDepth(r), r.postFxActive)
  }

  function Size(r: FrameRequest): (int, int) { BufferSize(r.camera, Scale(r)) }

  /** The mask lights are filtered by: the camera's mask if it masks lights,
      otherwise every layer. */
  function LightMask(r: FrameRequest): int
  {
    if SettingsOf(r.camera).maskLights then SettingsOf(r.camera).renderingLayerMask else -1
  }

  /** The camera's post-processing asset if it overrides the pipeline's. */
  function EffectivePostFx(r: FrameRequest): Option<PostFxAsset>
  {
    if SettingsOf(r.camera).overridePostProcessing then SettingsOf(r.camera).postFXSettings
    else r.data.postProcessingSettings
  }

  /** Area lights are drawn for game and scene-view cameras only. */
  predicate DrawsAreaLights(r: FrameRequest)
  {
    r.drawAddition && (r.camera.cameraType == Game || r.camera.cameraType == SceneView)
  }

  function PlanOf(r: FrameRequest): FramePlan
  {
    FramePlan(
      r.data.renderPipelineType, r.camera,
      ShadowDistance(r.data.maxShadowDistance, r.camera.farClipPlane),
      Size(r).0, Size(r).1, r.data.cameraBuffer.allowHDR && r.camera.allowHDR,
      Intermediate(r), CopyColor(r), CopyDepth(r),
      r.data.useLightsPerObject, LightMask(r), SettingsOf(r.camera).renderingLayerMask,
      EffectivePostFx(r),
      SettingsOf(r.camera).allowFXAA && r.data.cameraBuffer.antiAliasingType == FXAA,
      r.data.cameraBuffer.antiAliasingType,
      DrawsAreaLights(r), r.postFxActive, SettingsOf(r.camera).finalBlendMode)
  }

  /** Post-processing renders through the intermediate buffer, so an active
      stack forces one. */
  lemma PostFxNeedsIntermediate(r: FrameRequest)
    ensures PlanOf(r).postFxActive ==> PlanOf(r).intermediate
    ensures PlanOf(r).copyColor || PlanOf(r).copyDepth ==> PlanOf(r).intermediate
    ensures !PlanOf(r).intermediate ==> (PlanOf(r).width, PlanOf(r).height) == (r.camera.pixelWidth, r.camera.pixelHeight)
  {
  }

  function PreludeTrace(p: FramePlan): seq<Command>
  {
    [SetGlobalBufferSize(p.width, p.height),
     Call(LightingSetup(p.lightsPerObject, p.lightMask)),
     Call(PostFxSetup(p.postFx, p.fxaa)),
     Call(BrdfSetUp)]
  }

  function FrameSetup(p: FramePlan): seq<Command>
  {
    SetupTrace(p.path, p.camera, p.intermediate, p.width, p.height, p.hdr)
  }

  function TaaSetUpTrace(p: FramePlan): seq<Command>
  {
    if p.antiAliasing == TAA then [Call(TaaSetUp)] else []
  }

  function AreaLightTrace(p: FramePlan): seq<Command>
  {
    if p.drawsAreaLights then [Call(DrawAreaLight)] else []
  }

  function FrameGeometry(p: FramePlan, copySupported: bool): seq<Command>
  {
    GeometryTrace(p.path, p.copyColor, p.copyDepth, p.width, p.height, p.hdr,
                  copySupported, p.lightsPerObject, p.layerMask)
  }

  function TaaRenderTrace(p: FramePlan): seq<Command>
  {
    if p.antiAliasing == TAA then [Call(TaaRender)] else []
  }

  function FrameFinal(p: FramePlan): seq<Command>
  {
    if p.postFxActive then [Call(PostFxRender)]
    else if p.intermediate then DrawFinalTrace(p.finalBlend)
    else []
  }

  function FrameCleanup(p: FramePlan): seq<Command>
  {
    CleanupTrace(p.path, p.intermediate, p.copyColor, p.copyDepth, p.antiAliasing)
  }

  /** From the path's setup to the transparent draw. */
  function PassTrace(p: FramePlan, copySupported: bool): seq<Command>
  {
    FrameSetup(p) + TaaSetUpTrace(p) + AreaLightTrace(p) + FrameGeometry(p, copySupported)
  }

  /** From the TAA resolve to the submit. */
  function EpilogueTrace(p: FramePlan): seq<Command>
  {
    TaaRenderTrace(p) + FrameFinal(p) + FrameCleanup(p) + [Submit]
  }

  function PlanTrace(p: FramePlan, copySupported: bool): seq<Command>
  {
    PreludeTrace(p) + PassTrace(p, copySupported) + EpilogueTrace(p)
  }

  /** Everything `Render` records for one camera. A camera that cannot be
      culled records nothing. */
  function FrameTrace(r: FrameRequest, copySupported: bool): seq<Command>
  {
    if !r.camera.cullable then []
    else [CullScene(PlanOf(r).shadowDistance)] + PlanTrace(PlanOf(r), copySupported)
  }

  // ----- Surfaces acquired and released -----

  function CopyIds(copyColor: bool, copyDepth: bool): multiset<Prop>
  {
    (if copyColor then multiset{CameraColorTexture} else multiset{})
    + (if copyDepth then multiset{CameraDepthTexture} else multiset{})
  }

  lemma SetupSurfaces(path: RenderPipelineType, camera: Camera, intermediate: bool,
                      width: int, height: int, hdr: bool)
    ensures Acquired(SetupTrace(path, camera, intermediate, width, height, hdr))
         == if intermediate then multiset(AcquiredAttachments(path)) else multiset{}
    ensures Released(SetupTrace(path, camera, intermediate, width, height, hdr)) == multiset{}
  {
    var head: seq<Command> := [SetupCameraProperties];
    var acquires := if intermediate then AcquireAll(AcquiredAttachments(path), width, height, hdr) + [AttachmentBinding(path)] else [];
    var tail := [ClearFor(AdjustClearFlags(camera.clearFlags, intermediate), camera.backgroundColor),
                 SetGlobalTexture(CameraColorTexture, MissingTexture),
                 SetGlobalTexture(CameraDepthTexture, MissingTexture)];
    AcquiresSurfaces(path, intermediate, width, height, hdr);
    InertTrace(head);
    InertTrace(tail);
    AcquiredPrependNone(head, acquires);
    ReleasedPrependNone(head, acquires);
    AcquiredAppendNone(head + acquires, tail);
    ReleasedAppendNone(head + acquires, tail);
  }

  lemma AcquiresSurfaces(path: RenderPipelineType, intermediate: bool, width: int, height: int, hdr: bool)
    ensures Acquired(if intermediate then AcquireAll(AcquiredAttachments(path), width, height, hdr) + [AttachmentBinding(path)] else [])
         == if intermediate then multiset(AcquiredAttachments(path)) else multiset{}
    ensures Released(if intermediate then AcquireAll(AcquiredAttachments(path), width, height, hdr) + [AttachmentBinding(path)] else [])
         == multiset{}
  {
    if intermediate {
      AcquireAllCounts(AcquiredAttachments(path), width, height, hdr);
      InertTrace([AttachmentBinding(path)]);
      AcquiredAppendNone(AcquireAll(AcquiredAttachments(path), width, height, hdr), [AttachmentBinding(path)]);
      ReleasedAppendNone(AcquireAll(AcquiredAttachments(path), width, height, hdr), [AttachmentBinding(path)]);
    }
  }

  lemma CopyColorSurfaces(copyColor: bool, width: int, height: int, hdr: bool, copySupported: bool)
    ensures Acquired(CopyColorTrace(copyColor, width, height, hdr, copySupported))
         == if copyColor then multiset{CameraColorTexture} else multiset{}
    ensures Released(CopyColorTrace(copyColor, width, height, hdr, copySupported)) == multiset{}
  {
    var c := Temporary(CameraColorAttachment);
    if copyColor {
      InertTrace(CopyOne(c, Temporary(CameraColorTexture), false, copySupported));
      AcquiredCons(Surface(CameraColorTexture, width, height, hdr),
                   CopyOne(c, Temporary(CameraColorTexture), false, copySupported));
    }
  }

  lemma CopyDepthSurfaces(copyDepth: bool, width: int, height: int, copySupported: bool)
    ensures Acquired(CopyDepthTrace(copyDepth, width, height, copySupported))
         == if copyDepth then multiset{CameraDepthTexture} else multiset{}
    ensures Released(CopyDepthTrace(copyDepth, width, height, copySupported)) == multiset{}
  {
    var d := Temporary(CameraDepthAttachment);
    if copyDepth {
      InertTrace(CopyOne(d, Temporary(CameraDepthTexture), true, copySupported));
      AcquiredCons(Surface(CameraDepthTexture, width, height, false),
                   CopyOne(d, Temporary(CameraDepthTexture), true, copySupported));
    }
  }

  /** `CopyAttachments` acquires exactly the requested copy textures. */
  lemma CopySurfaces(copyColor: bool, copyDepth: bool, width: int, height: int, hdr: bool, copySupported: bool)
    ensures Acquired(CopyTrace(copyColor, copyDepth, width, height, hdr, copySupported))
         == CopyIds(copyColor, copyDepth)
    ensures Released(CopyTrace(copyColor, copyDepth, width, height, hdr, copySupported)) == multiset{}
  {
    var colorPart := CopyColorTrace(copyColor, width, height, hdr, copySupported);
    var depthPart := CopyDepthTrace(copyDepth, width, height, copySupported);
    CopyColorSurfaces(copyColor, width, height, hdr, copySupported);
    CopyDepthSurfaces(copyDepth, width, height, copySupported);
    InertTrace(RebindTrace(copySupported));
    AcquiredAppend(colorPart, depthPart);
    ReleasedPrependNone(colorPart, depthPart);
    AcquiredAppendNone(colorPart + depthPart, RebindTrace(copySupported));
    ReleasedAppendNone(colorPart + depthPart, RebindTrace(copySupported));
  }

  lemma GeometrySurfaces(path: RenderPipelineType, copyColor: bool, copyDepth: bool,
                         width: int, height: int, hdr: bool, copySupported: bool,
                         lightsPerObject: bool, layerMask: int)
    ensures Acquired(GeometryTrace(path, copyColor, copyDepth, width, height, hdr, copySupported, lightsPerObject, layerMask))
         == CopyIds(copyColor, copyDepth)
    ensures Released(GeometryTrace(path, copyColor, copyDepth, width, height, hdr, copySupported, lightsPerObject, layerMask))
         == multiset{}
  {
    var draws := [DrawOpaque(path, layerMask, lightsPerObject), DrawSkybox];
    var copies := if copyColor || copyDepth then CopyTrace(copyColor, copyDepth, width, height, hdr, copySupported) else [];
    var last := [DrawTransparent(path, layerMask, lightsPerObject)];
    InertTrace(draws);
    InertTrace(last);
    CopySurfaces(copyColor, copyDepth, width, height, hdr, copySupported);
    AcquiredPrependNone(draws, copies);
    ReleasedPrependNone(draws, copies);
    AcquiredAppendNone(draws + copies, last);
    ReleasedAppendNone(draws + copies, last);
  }

  lemma CopyReleaseCounts(copyColor: bool, copyDepth: bool)
    ensures Released(CopyReleases(copyColor, copyDepth)) == CopyIds(copyColor, copyDepth)
    ensures Acquired(CopyReleases(copyColor, copyDepth)) == multiset{}
  {
    var cc: seq<Command> := if copyColor then [ReleaseTemporaryRT(CameraColorTexture)] else [];
    var cd: seq<Command> := if copyDepth then [ReleaseTemporaryRT(CameraDepthTexture)] else [];
    AcquiredAppend(cc, cd);
  }

  lemma ReleasesSurfaces(path: RenderPipelineType, intermediate: bool, copyColor: bool, copyDepth: bool)
    ensures Released(if intermediate then ReleaseAll(ReleasedAttachments(path)) + CopyReleases(copyColor, copyDepth) else [])
         == if intermediate then multiset(ReleasedAttachments(path)) + CopyIds(copyColor, copyDepth) else multiset{}
    ensures Acquired(if intermediate then ReleaseAll(ReleasedAttachments(path)) + CopyReleases(copyColor, copyDepth) else [])
         == multiset{}
  {
    if intermediate {
      ReleaseAllCounts(ReleasedAttachments(path));
      CopyReleaseCounts(copyColor, copyDepth);
      AcquiredAppend(ReleaseAll(ReleasedAttachments(path)), CopyReleases(copyColor, copyDepth));
      AcquiredPrependNone(ReleaseAll(ReleasedAttachments(path)), CopyReleases(copyColor, copyDepth));
    }
  }

  lemma CleanupSurfaces(path: RenderPipelineType, intermediate: bool, copyColor: bool,
                        copyDepth: bool, antiAliasing: AntiAliasingType)
    ensures Acquired(CleanupTrace(path, intermediate, copyColor, copyDepth, antiAliasing)) == multiset{}
    ensures Released(CleanupTrace(path, intermediate, copyColor, copyDepth, antiAliasing))
         == if intermediate then multiset(ReleasedAttachments(path)) + CopyIds(copyColor, copyDepth)
            else multiset{}
  {
    var calls := [Call(LightingCleanup), Call(VelocityCleanup)];
    var releases := if intermediate then ReleaseAll(ReleasedAttachments(path)) + CopyReleases(copyColor, copyDepth) else [];
    var taa: seq<Command> := if antiAliasing != TAA then [Call(TaaClearUp)] else [];
    var brdf := [Call(BrdfClearUp)];
    InertTrace(calls);
    InertTrace(taa);
    InertTrace(brdf);
    ReleasesSurfaces(path, intermediate, copyColor, copyDepth);
    AcquiredPrependNone(calls, releases);
    ReleasedPrependNone(calls, releases);
    AcquiredAppendNone(calls + releases, taa);
    ReleasedAppendNone(calls + releases, taa);
    AcquiredAppendNone(calls + releases + taa, brdf);
    ReleasedAppendNone(calls + releases + taa, brdf);
  }

  lemma PassSurfaces(p: FramePlan, copySupported: bool)
    ensures Acquired(PassTrace(p, copySupported))
         == (if p.intermediate then multiset(AcquiredAttachments(p.path)) else multiset{})
            + CopyIds(p.copyColor, p.copyDepth)
    ensures Released(PassTrace(p, copySupported)) == multiset{}
  {
    var s, ts, al, g := FrameSetup(p), TaaSetUpTrace(p), AreaLightTrace(p), FrameGeometry(p, copySupported);
    SetupSurfaces(p.path, p.camera, p.intermediate, p.width, p.height, p.hdr);
    InertTrace(ts);
    InertTrace(al);
    GeometrySurfaces(p.path, p.copyColor, p.copyDepth, p.width, p.height, p.hdr,
                     copySupported, p.lightsPerObject, p.layerMask);
    AcquiredAppendNone(s, ts);
    ReleasedPrependNone(s, ts);
    AcquiredAppendNone(s + ts, al);
    ReleasedPrependNone(s + ts, al);
    AcquiredAppend(s + ts + al, g);
    ReleasedPrependNone(s + ts + al, g);
  }

  lemma FinalInert(p: FramePlan)
    ensures Acquired(TaaRenderTrace(p) + FrameFinal(p)) == multiset{}
    ensures Released(TaaRenderTrace(p) + FrameFinal(p)) == multiset{}
  {
    InertTrace(TaaRenderTrace(p) + FrameFinal(p));
  }

  lemma EpilogueSurfaces(p: FramePlan)
    ensures Acquired(EpilogueTrace(p)) == multiset{}
    ensures Released(EpilogueTrace(p))
         == if p.intermediate then multiset(ReleasedAttachments(p.path)) + CopyIds(p.copyColor, p.copyDepth)
            else multiset{}
  {
    var tr, f, c := TaaRenderTrace(p), FrameFinal(p), FrameCleanup(p);
    FinalInert(p);
    InertTrace([Submit]);
    CleanupSurfaces(p.path, p.intermediate, p.copyColor, p.copyDepth, p.antiAliasing);
    AcquiredPrependNone(tr + f, c);
    ReleasedPrependNone(tr + f, c);
    AcquiredAppendNone(tr + f + c, [Submit]);
    ReleasedAppendNone(tr + f + c, [Submit]);
  }

  lemma PreludeInert(p: FramePlan)
    ensures Acquired(PreludeTrace(p)) == multiset{} && Released(PreludeTrace(p)) == multiset{}
  {
    InertTrace(PreludeTrace(p));
  }

  lemma PlanSurfaces(p: FramePlan, copySupported: bool)
    ensures Acquired(PlanTrace(p, copySupported))
         == (if p.intermediate then multiset(AcquiredAttachments(p.path)) else multiset{})
            + CopyIds(p.copyColor, p.copyDepth)
    ensures Released(PlanTrace(p, copySupported))
         == if p.intermediate then multiset(ReleasedAttachments(p.path)) + CopyIds(p.copyColor, p.copyDepth)
            else multiset{}
  {
    PreludeInert(p);
    PassSurfaces(p, copySupported);
    EpilogueSurfaces(p);
    AcquiresMidReleasesLast(PreludeTrace(p), PassTrace(p, copySupported), EpilogueTrace(p));
  }

  lemma AcquiresMidReleasesLast(a: seq<Command>, b: seq<Command>, c: seq<Command>)
    requires Acquired(a) == multiset{} && Released(a) == multiset{}
    requires Released(b) == multiset{} && Acquired(c) == multiset{}
    ensures Acquired(a + b + c) == Acquired(b) && Released(a + b + c) == Released(c)
  {
    AcquiredPrependNone(a, b);
    ReleasedPrependNone(a, b);
    AcquiredAppendNone(a + b, c);
    ReleasedPrependNone(a + b, c);
  }

  /** The surfaces a frame acquires and releases. Nothing is acquired when
      culling fails or without an intermediate buffer; with one, the path's
      attachments plus exactly the requested copy textures are acquired, and
      cleanup releases the path's release list plus those copy textures. */
  lemma FrameSurfaces(r: FrameRequest, copySupported: bool)
    ensures Acquired(FrameTrace(r, copySupported))
         == if r.camera.cullable && Intermediate(r)
            then multiset(AcquiredAttachments(r.data.renderPipelineType)) + CopyIds(CopyColor(r), CopyDepth(r))
            else multiset{}
    ensures Released(FrameTrace(r, copySupported))
         == if r.camera.cullable && Intermediate(r)
            then multiset(ReleasedAttachments(r.data.renderPipelineType)) + CopyIds(CopyColor(r), CopyDepth(r))
            else multiset{}
  {
    if r.camera.cullable {
      var p := PlanOf(r);
      PlanSurfaces(p, copySupported);
      CullInert(r, copySupported);
    }
  }

  lemma CullInert(r: FrameRequest, copySupported: bool)
    requires r.camera.cullable
    ensures Acquired(FrameTrace(r, copySupported)) == Acquired(PlanTrace(PlanOf(r), copySupported))
    ensures Released(FrameTrace(r, copySupported)) == Released(PlanTrace(PlanOf(r), copySupported))
  {
    CulledFrameTrace(r, copySupported);
    AcquiredCons(CullScene(PlanOf(r).shadowDistance), PlanTrace(PlanOf(r), copySupported));
  }

  /** Forward releases the attachments it acquires; Deferred releases all of
      them but the colour attachment. */
  lemma AttachmentLists()
    ensures multiset(AcquiredAttachments(Forward)) == multiset(ReleasedAttachments(Forward))
    ensures multiset(AcquiredAttachments(Deferred))
         == multiset(ReleasedAttachments(Deferred)) + multiset{CameraColorAttachment}
    ensures CameraColorAttachment !in ReleasedAttachments(Deferred)
  {
    DeferredAttachments();
  }

  lemma DeferredAttachments()
    ensures multiset(AcquiredAttachments(Deferred))
         == multiset(ReleasedAttachments(Deferred)) + multiset{CameraColorAttachment}
  {
    var g := [GBufferA, GBufferB, GBufferC, GBufferD, GBufferE, GBufferF];
    assert AcquiredAttachments(Deferred) == [CameraColorAttachment, CameraDepthAttachment] + g;
    assert ReleasedAttachments(Deferred) == g + [CameraDepthAttachment];
    FirstMovedOut(CameraColorAttachment, CameraDepthAttachment, g);
  }

  lemma FirstMovedOut(a: Prop, b: Prop, g: seq<Prop>)
    ensures multiset([a, b] + g) == multiset(g + [b]) + multiset{a}
  {
    calc {
      multiset([a, b] + g);
      multiset([a, b]) + multiset(g);
      multiset(g) + multiset([b]) + multiset{a};
    }
  }

  /** One element of the acquire list is missing from the release list and
      from the copies; it is the whole difference between the two counts. */
  lemma LeakOne(acquired: multiset<Prop>, released: multiset<Prop>, acq: multiset<Prop>,
                rel: multiset<Prop>, copies: multiset<Prop>, x: Prop)
    requires acquired == acq + copies && released == rel + copies
    requires acq == rel + multiset{x} && x !in rel && x !in copies
    ensures acquired == released + multiset{x}
    ensures x in acquired && x !in released
  {
  }

  lemma CopyIdsAreCopies(copyColor: bool, copyDepth: bool)
    ensures CameraColorAttachment !in CopyIds(copyColor, copyDepth)
  {
  }

  /** Forward: every surface the frame acquires is released, once. */
  lemma ForwardFrameBalanced(r: FrameRequest, copySupported: bool)
    requires r.data.renderPipelineType == Forward
    ensures Acquired(FrameTrace(r, copySupported)) == Released(FrameTrace(r, copySupported))
  {
    FrameSurfaces(r, copySupported);
  }

  /** Deferred with an intermediate buffer: the colour attachment is acquired
      and never released; everything else balances. */
  lemma DeferredFrameLeaksColorAttachment(r: FrameRequest, copySupported: bool)
    requires r.data.renderPipelineType == Deferred && r.camera.cullable && Intermediate(r)
    ensures Acquired(FrameTrace(r, copySupported)) == Released(FrameTrace(r, copySupported)) + multiset{CameraColorAttachment}
    ensures CameraColorAttachment in Acquired(FrameTrace(r, copySupported))
    ensures CameraColorAttachment !in Released(FrameTrace(r, copySupported))
  {
    FrameSurfaces(r, copySupported);
    AttachmentLists();
    var copies := CopyIds(CopyColor(r), CopyDepth(r));
    CopyIdsAreCopies(CopyColor(r), CopyDepth(r));
    LeakOne(Acquired(FrameTrace(r, copySupported)), Released(FrameTrace(r, copySupported)),
            multiset(AcquiredAttachments(Deferred)), multiset(ReleasedAttachments(Deferred)),
            copies, CameraColorAttachment);
  }

  // ----- Ordering -----

  /** The phase a command belongs to, for the commands whose position the
      frame's design fixes; -1 for the rest. */
  function PhaseRank(c: Command): int
  {
    match c
    case Call(callee) =>
      (match callee
       case LightingSetup(_, _) => 0
       case PostFxSetup(_, _) => 0
       case BrdfSetUp => 0
       case TaaSetUp => 2
       case DrawAreaLight => 2
       case TaaRender => 7
       case PostFxRender => 8
       case LightingCleanup => 9
       case VelocityCleanup => 9
       case TaaClearUp => 9
       case BrdfClearUp => 9
       case _ => -1)
    case GetTemporaryRT(id, _, _, _, _, _) =>
      if id == CameraColorTexture || id == CameraDepthTexture then 5 else 1
    case CullScene(_) => 0
    case ClearRenderTarget(_, _, _) => 1
    case DrawRenderers(queue, _, _, _, _, _) => if queue == OpaqueQueue then 3 else 6
    case DrawSkybox => 4
    case CopyTexture(_, _) => 5
    case DrawProcedural(target, _) => if target == CameraTarget then 8 else 5
    case SetRenderTarget(colors, _, load) =>
      if colors == Single(CameraTarget) then 8
      else if colors == Single(Temporary(CameraColorTexture)) || colors == Single(Temporary(CameraDepthTexture)) then 5
      else if load then 5
      else -1
    case ReleaseTemporaryRT(_) => 9
    case Submit => 10
    case _ => -1
  }

  /** Ranked commands appear in non-decreasing rank order. */
  ghost predicate Ordered(t: seq<Command>)
  {
    forall i, j :: 0 <= i < j < |t| && PhaseRank(t[i]) >= 0 && PhaseRank(t[j]) >= 0 ==>
      PhaseRank(t[i]) <= PhaseRank(t[j])
  }

  ghost predicate RanksWithin(t: seq<Command>, lo: int, hi: int)
  {
    forall c :: c in t && PhaseRank(c) >= 0 ==> lo <= PhaseRank(c) <= hi
  }

  lemma SingleRankOrdered(t: seq<Command>, k: int)
    requires RanksWithin(t, k, k)
    ensures Ordered(t)
  {
    forall i, j | 0 <= i < j < |t| && PhaseRank(t[i]) >= 0 && PhaseRank(t[j]) >= 0
      ensures PhaseRank(t[i]) <= PhaseRank(t[j])
    {
      assert t[i] in t && t[j] in t;
    }
  }

  lemma OrderedAppend(a: seq<Command>, b: seq<Command>, lo: int, mid: int, hi: int)
    requires lo <= mid <= hi
    requires Ordered(a) && Ordered(b)
    requires RanksWithin(a, lo, mid) && RanksWithin(b, mid, hi)
    ensures Ordered(a + b) && RanksWithin(a + b, lo, hi)
  {
    var t := a + b;
    forall i, j | 0 <= i < j < |t| && PhaseRank(t[i]) >= 0 && PhaseRank(t[j]) >= 0
      ensures PhaseRank(t[i]) <= PhaseRank(t[j])
    {
      if j < |a| {
        assert t[i] == a[i] && t[j] == a[j];
      } else if i >= |a| {
        assert t[i] == b[i - |a|] && t[j] == b[j - |a|];
      } else {
        assert t[i] == a[i] && a[i] in a;
        assert t[j] == b[j - |a|] && b[j - |a|] in b;
      }
    }
  }

  /** Every ranked command of `a + b` is in `[lo, hi]` if that holds of both. */
  lemma RanksAppend(a: seq<Command>, b: seq<Command>, lo: int, hi: int)
    requires RanksWithin(a, lo, hi) && RanksWithin(b, lo, hi)
    ensures RanksWithin(a + b, lo, hi)
  {
  }

  lemma AcquireAllRanks(ids: seq<Prop>, width: int, height: int, hdr: bool)
    requires CameraColorTexture !in ids && CameraDepthTexture !in ids
    ensures RanksWithin(AcquireAll(ids, width, height, hdr), 1, 1)
  {
    AcquireAllCounts(ids, width, height, hdr);
  }

  lemma SetupRanks(path: RenderPipelineType, camera: Camera, intermediate: bool, width: int, height: int, hdr: bool)
    ensures RanksWithin(SetupTrace(path, camera, intermediate, width, height, hdr), 1, 1)
  {
    var head: seq<Command> := [SetupCameraProperties];
    var acquires := if intermediate then AcquireAll(AcquiredAttachments(path), width, height, hdr) + [AttachmentBinding(path)] else [];
    var clear := ClearFor(AdjustClearFlags(camera.clearFlags, intermediate), camera.backgroundColor);
    var tail := [clear, SetGlobalTexture(CameraColorTexture, MissingTexture),
                 SetGlobalTexture(CameraDepthTexture, MissingTexture)];
    if intermediate {
      AcquireAllRanks(AcquiredAttachments(path), width, height, hdr);
      assert PhaseRank(AttachmentBinding(path)) == -1;
      RanksAppend(AcquireAll(AcquiredAttachments(path), width, height, hdr), [AttachmentBinding(path)], 1, 1);
    }
    assert PhaseRank(clear) == 1;
    RanksAppend(head, acquires, 1, 1);
    RanksAppend(head + acquires, tail, 1, 1);
  }

  lemma CopyRanks(copyColor: bool, copyDepth: bool, width: int, height: int, hdr: bool, copySupported: bool)
    ensures RanksWithin(CopyTrace(copyColor, copyDepth, width, height, hdr, copySupported), 5, 5)
  {
    var cc := CopyColorTrace(copyColor, width, height, hdr, copySupported);
    var cd := CopyDepthTrace(copyDepth, width, height, copySupported);
    assert RanksWithin(cc, 5, 5);
    assert RanksWithin(cd, 5, 5);
    RanksAppend(cc, cd, 5, 5);
    RanksAppend(cc + cd, RebindTrace(copySupported), 5, 5);
  }

  lemma GeometryOrdered(path: RenderPipelineType, copyColor: bool, copyDepth: bool,
                        width: int, height: int, hdr: bool, copySupported: bool,
                        lightsPerObject: bool, layerMask: int)
    ensures Ordered(GeometryTrace(path, copyColor, copyDepth, width, height, hdr, copySupported, lightsPerObject, layerMask))
    ensures RanksWithin(GeometryTrace(path, copyColor, copyDepth, width, height, hdr, copySupported, lightsPerObject, layerMask), 3, 6)
  {
    var o := [DrawOpaque(path, layerMask, lightsPerObject), DrawSkybox];
    var copies := if copyColor || copyDepth then CopyTrace(copyColor, copyDepth, width, height, hdr, copySupported) else [];
    var tr := [DrawTransparent(path, layerMask, lightsPerObject)];
    OpaqueSkyboxOrdered(path, layerMask, lightsPerObject);
    OptionalCopyOrdered(copyColor, copyDepth, width, height, hdr, copySupported);
    TransparentOrdered(path, layerMask, lightsPerObject);
    OrderedAppend(o, copies, 3, 4, 5);
    OrderedAppend(o + copies, tr, 3, 5, 6);
  }

  lemma OpaqueSkyboxOrdered(path: RenderPipelineType, layerMask: int, lightsPerObject: bool)
    ensures Ordered([DrawOpaque(path, layerMask, lightsPerObject), DrawSkybox])
    ensures RanksWithin([DrawOpaque(path, layerMask, lightsPerObject), DrawSkybox], 3, 4)
  {
    var o := [DrawOpaque(path, layerMask, lightsPerObject), DrawSkybox];
    assert o[0] == DrawOpaque(path, layerMask, lightsPerObject) && o[1] == DrawSkybox;
  }

  lemma OptionalCopyOrdered(copyColor: bool, copyDepth: bool, width: int, height: int, hdr: bool, copySupported: bool)
    ensures Ordered(if copyColor || copyDepth then CopyTrace(copyColor, copyDepth, width, height, hdr, copySupported) else [])
    ensures RanksWithin(if copyColor || copyDepth then CopyTrace(copyColor, copyDepth, width, height, hdr, copySupported) else [], 5, 5)
  {
    var copies := if copyColor || copyDepth then CopyTrace(copyColor, copyDepth, width, height, hdr, copySupported) else [];
    CopyRanks(copyColor, copyDepth, width, height, hdr, copySupported);
    SingleRankOrdered(copies, 5);
  }

  lemma TransparentOrdered(path: RenderPipelineType, layerMask: int, lightsPerObject: bool)
    ensures Ordered([DrawTransparent(path, layerMask, lightsPerObject)])
    ensures RanksWithin([DrawTransparent(path, layerMask, lightsPerObject)], 6, 6)
  {
    SingleRankOrdered([DrawTransparent(path, layerMask, lightsPerObject)], 6);
  }

  lemma PassOrdered(p: FramePlan, copySupported: bool)
    ensures Ordered(PassTrace(p, copySupported)) && RanksWithin(PassTrace(p, copySupported), 1, 6)
  {
    var s, ts, al, g := FrameSetup(p), TaaSetUpTrace(p), AreaLightTrace(p), FrameGeometry(p, copySupported);
    SetupRanks(p.path, p.camera, p.intermediate, p.width, p.height, p.hdr);
    GeometryOrdered(p.path, p.copyColor, p.copyDepth, p.width, p.height, p.hdr,
                    copySupported, p.lightsPerObject, p.layerMask);
    SingleRankOrdered(s, 1);
    SetUpMarkersOrdered(p);
    OrderedAppend(s, ts, 1, 1, 2);
    OrderedAppend(s + ts, al, 1, 2, 2);
    OrderedAppend(s + ts + al, g, 1, 2, 6);
  }

  lemma SetUpMarkersOrdered(p: FramePlan)
    ensures Ordered(TaaSetUpTrace(p)) && RanksWithin(TaaSetUpTrace(p), 2, 2)
    ensures Ordered(AreaLightTrace(p)) && RanksWithin(AreaLightTrace(p), 2, 2)
  {
    SingleRankOrdered(TaaSetUpTrace(p), 2);
    SingleRankOrdered(AreaLightTrace(p), 2);
  }

  lemma CleanupRanks(path: RenderPipelineType, intermediate: bool, copyColor: bool, copyDepth: bool,
                     antiAliasing: AntiAliasingType)
    ensures RanksWithin(CleanupTrace(path, intermediate, copyColor, copyDepth, antiAliasing), 9, 9)
  {
    var calls := [Call(LightingCleanup), Call(VelocityCleanup)];
    var releases := if intermediate then ReleaseAll(ReleasedAttachments(path)) + CopyReleases(copyColor, copyDepth) else [];
    var taa: seq<Command> := if antiAliasing != TAA then [Call(TaaClearUp)] else [];
    var brdf := [Call(BrdfClearUp)];
    CleanupCallRanks(antiAliasing);
    ReleaseRanks(path, intermediate, copyColor, copyDepth);
    RanksAppend(calls, releases, 9, 9);
    RanksAppend(calls + releases, taa, 9, 9);
    RanksAppend(calls + releases + taa, brdf, 9, 9);
  }

  lemma CleanupCallRanks(antiAliasing: AntiAliasingType)
    ensures RanksWithin([Call(LightingCleanup), Call(VelocityCleanup)], 9, 9)
    ensures RanksWithin(if antiAliasing != TAA then [Call(TaaClearUp)] else [], 9, 9)
    ensures RanksWithin([Call(BrdfClearUp)], 9, 9)
  {
  }

  lemma ReleaseRanks(path: RenderPipelineType, intermediate: bool, copyColor: bool, copyDepth: bool)
    ensures RanksWithin(if intermediate then ReleaseAll(ReleasedAttachments(path)) + CopyReleases(copyColor, copyDepth) else [], 9, 9)
  {
    if intermediate {
      var ids := ReleasedAttachments(path);
      ReleaseAllRanks(ids);
      CopyReleaseRanks(copyColor, copyDepth);
      RanksAppend(ReleaseAll(ids), CopyReleases(copyColor, copyDepth), 9, 9);
    }
  }

  lemma ReleaseAllRanks(ids: seq<Prop>)
    ensures RanksWithin(ReleaseAll(ids), 9, 9)
  {
    ReleaseAllCounts(ids);
  }

  lemma CopyReleaseRanks(copyColor: bool, copyDepth: bool)
    ensures RanksWithin(CopyReleases(copyColor, copyDepth), 9, 9)
  {
  }

  lemma EpilogueOrdered(p: FramePlan)
    ensures Ordered(EpilogueTrace(p)) && RanksWithin(EpilogueTrace(p), 7, 10)
  {
    var tr, f, c := TaaRenderTrace(p), FrameFinal(p), FrameCleanup(p);
    CleanupRanks(p.path, p.intermediate, p.copyColor, p.copyDepth, p.antiAliasing);
    FinalRanks(p);
    SingleRankOrdered(tr, 7);
    SingleRankOrdered(f, 8);
    SingleRankOrdered(c, 9);
    SingleRankOrdered([Submit], 10);
    OrderedAppend(tr, f, 7, 7, 8);
    OrderedAppend(tr + f, c, 7, 8, 9);
    OrderedAppend(tr + f + c, [Submit], 7, 9, 10);
  }

  lemma FinalRanks(p: FramePlan)
    ensures RanksWithin(FrameFinal(p), 8, 8)
  {
    if !p.postFxActive && p.intermediate {
      var f := DrawFinalTrace(p.finalBlend);
      assert forall c :: c in f && PhaseRank(c) >= 0 ==> c == f[3] || c == f[5];
    }
  }

  lemma PlanOrdered(p: FramePlan, copySupported: bool)
    ensures Ordered(PlanTrace(p, copySupported)) && RanksWithin(PlanTrace(p, copySupported), 0, 10)
  {
    var pre := PreludeTrace(p);
    SingleRankOrdered(pre, 0);
    PassOrdered(p, copySupported);
    EpilogueOrdered(p);
    OrderedAppend(pre, PassTrace(p, copySupported), 0, 0, 6);
    OrderedAppend(pre + PassTrace(p, copySupported), EpilogueTrace(p), 0, 6, 10);
  }

  /** The frame's commands come in this order: lighting setup; surface
      acquisition and clear; TAA setup; opaque draw; skybox; attachment
      copies; transparent draw; TAA resolve; post-processing or final blit;
      cleanup and releases; submit. */
  lemma FrameOrdered(r: FrameRequest, copySupported: bool)
    ensures Ordered(FrameTrace(r, copySupported))
  {
    if r.camera.cullable {
      var cull := [CullScene(PlanOf(r).shadowDistance)];
      PlanOrdered(PlanOf(r), copySupported);
      SingleRankOrdered(cull, 0);
      OrderedAppend(cull, PlanTrace(PlanOf(r), copySupported), 0, 0, 10);
    }
  }

  /** Lighting is set up, both geometry queues and the skybox are drawn, and
      the frame ends with `Submit`. */
  lemma PlanMilestones(p: FramePlan, copySupported: bool)
    ensures Call(LightingSetup(p.lightsPerObject, p.lightMask)) in PlanTrace(p, copySupported)
    ensures DrawOpaque(p.path, p.layerMask, p.lightsPerObject) in PlanTrace(p, copySupported)
    ensures DrawSkybox in PlanTrace(p, copySupported)
    ensures DrawTransparent(p.path, p.layerMask, p.lightsPerObject) in PlanTrace(p, copySupported)
    ensures PlanTrace(p, copySupported)[|PlanTrace(p, copySupported)| - 1] == Submit
  {
    var g := FrameGeometry(p, copySupported);
    assert g[0] in g && g[1] in g && g[|g| - 1] in g;
    var e := EpilogueTrace(p);
    assert e[|e| - 1] == Submit;
  }

  /** When culling succeeds the frame sets up lighting with the camera's
      light mask, draws both queues and the skybox, and ends with `Submit`. */
  lemma FrameMilestones(r: FrameRequest, copySupported: bool)
    requires r.camera.cullable
    ensures Call(LightingSetup(r.data.useLightsPerObject, LightMask(r))) in FrameTrace(r, copySupported)
    ensures DrawOpaque(r.data.renderPipelineType, SettingsOf(r.camera).renderingLayerMask, r.data.useLightsPerObject)
            in FrameTrace(r, copySupported)
    ensures DrawSkybox in FrameTrace(r, copySupported)
    ensures DrawTransparent(r.data.renderPipelineType, SettingsOf(r.camera).renderingLayerMask, r.data.useLightsPerObject)
            in FrameTrace(r, copySupported)
    ensures FrameTrace(r, copySupported)[|FrameTrace(r, copySupported)| - 1] == Submit
  {
    var t := PlanTrace(PlanOf(r), copySupported);
    PlanMilestones(PlanOf(r), copySupported);
    assert FrameTrace(r, copySupported) == [CullScene(PlanOf(r).shadowDistance)] + t;
    assert FrameTrace(r, copySupported)[|FrameTrace(r, copySupported)| - 1] == t[|t| - 1];
  }

  /** The command that binds the camera target for the final blit. */
  predicate BindsCameraTarget(c: Command)
  {
    c.SetRenderTarget? && c.colors == Single(CameraTarget)
  }

  lemma PlanFinalBlit(p: FramePlan, copySupported: bool)
    ensures (exists c :: c in PlanTrace(p, copySupported) && BindsCameraTarget(c))
        <==> !p.postFxActive && p.intermediate
    ensures forall c :: c in PlanTrace(p, copySupported) && BindsCameraTarget(c) ==>
              c.load == (p.finalBlend.destination != Zero)
  {
    BindsOnlyInFinal(p, copySupported);
    FinalBinds(p);
    var f := FrameFinal(p);
    if !p.postFxActive && p.intermediate {
      var c :| c in f && BindsCameraTarget(c);
      assert c in PlanTrace(p, copySupported);
    }
  }

  /** Only `FrameFinal` may bind the camera target. */
  lemma BindsOnlyInFinal(p: FramePlan, copySupported: bool)
    ensures forall c :: c in PlanTrace(p, copySupported) && BindsCameraTarget(c) ==> c in FrameFinal(p)
  {
    var pre, pass, tr, f, cl := PreludeTrace(p), PassTrace(p, copySupported), TaaRenderTrace(p), FrameFinal(p), FrameCleanup(p);
    BeforeFinalNoBind(p, copySupported);
    AfterFinalNoBind(p);
    PlanSplit(p, copySupported);
    OnlyBindsInMiddle(pre + pass + tr, f, cl + [Submit]);
  }

  lemma PlanSplit(p: FramePlan, copySupported: bool)
    ensures PlanTrace(p, copySupported)
         == (PreludeTrace(p) + PassTrace(p, copySupported) + TaaRenderTrace(p)) + FrameFinal(p) + (FrameCleanup(p) + [Submit])
  {
  }

  lemma BeforeFinalNoBind(p: FramePlan, copySupported: bool)
    ensures NoCameraTargetBind(PreludeTrace(p) + PassTrace(p, copySupported) + TaaRenderTrace(p))
  {
    var pre, pass, tr := PreludeTrace(p), PassTrace(p, copySupported), TaaRenderTrace(p);
    SingleRankOrdered(pre, 0);
    NoBindOutsideRank8(pre, 0, 0);
    PassOrdered(p, copySupported);
    NoBindOutsideRank8(pass, 1, 6);
    SingleRankOrdered(tr, 7);
    NoBindOutsideRank8(tr, 7, 7);
    NoBindAppend(pre, pass);
    NoBindAppend(pre + pass, tr);
  }

  lemma AfterFinalNoBind(p: FramePlan)
    ensures NoCameraTargetBind(FrameCleanup(p) + [Submit])
  {
    CleanupRanks(p.path, p.intermediate, p.copyColor, p.copyDepth, p.antiAliasing);
    NoBindOutsideRank8(FrameCleanup(p), 9, 9);
    NoBindOutsideRank8([Submit], 10, 10);
    NoBindAppend(FrameCleanup(p), [Submit]);
  }

  ghost predicate NoCameraTargetBind(s: seq<Command>)
  {
    forall c :: c in s ==> !BindsCameraTarget(c)
  }

  lemma BindRank(c: Command)
    ensures BindsCameraTarget(c) ==> PhaseRank(c) == 8
  {
  }

  lemma NoBindOutsideRank8(s: seq<Command>, lo: int, hi: int)
    requires RanksWithin(s, lo, hi) && (hi < 8 || 8 < lo)
    ensures NoCameraTargetBind(s)
  {
    forall c | c in s
      ensures !BindsCameraTarget(c)
    {
      BindRank(c);
    }
  }

  lemma NoBindAppend(a: seq<Command>, b: seq<Command>)
    requires NoCameraTargetBind(a) && NoCameraTargetBind(b)
    ensures NoCameraTargetBind(a + b)
  {
  }

  lemma OnlyBindsInMiddle(a: seq<Command>, m: seq<Command>, b: seq<Command>)
    requires NoCameraTargetBind(a) && NoCameraTargetBind(b)
    ensures forall c :: c in a + m + b && BindsCameraTarget(c) ==> c in m
  {
  }

  /** The final blit is the only part of `FrameFinal` that binds the camera
      target, and it loads it when the destination factor is not Zero. */
  lemma FinalBinds(p: FramePlan)
    ensures (exists c :: c in FrameFinal(p) && BindsCameraTarget(c)) <==> !p.postFxActive && p.intermediate
    ensures forall c :: c in FrameFinal(p) && BindsCameraTarget(c) ==> c.load == (p.finalBlend.destination != Zero)
  {
    var f := FrameFinal(p);
    if !p.postFxActive && p.intermediate {
      var d := DrawFinalTrace(p.finalBlend);
      assert d[3] in f && BindsCameraTarget(d[3]);
      assert forall c :: c in d && BindsCameraTarget(c) ==> c == d[3];
    }
  }

  /** The final blit binds the camera target only when culling succeeded,
      post-processing is inactive and an intermediate buffer was used; it
      loads the target's contents exactly when the destination blend factor
      is not Zero. */
  lemma FinalBlit(r: FrameRequest, copySupported: bool)
    ensures (exists c :: c in FrameTrace(r, copySupported) && BindsCameraTarget(c))
        <==> r.camera.cullable && !r.postFxActive && Intermediate(r)
    ensures forall c :: c in FrameTrace(r, copySupported) && BindsCameraTarget(c) ==>
              c.load == (SettingsOf(r.camera).finalBlendMode.destination != Zero)
  {
    if r.camera.cullable {
      var t := PlanTrace(PlanOf(r), copySupported);
      PlanFinalBlit(PlanOf(r), copySupported);
      assert FrameTrace(r, copySupported) == [CullScene(PlanOf(r).shadowDistance)] + t;
      assert forall c :: c in FrameTrace(r, copySupported) && BindsCameraTarget(c) ==> c in t;
    }
  }

  /** The frame `Render` builds step by step (`BeginFrame`, `Cull`,
      `SizeFrame`, then `Setup`'s choice of an intermediate buffer) is
      `PlanOf` the request, whatever the renderer held before. */
  lemma PlanMatches(camera: Camera, data: RenderPipelineData, drawAddition: bool, postFxActive: bool,
                    f0: FramePlan, f1: FramePlan, f2: FramePlan, f3: FramePlan, f4: FramePlan, scaled: bool)
    requires camera.cullable
    requires scaled == ScaledRendering(Scale(FrameRequest(camera, data, drawAddition, postFxActive)))
    requires f1 == f0.(path := data.renderPipelineType, camera := camera,
                       copyColor := CopyColor(FrameRequest(camera, data, drawAddition, postFxActive)),
                       copyDepth := CopyDepth(FrameRequest(camera, data, drawAddition, postFxActive)),
                       lightsPerObject := data.useLightsPerObject,
                       postFx := EffectivePostFx(FrameRequest(camera, data, drawAddition, postFxActive)),
                       antiAliasing := data.cameraBuffer.antiAliasingType, postFxActive := postFxActive)
    requires f2 == f1.(shadowDistance := ShadowDistance(data.maxShadowDistance, f2.camera.farClipPlane))
    requires f3 == f2.(hdr := data.cameraBuffer.allowHDR && camera.allowHDR,
                       width := BufferSize(camera, GetRenderScale(SettingsOf(camera), data.cameraBuffer.renderScale)).0,
                       height := BufferSize(camera, GetRenderScale(SettingsOf(camera), data.cameraBuffer.renderScale)).1,
                       lightMask := if SettingsOf(camera).maskLights then SettingsOf(camera).renderingLayerMask else -1,
                       fxaa := SettingsOf(camera).allowFXAA && data.cameraBuffer.antiAliasingType == FXAA,
                       layerMask := SettingsOf(camera).renderingLayerMask,
                       drawsAreaLights := drawAddition && (camera.cameraType == Game || camera.cameraType == SceneView),
                       finalBlend := SettingsOf(camera).finalBlendMode)
    requires f4 == f3.(intermediate := UseIntermediate(scaled, f3.copyColor, f3.copyDepth, f3.postFxActive))
    ensures f4 == PlanOf(FrameRequest(camera, data, drawAddition, postFxActive))
  {
  }

  lemma CulledFrameTrace(r: FrameRequest, copySupported: bool)
    requires r.camera.cullable
    ensures FrameTrace(r, copySupported) == [CullScene(PlanOf(r).shadowDistance)] + PlanTrace(PlanOf(r), copySupported)
  {
  }

  // ----- The renderer -----

  class CameraRenderer {
    /** Everything the renderer has recorded, in order. */
    var stream: seq<Command>
    /** `SystemInfo.copyTextureSupport`, fixed for the platform. */
    const copyTextureSupported: bool

    /** The per-frame fields (`camera`, `bufferSize`, `useHDR`,
        `useColorTexture`, `useIntermediateBuffer`, …), grouped. */
    var frame: FramePlan
    var useScaledRendering: bool

    constructor (copyTextureSupported: bool, frame: FramePlan)
      ensures this.copyTextureSupported == copyTextureSupported
      ensures stream == [] && this.frame == frame
    {
      this.copyTextureSupported := copyTextureSupported;
      this.frame := frame;
      stream := [];
    }

    /** `SetupForward` and `SetupDeferred`, which differ only in the
        surfaces acquired and bound: decide whether to render through an
        intermediate buffer, acquire and bind it, and clear. */
    method Setup()
      modifies this`stream, this`frame
      ensures frame == old(frame).(intermediate := UseIntermediate(useScaledRendering, old(frame).copyColor, old(frame).copyDepth, old(frame).postFxActive))
      ensures stream == old(stream) + FrameSetup(frame)
    {
      ghost var start := stream;
      stream := stream + [SetupCameraProperties];
      var flags := frame.camera.clearFlags;
      var f := frame.(intermediate := UseIntermediate(useScaledRendering, frame.copyColor, frame.copyDepth, frame.postFxActive));
      frame := f;
      var acquires: seq<Command> := [];
      if f.intermediate {
        if flags.Value() > SolidColor.Value() {
          flags := SolidColor;
        }
        acquires := AcquireAll(AcquiredAttachments(f.path), f.width, f.height, f.hdr) + [AttachmentBinding(f.path)];
        stream := stream + acquires;
      } else {
        AppendNothing(stream);
      }
      var tail := [ClearFor(flags, f.camera.backgroundColor),
                   SetGlobalTexture(CameraColorTexture, MissingTexture),
                   SetGlobalTexture(CameraDepthTexture, MissingTexture)];
      stream := stream + tail;
      Regroup2(start, [SetupCameraProperties], acquires, tail);
      SetupTraceOf(f, flags, acquires);
    }

    /** `Cull`: fails, recording nothing, when the camera yields no culling
        parameters; otherwise culls with the smaller of the configured shadow
        distance and the far clip plane. */
    method Cull(maxShadowDistance: real) returns (ok: bool)
      modifies this`stream, this`frame
      ensures ok == frame.camera.cullable
      ensures ok ==> frame == old(frame).(shadowDistance := ShadowDistance(maxShadowDistance, frame.camera.farClipPlane))
      ensures ok ==> stream == old(stream) + [CullScene(frame.shadowDistance)]
      ensures !ok ==> stream == old(stream) && frame == old(frame)
    {
      ok := frame.camera.cullable;
      if ok {
        var distance := ShadowDistance(maxShadowDistance, frame.camera.farClipPlane);
        frame := frame.(shadowDistance := distance);
        stream := stream + [CullScene(distance)];
      }
    }

    method Draw(from: Texture, to: Texture, isDepth: bool)
      modifies this`stream
      ensures stream == old(stream) + DrawTrace(from, to, isDepth)
    {
      stream := stream + [SetGlobalTexture(SourceTextureProp, from), SetRenderTarget(Single(to), None, false)];
      stream := stream + [SetViewport, DrawProcedural(to, if isDepth then 1 else 0)];
    }

    /** Copy one attachment: by `CopyTexture` where the platform supports
        it, by a full-screen draw otherwise. */
    method CopyInto(from: Texture, to: Texture, isDepth: bool)
      modifies this`stream
      ensures stream == old(stream) + CopyOne(from, to, isDepth, copyTextureSupported)
    {
      if copyTextureSupported {
        stream := stream + [CopyTexture(from, to)];
      } else {
        Draw(from, to, isDepth);
      }
    }

    method CopyAttachments()
      modifies this`stream
      ensures stream == old(stream) + CopyTrace(frame.copyColor, frame.copyDepth, frame.width, frame.height,
                                                frame.hdr, copyTextureSupported)
    {
      ghost var start := stream;
      if frame.copyColor {
        stream := stream + [Surface(CameraColorTexture, frame.width, frame.height, frame.hdr)];
        CopyInto(Temporary(CameraColorAttachment), Temporary(CameraColorTexture), false);
        Regroup1(start, [Surface(CameraColorTexture, frame.width, frame.height, frame.hdr)],
                 CopyOne(Temporary(CameraColorAttachment), Temporary(CameraColorTexture), false, copyTextureSupported));
      } else {
        AppendNothing(stream);
      }
      ghost var mid := stream;
      if frame.copyDepth {
        stream := stream + [Surface(CameraDepthTexture, frame.width, frame.height, false)];
        CopyInto(Temporary(CameraDepthAttachment), Temporary(CameraDepthTexture), true);
        Regroup1(mid, [Surface(CameraDepthTexture, frame.width, frame.height, false)],
                 CopyOne(Temporary(CameraDepthAttachment), Temporary(CameraDepthTexture), true, copyTextureSupported));
      } else {
        AppendNothing(stream);
      }
      if !copyTextureSupported {
        stream := stream + [SetRenderTarget(Single(Temporary(CameraColorAttachment)), Some(Temporary(CameraDepthAttachment)), true)];
      } else {
        AppendNothing(stream);
      }
      Regroup2(start, CopyColorTrace(frame.copyColor, frame.width, frame.height, frame.hdr, copyTextureSupported),
               CopyDepthTrace(frame.copyDepth, frame.width, frame.height, copyTextureSupported),
               RebindTrace(copyTextureSupported));
    }

    /** `DrawForwardVisibleGeometry` and `DrawDeferredVisibleGeometry`, which
        differ only in the lit pass tag. */
    method DrawVisibleGeometry()
      modifies this`stream
      ensures stream == old(stream) + FrameGeometry(frame, copyTextureSupported)
    {
      ghost var start := stream;
      var draws := [DrawOpaque(frame.path, frame.layerMask, frame.lightsPerObject), DrawSkybox];
      stream := stream + draws;
      ghost var copies: seq<Command> := [];
      if frame.copyColor || frame.copyDepth {
        CopyAttachments();
        copies := CopyTrace(frame.copyColor, frame.copyDepth, frame.width, frame.height, frame.hdr, copyTextureSupported);
      } else {
        AppendNothing(stream);
      }
      stream := stream + [DrawTransparent(frame.path, frame.layerMask, frame.lightsPerObject)];
      Regroup2(start, draws, copies, [DrawTransparent(frame.path, frame.layerMask, frame.lightsPerObject)]);
    }

    method DrawFinal(finalBlendMode: FinalBlendMode)
      modifies this`stream
      ensures stream == old(stream) + DrawFinalTrace(finalBlendMode)
    {
      stream := stream + [SetGlobalFloat(CameraSrcBlend, finalBlendMode.source.Value()),
                          SetGlobalFloat(CameraDstBlend, finalBlendMode.destination.Value())];
      stream := stream + [SetGlobalTexture(SourceTextureProp, Temporary(CameraColorAttachment)),
                          SetRenderTarget(Single(CameraTarget), None, finalBlendMode.destination != Zero)];
      stream := stream + [SetViewport, DrawProcedural(CameraTarget, 0)];
      stream := stream + [SetGlobalFloat(CameraSrcBlend, 1.0), SetGlobalFloat(CameraDstBlend, 0.0)];
    }

    method Cleanup()
      modifies this`stream
      ensures stream == old(stream) + FrameCleanup(frame)
    {
      ghost var start := stream;
      var calls := [Call(LightingCleanup), Call(VelocityCleanup)];
      stream := stream + calls;
      ghost var releases: seq<Command> := [];
      if frame.intermediate {
        ghost var before := stream;
        stream := stream + ReleaseAll(ReleasedAttachments(frame.path));
        ghost var attachments := stream;
        if frame.copyColor {
          stream := stream + [ReleaseTemporaryRT(CameraColorTexture)];
        }
        if frame.copyDepth {
          stream := stream + [ReleaseTemporaryRT(CameraDepthTexture)];
        }
        assert stream == attachments + CopyReleases(frame.copyColor, frame.copyDepth);
        releases := ReleaseAll(ReleasedAttachments(frame.path)) + CopyReleases(frame.copyColor, frame.copyDepth);
        Regroup1(before, ReleaseAll(ReleasedAttachments(frame.path)), CopyReleases(frame.copyColor, frame.copyDepth));
      }
      var taa: seq<Command> := [];
      if frame.antiAliasing != TAA {
        taa := [Call(TaaClearUp)];
        stream := stream + taa;
      } else {
        AppendNothing(stream);
      }
      stream := stream + [Call(BrdfClearUp)];
      Regroup3(start, calls, releases, taa, [Call(BrdfClearUp)]);
    }

    method Submit()
      modifies this`stream
      ensures stream == old(stream) + [Command.Submit]
    {
      stream := stream + [Command.Submit];
    }

    /** The part of `Render` between culling and submitting. */
    method RecordFrame()
      modifies this`stream, this`frame
      ensures frame == old(frame).(intermediate := UseIntermediate(useScaledRendering, old(frame).copyColor, old(frame).copyDepth, old(frame).postFxActive))
      ensures stream == old(stream) + PlanTrace(frame, copyTextureSupported)
    {
      ghost var start := stream;
      stream := stream + [SetGlobalBufferSize(frame.width, frame.height),
                          Call(LightingSetup(frame.lightsPerObject, frame.lightMask)),
                          Call(PostFxSetup(frame.postFx, frame.fxaa)),
                          Call(BrdfSetUp)];
      ghost var prelude := stream;
      ghost var preludeTrace := PreludeTrace(frame);
      Setup();
      assert PreludeTrace(frame) == preludeTrace;
      ghost var setup := stream;
      RecordPass();
      Regroup3(prelude, FrameSetup(frame), TaaSetUpTrace(frame), AreaLightTrace(frame), FrameGeometry(frame, copyTextureSupported));
      RecordEpilogue();
      Regroup2(start, PreludeTrace(frame), PassTrace(frame, copyTextureSupported), EpilogueTrace(frame));
    }

    /** TAA setup, area lights and geometry, once the surfaces are set up. */
    method RecordPass()
      modifies this`stream
      ensures stream == old(stream) + TaaSetUpTrace(frame) + AreaLightTrace(frame) + FrameGeometry(frame, copyTextureSupported)
    {
      if frame.antiAliasing == TAA {
        stream := stream + [Call(TaaSetUp)];
      } else {
        AppendNothing(stream);
      }
      if frame.drawsAreaLights {
        stream := stream + [Call(DrawAreaLight)];
      } else {
        AppendNothing(stream);
      }
      DrawVisibleGeometry();
    }

    /** TAA resolve, post-processing or the final blit, cleanup and submit. */
    method RecordEpilogue()
      modifies this`stream
      ensures stream == old(stream) + EpilogueTrace(frame)
    {
      ghost var start := stream;
      if frame.antiAliasing == TAA {
        stream := stream + [Call(TaaRender)];
      } else {
        AppendNothing(stream);
      }
      if frame.postFxActive {
        stream := stream + [Call(PostFxRender)];
      } else if frame.intermediate {
        DrawFinal(frame.finalBlend);
      } else {
        AppendNothing(stream);
      }
      Cleanup();
      Submit();
      Regroup3(start, TaaRenderTrace(frame), FrameFinal(frame), FrameCleanup(frame), [Command.Submit]);
    }

    /** The first half of `Render`, before culling: read the camera's
        settings (or the defaults), choose the copies and the
        post-processing asset, and resolve the render scale. */
    method BeginFrame(camera: Camera, data: RenderPipelineData, drawAddition: bool, postFxActive: bool)
      modifies this`frame, this`useScaledRendering
      ensures useScaledRendering == ScaledRendering(Scale(FrameRequest(camera, data, drawAddition, postFxActive)))
      ensures frame == old(frame).(path := data.renderPipelineType, camera := camera,
                                   copyColor := CopyColor(FrameRequest(camera, data, drawAddition, postFxActive)),
                                   copyDepth := CopyDepth(FrameRequest(camera, data, drawAddition, postFxActive)),
                                   lightsPerObject := data.useLightsPerObject,
                                   postFx := EffectivePostFx(FrameRequest(camera, data, drawAddition, postFxActive)),
                                   antiAliasing := data.cameraBuffer.antiAliasingType, postFxActive := postFxActive)
    {
      var settings := SettingsOf(camera);
      var copyColor, copyDepth;
      if camera.cameraType == Reflection {
        copyColor, copyDepth := data.cameraBuffer.copyColorReflection, data.cameraBuffer.copyDepthReflection;
      } else {
        copyColor := data.cameraBuffer.copyColor && settings.copyColor;
        copyDepth := data.cameraBuffer.copyDepth && settings.copyDepth;
      }
      var postFx := data.postProcessingSettings;
      if settings.overridePostProcessing {
        postFx := settings.postFXSettings;
      }
      var renderScale := GetRenderScale(settings, data.cameraBuffer.renderScale);
      useScaledRendering := ScaledRendering(renderScale);
      frame := frame.(path := data.renderPipelineType, camera := camera, copyColor := copyColor,
                      copyDepth := copyDepth, lightsPerObject := data.useLightsPerObject, postFx := postFx,
                      antiAliasing := data.cameraBuffer.antiAliasingType, postFxActive := postFxActive);
    }

    /** The part of `Render` between culling and recording: HDR, the
        buffer size (clamping the scale when scaled), and the per-camera
        choices handed to lighting, post-processing and the geometry pass. */
    method SizeFrame(camera: Camera, data: RenderPipelineData, drawAddition: bool)
      modifies this`frame
      ensures frame == old(frame).(hdr := data.cameraBuffer.allowHDR && camera.allowHDR,
                                   width := BufferSize(camera, GetRenderScale(SettingsOf(camera), data.cameraBuffer.renderScale)).0,
                                   height := BufferSize(camera, GetRenderScale(SettingsOf(camera), data.cameraBuffer.renderScale)).1,
                                   lightMask := if SettingsOf(camera).maskLights then SettingsOf(camera).renderingLayerMask else -1,
                                   fxaa := SettingsOf(camera).allowFXAA && data.cameraBuffer.antiAliasingType == FXAA,
                                   layerMask := SettingsOf(camera).renderingLayerMask,
                                   drawsAreaLights := drawAddition && (camera.cameraType == Game || camera.cameraType == SceneView),
                                   finalBlend := SettingsOf(camera).finalBlendMode)
    {
      var settings := SettingsOf(camera);
      var renderScale := GetRenderScale(settings, data.cameraBuffer.renderScale);
      var width, height;
      if ScaledRendering(renderScale) {
        renderScale := ClampScale(renderScale);
        width := Truncate(camera.pixelWidth as real * renderScale);
        height := Truncate(camera.pixelHeight as real * renderScale);
      } else {
        width, height := camera.pixelWidth, camera.pixelHeight;
      }
      frame := frame.(hdr := data.cameraBuffer.allowHDR && camera.allowHDR, width := width, height := height,
                      lightMask := if settings.maskLights then settings.renderingLayerMask else -1,
                      fxaa := settings.allowFXAA && data.cameraBuffer.antiAliasingType == FXAA,
                      layerMask := settings.renderingLayerMask,
                      drawsAreaLights := drawAddition && (camera.cameraType == Game || camera.cameraType == SceneView),
                      finalBlend := settings.finalBlendMode);
    }

    /** `Render`: one camera's frame. `postFxActive` is what the
        post-processing stack reports as active once set up. A camera that
        cannot be culled records nothing at all. */
    method Render(camera: Camera, data: RenderPipelineData, drawAddition: bool, postFxActive: bool)
      modifies this
      ensures stream == old(stream) + FrameTrace(FrameRequest(camera, data, drawAddition, postFxActive), copyTextureSupported)
      ensures camera.cullable ==> frame == PlanOf(FrameRequest(camera, data, drawAddition, postFxActive))
    {
      ghost var r := FrameRequest(camera, data, drawAddition, postFxActive);
      ghost var f0 := frame;
      BeginFrame(camera, data, drawAddition, postFxActive);
      ghost var f1 := frame;
      var culled := Cull(data.maxShadowDistance);
      if culled {
        ghost var f2 := frame;
        SizeFrame(camera, data, drawAddition);
        ghost var f3 := frame;
        RecordFrame();
        PlanMatches(camera, data, drawAddition, postFxActive, f0, f1, f2, f3, frame, useScaledRendering);
        Regroup1(old(stream), [CullScene(frame.shadowDistance)], PlanTrace(frame, copyTextureSupported));
        CulledFrameTrace(r, copyTextureSupported);
      } else {
        AppendNothing(stream);
      }
    }
  }
}
