/** Per-camera settings (CameraSettings.cs) and the configuration records of
    the pipeline asset and of lights, used as plain values. */
module Settings {
  import opened Rendering

  /** `CameraRenderer.renderScaleMin` and `renderScaleMax`, the range the
      inspector allows for both render-scale fields. */
  const RenderScaleMin: real := 0.1
  const RenderScaleMax: real := 2.0

  datatype RenderScaleMode = Inherit | Multiply | Override

  datatype FinalBlendMode = FinalBlendMode(source: BlendMode, destination: BlendMode)

  /** A post-processing settings asset, by identity only. */
  type PostFxAsset = nat

  datatype CameraSettings = CameraSettings(
    copyColor: bool,
    copyDepth: bool,
    renderingLayerMask: int,
    maskLights: bool,
    renderScaleMode: RenderScaleMode,
    renderScale: real,
    overridePostProcessing: bool,
    postFXSettings: Option<PostFxAsset>,
    allowFXAA: bool,
    keepAlpha: bool,
    finalBlendMode: FinalBlendMode
  )

  /** A freshly constructed `CameraSettings`, i.e. the field initialisers. */
  function DefaultCameraSettings(): (s: CameraSettings)
    ensures s.copyColor && s.copyDepth
    ensures s.renderingLayerMask == -1 && !s.maskLights
    ensures s.renderScaleMode == Inherit && s.renderScale == 1.0
    ensures !s.overridePostProcessing && s.postFXSettings == None
    ensures !s.allowFXAA && !s.keepAlpha
    ensures s.finalBlendMode == FinalBlendMode(One, Zero)
  {
    CameraSettings(true, true, -1, false, Inherit, 1.0, false, None, false, false,
                   FinalBlendMode(One, Zero))
  }

  /** `GetRenderScale`: the camera's scale mode resolves the pipeline's scale. */
  function GetRenderScale(settings: CameraSettings, scale: real): real
  {
    if settings.renderScaleMode == Inherit then scale
    else if settings.renderScaleMode == Override then settings.renderScale
    else scale * settings.renderScale
  }

  /** Inherit ignores the camera's own scale; Override ignores the pipeline's;
      Multiply composes them. */
  lemma GetRenderScaleModes(settings: CameraSettings, scale: real)
    ensures settings.renderScaleMode == Inherit ==>
      forall other :: GetRenderScale(settings.(renderScale := other), scale) == scale
    ensures settings.renderScaleMode == Override ==>
      forall other :: GetRenderScale(settings, other) == settings.renderScale
    ensures settings.renderScaleMode == Multiply ==>
      GetRenderScale(settings, scale) == scale * settings.renderScale
  {
  }

  /** With both fields inside the inspector range, the resolved scale lies in
      [0.01, 4]: only Multiply can leave [0.1, 2], which is why the camera
      renderer clamps it again. */
  lemma {:induction false} GetRenderScaleBounds(settings: CameraSettings, scale: real)
    requires RenderScaleMin <= scale <= RenderScaleMax
    requires RenderScaleMin <= settings.renderScale <= RenderScaleMax
    ensures 0.01 <= GetRenderScale(settings, scale) <= 4.0
    ensures settings.renderScaleMode != Multiply ==>
      RenderScaleMin <= GetRenderScale(settings, scale) <= RenderScaleMax
  {
    if settings.renderScaleMode == Multiply {
      MulBounds(scale, settings.renderScale);
    }
  }

  lemma MulBounds(a: real, b: real)
    requires 0.1 <= a <= 2.0 && 0.1 <= b <= 2.0
    ensures 0.01 <= a * b <= 4.0
  {
    assert 0.1 * b <= a * b <= 2.0 * b;
  }

  // ----- Configuration records of the pipeline asset and of lights -----

  datatype BicubicRescalingMode = Off | UpOnly | UpAndDown

  /** The anti-aliasing choice the camera renderer reads from its buffer
      settings. */
  datatype AntiAliasingType = NoAntiAliasing | FXAA | TAA

  datatype RenderPipelineType = Forward | Deferred

  /** `CameraBufferSettings`, reduced to the fields the pipeline reads. The
      TAA setting is reduced to whether it is active. */
  datatype CameraBufferSettings = CameraBufferSettings(
    allowHDR: bool,
    copyColor: bool,
    copyColorReflection: bool,
    copyDepth: bool,
    copyDepthReflection: bool,
    renderScale: real,
    bicubicRescaling: BicubicRescalingMode,
    fxaaEnabled: bool,
    antiAliasingType: AntiAliasingType,
    taaActive: bool
  )

  /** `default(CameraBufferSettings)`: every field zero, false or first. */
  function DefaultCameraBufferSettings(): CameraBufferSettings
  {
    CameraBufferSettings(false, false, false, false, false, 0.0, Off, false, NoAntiAliasing, false)
  }

  datatype AreaLightType = NoArea | Rect | Disk

  datatype LightSettings = LightSettings(areaLightType: AreaLightType, rectWidth: real, rectHeight: real)

  /** A freshly constructed `LightSettings`. */
  function DefaultLightSettings(): LightSettings
  {
    LightSettings(NoArea, 0.0, 0.0)
  }
}
