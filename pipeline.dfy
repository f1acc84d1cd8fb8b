/** `CustomRenderPipeline.Render`: renders the cameras of a frame in order,
    each after an optional planar-reflection pre-pass.

    The camera renderer's own work is modelled in `CameraRendering`; here a
    call to it is an event carrying the camera and the pipeline data it is
    given. The planar-reflection component is not part of this model; its
    calls are events too. */
module Pipeline {
  import opened Rendering
  import opened Settings
  import CR = CameraRendering

  /** The camera a render call is for: the frame's camera at an index, or
      the planar reflections' reflection camera. */
  datatype CameraRef = MainCamera(index: nat) | PlanarReflectionCamera

  datatype PipelineEvent =
    | ReflectionsSetUp
    | ExecuteReflections(index: nat, settings: CameraBufferSettings)
    | RenderCall(camera: CameraRef, data: CR.RenderPipelineData, drawAddition: bool)
    | ReflectionsSetData
    | ReflectionsCleanup

  /** The buffer settings of the reflection render: the defaults, with the
      main settings' HDR, bicubic rescaling and render scale, FXAA off. */
  function ReflectionBufferSettings(main: CameraBufferSettings): CameraBufferSettings
  {
    DefaultCameraBufferSettings().(fxaaEnabled := false, allowHDR := main.allowHDR,
                                   bicubicRescaling := main.bicubicRescaling, renderScale := main.renderScale)
  }

  /** The reflection render shares HDR, rescaling and scale with the main
      one, and takes nothing else from it: no FXAA, no attachment copies and
      no temporal anti-aliasing. */
  lemma ReflectionSettingsInherit(main: CameraBufferSettings)
    ensures var r := ReflectionBufferSettings(main);
      r.allowHDR == main.allowHDR && r.bicubicRescaling == main.bicubicRescaling
      && r.renderScale == main.renderScale
      && !r.fxaaEnabled && !r.copyColor && !r.copyDepth && !r.copyColorReflection && !r.copyDepthReflection
      && r.antiAliasingType == NoAntiAliasing && !r.taaActive
  {
  }

  /** The pipeline data of the reflection render: the reflection buffer
      settings and no post-processing. */
  function ReflectionData(data: CR.RenderPipelineData): CR.RenderPipelineData
  {
    data.(cameraBuffer := ReflectionBufferSettings(data.cameraBuffer), postProcessingSettings := None)
  }

  /** Whether camera `c` gets the reflection pre-pass. */
  predicate Reflects(enabled: bool, c: CR.Camera)
  {
    enabled && c.cameraType == Game
  }

  /** What one camera of the loop produces, given whether the reflection
      object exists when its turn comes. */
  function CameraEvents(enabled: bool, data: CR.RenderPipelineData, c: CR.Camera, i: nat, held: bool): seq<PipelineEvent>
  {
    (if Reflects(enabled, c) then
       [ReflectionsSetUp, ExecuteReflections(i, ReflectionBufferSettings(data.cameraBuffer)),
        RenderCall(PlanarReflectionCamera, ReflectionData(data), false), ReflectionsSetData]
     else if held then [ReflectionsCleanup]
     else [])
    + [RenderCall(MainCamera(i), data, true)]
  }

  /** Whether the reflection object exists after the first `n` cameras. */
  predicate ExistsAfter(enabled: bool, cams: seq<CR.Camera>, n: nat, held0: bool)
    requires n <= |cams|
  {
    if n == 0 then held0
    else ExistsAfter(enabled, cams, n - 1, held0) || Reflects(enabled, cams[n - 1])
  }

  /** What the first `n` cameras produce. */
  function FrameEvents(enabled: bool, data: CR.RenderPipelineData, cams: seq<CR.Camera>, n: nat, held0: bool)
    : seq<PipelineEvent>
    requires n <= |cams|
  {
    if n == 0 then []
    else FrameEvents(enabled, data, cams, n - 1, held0)
         + CameraEvents(enabled, data, cams[n - 1], n - 1, ExistsAfter(enabled, cams, n - 1, held0))
  }

  /** The main-camera render calls of an event sequence, in order. */
  function MainRenders(s: seq<PipelineEvent>): seq<PipelineEvent>
  {
    if |s| == 0 then []
    else (if s[0].RenderCall? && s[0].camera.MainCamera? then [s[0]] else []) + MainRenders(s[1..])
  }

  lemma {:induction false} MainRendersAppend(a: seq<PipelineEvent>, b: seq<PipelineEvent>)
    ensures MainRenders(a + b) == MainRenders(a) + MainRenders(b)
  {
    if |a| == 0 {
      assert a + b == b;
    } else {
      assert (a + b)[1..] == a[1..] + b;
      MainRendersAppend(a[1..], b);
    }
  }

  lemma {:induction false} NoMainRenders(s: seq<PipelineEvent>)
    requires forall k :: 0 <= k < |s| ==> !(s[k].RenderCall? && s[k].camera.MainCamera?)
    ensures MainRenders(s) == []
  {
    if |s| > 0 {
      NoMainRenders(s[1..]);
    }
  }

  lemma CameraMainRender(enabled: bool, data: CR.RenderPipelineData, c: CR.Camera, i: nat, held: bool)
    ensures MainRenders(CameraEvents(enabled, data, c, i, held)) == [RenderCall(MainCamera(i), data, true)]
  {
    var pre := if Reflects(enabled, c) then
       [ReflectionsSetUp, ExecuteReflections(i, ReflectionBufferSettings(data.cameraBuffer)),
        RenderCall(PlanarReflectionCamera, ReflectionData(data), false), ReflectionsSetData]
     else if held then [ReflectionsCleanup]
     else [];
    MainRendersAppend(pre, [RenderCall(MainCamera(i), data, true)]);
    NoMainRenders(pre);
    assert [RenderCall(MainCamera(i), data, true)][1..] == [];
  }

  /** The main renders of cameras `0` to `n - 1` in order. */
  function MainOrder(data: CR.RenderPipelineData, n: nat): seq<PipelineEvent>
  {
    if n == 0 then [] else MainOrder(data, n - 1) + [RenderCall(MainCamera(n - 1), data, true)]
  }

  /** Every camera gets exactly one main render, with the pipeline data
      and additions drawn, in the order of the camera array. */
  lemma {:induction false} EachCameraRenderedOnce(enabled: bool, data: CR.RenderPipelineData, cams: seq<CR.Camera>,
                                                  n: nat, held0: bool)
    requires n <= |cams|
    ensures MainRenders(FrameEvents(enabled, data, cams, n, held0)) == MainOrder(data, n)
  {
    if n > 0 {
      EachCameraRenderedOnce(enabled, data, cams, n - 1, held0);
      var e := ExistsAfter(enabled, cams, n - 1, held0);
      MainRendersAppend(FrameEvents(enabled, data, cams, n - 1, held0), CameraEvents(enabled, data, cams[n - 1], n - 1, e));
      CameraMainRender(enabled, data, cams[n - 1], n - 1, e);
    }
  }

  /** A reflecting camera's block sets the reflections up, renders the
      reflection camera with the reflection data and without additions,
      hands the result over and only then renders the camera itself; any
      other camera cleans up the reflection object exactly when it exists. */
  lemma CameraEventsOrder(enabled: bool, data: CR.RenderPipelineData, c: CR.Camera, i: nat, held: bool)
    ensures var e := CameraEvents(enabled, data, c, i, held);
      e[|e| - 1] == RenderCall(MainCamera(i), data, true)
      && (Reflects(enabled, c) ==>
            |e| == 5 && e[0] == ReflectionsSetUp
            && e[2] == RenderCall(PlanarReflectionCamera, ReflectionData(data), false)
            && e[3] == ReflectionsSetData)
      && (!Reflects(enabled, c) ==> (ReflectionsCleanup in e <==> held) && |e| == if held then 2 else 1)
  {
  }

  /** The planar-reflection component. */
  class PlanarReflections {
    constructor ()
    {
    }
  }

  class CustomRenderPipeline {
    /** The pipeline data every main render gets, and the
        `planarReflectionSettings.m_Enable` flag. */
    const data: CR.RenderPipelineData
    const reflectionsEnabled: bool
    var planarReflections: PlanarReflections?
    var events: seq<PipelineEvent>

    constructor (data: CR.RenderPipelineData, reflectionsEnabled: bool)
      ensures this.data == data && this.reflectionsEnabled == reflectionsEnabled
      ensures planarReflections == null && events == []
    {
      this.data, this.reflectionsEnabled := data, reflectionsEnabled;
      planarReflections, events := null, [];
    }

    /** `Render`: the loop over the cameras. The reflection object is
        created by the first reflecting camera and kept afterwards. */
    method Render(cameras: seq<CR.Camera>)
      modifies this`planarReflections, this`events
      ensures events == old(events)
        + FrameEvents(reflectionsEnabled, data, cameras, |cameras|, old(planarReflections) != null)
      ensures planarReflections != null
        <==> ExistsAfter(reflectionsEnabled, cameras, |cameras|, old(planarReflections) != null)
      ensures old(planarReflections) != null ==> planarReflections == old(planarReflections)
    {
      ghost var held0 := planarReflections != null;
      for i := 0 to |cameras|
        invariant events == old(events) + FrameEvents(reflectionsEnabled, data, cameras, i, held0)
        invariant planarReflections != null <==> ExistsAfter(reflectionsEnabled, cameras, i, held0)
        invariant old(planarReflections) != null ==> planarReflections == old(planarReflections)
      {
        RenderCamera(cameras[i], i);
      }
    }

    /** One turn of the loop: the reflection pre-pass for a reflecting
        camera (creating the reflection object if needed), a clean-up of an
        existing reflection object for any other camera, then the camera's
        own render. */
    method RenderCamera(camera: CR.Camera, i: nat)
      modifies this`planarReflections, this`events
      ensures events == old(events) + CameraEvents(reflectionsEnabled, data, camera, i, old(planarReflections) != null)
      ensures planarReflections != null <==> old(planarReflections) != null || Reflects(reflectionsEnabled, camera)
      ensures old(planarReflections) != null ==> planarReflections == old(planarReflections)
    {
      if reflectionsEnabled && camera.cameraType == Game {
        if planarReflections == null {
          planarReflections := new PlanarReflections();
        }
        var reflectionSettings := DefaultCameraBufferSettings();
        reflectionSettings := reflectionSettings.(fxaaEnabled := false);
        reflectionSettings := reflectionSettings.(allowHDR := data.cameraBuffer.allowHDR);
        reflectionSettings := reflectionSettings.(bicubicRescaling := data.cameraBuffer.bicubicRescaling);
        reflectionSettings := reflectionSettings.(renderScale := data.cameraBuffer.renderScale);
        events := events + [ReflectionsSetUp, ExecuteReflections(i, reflectionSettings),
                            RenderCall(PlanarReflectionCamera,
                                       data.(cameraBuffer := reflectionSettings, postProcessingSettings := None), false),
                            ReflectionsSetData];
      } else if planarReflections != null {
        events := events + [ReflectionsCleanup];
      }
      events := events + [RenderCall(MainCamera(i), data, true)];
    }
  }
}
