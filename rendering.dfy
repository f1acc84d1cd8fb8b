/** Vocabulary shared by the pipeline's components: small value types, the
    shader property ids that name temporaries and globals, and the abstract
    commands the components record.

    A Unity CommandBuffer (and the render context it is executed on) is
    modelled as an append-only sequence of `Command`s in program order. GPU
    execution, shader contents and profiling samples are not modelled. */
module Rendering {

  datatype Option<T> = None | Some(value: T) {
    function GetOr(default: T): T {
      match this
      case Some(v) => v
      case None => default
    }
  }

  datatype Vec2 = Vec2(x: real, y: real)
  datatype Vec3 = Vec3(x: real, y: real, z: real)
  datatype Vec4 = Vec4(x: real, y: real, z: real, w: real)
  datatype Color = Color(r: real, g: real, b: real, a: real)

  /** Unity's `CameraType`. */
  datatype CameraType = Game | SceneView | Preview | VR | Reflection

  datatype TextureFormat = DefaultFormat | DefaultHDR | DepthFormat | ARGBFloat | RGBAHalf
  datatype FilterMode = Point | Bilinear

  /** Unity's `BlendMode`, with the numeric value the shader receives. */
  datatype BlendMode =
    | Zero | One | DstColor | SrcColor | OneMinusDstColor | SrcAlpha
    | OneMinusSrcColor | DstAlpha | OneMinusDstAlpha | SrcAlphaSaturate | OneMinusSrcAlpha
  {
    function Value(): real {
      match this
      case Zero => 0.0
      case One => 1.0
      case DstColor => 2.0
      case SrcColor => 3.0
      case OneMinusDstColor => 4.0
      case SrcAlpha => 5.0
      case OneMinusSrcColor => 6.0
      case DstAlpha => 7.0
      case OneMinusDstAlpha => 8.0
      case SrcAlphaSaturate => 9.0
      case OneMinusSrcAlpha => 10.0
    }
  }

  /** Shader property ids (`Shader.PropertyToID`). A temporary render
      texture is named by the property id it is bound to. */
  datatype Prop =
    | CameraBufferSize | CameraColorAttachment | CameraDepthAttachment
    | GBufferA | GBufferB | GBufferC | GBufferD | GBufferE | GBufferF
    | CameraColorTexture | CameraDepthTexture | SourceTextureProp
    | CameraSrcBlend | CameraDstBlend
    | VetorBufferAttachment | PreIntegrateBRDFProp | LtcDataProp
    | DirectionalLightCount | DirectionalLightColors
    | DirectionalLightDirectionsAndMasks | DirectionalLightShadowData
    | OtherLightCount | OtherLightColors | OtherLightPositions
    | OtherLightDirectionsAndMasks | OtherLightSpotAngles
    | AreaLightXDirections | AreaLightYDirections | OtherLightShadowData

  /** What a command can read from or render into. */
  datatype Texture =
    | Temporary(id: Prop)          // a GetTemporaryRT surface
    | CameraTarget                 // BuiltinRenderTextureType.CameraTarget
    | MissingTexture               // the 1x1 grey placeholder
    | Pooled(handle: nat)          // a RenderTexture.GetTemporary texture
    | LtcTexture                   // the LTC Texture2DArray, once built
    | NullTexture                  // a null texture reference

  /** The colour targets of a `SetRenderTarget`: one texture, or the six
      G-buffers bound together as multiple render targets. */
  datatype ColorTargets = Single(texture: Texture) | GBuffers

  datatype RenderQueue = OpaqueQueue | TransparentQueue
  datatype Sorting = CommonOpaque | CommonTransparent
  datatype ShaderTag = SRPDefaultUnlit | CustomLitForward | CustomLitGBuffer | MotionVectors
  datatype Keyword = LightsPerObject | HighTAA | MiddleTAA | LowTAA

  /** Matrices are opaque: only where one comes from is recorded (the
      all-zero default, the identity, a camera's own matrix, a jittered
      projection, an inverse or a product). */
  datatype Matrix =
    | ZeroMatrix
    | Identity
    | CameraMatrix(tag: nat)
    | JitteredProjection(orthographic: bool, offset: Vec2)
    | Inverse(of: Matrix)
    | Product(left: Matrix, right: Matrix)

  /** A call into a collaborator whose own recording is modelled in its own
      module (or, for shadows and post-processing, not at all). */
  datatype Collaborator =
    | LightingSetup(lightsPerObject: bool, renderingLayerMask: int)
    | PostFxSetup(settings: Option<nat>, fxaa: bool)
    | BrdfSetUp
    | TaaSetUp
    | DrawAreaLight
    | TaaRender
    | PostFxRender
    | LightingCleanup
    | VelocityCleanup
    | TaaClearUp
    | BrdfClearUp
    | ShadowsSetup
    | ShadowsRender
    | ShadowsCleanup

  datatype Command =
    | SetupCameraProperties
    | CullScene(shadowDistance: real)
    | SetGlobalBufferSize(width: int, height: int)
    | GetTemporaryRT(id: Prop, width: int, height: int, depthBits: nat, filter: FilterMode, format: TextureFormat)
    | ReleaseTemporaryRT(id: Prop)
    | SetRenderTarget(colors: ColorTargets, depth: Option<Texture>, load: bool)
    | ClearRenderTarget(clearDepth: bool, clearColor: bool, background: Color)
    | SetGlobalTexture(prop: Prop, texture: Texture)
    | SetGlobalFloat(prop: Prop, value: real)
    | SetGlobalInt(prop: Prop, count: int)
    | SetGlobalVectorArray(prop: Prop)
    | CopyTexture(src: Texture, dst: Texture)
    | SetViewport
    /** A full-screen triangle, recorded with the render target it draws into. */
    | DrawProcedural(target: Texture, pass: nat)
    | DrawRenderers(queue: RenderQueue, sorting: Sorting, unlitPass: bool, litPass: ShaderTag, layerMask: int, lightsPerObject: bool)
    | DrawSkybox
    | Blit(src: Texture, dst: Texture, withMaterial: bool)
    | DrawQuad(halfWidth: real, halfHeight: real, color: Color)
    | SetViewProjectionMatrices(view: Matrix, projection: Matrix)
    | SetKeyword(keyword: Keyword, enabled: bool)
    | Call(callee: Collaborator)
    | Submit

  /** The temporaries a command stream acquires, counted with multiplicity. */
  function Acquired(s: seq<Command>): multiset<Prop>
  {
    if |s| == 0 then multiset{}
    else (if s[0].GetTemporaryRT? then multiset{s[0].id} else multiset{}) + Acquired(s[1..])
  }

  /** The temporaries a command stream releases, counted with multiplicity. */
  function Released(s: seq<Command>): multiset<Prop>
  {
    if |s| == 0 then multiset{}
    else (if s[0].ReleaseTemporaryRT? then multiset{s[0].id} else multiset{}) + Released(s[1..])
  }

  lemma {:induction false} AcquiredAppend(a: seq<Command>, b: seq<Command>)
    ensures Acquired(a + b) == Acquired(a) + Acquired(b)
    ensures Released(a + b) == Released(a) + Released(b)
  {
    if |a| != 0 {
      assert (a + b)[0] == a[0];
      assert (a + b)[1..] == a[1..] + b;
      AcquiredAppend(a[1..], b);
    } else {
      assert a + b == b;
    }
  }

  lemma AcquiredCons(c: Command, s: seq<Command>)
    ensures Acquired([c] + s) == (if c.GetTemporaryRT? then multiset{c.id} else multiset{}) + Acquired(s)
    ensures Released([c] + s) == (if c.ReleaseTemporaryRT? then multiset{c.id} else multiset{}) + Released(s)
  {
    assert ([c] + s)[1..] == s;
  }

  /** Appending nothing leaves a stream as it was. */
  lemma AppendNothing(s: seq<Command>)
    ensures s + [] == s
  {
  }

  /** Regrouping a stream recorded piece by piece: if `s` extends `a` by
      pieces `b`, `c`, … in turn, it is `a` followed by all of them. */
  lemma Regroup1(a: seq<Command>, b: seq<Command>, rest: seq<Command>)
    ensures a + b + rest == a + (b + rest)
  {
  }

  lemma Regroup2(a: seq<Command>, b: seq<Command>, c: seq<Command>, d: seq<Command>)
    ensures a + b + c + d == a + (b + c + d)
  {
  }

  lemma Regroup3(a: seq<Command>, b: seq<Command>, c: seq<Command>, d: seq<Command>, e: seq<Command>)
    ensures a + b + c + d + e == a + (b + c + d + e)
  {
  }

  /** Appending or prepending a stream that acquires (releases) nothing
      leaves what is acquired (released) unchanged. */
  lemma AcquiredAppendNone(a: seq<Command>, b: seq<Command>)
    requires Acquired(b) == multiset{}
    ensures Acquired(a + b) == Acquired(a)
  {
    AcquiredAppend(a, b);
  }

  lemma AcquiredPrependNone(a: seq<Command>, b: seq<Command>)
    requires Acquired(a) == multiset{}
    ensures Acquired(a + b) == Acquired(b)
  {
    AcquiredAppend(a, b);
  }

  lemma ReleasedAppendNone(a: seq<Command>, b: seq<Command>)
    requires Released(b) == multiset{}
    ensures Released(a + b) == Released(a)
  {
    AcquiredAppend(a, b);
  }

  lemma ReleasedPrependNone(a: seq<Command>, b: seq<Command>)
    requires Released(a) == multiset{}
    ensures Released(a + b) == Released(b)
  {
    AcquiredAppend(a, b);
  }

  /** A command that neither acquires nor releases a temporary. */
  predicate Inert(c: Command)
  {
    !c.GetTemporaryRT? && !c.ReleaseTemporaryRT?
  }

  lemma {:induction false} InertTrace(s: seq<Command>)
    requires forall c :: c in s ==> Inert(c)
    ensures Acquired(s) == multiset{} && Released(s) == multiset{}
  {
    if |s| != 0 {
      assert s[0] in s;
      assert forall c :: c in s[1..] ==> c in s;
      InertTrace(s[1..]);
    }
  }

  predicate AcquiresId(c: Command, id: Prop)
  {
    c.GetTemporaryRT? && c.id == id
  }

  /** An id is acquired by a stream exactly when some command in it
      acquires that id. */
  lemma {:induction false} AcquiredMembers(s: seq<Command>, id: Prop)
    ensures id in Acquired(s) <==> exists c :: c in s && AcquiresId(c, id)
  {
    if |s| != 0 {
      AcquiredMembers(s[1..], id);
      assert forall c :: c in s <==> c == s[0] || c in s[1..];
      if AcquiresId(s[0], id) {
        assert id in Acquired(s);
        assert s[0] in s;
      }
    }
  }

  /** An id is released by a stream exactly when the stream holds its
      `ReleaseTemporaryRT`. */
  lemma {:induction false} ReleasedMembers(s: seq<Command>, id: Prop)
    ensures id in Released(s) <==> ReleaseTemporaryRT(id) in s
  {
    if |s| != 0 {
      ReleasedMembers(s[1..], id);
      assert forall c :: c in s <==> c == s[0] || c in s[1..];
    }
  }

  /** The 32-bit pattern of a C# `int` (or the value of a `(uint)` cast),
      as a number: two's complement wrap-around made explicit. */
  function U32(x: int): (u: nat)
    ensures u < 0x1_0000_0000
    ensures 0 <= x < 0x1_0000_0000 ==> u == x
    ensures -0x8000_0000 <= x < 0 ==> u == x + 0x1_0000_0000
  {
    x % 0x1_0000_0000
  }

  /** Whether the low `width` bits of `a` and `b` share a set bit, i.e.
      `(a & b) != 0` on `width`-bit words. */
  function BitsIntersect(a: nat, b: nat, width: nat): bool
  {
    width > 0 && ((a % 2 == 1 && b % 2 == 1) || BitsIntersect(a / 2, b / 2, width - 1))
  }

  /** C#'s `(a & b) != 0` on two `int`s. */
  predicate MaskIntersects(a: int, b: int)
  {
    BitsIntersect(U32(a), U32(b), 32)
  }
}
