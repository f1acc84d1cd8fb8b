/** `FFTOceanSimulation`: the per-frame schedule of an FFT ocean. `Init`
    creates twelve square float render textures of side 2^N; `Update`
    re-initialises when the side is too large for N, then runs the compute
    passes in a fixed order, the inverse FFTs copying between a PingTex and a
    PongTex texture; `CleanUp` destroys the textures and the mesh instance.

    The compute kernels are opaque: a dispatch is recorded with the kernel,
    the textures bound to it and its thread-group count. Shader parameters
    (time, random seeds, wind) are one `SetCSParam` step. */
module OceanSimulation {
  import opened Rendering

  /** The twelve render-texture fields, by role. */
  datatype TexRole =
    | HZeroTex | SpectrumXTex | SpectrumYTex | SpectrumZTex | ButterflyTex | PingTex | PongTex
    | DisplacementTex | NormalXTex | NormalZTex | NormalTex | BubblesTex

  datatype Kernel =
    | H0Kernel | FrequencyKernel | CreateButterflyKernel | GenerationDisplaceKernel
    | FFTHorizontalKernel | FFTVerticalKernel | NormalSpectrumKernel | GenerationNormalKernel
    | GenerationBubblesKernel

  datatype IntParam = StageParam | DisplaceChannel | NormalChannel

  datatype OceanOp =
    | SetCSParam
    | SetMatParam
    | SetInt(param: IntParam, value: int)
    | Dispatch(kernel: Kernel, inputs: seq<TexRole>, outputs: seq<TexRole>, groups: int)
    | Copy(src: TexRole, dst: TexRole)

  /** `(int) Mathf.Pow(2, n)`: zero for a negative exponent (the fraction is
      truncated). */
  function Pow2(n: int): nat
    decreases if n < 0 then 0 else n
  {
    if n < 0 then 0 else if n == 0 then 1 else 2 * Pow2(n - 1)
  }

  /** `Mathf.Pow(2, n)` as a real. */
  function Pow2Real(n: int): real
    decreases if n < 0 then -n else n
  {
    if n == 0 then 1.0 else if n > 0 then 2.0 * Pow2Real(n - 1) else Pow2Real(n + 1) / 2.0
  }

  lemma {:induction false} Pow2RealAgrees(n: int)
    requires n >= 0
    ensures Pow2Real(n) == Pow2(n) as real
  {
    if n > 0 {
      Pow2RealAgrees(n - 1);
    }
  }

  lemma {:induction false} Pow2RealNegative(n: int)
    requires n < 0
    decreases -n
    ensures 0.0 < Pow2Real(n) <= 0.5
  {
    if n < -1 {
      Pow2RealNegative(n + 1);
    }
  }

  /** The test at the top of `Update`. */
  predicate ReinitNeeded(size: int, n: int)
  {
    size as real - Pow2Real(n) > 0.00001
  }

  /** For a non-negative N the test holds exactly when the side is larger
      than 2^N: a smaller N re-initialises, a larger one does not. For a
      negative N it holds exactly when the side is positive. */
  lemma ReinitIff(size: int, n: int)
    ensures n >= 0 ==> (ReinitNeeded(size, n) <==> size > Pow2(n))
    ensures n < 0 ==> (ReinitNeeded(size, n) <==> size >= 1)
  {
    if n >= 0 {
      Pow2RealAgrees(n);
      if size > Pow2(n) {
        assert (size - Pow2(n)) as real >= 1.0;
      }
    } else {
      Pow2RealNegative(n);
    }
  }

  /** Right after `Init` with N >= 0 the test fails, so nothing is rebuilt
      until N decreases. */
  lemma NoReinitAfterInit(n: int)
    requires n >= 0
    ensures !ReinitNeeded(Pow2(n), n)
  {
    ReinitIff(Pow2(n), n);
  }

  /** As written, raising N after `Init` does not rebuild the textures:
      the side stays at the old power of two. */
  lemma GrowthSkipsReinit(n: int)
    requires n >= 0
    ensures Pow2(n) < Pow2(n + 1)
    ensures !ReinitNeeded(Pow2(n), n + 1)
  {
    Pow2Positive(n);
    ReinitIff(Pow2(n), n + 1);
  }

  lemma {:induction false} Pow2Positive(n: int)
    requires n >= 0
    ensures Pow2(n) >= 1
  {
    if n > 0 {
      Pow2Positive(n - 1);
    }
  }

  /** The test the re-initialisation evidently means: the side differs
      from 2^N by more than the tolerance, in either direction. */
  predicate SizeMismatch(size: int, n: int)
  {
    var d := size as real - Pow2Real(n);
    d > 0.00001 || d < -0.00001
  }

  /** For a non-negative N the intended test holds exactly when the side is
      not 2^N, so a raised N rebuilds the textures too. */
  lemma SizeMismatchIff(size: int, n: int)
    requires n >= 0
    ensures SizeMismatch(size, n) <==> size != Pow2(n)
  {
    Pow2RealAgrees(n);
    if size > Pow2(n) {
      assert (size - Pow2(n)) as real >= 1.0;
    } else if size < Pow2(n) {
      assert (Pow2(n) - size) as real >= 1.0;
    }
  }

  lemma Regroup(a: seq<OceanOp>, b: seq<OceanOp>, c: seq<OceanOp>)
    ensures a + b + c == a + (b + c)
  {
  }

  /** The number of stages per direction: the loops run `N` times, not at
      all for a negative N. */
  function StageCount(n: int): nat
  {
    if n < 0 then 0 else n
  }

  /** The thread groups of every dispatch: `Size / 8` on x and y (the side
      is never negative, so C#'s truncating division agrees). */
  function Groups(size: nat): (g: nat)
    ensures g * 8 <= size < g * 8 + 8
  {
    size / 8
  }

  /** Below 2^3 every dispatch launches no thread group at all. */
  lemma SmallOceanDispatchesNothing(n: int)
    requires n < 3
    ensures Groups(Pow2(n)) == 0
  {
    if n == 2 { assert Pow2(2) == 4; }
    else if n == 1 { assert Pow2(1) == 2; }
  }

  // ----- The FFT stage schedules -----

  /** The texture `CaculateFFT` reads from, and writes to, at a parity. */
  function PingPongIn(index: nat): TexRole
  {
    if index > 0 then PongTex else PingTex
  }

  function PingPongOut(index: nat): TexRole
  {
    if index > 0 then PingTex else PongTex
  }

  function Flip(index: nat): nat
  {
    if index > 0 then 0 else 1
  }

  /** One stage of `CaculateFFT` at a parity. */
  function PingPongStage(kernel: Kernel, stage: nat, index: nat, g: nat): seq<OceanOp>
  {
    [SetInt(StageParam, stage), Dispatch(kernel, [ButterflyTex, PingPongIn(index)], [PingPongOut(index)], g)]
  }

  /** The parity after `k` flips from `index0`. */
  function ParityAfter(index0: nat, k: nat): nat
  {
    if k == 0 then index0 else Flip(ParityAfter(index0, k - 1))
  }

  /** Stages `0` to `n - 1` of one direction, starting at parity `index0`. */
  function PingPongStages(kernel: Kernel, n: nat, index0: nat, g: nat): (r: seq<OceanOp>)
    ensures |r| == 2 * n
  {
    if n == 0 then [] else PingPongStages(kernel, n - 1, index0, g) + PingPongStage(kernel, n - 1, ParityAfter(index0, n - 1), g)
  }

  /** What `CaculateFFT` records for `n` stages per direction. */
  function CaculateFFTOps(source: TexRole, dest: TexRole, n: nat, g: nat): seq<OceanOp>
  {
    [Copy(source, PingTex)] + PingPongStages(FFTHorizontalKernel, n, 0, g)
    + PingPongStages(FFTVerticalKernel, n, ParityAfter(0, n), g)
    + [Copy(PingPongIn(ParityAfter(0, 2 * n)), dest)]
  }

  /** Each stage writes the other texture than the one it reads, and the
      next stage reads what it wrote. */
  lemma PingPongChains(index: nat)
    ensures PingPongIn(index) != PingPongOut(index)
    ensures PingPongIn(Flip(index)) == PingPongOut(index)
  {
  }

  /** Two flips restore a parity. */
  lemma {:induction false} ParityEven(index0: nat, k: nat)
    requires index0 < 2
    ensures ParityAfter(index0, 2 * k) == index0
  {
    if k > 0 {
      ParityEven(index0, k - 1);
      assert ParityAfter(index0, 2 * k) == Flip(Flip(ParityAfter(index0, 2 * (k - 1))));
    }
  }

  lemma {:induction false} ParitySplit(index0: nat, a: nat, b: nat)
    ensures ParityAfter(ParityAfter(index0, a), b) == ParityAfter(index0, a + b)
  {
    if b > 0 {
      ParitySplit(index0, a, b - 1);
    }
  }

  /** After the 2N stages the parity is back at 0, so the result is copied
      out of PingTex, which is what the last stage wrote. */
  lemma FFTResultFromPing(n: nat)
    ensures ParityAfter(0, 2 * n) == 0 && PingPongIn(ParityAfter(0, 2 * n)) == PingTex
    ensures n > 0 ==> PingPongOut(ParityAfter(ParityAfter(0, n), n - 1)) == PingTex
  {
    ParityEven(0, n);
    if n > 0 {
      ParitySplit(0, n, n - 1);
      assert Flip(ParityAfter(0, n + (n - 1))) == ParityAfter(0, 2 * n);
    }
  }

  lemma {:induction false} PingPongStageShape(kernel: Kernel, n: nat, index0: nat, g: nat, k: nat)
    requires k < n
    ensures PingPongStages(kernel, n, index0, g)[2 * k..2 * k + 2] == PingPongStage(kernel, k, ParityAfter(index0, k), g)
  {
    if k < n - 1 {
      PingPongStageShape(kernel, n - 1, index0, g, k);
      assert PingPongStages(kernel, n, index0, g)[..2 * (n - 1)] == PingPongStages(kernel, n - 1, index0, g);
    } else {
      assert PingPongStages(kernel, n, index0, g)[2 * k..] == PingPongStage(kernel, k, ParityAfter(index0, k), g);
    }
  }

  /** In `CaculateFFT` every stage's dispatch writes a different texture
      from the one it reads, and each stage reads what the one before it
      wrote. */
  lemma PingPongStagesAlternate(kernel: Kernel, n: nat, index0: nat, g: nat, k: nat)
    requires k < n
    ensures var s, p := PingPongStages(kernel, n, index0, g), ParityAfter(index0, k);
      s[2 * k + 1] == Dispatch(kernel, [ButterflyTex, PingPongIn(p)], [PingPongOut(p)], g)
      && PingPongIn(p) != PingPongOut(p)
      && (k > 0 ==> PingPongIn(p) == PingPongOut(ParityAfter(index0, k - 1)))
  {
    var s := PingPongStages(kernel, n, index0, g);
    PingPongStageShape(kernel, n, index0, g, k);
    assert s[2 * k + 1] == s[2 * k..2 * k + 2][1];
  }

  /** One stage of `CaculateFFTNative`: read PingTex, write PongTex, copy back. */
  function NativeStage(kernel: Kernel, stage: nat, g: nat): seq<OceanOp>
  {
    [SetInt(StageParam, stage), Dispatch(kernel, [ButterflyTex, PingTex], [PongTex], g), Copy(PongTex, PingTex)]
  }

  function NativeStages(kernel: Kernel, n: nat, g: nat): (r: seq<OceanOp>)
    ensures |r| == 3 * n
  {
    if n == 0 then [] else NativeStages(kernel, n - 1, g) + NativeStage(kernel, n - 1, g)
  }

  /** What `CaculateFFTNative` records: the source copied into PingTex, then
      N horizontal and N vertical stages. */
  function FFTNativeOps(source: TexRole, n: nat, g: nat): seq<OceanOp>
  {
    [Copy(source, PingTex)] + NativeStages(FFTHorizontalKernel, n, g) + NativeStages(FFTVerticalKernel, n, g)
  }

  /** Every native stage reads and writes the two different textures and
      leaves its output in PingTex, the texture the next stage reads. */
  lemma {:induction false} NativeStageShape(kernel: Kernel, n: nat, g: nat, k: nat)
    requires k < n
    ensures NativeStages(kernel, n, g)[3 * k..3 * k + 3] == NativeStage(kernel, k, g)
  {
    if k < n - 1 {
      NativeStageShape(kernel, n - 1, g, k);
      assert NativeStages(kernel, n, g)[..3 * (n - 1)] == NativeStages(kernel, n - 1, g);
    } else {
      assert NativeStages(kernel, n, g)[3 * k..] == NativeStage(kernel, k, g);
    }
  }

  // ----- The frame's passes -----

  function ButterflyOps(g: nat): seq<OceanOp>
  {
    [Dispatch(CreateButterflyKernel, [], [ButterflyTex], g)]
  }

  function HZeroOps(g: nat): seq<OceanOp>
  {
    [Dispatch(H0Kernel, [], [HZeroTex], g)]
  }

  function SpectrumOps(g: nat): seq<OceanOp>
  {
    [Dispatch(FrequencyKernel, [HZeroTex], [SpectrumXTex, SpectrumYTex, SpectrumZTex], g)]
  }

  /** A channel pass: the inverse FFT of a spectrum, then a kernel writing
      one channel of the target from the result in PingTex. */
  function ChannelOps(source: TexRole, n: nat, g: nat, param: IntParam, channel: int, kernel: Kernel, target: TexRole)
    : seq<OceanOp>
  {
    FFTNativeOps(source, n, g) + [SetInt(param, channel), Dispatch(kernel, [PingTex], [target], g)]
  }

  /** `CaculateDisplacement`: channels Y (1), X (0), Z (2), in that order. */
  function DisplacementOps(n: nat, g: nat): seq<OceanOp>
  {
    ChannelOps(SpectrumYTex, n, g, DisplaceChannel, 1, GenerationDisplaceKernel, DisplacementTex)
    + ChannelOps(SpectrumXTex, n, g, DisplaceChannel, 0, GenerationDisplaceKernel, DisplacementTex)
    + ChannelOps(SpectrumZTex, n, g, DisplaceChannel, 2, GenerationDisplaceKernel, DisplacementTex)
  }

  /** `CaculateNormal`: the normal spectrum, then channels X (0) and Z (1). */
  function NormalOps(n: nat, g: nat): seq<OceanOp>
  {
    [Dispatch(NormalSpectrumKernel, [SpectrumYTex], [NormalXTex, NormalZTex], g)]
    + ChannelOps(NormalXTex, n, g, NormalChannel, 0, GenerationNormalKernel, NormalTex)
    + ChannelOps(NormalZTex, n, g, NormalChannel, 1, GenerationNormalKernel, NormalTex)
  }

  function BubblesOps(g: nat): seq<OceanOp>
  {
    [Dispatch(GenerationBubblesKernel, [NormalTex, DisplacementTex], [BubblesTex], g)]
  }

  /** The passes of one `Update`, in order. */
  function FrameOps(n: nat, g: nat): seq<OceanOp>
  {
    [SetCSParam] + ButterflyOps(g) + HZeroOps(g) + SpectrumOps(g) + ButterflyOps(g)
    + DisplacementOps(n, g) + NormalOps(n, g) + BubblesOps(g) + [SetMatParam]
  }

  /** The write channels of the displacement and normal passes in order. */
  function Channels(s: seq<OceanOp>, param: IntParam): seq<int>
  {
    if |s| == 0 then []
    else (if s[0].SetInt? && s[0].param == param then [s[0].value] else []) + Channels(s[1..], param)
  }

  lemma {:induction false} ChannelsAppend(a: seq<OceanOp>, b: seq<OceanOp>, param: IntParam)
    ensures Channels(a + b, param) == Channels(a, param) + Channels(b, param)
  {
    if |a| == 0 {
      assert a + b == b;
    } else {
      assert (a + b)[1..] == a[1..] + b;
      ChannelsAppend(a[1..], b, param);
    }
  }

  lemma {:induction false} NoChannelSet(s: seq<OceanOp>, param: IntParam)
    requires forall k :: 0 <= k < |s| ==> !(s[k].SetInt? && s[k].param == param)
    ensures Channels(s, param) == []
  {
    if |s| > 0 {
      NoChannelSet(s[1..], param);
    }
  }

  lemma {:induction false} StagesSetNoChannel(kernel: Kernel, n: nat, g: nat, param: IntParam)
    requires param != StageParam
    ensures Channels(NativeStages(kernel, n, g), param) == []
  {
    if n > 0 {
      StagesSetNoChannel(kernel, n - 1, g, param);
      var st := NativeStage(kernel, n - 1, g);
      ChannelsAppend(NativeStages(kernel, n - 1, g), st, param);
      NoChannelSet(st, param);
    }
  }

  lemma ChannelOpsChannel(source: TexRole, n: nat, g: nat, param: IntParam, channel: int, kernel: Kernel, target: TexRole)
    requires param != StageParam
    ensures Channels(ChannelOps(source, n, g, param, channel, kernel, target), param) == [channel]
  {
    var h := NativeStages(FFTHorizontalKernel, n, g);
    var v := NativeStages(FFTVerticalKernel, n, g);
    var tail := [SetInt(param, channel), Dispatch(kernel, [PingTex], [target], g)];
    StagesSetNoChannel(FFTHorizontalKernel, n, g, param);
    StagesSetNoChannel(FFTVerticalKernel, n, g, param);
    ChannelsAppend([Copy(source, PingTex)], h, param);
    ChannelsAppend([Copy(source, PingTex)] + h, v, param);
    ChannelsAppend(FFTNativeOps(source, n, g), tail, param);
    assert [Copy(source, PingTex)][1..] == [];
    assert tail[1..][1..] == [];
  }

  /** DisplacementTex channels go Y, X, Z (1, 0, 2); normal channels X, Z
      (0, 1). */
  lemma ChannelOrder(n: nat, g: nat)
    ensures Channels(DisplacementOps(n, g), DisplaceChannel) == [1, 0, 2]
    ensures Channels(NormalOps(n, g), NormalChannel) == [0, 1]
  {
    var y := ChannelOps(SpectrumYTex, n, g, DisplaceChannel, 1, GenerationDisplaceKernel, DisplacementTex);
    var x := ChannelOps(SpectrumXTex, n, g, DisplaceChannel, 0, GenerationDisplaceKernel, DisplacementTex);
    var z := ChannelOps(SpectrumZTex, n, g, DisplaceChannel, 2, GenerationDisplaceKernel, DisplacementTex);
    ChannelOpsChannel(SpectrumYTex, n, g, DisplaceChannel, 1, GenerationDisplaceKernel, DisplacementTex);
    ChannelOpsChannel(SpectrumXTex, n, g, DisplaceChannel, 0, GenerationDisplaceKernel, DisplacementTex);
    ChannelOpsChannel(SpectrumZTex, n, g, DisplaceChannel, 2, GenerationDisplaceKernel, DisplacementTex);
    ChannelsAppend(y, x, DisplaceChannel);
    ChannelsAppend(y + x, z, DisplaceChannel);
    var sp := [Dispatch(NormalSpectrumKernel, [SpectrumYTex], [NormalXTex, NormalZTex], g)];
    var nx := ChannelOps(NormalXTex, n, g, NormalChannel, 0, GenerationNormalKernel, NormalTex);
    var nz := ChannelOps(NormalZTex, n, g, NormalChannel, 1, GenerationNormalKernel, NormalTex);
    ChannelOpsChannel(NormalXTex, n, g, NormalChannel, 0, GenerationNormalKernel, NormalTex);
    ChannelOpsChannel(NormalZTex, n, g, NormalChannel, 1, GenerationNormalKernel, NormalTex);
    ChannelsAppend(sp, nx, NormalChannel);
    ChannelsAppend(sp + nx, nz, NormalChannel);
    assert sp[1..] == [];
  }

  /** Every dispatch of a frame uses the same thread-group count. */
  predicate AllGroups(s: seq<OceanOp>, g: nat)
  {
    forall i :: 0 <= i < |s| && s[i].Dispatch? ==> s[i].groups == g
  }

  lemma {:induction false} NativeStagesGroups(kernel: Kernel, n: nat, g: nat)
    ensures AllGroups(NativeStages(kernel, n, g), g)
  {
    if n > 0 {
      NativeStagesGroups(kernel, n - 1, g);
    }
  }

  lemma AllGroupsAppend(a: seq<OceanOp>, b: seq<OceanOp>, g: nat)
    requires AllGroups(a, g) && AllGroups(b, g)
    ensures AllGroups(a + b, g)
  {
    forall i | 0 <= i < |a + b| && (a + b)[i].Dispatch?
      ensures (a + b)[i].groups == g
    {
      if i >= |a| {
        assert (a + b)[i] == b[i - |a|];
      }
    }
  }

  lemma ChannelGroups(source: TexRole, n: nat, g: nat, param: IntParam, channel: int, kernel: Kernel, target: TexRole)
    ensures AllGroups(ChannelOps(source, n, g, param, channel, kernel, target), g)
  {
    NativeStagesGroups(FFTHorizontalKernel, n, g);
    NativeStagesGroups(FFTVerticalKernel, n, g);
    AllGroupsAppend([Copy(source, PingTex)], NativeStages(FFTHorizontalKernel, n, g), g);
    AllGroupsAppend([Copy(source, PingTex)] + NativeStages(FFTHorizontalKernel, n, g),
                    NativeStages(FFTVerticalKernel, n, g), g);
    AllGroupsAppend(FFTNativeOps(source, n, g), [SetInt(param, channel), Dispatch(kernel, [PingTex], [target], g)], g);
  }

  /** Every dispatch of a frame launches `Size / 8` by `Size / 8` groups. */
  lemma FrameGroups(n: nat, g: nat)
    ensures AllGroups(FrameOps(n, g), g)
  {
    var y := ChannelOps(SpectrumYTex, n, g, DisplaceChannel, 1, GenerationDisplaceKernel, DisplacementTex);
    var x := ChannelOps(SpectrumXTex, n, g, DisplaceChannel, 0, GenerationDisplaceKernel, DisplacementTex);
    var z := ChannelOps(SpectrumZTex, n, g, DisplaceChannel, 2, GenerationDisplaceKernel, DisplacementTex);
    ChannelGroups(SpectrumYTex, n, g, DisplaceChannel, 1, GenerationDisplaceKernel, DisplacementTex);
    ChannelGroups(SpectrumXTex, n, g, DisplaceChannel, 0, GenerationDisplaceKernel, DisplacementTex);
    ChannelGroups(SpectrumZTex, n, g, DisplaceChannel, 2, GenerationDisplaceKernel, DisplacementTex);
    AllGroupsAppend(y, x, g);
    AllGroupsAppend(y + x, z, g);
    var sp := [Dispatch(NormalSpectrumKernel, [SpectrumYTex], [NormalXTex, NormalZTex], g)];
    var nx := ChannelOps(NormalXTex, n, g, NormalChannel, 0, GenerationNormalKernel, NormalTex);
    var nz := ChannelOps(NormalZTex, n, g, NormalChannel, 1, GenerationNormalKernel, NormalTex);
    ChannelGroups(NormalXTex, n, g, NormalChannel, 0, GenerationNormalKernel, NormalTex);
    ChannelGroups(NormalZTex, n, g, NormalChannel, 1, GenerationNormalKernel, NormalTex);
    AllGroupsAppend(sp, nx, g);
    AllGroupsAppend(sp + nx, nz, g);
    var pre := [SetCSParam] + ButterflyOps(g) + HZeroOps(g) + SpectrumOps(g) + ButterflyOps(g);
    AllGroupsAppend(pre, DisplacementOps(n, g), g);
    AllGroupsAppend(pre + DisplacementOps(n, g), NormalOps(n, g), g);
    AllGroupsAppend(pre + DisplacementOps(n, g) + NormalOps(n, g), BubblesOps(g), g);
    AllGroupsAppend(pre + DisplacementOps(n, g) + NormalOps(n, g) + BubblesOps(g), [SetMatParam], g);
  }

  // ----- The component -----

  /** An engine render texture: its identity, size and format. */
  datatype OceanRT = OceanRT(id: nat, width: int, height: int, format: TextureFormat)

  /** The twelve render-texture fields, in the order `Init` creates them. */
  datatype OceanTextures = OceanTextures(
    hZero: OceanRT, spectrumX: OceanRT, spectrumY: OceanRT, spectrumZ: OceanRT, butterfly: OceanRT,
    ping: OceanRT, pong: OceanRT, displacement: OceanRT, normalX: OceanRT, normalZ: OceanRT,
    normal: OceanRT, bubbles: OceanRT)

  /** The identities of the twelve textures. */
  function TextureIds(t: OceanTextures): set<nat>
  {
    {t.hZero.id, t.spectrumX.id, t.spectrumY.id, t.spectrumZ.id, t.butterfly.id, t.ping.id, t.pong.id,
     t.displacement.id, t.normalX.id, t.normalZ.id, t.normal.id, t.bubbles.id}
  }

  /** Every texture is a `size` x `size` float texture. */
  predicate AllSquare(t: OceanTextures, size: int)
  {
    var s := OceanRT.OceanRT(0, size, size, ARGBFloat);
    t.hZero.(id := 0) == s && t.spectrumX.(id := 0) == s && t.spectrumY.(id := 0) == s
    && t.spectrumZ.(id := 0) == s && t.butterfly.(id := 0) == s && t.ping.(id := 0) == s
    && t.pong.(id := 0) == s && t.displacement.(id := 0) == s && t.normalX.(id := 0) == s
    && t.normalZ.(id := 0) == s && t.normal.(id := 0) == s && t.bubbles.(id := 0) == s
  }

  /** `CreateRT`: a Size x Size float texture, here with the identity the
      engine gives the new object. */
  function CreateRT(id: nat, size: int): OceanRT
  {
    OceanRT(id, size, size, ARGBFloat)
  }

  /** The textures `Init` creates when the next identity is `first`. */
  function InitTextures(first: nat, size: int): OceanTextures
  {
    OceanTextures(CreateRT(first, size), CreateRT(first + 1, size), CreateRT(first + 2, size),
                  CreateRT(first + 3, size), CreateRT(first + 4, size), CreateRT(first + 5, size),
                  CreateRT(first + 6, size), CreateRT(first + 7, size), CreateRT(first + 8, size),
                  CreateRT(first + 9, size), CreateRT(first + 10, size), CreateRT(first + 11, size))
  }

  /** `Init` creates twelve different square float textures, all new:
      their identities lie between `first` and the mesh instance's. */
  lemma InitTexturesFresh(first: nat, size: int)
    ensures var t := InitTextures(first, size);
      AllSquare(t, size) && |TextureIds(t)| == 12
      && (forall id :: id in TextureIds(t) ==> first <= id < first + 12)
  {
    var t := InitTextures(first, size);
    var ids := TextureIds(t);
    assert ids == {first, first + 1, first + 2, first + 3, first + 4, first + 5, first + 6, first + 7,
                   first + 8, first + 9, first + 10, first + 11};
  }

  /** The ocean material's texture slots, by identity. */
  datatype OceanMaterial = OceanMaterial(displacementMap: Option<nat>, normalMap: Option<nat>, bubblesMap: Option<nat>)

  /** `CoreUtils.SafeDestroy`: nothing for a missing object. */
  function SafeDestroy(destroyed: set<nat>, obj: Option<nat>): set<nat>
  {
    if obj.Some? then destroyed + {obj.value} else destroyed
  }

  class FFTOceanSimulation {
    /** The public `N` and the private `Size`. */
    var N: int
    var Size: nat
    /** The texture fields (`None` before the first `Init`) and the mesh
        instance. */
    var textures: Option<OceanTextures>
    var OceanMeshInstance: Option<nat>
    var OceanMat: OceanMaterial
    /** The engine objects destroyed so far, and the next identity the
        engine hands out. */
    var destroyed: set<nat>
    var nextId: nat
    /** The compute and blit work recorded so far. */
    var log: seq<OceanOp>

    /** Every object the component refers to was handed out already. */
    predicate Valid()
      reads this
    {
      (textures.Some? ==> forall id :: id in TextureIds(textures.value) ==> id < nextId)
      && (OceanMeshInstance.Some? ==> OceanMeshInstance.value < nextId)
    }

    constructor (n: int)
      ensures Valid() && N == n && Size == 0 && textures == None && OceanMeshInstance == None
      ensures destroyed == {} && log == []
    {
      N, Size := n, 0;
      textures, OceanMeshInstance := None, None;
      OceanMat := OceanMaterial(None, None, None);
      destroyed, nextId, log := {}, 0, [];
    }

    /** `Init`: side 2^N, twelve new textures, a new mesh instance, and the
        displacement, normal and bubbles textures bound to the material.
        The objects an earlier `Init` created are not destroyed. */
    method Init()
      requires Valid()
      modifies this`Size, this`textures, this`OceanMeshInstance, this`OceanMat, this`nextId
      ensures Valid()
      ensures Size == Pow2(N)
      ensures textures == Some(InitTextures(old(nextId), Size))
      ensures OceanMeshInstance == Some(old(nextId) + 12) && nextId == old(nextId) + 13
      ensures OceanMat == OceanMaterial(Some(textures.value.displacement.id), Some(textures.value.normal.id),
                                        Some(textures.value.bubbles.id))
      ensures old(textures).Some? ==> TextureIds(old(textures).value) !! TextureIds(textures.value)
      ensures destroyed == old(destroyed)
    {
      Size := Pow2(N);
      var first := nextId;
      textures := Some(OceanTextures(
        CreateRT(first, Size), CreateRT(first + 1, Size), CreateRT(first + 2, Size), CreateRT(first + 3, Size),
        CreateRT(first + 4, Size), CreateRT(first + 5, Size), CreateRT(first + 6, Size), CreateRT(first + 7, Size),
        CreateRT(first + 8, Size), CreateRT(first + 9, Size), CreateRT(first + 10, Size), CreateRT(first + 11, Size)));
      OceanMeshInstance := Some(first + 12);
      nextId := first + 13;
      var t := textures.value;
      OceanMat := OceanMaterial(Some(t.displacement.id), Some(t.normal.id), Some(t.bubbles.id));
      InitTexturesFresh(first, Size);
    }

    /** `CleanUp`: destroy the twelve textures and the mesh instance. The
        fields keep referring to the destroyed objects. */
    method CleanUp()
      modifies this`destroyed
      ensures textures.Some? ==> TextureIds(textures.value) <= destroyed
      ensures OceanMeshInstance.Some? ==> OceanMeshInstance.value in destroyed
      ensures destroyed == old(destroyed) + (if textures.Some? then TextureIds(textures.value) else {})
                           + (if OceanMeshInstance.Some? then {OceanMeshInstance.value} else {})
    {
      var gone := destroyed;
      if textures.Some? {
        var t := textures.value;
        gone := SafeDestroy(gone, Some(t.hZero.id));
        gone := SafeDestroy(gone, Some(t.spectrumX.id));
        gone := SafeDestroy(gone, Some(t.spectrumY.id));
        gone := SafeDestroy(gone, Some(t.spectrumZ.id));
        gone := SafeDestroy(gone, Some(t.butterfly.id));
        gone := SafeDestroy(gone, Some(t.ping.id));
        gone := SafeDestroy(gone, Some(t.pong.id));
        gone := SafeDestroy(gone, Some(t.displacement.id));
        gone := SafeDestroy(gone, Some(t.normalX.id));
        gone := SafeDestroy(gone, Some(t.normalZ.id));
        gone := SafeDestroy(gone, Some(t.normal.id));
        gone := SafeDestroy(gone, Some(t.bubbles.id));
      }
      gone := SafeDestroy(gone, OceanMeshInstance);
      destroyed := gone;
    }

    /** `Update`: re-initialise when the side is too large for N, then run
        the frame's passes. */
    method Update()
      requires Valid()
      modifies this`Size, this`textures, this`OceanMeshInstance, this`OceanMat, this`nextId, this`log
      ensures Valid()
      ensures ReinitNeeded(old(Size), N) ==>
        Size == Pow2(N) && textures == Some(InitTextures(old(nextId), Size)) && nextId == old(nextId) + 13
      ensures !ReinitNeeded(old(Size), N) ==>
        Size == old(Size) && textures == old(textures) && OceanMeshInstance == old(OceanMeshInstance)
        && nextId == old(nextId)
      ensures log == old(log) + FrameOps(StageCount(N), Groups(Size))
    {
      if Size as real - Pow2Real(N) > 0.00001 {
        Init();
      }
      RunPasses();
    }

    /** The passes of `Update` after the re-initialisation test. */
    method RunPasses()
      modifies this`log
      ensures log == old(log) + FrameOps(StageCount(N), Groups(Size))
    {
      ghost var n, g, l0 := StageCount(N), Groups(Size), log;
      log := log + [SetCSParam];
      ghost var done: seq<OceanOp> := [SetCSParam];
      CaculateButterfly();
      Regroup(l0, done, ButterflyOps(g));
      done := done + ButterflyOps(g);
      CaculateHZero();
      Regroup(l0, done, HZeroOps(g));
      done := done + HZeroOps(g);
      CaculateSpectrum();
      Regroup(l0, done, SpectrumOps(g));
      done := done + SpectrumOps(g);
      CaculateButterfly();
      Regroup(l0, done, ButterflyOps(g));
      done := done + ButterflyOps(g);
      CaculateDisplacement();
      Regroup(l0, done, DisplacementOps(n, g));
      done := done + DisplacementOps(n, g);
      CaculateNormal();
      Regroup(l0, done, NormalOps(n, g));
      done := done + NormalOps(n, g);
      CaculateBubbles();
      Regroup(l0, done, BubblesOps(g));
      done := done + BubblesOps(g);
      log := log + [SetMatParam];
      Regroup(l0, done, [SetMatParam]);
    }

    method CaculateButterfly()
      modifies this`log
      ensures log == old(log) + ButterflyOps(Groups(Size))
    {
      log := log + [Dispatch(CreateButterflyKernel, [], [ButterflyTex], Size / 8)];
    }

    method CaculateHZero()
      modifies this`log
      ensures log == old(log) + HZeroOps(Groups(Size))
    {
      log := log + [Dispatch(H0Kernel, [], [HZeroTex], Size / 8)];
    }

    method CaculateSpectrum()
      modifies this`log
      ensures log == old(log) + SpectrumOps(Groups(Size))
    {
      log := log + [Dispatch(FrequencyKernel, [HZeroTex], [SpectrumXTex, SpectrumYTex, SpectrumZTex], Size / 8)];
    }

    method CaculateBubbles()
      modifies this`log
      ensures log == old(log) + BubblesOps(Groups(Size))
    {
      log := log + [Dispatch(GenerationBubblesKernel, [NormalTex, DisplacementTex], [BubblesTex], Size / 8)];
    }

    /** One channel pass of `CaculateDisplacement` or `CaculateNormal`. */
    method ChannelPass(source: TexRole, param: IntParam, channel: int, kernel: Kernel, target: TexRole)
      modifies this`log
      ensures log == old(log) + ChannelOps(source, StageCount(N), Groups(Size), param, channel, kernel, target)
    {
      var result := CaculateFFTNative(source);
      log := log + [SetInt(param, channel), Dispatch(kernel, [result], [target], Size / 8)];
    }

    method CaculateDisplacement()
      modifies this`log
      ensures log == old(log) + DisplacementOps(StageCount(N), Groups(Size))
    {
      ChannelPass(SpectrumYTex, DisplaceChannel, 1, GenerationDisplaceKernel, DisplacementTex);
      ChannelPass(SpectrumXTex, DisplaceChannel, 0, GenerationDisplaceKernel, DisplacementTex);
      ChannelPass(SpectrumZTex, DisplaceChannel, 2, GenerationDisplaceKernel, DisplacementTex);
    }

    method CaculateNormal()
      modifies this`log
      ensures log == old(log) + NormalOps(StageCount(N), Groups(Size))
    {
      log := log + [Dispatch(NormalSpectrumKernel, [SpectrumYTex], [NormalXTex, NormalZTex], Size / 8)];
      ChannelPass(NormalXTex, NormalChannel, 0, GenerationNormalKernel, NormalTex);
      ChannelPass(NormalZTex, NormalChannel, 1, GenerationNormalKernel, NormalTex);
    }

    /** `CaculateFFTNative`: copy the source into PingTex, then N horizontal and
        N vertical stages, each reading PingTex, writing PongTex and copying PongTex
        back; the result is in PingTex. */
    method CaculateFFTNative(source: TexRole) returns (result: TexRole)
      modifies this`log
      ensures result == PingTex
      ensures log == old(log) + FFTNativeOps(source, StageCount(N), Groups(Size))
    {
      log := log + [Copy(source, PingTex)];
      ghost var l1 := log;
      NativePass(FFTHorizontalKernel);
      ghost var l2 := log;
      NativePass(FFTVerticalKernel);
      Regroup(old(log), [Copy(source, PingTex)], NativeStages(FFTHorizontalKernel, StageCount(N), Groups(Size)));
      Regroup(old(log), [Copy(source, PingTex)] + NativeStages(FFTHorizontalKernel, StageCount(N), Groups(Size)),
              NativeStages(FFTVerticalKernel, StageCount(N), Groups(Size)));
      result := PingTex;
    }

    /** One direction of `CaculateFFTNative`: N stages, each reading Ping,
        writing Pong and copying Pong back to Ping. */
    method NativePass(kernel: Kernel)
      modifies this`log
      ensures log == old(log) + NativeStages(kernel, StageCount(N), Groups(Size))
    {
      var stageIndex := 0;
      while stageIndex < N
        invariant 0 <= stageIndex <= StageCount(N)
        invariant log == old(log) + NativeStages(kernel, stageIndex, Groups(Size))
      {
        Regroup(old(log), NativeStages(kernel, stageIndex, Groups(Size)), NativeStage(kernel, stageIndex, Groups(Size)));
        log := log + [SetInt(StageParam, stageIndex),
                      Dispatch(kernel, [ButterflyTex, PingTex], [PongTex], Size / 8), Copy(PongTex, PingTex)];
        stageIndex := stageIndex + 1;
      }
    }

    /** `CaculateFFT`: the ping-pong variant, alternating the texture read
        and written by a parity, then copying the final one to `dest`. */
    method CaculateFFT(source: TexRole, dest: TexRole)
      modifies this`log
      ensures log == old(log) + CaculateFFTOps(source, dest, StageCount(N), Groups(Size))
    {
      log := log + [Copy(source, PingTex)];
      var index: nat := 0;
      index := PingPongPass(FFTHorizontalKernel, index);
      index := PingPongPass(FFTVerticalKernel, index);
      ParitySplit(0, StageCount(N), StageCount(N));
      assert StageCount(N) + StageCount(N) == 2 * StageCount(N);
      log := log + [Copy(if index > 0 then PongTex else PingTex, dest)];
      ghost var n, g := StageCount(N), Groups(Size);
      Regroup(old(log), [Copy(source, PingTex)], PingPongStages(FFTHorizontalKernel, n, 0, g));
      Regroup(old(log), [Copy(source, PingTex)] + PingPongStages(FFTHorizontalKernel, n, 0, g),
              PingPongStages(FFTVerticalKernel, n, ParityAfter(0, n), g));
      Regroup(old(log), [Copy(source, PingTex)] + PingPongStages(FFTHorizontalKernel, n, 0, g)
                        + PingPongStages(FFTVerticalKernel, n, ParityAfter(0, n), g),
              [Copy(PingPongIn(ParityAfter(0, 2 * n)), dest)]);
    }

    /** One direction of `CaculateFFT`: N stages from parity `index0`, each
        reading the texture the parity selects and writing the other. */
    method PingPongPass(kernel: Kernel, index0: nat) returns (index: nat)
      modifies this`log
      ensures index == ParityAfter(index0, StageCount(N))
      ensures log == old(log) + PingPongStages(kernel, StageCount(N), index0, Groups(Size))
    {
      index := index0;
      var stageIndex := 0;
      while stageIndex < N
        invariant 0 <= stageIndex <= StageCount(N)
        invariant index == ParityAfter(index0, stageIndex)
        invariant log == old(log) + PingPongStages(kernel, stageIndex, index0, Groups(Size))
      {
        Regroup(old(log), PingPongStages(kernel, stageIndex, index0, Groups(Size)),
                PingPongStage(kernel, stageIndex, index, Groups(Size)));
        var input := if index > 0 then PongTex else PingTex;
        var output := if index > 0 then PingTex else PongTex;
        log := log + [SetInt(StageParam, stageIndex), Dispatch(kernel, [ButterflyTex, input], [output], Size / 8)];
        index := if index > 0 then 0 else 1;
        stageIndex := stageIndex + 1;
      }
    }
  }
}
