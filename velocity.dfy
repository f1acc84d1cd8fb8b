/** `VelocityBufferRenderer`: draws per-object motion vectors into the
    `_VetorBufferAttachment` temporary.

    The pass records into its own command buffer, which reaches the render
    context only when it is executed, while its draw call goes to the
    context directly; the model keeps the two apart (`buffer` and
    `context`), because the order in which they reach the context is what
    the pass gets wrong. */
module VelocityBuffer {
  import opened Rendering

  /** The motion-vector draw: opaque queue, common opaque sorting, the
      `MotionVectors` pass only, every rendering layer. */
  function MotionVectorDraw(): Command
  {
    DrawRenderers(OpaqueQueue, CommonOpaque, false, MotionVectors, U32(-1), false)
  }

  /** Acquiring the velocity target at the given size and binding it. */
  function AcquireAndBind(width: int, height: int): seq<Command>
  {
    [GetTemporaryRT(VetorBufferAttachment, width, height, 0, Bilinear, DefaultHDR),
     SetRenderTarget(Single(Temporary(VetorBufferAttachment)), None, false)]
  }

  /** What `Cleanup` records. */
  function ReleaseVelocity(): seq<Command>
  {
    [ReleaseTemporaryRT(VetorBufferAttachment)]
  }

  /** The release names exactly the one temporary the acquire obtains. */
  lemma CleanupMatchesSetup(width: int, height: int)
    ensures Acquired(AcquireAndBind(width, height)) == multiset{VetorBufferAttachment}
    ensures Released(ReleaseVelocity()) == Acquired(AcquireAndBind(width, height))
    ensures Released(AcquireAndBind(width, height)) == multiset{}
  {
    var t := AcquireAndBind(width, height);
    assert t == [t[0]] + [t[1]];
    AcquiredCons(t[0], [t[1]]);
    AcquiredCons(t[1], []);
    AcquiredCons(ReleaseVelocity()[0], []);
  }

  /** The first position in `s` holding a draw, or `|s|`. */
  function FirstDraw(s: seq<Command>): (i: nat)
    ensures i <= |s|
    ensures i < |s| ==> s[i].DrawRenderers?
    ensures forall k :: 0 <= k < i ==> !s[k].DrawRenderers?
  {
    if |s| == 0 then 0
    else if s[0].DrawRenderers? then 0
    else 1 + FirstDraw(s[1..])
  }

  /** The velocity target is acquired and bound before the first draw of
      what `s` appends. */
  predicate BoundBeforeDraw(s: seq<Command>)
  {
    exists a, b :: 0 <= a < b < FirstDraw(s) <= |s|
      && s[a].GetTemporaryRT? && s[a].id == VetorBufferAttachment && s[a].format == DefaultHDR
      && s[b] == SetRenderTarget(Single(Temporary(VetorBufferAttachment)), None, false)
  }

  class VelocityBufferRenderer {
    /** `bufferSize`: declared, never assigned. */
    var bufferSize: (int, int)
    /** The camera and culling results of the latest `Setup`. */
    var camera: Option<nat>
    var cullingResults: Option<nat>
    /** The pass's own command buffer, and the render context. */
    var buffer: seq<Command>
    var context: seq<Command>

    constructor ()
      ensures bufferSize == (0, 0) && camera == None && cullingResults == None
      ensures buffer == [] && context == []
    {
      bufferSize, camera, cullingResults := (0, 0), None, None;
      buffer, context := [], [];
    }

    /** `Setup` as written: acquisition and binding go into the buffer, the
        draw goes straight to the context, then the buffer is executed and
        cleared. So the context receives the draw first, then whatever the
        buffer held (a release a `Cleanup` left there), then the
        acquisition and binding. */
    method Setup(cameraId: nat, culling: nat, width: int, height: int)
      modifies this`camera, this`cullingResults, this`buffer, this`context
      ensures camera == Some(cameraId) && cullingResults == Some(culling)
      ensures buffer == []
      ensures context == old(context) + [MotionVectorDraw()] + old(buffer) + AcquireAndBind(width, height)
    {
      cullingResults, camera := Some(culling), Some(cameraId);
      buffer := buffer + AcquireAndBind(width, height);
      DrawBuffer();
      context := context + buffer;
      buffer := [];
    }

    /** The draw goes to the render context directly. */
    method DrawBuffer()
      modifies this`context
      ensures context == old(context) + [MotionVectorDraw()]
    {
      context := context + [MotionVectorDraw()];
    }

    /** `Setup` with the buffer executed before the draw, so the draw lands
        in the velocity target. */
    method SetupBound(cameraId: nat, culling: nat, width: int, height: int)
      modifies this`camera, this`cullingResults, this`buffer, this`context
      ensures camera == Some(cameraId) && cullingResults == Some(culling)
      ensures buffer == []
      ensures context == old(context) + old(buffer) + AcquireAndBind(width, height) + [MotionVectorDraw()]
    {
      cullingResults, camera := Some(culling), Some(cameraId);
      buffer := buffer + AcquireAndBind(width, height);
      context := context + buffer;
      buffer := [];
      DrawBuffer();
    }

    /** `Cleanup`: the release is recorded into the buffer only; it reaches
        the context with the next `Setup`. */
    method Cleanup()
      modifies this`buffer
      ensures buffer == old(buffer) + ReleaseVelocity()
    {
      buffer := buffer + ReleaseVelocity();
    }

    /** The camera renderer's frames: each calls `Cleanup`, none calls
        `Setup`. The buffer gains one release per frame and is never
        executed, so nothing reaches the context. */
    method CleanupFrames(frames: nat)
      modifies this`buffer
      ensures buffer == old(buffer) + PendingReleases(frames)
      ensures context == old(context)
    {
      var i := 0;
      while i < frames
        invariant 0 <= i <= frames
        invariant buffer == old(buffer) + PendingReleases(i)
      {
        Cleanup();
        i := i + 1;
      }
    }
  }

  /** The releases that `n` calls of `Cleanup` queue in the buffer. */
  function PendingReleases(n: nat): seq<Command>
  {
    if n == 0 then [] else PendingReleases(n - 1) + ReleaseVelocity()
  }

  /** After `n` cleanups without a `Setup`, the buffer holds `n` releases
      of the velocity target and no acquisition of it: every release names
      a temporary that was never obtained. */
  lemma {:induction false} PendingReleasesUnmatched(n: nat)
    ensures |PendingReleases(n)| == n
    ensures Released(PendingReleases(n)) == multiset{}[VetorBufferAttachment := n]
    ensures Acquired(PendingReleases(n)) == multiset{}
  {
    if n > 0 {
      PendingReleasesUnmatched(n - 1);
      AcquiredAppend(PendingReleases(n - 1), ReleaseVelocity());
      AcquiredCons(ReleaseVelocity()[0], []);
    }
  }

  /** As written, the draw reaches the context before the velocity target
      is acquired or bound. */
  lemma SetupDrawsFirst(pending: seq<Command>, width: int, height: int)
    ensures FirstDraw([MotionVectorDraw()] + pending + AcquireAndBind(width, height)) == 0
    ensures !BoundBeforeDraw([MotionVectorDraw()] + pending + AcquireAndBind(width, height))
  {
  }

  /** With the buffer executed first, the target is acquired and then
      bound before the draw, whatever the buffer held besides. */
  lemma {:induction false} SetupBoundBindsFirst(pending: seq<Command>, width: int, height: int)
    requires forall k :: 0 <= k < |pending| ==> !pending[k].DrawRenderers?
    ensures BoundBeforeDraw(pending + AcquireAndBind(width, height) + [MotionVectorDraw()])
  {
    var s := pending + AcquireAndBind(width, height) + [MotionVectorDraw()];
    var n := |pending|;
    assert forall k :: 0 <= k < n + 2 ==> !s[k].DrawRenderers?;
    assert s[n + 2].DrawRenderers?;
    FirstDrawAt(s, n + 2);
    assert s[n] == GetTemporaryRT(VetorBufferAttachment, width, height, 0, Bilinear, DefaultHDR);
    assert s[n + 1] == SetRenderTarget(Single(Temporary(VetorBufferAttachment)), None, false);
  }

  /** The first draw is at `i` when `s[i]` is a draw and nothing before is. */
  lemma {:induction false} FirstDrawAt(s: seq<Command>, i: nat)
    requires i < |s| && s[i].DrawRenderers?
    requires forall k :: 0 <= k < i ==> !s[k].DrawRenderers?
    ensures FirstDraw(s) == i
  {
    if i > 0 {
      assert forall k :: 0 <= k < i - 1 ==> s[1..][k] == s[k + 1];
      FirstDrawAt(s[1..], i - 1);
    }
  }
}
