/** `TAA`: temporal anti-aliasing. `SetUp` jitters the projection of the
    game camera once per frame and remembers, per camera, the offset and
    the matrices the resolve needs; `Render` keeps a pair of pooled history
    textures, resolves the frame into one of them and copies the result
    back over the source; `ClearUp` gives the history textures back.

    `TAAUtils` (the random offset sequence and the jittered projection
    matrices) is not part of this model: the offset sample is a parameter
    and a jittered projection is recorded by the offset it was built from.
    `CameraBufferSettings.TAASetting` is not part of this model either; its
    `IsActive()` answer is a field of `TaaSetting`. */
module Taa {
  import opened Rendering
  import opened RenderTextures

  /** `MotionBlurQuality`, the resolve shader's quality tier. */
  datatype Quality = Low | Medium | High

  /** The TAA settings the pass reads. */
  datatype TaaSetting = TaaSetting(active: bool, spread: real, feedback: real, quality: Quality)

  /** What the pass reads of a `Camera`: its identity (the dictionary key),
      type, projection kind, matrices and scaled pixel size. */
  datatype TaaCamera = TaaCamera(
    id: nat, cameraType: CameraType, orthographic: bool,
    worldToCamera: Matrix, projection: Matrix,
    scaledPixelWidth: int, scaledPixelHeight: int)

  /** The values set on the resolve material before the blit. */
  datatype ResolveInputs = ResolveInputs(
    currentInverseView: Matrix, currentInverseProjection: Matrix,
    previousViewProjection: Matrix, parameters: Vec3, history: Texture)

  /** The offset sample scaled by the spread. */
  function Jitter(sample: Vec2, spread: real): Vec2
  {
    Vec2(sample.x * spread, sample.y * spread)
  }

  function Abs(x: real): real
  {
    if x < 0.0 then -x else x
  }

  /** A sample inside the unit square centred on the origin gives a jitter
      whose components are at most half the spread. */
  lemma JitterBounded(sample: Vec2, spread: real)
    requires Abs(sample.x) <= 0.5 && Abs(sample.y) <= 0.5 && 0.0 <= spread
    ensures Abs(Jitter(sample, spread).x) <= spread / 2.0
    ensures Abs(Jitter(sample, spread).y) <= spread / 2.0
  {
    ScaledBound(sample.x, spread);
    ScaledBound(sample.y, spread);
  }

  lemma ScaledBound(a: real, s: real)
    requires Abs(a) <= 0.5 && 0.0 <= s
    ensures Abs(a * s) <= s / 2.0
  {
    assert Abs(a * s) == Abs(a) * s;
    assert (0.5 - Abs(a)) * s >= 0.0;
  }

  /** The keyword selecting a quality tier's resolve variant. */
  function TierKeyword(q: Quality): Keyword
  {
    match q
    case High => HighTAA
    case Medium => MiddleTAA
    case Low => LowTAA
  }

  /** What one resolving `Render` records: the three tier keywords, the
      resolve from the source into the history texture being written, and
      the copy back. */
  function ResolveTrace(q: Quality, source: Prop, written: nat): seq<Command>
  {
    [SetKeyword(HighTAA, q == High), SetKeyword(MiddleTAA, q == Medium), SetKeyword(LowTAA, q == Low),
     Blit(Temporary(source), Pooled(written), true), Blit(Pooled(written), Temporary(source), false)]
  }

  /** Exactly the tier's own keyword is enabled; the resolve goes into the
      written history texture through the material, the copy comes back
      out of it without one; no temporary is acquired or released. */
  lemma ResolveTraceShape(q: Quality, source: Prop, written: nat)
    ensures var t := ResolveTrace(q, source, written);
      |t| == 5
      && (forall i :: 0 <= i < 3 ==> t[i].SetKeyword? && (t[i].enabled <==> t[i].keyword == TierKeyword(q)))
      && t[3] == Blit(Temporary(source), Pooled(written), true)
      && t[4] == Blit(Pooled(written), Temporary(source), false)
      && Acquired(t) == multiset{} && Released(t) == multiset{}
  {
    var t := ResolveTrace(q, source, written);
    InertTrace(t);
  }

  /** The write index after a `Render` that read `read`. */
  function NextWrite(read: nat): nat
  {
    (read + 1) % 2
  }

  /** Reading the old write index and advancing it keeps both indices in
      {0, 1}, apart, and back where they were after two renders. */
  lemma ParityAlternates(write: nat)
    requires write < 2
    ensures NextWrite(write) < 2 && NextWrite(write) != write
    ensures NextWrite(NextWrite(write)) == write
  {
  }

  /** A history texture of a run of renders: the pair it belongs to (a
      camera's own, or `None` for the single pair every camera shares) and
      its index in the pair. */
  datatype Slot = Slot(owner: Option<nat>, index: nat)

  /** One `Render` of a run: the camera, the slot it reads and the slot it
      resolves into. */
  datatype RenderStep = RenderStep(camera: nat, read: Slot, write: Slot)

  /** A run of renders as `TAA` performs it: one write index and one pair of
      history textures for every camera. */
  function SharedSchedule(cams: seq<nat>, write: nat): (r: seq<RenderStep>)
    ensures |r| == |cams|
  {
    if |cams| == 0 then []
    else [RenderStep(cams[0], Slot(None, write), Slot(None, NextWrite(write)))]
         + SharedSchedule(cams[1..], NextWrite(write))
  }

  function WriteIndexOf(writes: map<nat, nat>, c: nat): nat
  {
    if c in writes then writes[c] else 0
  }

  /** The same run with a write index and a pair of history textures per
      camera, a camera's index starting at 0. */
  function PerCameraSchedule(cams: seq<nat>, writes: map<nat, nat>): (r: seq<RenderStep>)
    ensures |r| == |cams|
  {
    if |cams| == 0 then []
    else
      var c := cams[0];
      var w := WriteIndexOf(writes, c);
      [RenderStep(c, Slot(Some(c), w), Slot(Some(c), NextWrite(w)))]
      + PerCameraSchedule(cams[1..], writes[c := NextWrite(w)])
  }

  /** No render strictly between `j` and `k` is of `k`'s camera. */
  predicate NoneBetween(s: seq<RenderStep>, j: nat, k: nat)
    requires j <= k < |s|
  {
    forall m :: j < m < k ==> s[m].camera != s[k].camera
  }

  /** No render strictly between `j` and `k` writes what `k` reads. */
  predicate Untouched(s: seq<RenderStep>, j: nat, k: nat)
    requires j <= k < |s|
  {
    forall m :: j < m < k ==> s[m].write != s[k].read
  }

  /** What history is for: when a camera renders again, it reads the
      texture it resolved into at its previous render, and no render in
      between wrote that texture. */
  predicate ReadsOwnHistory(s: seq<RenderStep>)
  {
    forall j, k :: 0 <= j < k < |s| && s[j].camera == s[k].camera && NoneBetween(s, j, k) ==>
      s[k].read == s[j].write && Untouched(s, j, k)
  }

  /** With the shared index, two cameras taking turns each read the frame
      the other one resolved: camera `a` renders, `b` renders, and `a`
      reads the texture `b` wrote. */
  lemma SharedScheduleCrossesCameras(a: nat, b: nat, write: nat)
    requires a != b && write < 2
    ensures var s := SharedSchedule([a, b, a], write);
      s[2].read == s[1].write && s[2].read != s[0].write
    ensures !ReadsOwnHistory(SharedSchedule([a, b, a], write))
  {
    var w1 := NextWrite(write);
    var w2 := NextWrite(w1);
    assert [a, b, a][1..] == [b, a] && [b, a][1..] == [a] && [a][1..] == [];
    var s2 := SharedSchedule([a], w2);
    assert s2 == [RenderStep(a, Slot(None, w2), Slot(None, NextWrite(w2)))];
    var s1 := SharedSchedule([b, a], w1);
    assert s1 == [RenderStep(b, Slot(None, w1), Slot(None, w2))] + s2;
    var s := SharedSchedule([a, b, a], write);
    assert s == [RenderStep(a, Slot(None, write), Slot(None, w1))] + s1;
    ParityAlternates(write);
    assert NoneBetween(s, 0, 2);
  }

  /** The first render of a camera in a per-camera run reads at the index
      the camera started with. */
  lemma {:induction false} FirstReadOfCamera(cams: seq<nat>, writes: map<nat, nat>, k: nat)
    requires k < |cams| && forall m :: 0 <= m < k ==> cams[m] != cams[k]
    ensures PerCameraSchedule(cams, writes)[k].read == Slot(Some(cams[k]), WriteIndexOf(writes, cams[k]))
  {
    if k > 0 {
      var c := cams[0];
      var ws := writes[c := NextWrite(WriteIndexOf(writes, c))];
      assert forall m :: 0 <= m < k - 1 ==> cams[1..][m] == cams[m + 1];
      FirstReadOfCamera(cams[1..], ws, k - 1);
      assert WriteIndexOf(ws, cams[k]) == WriteIndexOf(writes, cams[k]);
    }
  }

  /** Each step of a per-camera run names its camera and uses that
      camera's own pair. */
  lemma {:induction false} PerCameraOwners(cams: seq<nat>, writes: map<nat, nat>, k: nat)
    requires k < |cams|
    ensures PerCameraSchedule(cams, writes)[k].camera == cams[k]
    ensures PerCameraSchedule(cams, writes)[k].read.owner == Some(cams[k])
    ensures PerCameraSchedule(cams, writes)[k].write.owner == Some(cams[k])
  {
    if k > 0 {
      var c := cams[0];
      PerCameraOwners(cams[1..], writes[c := NextWrite(WriteIndexOf(writes, c))], k - 1);
    }
  }

  /** Renders of other cameras only ever touch their own pairs. */
  lemma PerCameraUntouched(cams: seq<nat>, writes: map<nat, nat>, j: nat, k: nat)
    requires j <= k < |cams|
    ensures Untouched(PerCameraSchedule(cams, writes), j, k)
      || !NoneBetween(PerCameraSchedule(cams, writes), j, k)
  {
    var s := PerCameraSchedule(cams, writes);
    if NoneBetween(s, j, k) {
      PerCameraOwners(cams, writes, k);
      forall m | j < m < k
        ensures s[m].write != s[k].read
      {
        PerCameraOwners(cams, writes, m);
      }
    }
  }

  /** A camera's render reads what its previous render wrote. */
  lemma {:induction false} PerCameraPair(cams: seq<nat>, writes: map<nat, nat>, j: nat, k: nat)
    requires j < k < |cams|
    requires var s := PerCameraSchedule(cams, writes); s[j].camera == s[k].camera && NoneBetween(s, j, k)
    ensures PerCameraSchedule(cams, writes)[k].read == PerCameraSchedule(cams, writes)[j].write
  {
    var s := PerCameraSchedule(cams, writes);
    var c := cams[0];
    var ws := writes[c := NextWrite(WriteIndexOf(writes, c))];
    var rest := PerCameraSchedule(cams[1..], ws);
    assert s == [s[0]] + rest;
    if j == 0 {
      forall m | 0 <= m < k - 1
        ensures cams[1..][m] != cams[1..][k - 1]
      {
        PerCameraOwners(cams, writes, m + 1);
        PerCameraOwners(cams, writes, k);
        assert s[m + 1].camera != s[k].camera;
      }
      FirstReadOfCamera(cams[1..], ws, k - 1);
      PerCameraOwners(cams, writes, 0);
      PerCameraOwners(cams, writes, k);
      assert s[k] == rest[k - 1];
    } else {
      assert rest[j - 1] == s[j] && rest[k - 1] == s[k];
      forall m | j - 1 < m < k - 1
        ensures rest[m].camera != rest[k - 1].camera
      {
        assert rest[m] == s[m + 1];
      }
      PerCameraPair(cams[1..], ws, j - 1, k - 1);
    }
  }

  /** With a write index and a pair per camera, every camera reads its own
      history. */
  lemma PerCameraReadsOwnHistory(cams: seq<nat>, writes: map<nat, nat>)
    ensures ReadsOwnHistory(PerCameraSchedule(cams, writes))
  {
    var s := PerCameraSchedule(cams, writes);
    forall j, k | 0 <= j < k < |s| && s[j].camera == s[k].camera && NoneBetween(s, j, k)
      ensures s[k].read == s[j].write && Untouched(s, j, k)
    {
      PerCameraPair(cams, writes, j, k);
      PerCameraUntouched(cams, writes, j, k);
    }
  }

  /** `TAAData`: the per-camera record. */
  class TAAData {
    var sampleOffset: Vec2
    var projOverride: Matrix
    var projPreview: Matrix
    var viewPreview: Matrix

    constructor ()
      ensures sampleOffset == Vec2(0.0, 0.0)
      ensures projOverride == Identity && projPreview == Identity && viewPreview == Identity
    {
      sampleOffset := Vec2(0.0, 0.0);
      projOverride, projPreview, viewPreview := Identity, Identity, Identity;
    }
  }

  /** The static `indexWrite`, one counter for every `TAA` and camera. */
  class HistoryParity {
    var indexWrite: nat

    constructor ()
      ensures indexWrite == 0
    {
      indexWrite := 0;
    }
  }

  class TAA {
    /** `m_TAADatas`, keyed by camera identity. */
    var datas: map<nat, TAAData>
    /** The camera, settings and record of the latest `SetUp`. */
    var camera: Option<TaaCamera>
    var setting: Option<TaaSetting>
    var current: TAAData?
    /** `previewView` and `previewProj`: the matrices of the latest jittered
        `SetUp`, whichever camera it was for. */
    var previewView: Matrix
    var previewProj: Matrix
    var historyBuffer: array?<Option<RenderTex>>
    var material: Option<ResolveInputs>
    var stream: seq<Command>
    const parity: HistoryParity
    const pool: TexturePool

    /** The handles the history holds. */
    function Held(): set<nat>
      reads this, historyBuffer
    {
      if historyBuffer == null then {}
      else set i | 0 <= i < historyBuffer.Length && historyBuffer[i].Some? :: historyBuffer[i].value.handle
    }

    /** The parity is an index into the pair; a history array has two
        entries, and the textures it holds are distinct and held from the
        pool. */
    predicate Valid()
      reads this, parity, pool, historyBuffer
    {
      pool.Valid() && parity.indexWrite < 2
      && (historyBuffer != null ==>
            historyBuffer.Length == 2
            && (historyBuffer[0].Some? && historyBuffer[1].Some? ==>
                  historyBuffer[0].value.handle != historyBuffer[1].value.handle)
            && (historyBuffer[0].Some? ==> historyBuffer[0].value.handle in pool.live)
            && (historyBuffer[1].Some? ==> historyBuffer[1].value.handle in pool.live))
    }

    /** The previous matrices start out all zero; the registry and the
        history start out empty. */
    constructor (parity: HistoryParity, pool: TexturePool)
      requires parity.indexWrite < 2 && pool.Valid()
      ensures Valid() && this.parity == parity && this.pool == pool
      ensures datas == map[] && camera == None && setting == None && current == null
      ensures previewView == ZeroMatrix && previewProj == ZeroMatrix
      ensures historyBuffer == null && material == None && stream == []
    {
      this.parity, this.pool := parity, pool;
      datas, camera, setting, current := map[], None, None, null;
      previewView, previewProj := ZeroMatrix, ZeroMatrix;
      historyBuffer, material, stream := null, None, [];
    }

    /** `SetUp`: find or register the camera's record, and for an active
        setting on a game camera jitter the projection and record it. */
    method SetUp(cam: TaaCamera, taaSetting: TaaSetting, sample: Vec2)
      requires Valid()
      requires taaSetting.active && cam.cameraType == Game ==> cam.scaledPixelWidth != 0 && cam.scaledPixelHeight != 0
      modifies this`camera, this`setting, this`current, this`datas, this`previewView, this`previewProj, this`stream
      modifies datas.Values
      ensures Valid()
      ensures camera == Some(cam) && setting == Some(taaSetting)
      ensures datas.Keys == old(datas.Keys) + {cam.id}
      ensures forall k :: k in old(datas) ==> datas[k] == old(datas[k])
      ensures current == datas[cam.id]
      ensures cam.id !in old(datas) ==> fresh(current)
      ensures forall d :: d in old(datas.Values) && d != current ==> unchanged(d)
      ensures taaSetting.active && cam.cameraType == Game ==>
        var offset := Jitter(sample, taaSetting.spread);
        current.projOverride == JitteredProjection(cam.orthographic, offset)
        && current.sampleOffset == Vec2(offset.x / cam.scaledPixelWidth as real, offset.y / cam.scaledPixelHeight as real)
        && current.projPreview == old(previewProj) && current.viewPreview == old(previewView)
        && previewView == cam.worldToCamera && previewProj == cam.projection
        && stream == old(stream) + [SetViewProjectionMatrices(cam.worldToCamera, current.projOverride)]
      ensures !(taaSetting.active && cam.cameraType == Game) ==>
        stream == old(stream) && previewView == old(previewView) && previewProj == old(previewProj)
        && (cam.id in old(datas) ==> unchanged(current))
        && (cam.id !in old(datas) ==>
              current.sampleOffset == Vec2(0.0, 0.0) && current.projOverride == Identity
              && current.projPreview == Identity && current.viewPreview == Identity)
    {
      camera, setting := Some(cam), Some(taaSetting);
      FindOrAdd(cam.id);
      if taaSetting.active && cam.cameraType == Game {
        UpdateTAAData(cam, current, sample);
        stream := stream + [SetViewProjectionMatrices(cam.worldToCamera, current.projOverride)];
      }
    }

    /** `TryGetValue`, or `Add` of a fresh record for an unseen camera: the
        registry only grows, and existing entries are never replaced. */
    method FindOrAdd(id: nat)
      modifies this`current, this`datas
      ensures datas.Keys == old(datas.Keys) + {id}
      ensures forall k :: k in old(datas) ==> datas[k] == old(datas[k])
      ensures current == datas[id]
      ensures id !in old(datas) ==>
        fresh(current)
        && current.sampleOffset == Vec2(0.0, 0.0) && current.projOverride == Identity
        && current.projPreview == Identity && current.viewPreview == Identity
    {
      if id in datas {
        current := datas[id];
      } else {
        current := new TAAData();
        datas := datas[id := current];
      }
    }

    /** `UpdateTAAData`: the record's previous matrices become the ones of
        the latest update (of any camera), the projection is jittered by the
        spread-scaled sample, the stored offset is that jitter in pixels of
        the scaled viewport, and this camera's matrices become the latest. */
    method UpdateTAAData(cam: TaaCamera, data: TAAData, sample: Vec2)
      requires setting.Some? && cam.scaledPixelWidth != 0 && cam.scaledPixelHeight != 0
      modifies data, this`previewView, this`previewProj
      ensures var offset := Jitter(sample, setting.value.spread);
        data.projOverride == JitteredProjection(cam.orthographic, offset)
        && data.sampleOffset == Vec2(offset.x / cam.scaledPixelWidth as real, offset.y / cam.scaledPixelHeight as real)
      ensures data.projPreview == old(previewProj) && data.viewPreview == old(previewView)
      ensures previewView == cam.worldToCamera && previewProj == cam.projection
    {
      var additionalSample := Jitter(sample, setting.value.spread);
      data.sampleOffset := additionalSample;
      data.projPreview := previewProj;
      data.viewPreview := previewView;
      data.projOverride := JitteredProjection(cam.orthographic, data.sampleOffset);
      data.sampleOffset := Vec2(data.sampleOffset.x / cam.scaledPixelWidth as real,
                                data.sampleOffset.y / cam.scaledPixelHeight as real);
      previewView := cam.worldToCamera;
      previewProj := cam.projection;
    }

    /** `EnsureArray`: an array of the requested size, the given one when it
        already has that size, otherwise a fresh one filled with the initial
        value. */
    static method EnsureArray<T(0)>(a: array?<T>, size: nat, initialValue: T) returns (r: array<T>)
      ensures r.Length == size
      ensures a != null && a.Length == size ==> r == a
      ensures (a == null || a.Length != size) ==> fresh(r) && forall i :: 0 <= i < size ==> r[i] == initialValue
    {
      if a == null || a.Length != size {
        r := new T[size];
        for i := 0 to size
          modifies r
          invariant forall j :: 0 <= j < i ==> r[j] == initialValue
        {
          r[i] := initialValue;
        }
      } else {
        r := a;
      }
    }

    /** `EnsureRenderTarget`: a target that does not match is released; a
        missing one is obtained with the requested attributes. Reports
        whether it obtained a texture. */
    method EnsureRenderTarget(rt: Option<RenderTex>, width: int, height: int, format: TextureFormat,
                              filter: FilterMode, depthBits: nat, antiAliasing: int)
      returns (r: Option<RenderTex>, created: bool)
      requires pool.Valid()
      modifies pool
      ensures pool.Valid()
      ensures r.Some? && Matches(r.value, width, height, format, filter, antiAliasing)
      ensures created <==> (rt.None? || !Matches(rt.value, width, height, format, filter, antiAliasing))
      ensures !created ==> r == rt && pool.live == old(pool.live)
      ensures created ==> r.value.depthBits == depthBits
      ensures created && rt.Some? ==>
        r.value.handle !in old(pool.live) - {rt.value.handle}
        && pool.live == old(pool.live) - {rt.value.handle} + {r.value.handle}
      ensures created && rt.None? ==> r.value.handle !in old(pool.live) && pool.live == old(pool.live) + {r.value.handle}
    {
      r := rt;
      if r.Some? && !Matches(r.value, width, height, format, filter, antiAliasing) {
        pool.ReleaseTemporary(r.value);
        r := None;
      }
      if r.None? {
        var t := pool.GetTemporary(width, height, depthBits, format, antiAliasing);
        r := Some(t.(filter := filter));
        return r, true;
      }
      return r, false;
    }

    /** `ClearRT`: a held texture goes back to the pool. */
    method ClearRT(rt: Option<RenderTex>) returns (r: Option<RenderTex>)
      requires pool.Valid()
      modifies pool
      ensures pool.Valid() && r == None
      ensures rt.Some? ==> pool.live == old(pool.live) - {rt.value.handle}
      ensures rt.None? ==> pool.live == old(pool.live)
    {
      if rt.Some? {
        pool.ReleaseTemporary(rt.value);
      }
      r := None;
    }

    /** `Render`: nothing for a camera that is not a game camera. Otherwise
        make sure both history textures match the frame, read the one last
        written, advance the shared parity, set the resolve inputs and record
        the resolve into the other one and the copy back. */
    method Render(sourceId: Prop, width: int, height: int, format: TextureFormat)
      requires Valid() && camera.Some? && setting.Some? && current != null
      modifies this`historyBuffer, this`material, this`stream, parity, pool, historyBuffer
      ensures Valid()
      ensures camera.value.cameraType != Game ==>
        stream == old(stream) && historyBuffer == old(historyBuffer) && material == old(material)
        && parity.indexWrite == old(parity.indexWrite) && pool.live == old(pool.live)
      ensures camera.value.cameraType == Game ==>
        var read, write := old(parity.indexWrite), parity.indexWrite;
        write == NextWrite(read)
        && historyBuffer != null && historyBuffer[0].Some? && historyBuffer[1].Some?
        && Matches(historyBuffer[0].value, width, height, format, Bilinear, 1)
        && Matches(historyBuffer[1].value, width, height, format, Bilinear, 1)
        && material == Some(ResolveInputs(
             Inverse(camera.value.worldToCamera), Inverse(current.projOverride),
             Product(current.projPreview, current.viewPreview),
             Vec3(current.sampleOffset.x, current.sampleOffset.y, setting.value.feedback),
             Pooled(historyBuffer[read].value.handle)))
        && stream == old(stream) + ResolveTrace(setting.value.quality, sourceId, historyBuffer[write].value.handle)
    {
      if camera.value.cameraType != Game {
        return;
      }
      var history := EnsureArray(historyBuffer, 2, None);
      historyBuffer := history;
      var r0, _ := EnsureRenderTarget(history[0], width, height, format, Bilinear, 0, 1);
      history[0] := r0;
      var r1, _ := EnsureRenderTarget(history[1], width, height, format, Bilinear, 0, 1);
      history[1] := r1;
      var indexRead := parity.indexWrite;
      parity.indexWrite := (parity.indexWrite + 1) % 2;
      var c, s := camera.value, setting.value;
      material := Some(ResolveInputs(
        Inverse(c.worldToCamera), Inverse(current.projOverride),
        Product(current.projPreview, current.viewPreview),
        Vec3(current.sampleOffset.x, current.sampleOffset.y, s.feedback),
        Pooled(history[indexRead].value.handle)));
      stream := stream + ResolveTrace(s.quality, sourceId, history[parity.indexWrite].value.handle);
    }

    /** `ClearUp`: give both history textures back and drop the array;
        without an array it does nothing. */
    method ClearUp()
      requires Valid()
      modifies this`historyBuffer, pool, historyBuffer
      ensures Valid() && historyBuffer == null && Held() == {}
      ensures pool.live == old(pool.live) - old(Held())
    {
      if historyBuffer != null {
        var history := historyBuffer;
        var r0 := ClearRT(history[0]);
        history[0] := r0;
        var r1 := ClearRT(history[1]);
        history[1] := r1;
        historyBuffer := null;
      }
    }
  }
}
