/** `PreIntegrateBRDF`: renders the pre-integrated BRDF lookup table into a
    pooled 512x512 HDR texture and publishes it as `_PreIntegrateBRDF`. */
module PreIntegratedBrdf {
  import opened Rendering
  import opened RenderTextures

  /** `size`: the table is 512x512 pixels. */
  const LutSize := 512

  /** The attributes the table must have. */
  predicate IsLut(t: RenderTex)
  {
    Matches(t, LutSize, LutSize, DefaultHDR, Point, 1)
  }

  /** What `SetUp` records once the table is `lut`: the draw from the source
      into the table through the material, then the binding. */
  function SetUpTrace(source: Prop, lut: nat): seq<Command>
  {
    [Blit(Temporary(source), Pooled(lut), true), SetGlobalTexture(PreIntegrateBRDFProp, Pooled(lut))]
  }

  /** The table is drawn before it is published, the published texture is
      the one drawn into, and no temporary is acquired or released. */
  lemma SetUpTraceOrder(source: Prop, lut: nat)
    ensures var t := SetUpTrace(source, lut);
      |t| == 2 && t[0].Blit? && t[0].dst == Pooled(lut) && t[0].withMaterial
      && t[1] == SetGlobalTexture(PreIntegrateBRDFProp, t[0].dst)
      && Acquired(t) == multiset{} && Released(t) == multiset{}
  {
    InertTrace(SetUpTrace(source, lut));
  }

  /** The `Hidden/MSRP/PreIntegrateBrdfLUT` material. */
  class BrdfMaterial {
    constructor ()
    {
    }
  }

  class PreIntegrateBRDF {
    /** `PreIntegrateBRDFLUT`. */
    var lut: Option<RenderTex>
    var mat: BrdfMaterial?
    var stream: seq<Command>
    const pool: TexturePool

    /** A table held is held from the pool. */
    predicate Valid()
      reads this, pool
    {
      pool.Valid() && (lut.Some? ==> lut.value.handle in pool.live)
    }

    constructor (pool: TexturePool)
      requires pool.Valid()
      ensures Valid() && this.pool == pool && lut == None && mat == null && stream == []
    {
      this.pool := pool;
      lut, mat, stream := None, null, [];
    }

    /** `CreateRT`: a table with the wrong attributes is released; a
        missing table is obtained, point filtered; the material is created
        the first time only. */
    method CreateRT()
      requires Valid()
      modifies this`lut, this`mat, pool
      ensures Valid() && lut.Some? && IsLut(lut.value)
      ensures old(lut).Some? && IsLut(old(lut).value) ==> lut == old(lut) && pool.live == old(pool.live)
      ensures old(lut).Some? && !IsLut(old(lut).value) ==>
        lut.value.handle !in old(pool.live) - {old(lut).value.handle}
        && pool.live == old(pool.live) - {old(lut).value.handle} + {lut.value.handle}
      ensures old(lut).None? ==>
        lut.value.handle !in old(pool.live) && pool.live == old(pool.live) + {lut.value.handle}
      ensures old(mat) != null ==> mat == old(mat)
      ensures old(mat) == null ==> mat != null && fresh(mat)
    {
      if lut.Some? && !IsLut(lut.value) {
        pool.ReleaseTemporary(lut.value);
        lut := None;
      }
      if lut.None? {
        var t := pool.GetTemporary(LutSize, LutSize, 0, DefaultHDR, 1);
        lut := Some(t.(filter := Point));
      }
      if mat == null {
        mat := new BrdfMaterial();
      }
    }

    /** `SetUp`: ensure the table, draw it, publish it. */
    method SetUp(sourceId: Prop)
      requires Valid()
      modifies this`lut, this`mat, this`stream, pool
      ensures Valid() && lut.Some? && IsLut(lut.value) && mat != null
      ensures old(lut).Some? && IsLut(old(lut).value) ==> lut == old(lut) && pool.live == old(pool.live)
      ensures old(lut).None? ==> lut.value.handle !in old(pool.live)
      ensures old(mat) != null ==> mat == old(mat)
      ensures stream == old(stream) + SetUpTrace(sourceId, lut.value.handle)
    {
      CreateRT();
      stream := stream + [Blit(Temporary(sourceId), Pooled(lut.value.handle), true)];
      stream := stream + [SetGlobalTexture(PreIntegrateBRDFProp, Pooled(lut.value.handle))];
    }

    /** `ClearUp`: the table goes back to the pool; with no table it does
        nothing. */
    method ClearUp()
      requires Valid()
      modifies this`lut, pool
      ensures Valid() && lut == None
      ensures old(lut).Some? ==> pool.live == old(pool.live) - {old(lut).value.handle}
      ensures old(lut).None? ==> pool.live == old(pool.live)
    {
      if lut.Some? {
        pool.ReleaseTemporary(lut.value);
        lut := None;
      }
    }
  }
}
