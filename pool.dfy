/** Unity's pool of temporary render textures (`RenderTexture.GetTemporary`
    and `RenderTexture.ReleaseTemporary`), shared by the components that keep
    a `RenderTexture` across frames. A texture is a value naming a pooled
    handle together with the attributes its owners compare; the pool tracks
    which handles are currently held. */
module RenderTextures {
  import opened Rendering

  /** A pooled `RenderTexture`: its handle and the attributes the "ensure"
      checks compare (`width`, `height`, `format`, `filterMode`,
      `antiAliasing`), plus its depth bits. */
  datatype RenderTex = RenderTex(
    handle: nat, width: int, height: int, depthBits: nat,
    format: TextureFormat, filter: FilterMode, antiAliasing: int)

  /** A texture has exactly the requested attributes. */
  predicate Matches(t: RenderTex, width: int, height: int, format: TextureFormat, filter: FilterMode, antiAliasing: int)
  {
    t.width == width && t.height == height && t.format == format
    && t.filter == filter && t.antiAliasing == antiAliasing
  }

  class TexturePool {
    /** Every handle handed out so far is below `next`. */
    var next: nat
    /** The handles obtained and not yet released. */
    var live: set<nat>

    predicate Valid()
      reads this
    {
      forall h :: h in live ==> h < next
    }

    constructor ()
      ensures Valid() && live == {}
    {
      next, live := 0, {};
    }

    /** `GetTemporary`: a texture no one else holds, with the requested
        attributes and Unity's default bilinear filtering. */
    method GetTemporary(width: int, height: int, depthBits: nat, format: TextureFormat, antiAliasing: int)
      returns (t: RenderTex)
      requires Valid()
      modifies this
      ensures Valid()
      ensures t.handle !in old(live) && live == old(live) + {t.handle}
      ensures Matches(t, width, height, format, Bilinear, antiAliasing) && t.depthBits == depthBits
    {
      t := RenderTex(next, width, height, depthBits, format, Bilinear, antiAliasing);
      live := live + {next};
      next := next + 1;
    }

    /** `ReleaseTemporary`: the texture goes back to the pool. */
    method ReleaseTemporary(t: RenderTex)
      requires Valid()
      modifies this
      ensures Valid()
      ensures live == old(live) - {t.handle}
    {
      live := live - {t.handle};
    }
  }
}
