/** `LTCAreaLight`: the lazily created singleton that owns the linearly
    transformed cosine lookup table for area lights, packs the inverse
    transform matrices (or a scalar) into 64x64 pixel slices, and binds the
    table for the shaders.

    The GGX and Disney diffuse tables are constants of the class defined in
    a file that is not part of this model; here they are given to the
    singleton when it is created. */
module LtcAreaLights {
  import opened Rendering

  /** `k_LtcLUTMatrixDim`: the transforms are 3x3 matrices. */
  const LtcLUTMatrixDim := 3
  /** `k_LtcLUTResolution`: each slice is 64x64 pixels. */
  const LtcLUTResolution := 64
  const PixelCount := LtcLUTResolution * LtcLUTResolution

  /** The largest finite half float, and `float.MaxValue`. */
  const HalfMax: real := 65504.0
  const FloatMax: real := 340282346638528859811704183484516925440.0

  /** The value every channel is clamped to for a texture format. */
  function ClampValue(format: TextureFormat): (c: real)
    ensures format == RGBAHalf ==> c == HalfMax
    ensures format != RGBAHalf ==> c == FloatMax
    ensures HalfMax <= c
  {
    if format == RGBAHalf then HalfMax else FloatMax
  }

  function Min(a: real, b: real): real
  {
    if a <= b then a else b
  }

  /** A matrix table holds at least one row per pixel, each with the seven
      leading coefficients the packing reads. */
  predicate IsMatrixTable(table: seq<seq<real>>)
  {
    |table| >= PixelCount && forall i :: 0 <= i < |table| ==> |table[i]| >= 7
  }

  /** One packed pixel: coefficients 0, 2, 4 and 6 of the row (the others
      are zero or one for both BRDFs), each clamped. */
  function MatrixPixel(row: seq<real>, clamp: real): Color
    requires |row| >= 7
  {
    Color(Min(clamp, row[0]), Min(clamp, row[2]), Min(clamp, row[4]), Min(clamp, row[6]))
  }

  /** Every channel of a packed pixel is at most the clamp, and a
      coefficient that fits is stored as it is. */
  lemma MatrixPixelClamped(row: seq<real>, clamp: real)
    requires |row| >= 7
    ensures var p := MatrixPixel(row, clamp);
      p.r <= clamp && p.g <= clamp && p.b <= clamp && p.a <= clamp
      && (row[0] <= clamp ==> p.r == row[0]) && (row[2] <= clamp ==> p.g == row[2])
      && (row[4] <= clamp ==> p.b == row[4]) && (row[6] <= clamp ==> p.a == row[6])
  {
  }

  function ScalarPixel(x: real): Color
  {
    Color(0.0, 0.0, 0.0, x)
  }

  /** A `Texture2DArray`: its shape and, per slice, the pixels set into it
      (`None` for a slice never written). */
  class LtcTextureArray {
    const width: nat
    const height: nat
    const format: TextureFormat
    const filter: FilterMode
    var slices: seq<Option<seq<Color>>>

    constructor (width: nat, height: nat, depth: nat, format: TextureFormat, filter: FilterMode)
      ensures this.width == width && this.height == height && this.format == format && this.filter == filter
      ensures |slices| == depth && forall k :: 0 <= k < depth ==> slices[k] == None
    {
      this.width, this.height, this.format, this.filter := width, height, format, filter;
      slices := seq(depth, _ => None);
    }

    /** `SetPixels(pixels, element)`. */
    method SetPixels(pixels: seq<Color>, element: nat)
      requires element < |slices|
      modifies this
      ensures slices == old(slices)[element := Some(pixels)]
    {
      slices := slices[element := Some(pixels)];
    }
  }

  /** `LoadLUT` for a matrix table: slice `element` receives pixel `i` =
      the clamped coefficients 0, 2, 4, 6 of row `i`, for all 64x64 pixels;
      the other slices are untouched. */
  method LoadMatrixLut(tex: LtcTextureArray, element: nat, format: TextureFormat, table: seq<seq<real>>)
    requires element < |tex.slices| && IsMatrixTable(table)
    modifies tex
    ensures |tex.slices| == |old(tex.slices)|
    ensures forall k :: 0 <= k < |tex.slices| && k != element ==> tex.slices[k] == old(tex.slices[k])
    ensures tex.slices[element].Some? && |tex.slices[element].value| == PixelCount
    ensures forall i :: 0 <= i < PixelCount ==>
              tex.slices[element].value[i] == MatrixPixel(table[i], ClampValue(format))
  {
    var pixels := new Color[PixelCount];
    var clampValue := if format == RGBAHalf then HalfMax else FloatMax;
    for i := 0 to PixelCount
      modifies pixels
      invariant forall j :: 0 <= j < i ==> pixels[j] == MatrixPixel(table[j], clampValue)
    {
      pixels[i] := Color(Min(clampValue, table[i][0]), Min(clampValue, table[i][2]),
                         Min(clampValue, table[i][4]), Min(clampValue, table[i][6]));
    }
    tex.SetPixels(pixels[..], element);
  }

  /** `LoadLUT` for a scalar table: every pixel of slice `element` is black
      with the scalar in alpha. The format is not used. */
  method LoadScalarLut(tex: LtcTextureArray, element: nat, format: TextureFormat, table: seq<real>)
    requires element < |tex.slices| && |table| >= PixelCount
    modifies tex
    ensures |tex.slices| == |old(tex.slices)|
    ensures forall k :: 0 <= k < |tex.slices| && k != element ==> tex.slices[k] == old(tex.slices[k])
    ensures tex.slices[element].Some? && |tex.slices[element].value| == PixelCount
    ensures forall i :: 0 <= i < PixelCount ==> tex.slices[element].value[i] == ScalarPixel(table[i])
  {
    var pixels := new Color[PixelCount];
    for i := 0 to PixelCount
      modifies pixels
      invariant forall j :: 0 <= j < i ==> pixels[j] == ScalarPixel(table[j])
    {
      pixels[i] := Color(0.0, 0.0, 0.0, table[i]);
    }
    tex.SetPixels(pixels[..], element);
  }

  class LtcAreaLight {
    /** `s_LtcGGXMatrixData` and `s_LtcDisneyDiffuseMatrixData`. */
    const ggxMatrixData: seq<seq<real>>
    const disneyDiffuseMatrixData: seq<seq<real>>
    /** `m_LtcData`. */
    var ltcData: LtcTextureArray?

    constructor (ggxMatrixData: seq<seq<real>>, disneyDiffuseMatrixData: seq<seq<real>>)
      ensures this.ggxMatrixData == ggxMatrixData && this.disneyDiffuseMatrixData == disneyDiffuseMatrixData
      ensures ltcData == null
    {
      this.ggxMatrixData := ggxMatrixData;
      this.disneyDiffuseMatrixData := disneyDiffuseMatrixData;
      ltcData := null;
    }

    /** `BuildLUT`: a fresh 64x64x3 RGBAHalf, bilinear array whose slice 0
        holds the GGX table and slice 1 the Disney diffuse table; slice 2 is
        never loaded. */
    method BuildLUT()
      requires IsMatrixTable(ggxMatrixData) && IsMatrixTable(disneyDiffuseMatrixData)
      modifies this`ltcData
      ensures ltcData != null && fresh(ltcData)
      ensures ltcData.width == LtcLUTResolution && ltcData.height == LtcLUTResolution
      ensures ltcData.format == RGBAHalf && ltcData.filter == Bilinear
      ensures |ltcData.slices| == LtcLUTMatrixDim
      ensures ltcData.slices[0].Some? && |ltcData.slices[0].value| == PixelCount
      ensures forall i :: 0 <= i < PixelCount ==> ltcData.slices[0].value[i] == MatrixPixel(ggxMatrixData[i], HalfMax)
      ensures ltcData.slices[1].Some? && |ltcData.slices[1].value| == PixelCount
      ensures forall i :: 0 <= i < PixelCount ==>
                ltcData.slices[1].value[i] == MatrixPixel(disneyDiffuseMatrixData[i], HalfMax)
      ensures ltcData.slices[2] == None
    {
      var tex := new LtcTextureArray(LtcLUTResolution, LtcLUTResolution, 3, RGBAHalf, Bilinear);
      LoadMatrixLut(tex, 0, RGBAHalf, ggxMatrixData);
      LoadMatrixLut(tex, 1, RGBAHalf, disneyDiffuseMatrixData);
      ltcData := tex;
    }

    /** `Bind`: publish the table as `_LtcData` on the given buffer. */
    method Bind(buffer: seq<Command>) returns (recorded: seq<Command>)
      ensures recorded == buffer + [SetGlobalTexture(LtcDataProp, if ltcData == null then NullTexture else LtcTexture)]
    {
      recorded := buffer + [SetGlobalTexture(LtcDataProp, if ltcData == null then NullTexture else LtcTexture)];
    }
  }

  /** The static `s_Instance` slot and the `instance` property. */
  class LtcInstance {
    const ggxMatrixData: seq<seq<real>>
    const disneyDiffuseMatrixData: seq<seq<real>>
    var instance: LtcAreaLight?

    /** The tables are well formed and the singleton, once created, carries
        them. */
    predicate Valid()
      reads this
    {
      IsMatrixTable(ggxMatrixData) && IsMatrixTable(disneyDiffuseMatrixData)
      && (instance != null ==>
            instance.ggxMatrixData == ggxMatrixData && instance.disneyDiffuseMatrixData == disneyDiffuseMatrixData)
    }

    constructor (ggxMatrixData: seq<seq<real>>, disneyDiffuseMatrixData: seq<seq<real>>)
      requires IsMatrixTable(ggxMatrixData) && IsMatrixTable(disneyDiffuseMatrixData)
      ensures this.ggxMatrixData == ggxMatrixData && this.disneyDiffuseMatrixData == disneyDiffuseMatrixData
      ensures instance == null && Valid()
    {
      this.ggxMatrixData := ggxMatrixData;
      this.disneyDiffuseMatrixData := disneyDiffuseMatrixData;
      instance := null;
    }

    /** The first access creates the object (with no table built yet); every
        later access returns that same object. */
    method Instance() returns (r: LtcAreaLight)
      requires Valid()
      modifies this`instance
      ensures Valid() && instance == r
      ensures old(instance) != null ==> r == old(instance)
      ensures old(instance) == null ==> fresh(r) && r.ltcData == null
      ensures old(instance) == null ==> r.ggxMatrixData == ggxMatrixData && r.disneyDiffuseMatrixData == disneyDiffuseMatrixData
    {
      if instance == null {
        instance := new LtcAreaLight(ggxMatrixData, disneyDiffuseMatrixData);
      }
      r := instance;
    }
  }
}
