/** The editor's `TextureConvert` menu command: pixels close to one of four
    key colours (red, yellow, green, blue) become dark greys that encode the
    key, every other pixel is kept; the converted texture is saved next to
    the source file under a name with "1" inserted before the extension.

    Loading the TGA file, the editor window and writing the file are I/O and
    not modelled: the pixels read from the file are an input. */
module TextureConversion {
  import opened Rendering

  /** The tolerance of `ComperaColor`, per channel. */
  const Tolerance: real := 0.004

  const Red := Color(1.0, 0.0, 0.0, 1.0)
  const Yellow := Color(1.0, 1.0, 0.0, 1.0)
  const Green := Color(0.0, 1.0, 0.0, 1.0)
  const Blue := Color(0.0, 0.0, 1.0, 1.0)

  function Abs(x: real): real
  {
    if x < 0.0 then -x else x
  }

  /** `ComperaColor`: the colours differ by less than the tolerance in each
      of red, green and blue. */
  function ComperaColor(m: Color, n: Color): bool
  {
    var r := Abs(m.r - n.r) < Tolerance;
    var g := Abs(m.g - n.g) < Tolerance;
    var b := Abs(m.b - n.b) < Tolerance;
    if r && b && g then true else false
  }

  /** The comparison is symmetric, a colour is close to itself, and alpha
      plays no part in it. */
  lemma CompareIgnoresAlpha(m: Color, n: Color, a: real, b: real)
    ensures ComperaColor(m, n) == ComperaColor(n, m) && ComperaColor(m, m)
    ensures ComperaColor(m.(a := a), n.(a := b)) == ComperaColor(m, n)
  {
  }

  /** `new Color(v, v, v)`: an opaque grey. */
  function Grey(v: real): Color
  {
    Color(v, v, v, 1.0)
  }

  /** What the loop does to one pixel. */
  function Remap(c: Color): Color
  {
    if ComperaColor(c, Red) then Grey(10.0 / 255.0)
    else if ComperaColor(c, Yellow) then Grey(20.0 / 255.0)
    else if ComperaColor(c, Green) then Grey(30.0 / 255.0)
    else if ComperaColor(c, Blue) then Grey(40.0 / 255.0)
    else c
  }

  /** No colour is close to two keys, so the order of the tests does not
      matter: a pixel close to a key becomes that key's grey. */
  lemma KeysApart(c: Color)
    ensures ComperaColor(c, Red) ==> !ComperaColor(c, Yellow) && !ComperaColor(c, Green) && !ComperaColor(c, Blue)
    ensures ComperaColor(c, Yellow) ==> !ComperaColor(c, Green) && !ComperaColor(c, Blue)
    ensures ComperaColor(c, Green) ==> !ComperaColor(c, Blue)
  {
  }

  /** A pixel close to a key becomes that key's grey; every other pixel is
      kept as it is. */
  lemma RemapKeys(c: Color)
    ensures ComperaColor(c, Red) ==> Remap(c) == Grey(10.0 / 255.0)
    ensures ComperaColor(c, Yellow) ==> Remap(c) == Grey(20.0 / 255.0)
    ensures ComperaColor(c, Green) ==> Remap(c) == Grey(30.0 / 255.0)
    ensures ComperaColor(c, Blue) ==> Remap(c) == Grey(40.0 / 255.0)
    ensures !ComperaColor(c, Red) && !ComperaColor(c, Yellow) && !ComperaColor(c, Green) && !ComperaColor(c, Blue)
            ==> Remap(c) == c
  {
    KeysApart(c);
  }

  /** None of the greys is close to a key, so remapping twice is
      remapping once. */
  lemma RemapIdempotent(c: Color)
    ensures Remap(Remap(c)) == Remap(c)
  {
  }

  /** The remap of a whole pixel sequence. */
  function RemapAll(s: seq<Color>): (r: seq<Color>)
    ensures |r| == |s| && forall i :: 0 <= i < |s| ==> r[i] == Remap(s[i])
  {
    seq(|s|, i requires 0 <= i < |s| => Remap(s[i]))
  }

  lemma RemapAllIdempotent(s: seq<Color>)
    ensures RemapAll(RemapAll(s)) == RemapAll(s)
  {
    forall i | 0 <= i < |s|
      ensures RemapAll(RemapAll(s))[i] == RemapAll(s)[i]
    {
      RemapIdempotent(s[i]);
    }
  }

  /** The loop over `colors`, overwriting each pixel with its remap. */
  method RemapPixels(colors: array<Color>)
    modifies colors
    ensures colors[..] == RemapAll(old(colors[..]))
  {
    var i := 0;
    while i < colors.Length
      invariant 0 <= i <= colors.Length
      invariant forall j :: 0 <= j < i ==> colors[j] == Remap(old(colors[j]))
      invariant forall j :: i <= j < colors.Length ==> colors[j] == old(colors[j])
    {
      var c := colors[i];
      if ComperaColor(c, Red) {
        var value := 10.0 / 255.0;
        colors[i] := Color(value, value, value, 1.0);
      } else if ComperaColor(c, Yellow) {
        var value := 20.0 / 255.0;
        colors[i] := Color(value, value, value, 1.0);
      } else if ComperaColor(c, Green) {
        var value := 30.0 / 255.0;
        colors[i] := Color(value, value, value, 1.0);
      } else if ComperaColor(c, Blue) {
        var value := 40.0 / 255.0;
        colors[i] := Color(value, value, value, 1.0);
      }
      i := i + 1;
    }
  }

  /** The file path of an asset: the data path without its last six
      characters (the `Assets` folder name), followed by the asset path.
      `None` where `String.Remove` would throw. */
  function SourcePath(dataPath: string, assetPath: string): Option<string>
  {
    if |dataPath| < 6 then None
    else Some(dataPath[..|dataPath| - 6] + assetPath)
  }

  /** For a data path ending in the `Assets` folder, the asset path
      (which starts with that folder) is resolved against the project
      root. */
  lemma SourcePathUnderRoot(root: string, assetPath: string)
    ensures SourcePath(root + "Assets", assetPath) == Some(root + assetPath)
  {
    assert (root + "Assets")[..|root|] == root;
  }

  /** The save path: the source path with "1" inserted before its last four
      characters (its extension). `None` where `String.Insert` would throw. */
  function SavePath(ioPath: string): Option<string>
  {
    if |ioPath| < 4 then None
    else Some(ioPath[..|ioPath| - 4] + "1" + ioPath[|ioPath| - 4..])
  }

  /** The save path keeps the stem and the extension, is one character
      longer, and removing the inserted character gives the source path
      back. */
  lemma SavePathInsertsBeforeExtension(stem: string, ext: string)
    requires |ext| == 4
    ensures SavePath(stem + ext) == Some(stem + "1" + ext)
    ensures var p := SavePath(stem + ext).value;
      |p| == |stem + ext| + 1 && p[..|stem|] + p[|stem| + 1..] == stem + ext
  {
    var s := stem + ext;
    assert s[..|s| - 4] == stem && s[|s| - 4..] == ext;
    var p := stem + "1" + ext;
    assert p[..|stem|] == stem && p[|stem| + 1..] == ext;
  }

  /** What the editor selection is. */
  datatype Selection = Texture2D(width: nat, height: nat) | OtherObject

  datatype Outcome =
    | NotConverted
    | PathError
    | Converted(ioPath: string, pixels: seq<Color>)

  /** `TextureConvertFun`: nothing happens unless a `Texture2D` is selected;
      otherwise the path of the asset's file is built and the pixels loaded
      from it are remapped. (The save path is built later, when the window's
      button is pressed: `SavePath`.) */
  method TextureConvertFun(selection: Selection, dataPath: string, assetPath: string, loaded: seq<Color>)
    returns (r: Outcome)
    ensures !selection.Texture2D? ==> r == NotConverted
    ensures selection.Texture2D? && SourcePath(dataPath, assetPath).None? ==> r == PathError
    ensures selection.Texture2D? && SourcePath(dataPath, assetPath).Some? ==>
      r == Converted(SourcePath(dataPath, assetPath).value, RemapAll(loaded))
  {
    if !selection.Texture2D? {
      return NotConverted;
    }
    var ioPath := SourcePath(dataPath, assetPath);
    if ioPath.None? {
      return PathError;
    }
    var colors := new Color[|loaded|](i requires 0 <= i < |loaded| => loaded[i]);
    RemapPixels(colors);
    r := Converted(ioPath.value, colors[..]);
  }
}
