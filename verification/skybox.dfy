/** The skybox cube map of `createSkyboxTexture`: six face images decoded in
    the order of the cube-map layers and laid out one after the other in a
    single staging array. `SkyboxAsWritten` is what the function does; the
    rest of the model is the corrected behaviour, which reports a face that
    cannot be loaded and sizes each face by the four bytes per texel the
    decoder produces. */
module Skybox {
  import opened Common
  import opened Vk

  /** The face files, in the layer order of a Vulkan cube map (+X, -X, +Y, -Y, +Z, -Z). */
  const FaceFiles: seq<string> := ["right.png", "left.png", "top.png", "bottom.png", "front.png", "back.png"]

  function FacePath(name: string): string {
    "media/textures/skybox/" + name
  }

  function LoadError(path: string): string {
    "Could not load skybox texture \"" + path + "\""
  }

  /** What the decoder returns for one face: the extent, the channel count of
      the file, and the pixels, which it always expands to four bytes per
      texel. */
  datatype Face = Face(width: nat, height: nat, fileChannels: nat, pixels: seq<Byte>)

  predicate RgbaFace(f: Face) {
    |f.pixels| == f.width * f.height * 4
  }

  datatype Result<T> = Success(value: T) | Failure(error: string)

  /** The decoder's answer for each name, in order. */
  function DecodeAll(names: seq<string>, load: string -> Option<Face>): (r: seq<Option<Face>>)
    ensures |r| == |names|
    ensures forall i :: 0 <= i < |names| ==> r[i] == load(FacePath(names[i]))
  {
    if names == [] then [] else DecodeAll(names[..|names| - 1], load) + [load(FacePath(names[|names| - 1]))]
  }

  /** The position of the first face that could not be decoded. */
  function FirstMissing(decoded: seq<Option<Face>>): (r: Option<nat>)
    ensures r.None? <==> forall i :: 0 <= i < |decoded| ==> decoded[i].Some?
    ensures r.Some? ==> r.value < |decoded| && decoded[r.value].None?
                        && forall i :: 0 <= i < r.value ==> decoded[i].Some?
  {
    if decoded == [] then None
    else if decoded[0].None? then Some(0)
    else match FirstMissing(decoded[1..])
         case None => None
         case Some(j) => Some(j + 1)
  }

  /** The byte arrays one after the other. */
  function Concat(parts: seq<seq<Byte>>): seq<Byte>
  {
    if parts == [] then [] else Concat(parts[..|parts| - 1]) + parts[|parts| - 1]
  }

  /** When every part has `size` bytes, part `i` occupies bytes
      `[i·size, (i+1)·size)` of the concatenation. */
  lemma {:induction false} ConcatParts(parts: seq<seq<Byte>>, size: nat, i: nat, k: nat)
    requires forall j :: 0 <= j < |parts| ==> |parts[j]| == size
    requires i < |parts| && k < size
    ensures |Concat(parts)| == Off(|parts|, size)
    ensures Off(i, size) + k < |Concat(parts)| && Concat(parts)[Off(i, size) + k] == parts[i][k]
  {
    var n := |parts|;
    ConcatLength(parts, size);
    ConcatLength(parts[..n - 1], size);
    OffMono(i, n, size);
    if i < n - 1 {
      OffMono(i, n - 1, size);
      ConcatParts(parts[..n - 1], size, i, k);
    }
  }

  lemma {:induction false} ConcatLength(parts: seq<seq<Byte>>, size: nat)
    requires forall j :: 0 <= j < |parts| ==> |parts[j]| == size
    ensures |Concat(parts)| == Off(|parts|, size)
  {
    if parts != [] {
      ConcatLength(parts[..|parts| - 1], size);
    }
  }

  // ---------------------------------------------------------------------------
  // As written

  /** The outcome of the function as written: either the copy reads memory
      the decoder never provided (a null pointer for a face that failed, or
      fewer bytes than the copy length), or a texture is uploaded. */
  datatype AsWritten = UndefinedCopy | Uploaded(texture: Texture)

  /** The first `size` bytes of every face. */
  function Truncated(faces: seq<Face>, size: nat): (r: seq<seq<Byte>>)
    requires forall i :: 0 <= i < |faces| ==> size <= |faces[i].pixels|
    ensures |r| == |faces| && forall i :: 0 <= i < |faces| ==> r[i] == faces[i].pixels[..size]
  {
    if faces == [] then []
    else Truncated(faces[..|faces| - 1], size) + [faces[|faces| - 1].pixels[..size]]
  }

  /** A face whose file has three or four channels sets the format. */
  predicate SetsFormat(f: Face) {
    f.fileChannels == 3 || f.fileChannels == 4
  }

  function ChannelFormat(channels: nat): Format {
    if channels == 3 then R8G8B8Srgb else R8G8B8A8Srgb
  }

  /** The format variable after the load loop visited `faces` in order,
      starting from `initial`: each three- or four-channel face overwrites
      it, any other face leaves it as it was. */
  function FormatAfter(initial: Format, faces: seq<Face>): Format
  {
    if faces == [] then initial
    else
      var last := faces[|faces| - 1];
      if last.fileChannels == 3 then R8G8B8Srgb
      else if last.fileChannels == 4 then R8G8B8A8Srgb
      else FormatAfter(initial, faces[..|faces| - 1])
  }

  /** The format is the one of the last face that sets it. */
  lemma {:induction false} FormatOfLastSetter(initial: Format, faces: seq<Face>, i: nat)
    requires i < |faces| && SetsFormat(faces[i])
    requires forall j :: i < j < |faces| ==> !SetsFormat(faces[j])
    ensures FormatAfter(initial, faces) == ChannelFormat(faces[i].fileChannels)
  {
    var n := |faces|;
    if i < n - 1 {
      assert !SetsFormat(faces[n - 1]);
      var prefix := faces[..n - 1];
      assert forall j :: i < j < |prefix| ==> prefix[j] == faces[j];
      FormatOfLastSetter(initial, prefix, i);
    }
  }

  /** When no face sets the format, it keeps its initial value. */
  lemma {:induction false} FormatUnset(initial: Format, faces: seq<Face>)
    requires forall j :: 0 <= j < |faces| ==> !SetsFormat(faces[j])
    ensures FormatAfter(initial, faces) == initial
  {
    if faces != [] {
      var n := |faces|;
      assert !SetsFormat(faces[n - 1]);
      FormatUnset(initial, faces[..n - 1]);
    }
  }

  /** `createSkyboxTexture` as written. The load error is constructed and
      dropped, so a missing face reaches the copy as a null pointer. The
      extent and channel count are those of the last face decoded; each face
      is copied for `width·height·channels` bytes where `channels` is the
      file's channel count, although the decoder returned four bytes per
      texel. The format is whatever the last three- or four-channel face set;
      `UndefinedFormat` stands for the uninitialised variable when no face
      has three or four channels. */
  function SkyboxAsWritten(load: string -> Option<Face>): (r: AsWritten)
    ensures FirstMissing(DecodeAll(FaceFiles, load)).Some? ==> r == UndefinedCopy
  {
    var decoded := DecodeAll(FaceFiles, load);
    if FirstMissing(decoded).Some? then UndefinedCopy
    else
      var faces := seq(6, i requires 0 <= i < 6 => decoded[i].value);
      var last := faces[5];
      var faceSize := last.width * last.height * last.fileChannels;
      var format := FormatAfter(UndefinedFormat, faces);
      if exists i :: 0 <= i < 6 && |faces[i].pixels| < faceSize then UndefinedCopy
      else Uploaded(Texture(last.width, last.height, format, 6, Concat(Truncated(faces, faceSize))))
  }

  /** When all six faces decode, the function as written uploads exactly when
      every face holds at least `faceSize` bytes, where `faceSize` is the
      extent times the file channel count of the last face. The upload then
      has the last face's extent, the format `FormatAfter` leaves, and the
      first `faceSize` bytes of each face one after the other. */
  lemma SkyboxAsWrittenShape(load: string -> Option<Face>)
    requires FirstMissing(DecodeAll(FaceFiles, load)).None?
    ensures var decoded := DecodeAll(FaceFiles, load);
      var faces := seq(6, i requires 0 <= i < 6 => decoded[i].value);
      var last := faces[5];
      var faceSize := last.width * last.height * last.fileChannels;
      var r := SkyboxAsWritten(load);
      (r.Uploaded? <==> forall j :: 0 <= j < 6 ==> faceSize <= |faces[j].pixels|)
      && (r.Uploaded? ==>
            r.texture.width == last.width && r.texture.height == last.height && r.texture.layers == 6
            && r.texture.format == FormatAfter(UndefinedFormat, faces)
            && r.texture.data == Concat(Truncated(faces, faceSize)))
  {
  }

  /** Face `i` of the as-written upload occupies bytes
      `[i·faceSize, (i+1)·faceSize)` with its first `faceSize` decoded bytes,
      and the upload is six of them long. */
  lemma SkyboxAsWrittenUpload(load: string -> Option<Face>, i: nat, k: nat)
    requires FirstMissing(DecodeAll(FaceFiles, load)).None?
    requires SkyboxAsWritten(load).Uploaded?
    requires i < 6
    ensures var decoded := DecodeAll(FaceFiles, load);
      var faces := seq(6, i requires 0 <= i < 6 => decoded[i].value);
      var faceSize := faces[5].width * faces[5].height * faces[5].fileChannels;
      var data := SkyboxAsWritten(load).texture.data;
      |data| == Off(6, faceSize)
      && (k < faceSize ==> Off(i, faceSize) + k < |data| && data[Off(i, faceSize) + k] == faces[i].pixels[k])
  {
    SkyboxAsWrittenShape(load);
    var decoded := DecodeAll(FaceFiles, load);
    var faces := seq(6, i requires 0 <= i < 6 => decoded[i].value);
    var faceSize := faces[5].width * faces[5].height * faces[5].fileChannels;
    var parts := Truncated(faces, faceSize);
    assert forall j :: 0 <= j < 6 ==> |parts[j]| == faceSize;
    ConcatLength(parts, faceSize);
    if k < faceSize {
      ConcatParts(parts, faceSize, i, k);
    }
  }

  /** A face that cannot be loaded does not stop the function: it goes on to
      copy from the missing pixels. */
  lemma MissingFaceReachesCopy(load: string -> Option<Face>, i: nat)
    requires i < 6 && load(FacePath(FaceFiles[i])).None?
    ensures SkyboxAsWritten(load) == UndefinedCopy
  {
    assert DecodeAll(FaceFiles, load)[i].None?;
  }

  /** Five 1×1 RGB faces and a one-channel `back.png`. */
  function MixedFaces(path: string): Option<Face> {
    if path == FacePath("back.png") then Some(Face(1, 1, 1, [7, 7, 7, 255]))
    else Some(Face(1, 1, 3, [1, 2, 3, 255]))
  }

  /** With faces of mixed channel counts the format comes from the last face
      that has three or four channels, not from the last face: here the
      one-channel back face leaves the RGB format set by the front face. */
  lemma MixedChannelsKeepEarlierFormat()
    ensures var r := SkyboxAsWritten(MixedFaces);
      r.Uploaded? && r.texture.format == R8G8B8Srgb && |r.texture.data| == 6
  {
    var rgb := Face(1, 1, 3, [1, 2, 3, 255]);
    var faces := [rgb, rgb, rgb, rgb, rgb, Face(1, 1, 1, [7, 7, 7, 255])];
    MixedFacesDecoded();
    FormatOfLastSetter(UndefinedFormat, faces, 4);
    var parts := Truncated(faces, 1);
    ConcatLength(parts, 1);
    assert Off(6, 1) == 6 by {
      assert Off(1, 1) == 1 && Off(2, 1) == 2 && Off(3, 1) == 3 && Off(4, 1) == 4 && Off(5, 1) == 5;
    }
  }

  /** Only the back face of `MixedFaces` has one channel. */
  lemma MixedFacesDecoded()
    ensures var decoded := DecodeAll(FaceFiles, MixedFaces); var rgb := Face(1, 1, 3, [1, 2, 3, 255]);
      FirstMissing(decoded).None?
      && seq(6, i requires 0 <= i < 6 => decoded[i].value) == [rgb, rgb, rgb, rgb, rgb, Face(1, 1, 1, [7, 7, 7, 255])]
  {
    var back := FacePath("back.png");
    assert FacePath("right.png") != back by { assert |FacePath("right.png")| != |back|; }
    assert FacePath("left.png") != back by { assert FacePath("left.png")[22] != back[22]; }
    assert FacePath("top.png") != back by { assert |FacePath("top.png")| != |back|; }
    assert FacePath("bottom.png") != back by { assert |FacePath("bottom.png")| != |back|; }
    assert FacePath("front.png") != back by { assert |FacePath("front.png")| != |back|; }
  }

  /** Every face decodes to the same 2×1 RGB image with texels (1,2,3) and (4,5,6). */
  function RgbFaces(path: string): Option<Face> {
    Some(Face(2, 1, 3, [1, 2, 3, 255, 4, 5, 6, 255]))
  }

  /** For a three-channel file the upload is declared as three bytes per
      texel but holds the first bytes of the decoder's four-byte texels: the
      second texel of every face reads (255,4,5) instead of (4,5,6). */
  lemma RgbFaceGarbledAsWritten()
    ensures var r := SkyboxAsWritten(RgbFaces);
      r.Uploaded? && r.texture.format == R8G8B8Srgb && |r.texture.data| == 36
      && r.texture.data[3..6] == [255, 4, 5]
  {
    var decoded := DecodeAll(FaceFiles, RgbFaces);
    assert forall i :: 0 <= i < 6 ==> decoded[i] == RgbFaces(FacePath(FaceFiles[i]));
    var faces := seq(6, i requires 0 <= i < 6 => decoded[i].value);
    var parts := Truncated(faces, 6);
    assert forall j :: 0 <= j < 6 ==> parts[j] == [1, 2, 3, 255, 4, 5];
    ConcatLength(parts, 6);
    assert Off(6, 6) == 36 by {
      assert Off(1, 6) == 6 && Off(2, 6) == 12 && Off(3, 6) == 18 && Off(4, 6) == 24 && Off(5, 6) == 30;
    }
    ConcatParts(parts, 6, 0, 3);
    ConcatParts(parts, 6, 0, 4);
    ConcatParts(parts, 6, 0, 5);
    assert Off(0, 6) == 0;
  }

  // ---------------------------------------------------------------------------
  // Corrected

  /** Every face decoded as four bytes per texel, all with the extent of the first. */
  predicate UniformFaces(faces: seq<Face>) {
    |faces| == 6
    && forall i :: 0 <= i < 6 ==>
         RgbaFace(faces[i]) && faces[i].width == faces[0].width && faces[i].height == faces[0].height
  }

  function Pixels(faces: seq<Face>): (r: seq<seq<Byte>>)
    ensures |r| == |faces| && forall i :: 0 <= i < |faces| ==> r[i] == faces[i].pixels
  {
    if faces == [] then [] else Pixels(faces[..|faces| - 1]) + [faces[|faces| - 1].pixels]
  }

  /** The skybox texture: a load error for the first face that cannot be
      decoded; an error when the faces do not share one extent; otherwise a
      six-layer RGBA texture holding the faces in layer order. */
  function SkyboxSpec(load: string -> Option<Face>): (r: Result<Texture>)
  {
    var decoded := DecodeAll(FaceFiles, load);
    match FirstMissing(decoded)
    case Some(i) => Failure(LoadError(FacePath(FaceFiles[i])))
    case None =>
      var faces := seq(6, i requires 0 <= i < 6 => decoded[i].value);
      if !UniformFaces(faces) then Failure("Skybox faces differ in size")
      else Success(Texture(faces[0].width, faces[0].height, R8G8B8A8Srgb, 6, Concat(Pixels(faces))))
  }

  /** A face that cannot be loaded is reported, naming the first such file. */
  lemma MissingFaceFails(load: string -> Option<Face>, i: nat)
    requires i < 6 && load(FacePath(FaceFiles[i])).None?
    ensures SkyboxSpec(load).Failure?
    ensures exists j :: 0 <= j <= i && load(FacePath(FaceFiles[j])).None?
                        && (forall k :: 0 <= k < j ==> load(FacePath(FaceFiles[k])).Some?)
                        && SkyboxSpec(load).error == LoadError(FacePath(FaceFiles[j]))
  {
    var decoded := DecodeAll(FaceFiles, load);
    assert decoded[i].None?;
    var j := FirstMissing(decoded).value;
    assert j <= i;
  }

  /** Face `i` occupies layer `i`: bytes `[i·faceSize, (i+1)·faceSize)` of the
      upload, where `faceSize` is four bytes per texel, are exactly its decoded
      pixels, and the upload is six faces long. */
  lemma FacesInLayerOrder(load: string -> Option<Face>, i: nat, k: nat)
    requires SkyboxSpec(load).Success?
    requires i < 6
    ensures var t := SkyboxSpec(load).value; var faceSize := t.width * t.height * 4;
      var f := load(FacePath(FaceFiles[i]));
      f.Some? && |f.value.pixels| == faceSize
      && |t.data| == Off(6, faceSize) && t.layers == 6 && t.format == R8G8B8A8Srgb
      && (k < faceSize ==> Off(i, faceSize) + k < |t.data| && t.data[Off(i, faceSize) + k] == f.value.pixels[k])
  {
    var decoded := DecodeAll(FaceFiles, load);
    var faces := seq(6, j requires 0 <= j < 6 => decoded[j].value);
    var t := SkyboxSpec(load).value;
    var faceSize := t.width * t.height * 4;
    assert UniformFaces(faces);
    assert t.width == faces[0].width && t.height == faces[0].height && t.data == Concat(Pixels(faces));
    assert load(FacePath(FaceFiles[i])) == decoded[i] == Some(faces[i]);
    var parts := Pixels(faces);
    assert forall j :: 0 <= j < 6 ==> |parts[j]| == faceSize;
    ConcatLength(parts, faceSize);
    if k < faceSize {
      ConcatParts(parts, faceSize, i, k);
    }
  }

  /** Copying face `i` after the first `i` faces extends the laid-out prefix
      by that face. */
  lemma CopyFaceStep(faces: seq<seq<Byte>>, faceSize: nat, i: nat, before: seq<Byte>)
    requires |faces| == 6 && i < 6
    requires forall j :: 0 <= j < 6 ==> |faces[j]| == faceSize
    requires |before| == Off(6, faceSize) && Off(i + 1, faceSize) <= |before|
    requires before[..Off(i, faceSize)] == Concat(faces[..i])
    ensures Copy(before, Off(i, faceSize), faces[i])[..Off(i + 1, faceSize)] == Concat(faces[..i + 1])
  {
    var after := Copy(before, Off(i, faceSize), faces[i]);
    assert faces[..i + 1][..i] == faces[..i];
    assert Concat(faces[..i + 1]) == before[..Off(i, faceSize)] + faces[i];
    forall j | 0 <= j < Off(i + 1, faceSize)
      ensures after[j] == (before[..Off(i, faceSize)] + faces[i])[j]
    {
      CopyAt(before, Off(i, faceSize), faces[i], j);
    }
  }

  /** The copy loop: face `i` is copied to offset `faceSize·i` of a fresh
      array of `6·faceSize` bytes. */
  method FillCubemap(faces: seq<seq<Byte>>, faceSize: nat) returns (data: array<Byte>)
    requires |faces| == 6
    requires forall j :: 0 <= j < 6 ==> |faces[j]| == faceSize
    ensures fresh(data)
    ensures data[..] == Concat(faces)
  {
    var totalSize := faceSize * 6;
    data := new Byte[totalSize];
    OffIsProduct(6, faceSize);
    for i := 0 to 6
      invariant data.Length == Off(6, faceSize)
      invariant Off(i, faceSize) <= data.Length
      invariant data[..Off(i, faceSize)] == Concat(faces[..i])
    {
      OffMono(i, 6, faceSize);
      OffIsProduct(i, faceSize);
      CopyFaceStep(faces, faceSize, i, data[..]);
      assert faces[i][0..faceSize] == faces[i];
      Memcpy(data, faceSize * i, faces[i], 0, faceSize);
    }
    ConcatLength(faces, faceSize);
    assert faces[..6] == faces;
    assert data[..] == data[..Off(6, faceSize)];
  }

  /** `createSkyboxTexture`, corrected: decodes the six faces in order,
      stopping at the first that fails; checks that they share one extent;
      then lays them out one after the other as a six-layer RGBA texture. */
  method CreateSkyboxTexture(load: string -> Option<Face>) returns (r: Result<Texture>)
    ensures r == SkyboxSpec(load)
  {
    var faces: seq<Face> := [];
    for i := 0 to 6
      invariant |faces| == i
      invariant forall j :: 0 <= j < i ==> load(FacePath(FaceFiles[j])) == Some(faces[j])
    {
      var path := FacePath(FaceFiles[i]);
      var pixels := load(path);
      if pixels.None? {
        ghost var decoded := DecodeAll(FaceFiles, load);
        assert FirstMissing(decoded) == Some(i) by {
          var m := FirstMissing(decoded);
          assert decoded[i].None?;
          assert m.Some?;
          assert !(m.value < i);
          assert !(m.value > i);
        }
        return Failure(LoadError(path));
      }
      faces := faces + [pixels.value];
    }
    ghost var decoded := DecodeAll(FaceFiles, load);
    assert FirstMissing(decoded).None?;
    assert faces == seq(6, j requires 0 <= j < 6 => decoded[j].value);
    if !UniformFaces(faces) {
      return Failure("Skybox faces differ in size");
    }
    var faceSize := faces[0].width * faces[0].height * 4;
    var data := FillCubemap(Pixels(faces), faceSize);
    r := Success(Texture(faces[0].width, faces[0].height, R8G8B8A8Srgb, 6, data[..]));
  }

  /** With the correction, the RGB faces of `RgbFaces` keep their texels:
      the second texel of the first face reads (4,5,6) with full alpha. */
  lemma RgbFaceKeptCorrected()
    ensures var r := SkyboxSpec(RgbFaces);
      r.Success? && r.value.format == R8G8B8A8Srgb && |r.value.data| == 48
      && r.value.data[4..8] == [4, 5, 6, 255]
  {
    var decoded := DecodeAll(FaceFiles, RgbFaces);
    assert forall i :: 0 <= i < 6 ==> decoded[i] == RgbFaces(FacePath(FaceFiles[i]));
    var faces := seq(6, i requires 0 <= i < 6 => decoded[i].value);
    assert UniformFaces(faces);
    var parts := Pixels(faces);
    ConcatLength(parts, 8);
    assert Off(6, 8) == 48 by {
      assert Off(1, 8) == 8 && Off(2, 8) == 16 && Off(3, 8) == 24 && Off(4, 8) == 32 && Off(5, 8) == 40;
    }
    assert Off(0, 8) == 0;
    ConcatParts(parts, 8, 0, 4);
    ConcatParts(parts, 8, 0, 5);
    ConcatParts(parts, 8, 0, 6);
    ConcatParts(parts, 8, 0, 7);
  }
}
