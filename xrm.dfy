/** The XRM converter: ole_extract, the decoding of one .xrm container into
    its 16-bit image (process_xrm) and the batch loop over every .xrm file
    found (batch_xrm_convert), with the progress counter both keep. */
module Xrm {

  import opened Common
  import opened Text
  import opened Ole
  import opened Fields
  import TxmPlanes

  const WidthPath := "ImageInfo/ImageWidth"
  const HeightPath := "ImageInfo/ImageHeight"
  const ImagePath := "ImageData1/Image1"

  /** One file found by rglob("*.xrm"): its parent directory, its name
      (Path.name, shown in error messages), its name without the suffix
      (Path.stem, used for the output file), and its content (None when it is not a compound
      file olefile can open). */
  datatype XrmFile = XrmFile(parent: string, name: string, stem: string, content: Option<Container>)

  /** ole_extract(ole, stream, datatype): None for a missing stream,
      otherwise struct.unpack of the whole stream, which raises when the
      length is not the format's size. */
  function OleExtract(c: Container, path: string, fmt: Format): Result<Option<seq<Cell>>>
  {
    if Exists(c, path) then
      var cells :- Unpack(fmt, c.streams[Lower(path)]);
      Ok(Some(cells))
    else Ok(None)
  }

  /** A missing stream gives None rather than an error; a present one
      unpacks when, and only when, it is exactly the format's size. */
  lemma OleExtractSpec(c: Container, path: string, fmt: Format)
    ensures OleExtract(c, path, fmt) == Ok(None) <==> !Exists(c, path)
    ensures OleExtract(c, path, fmt).Err? <==> Exists(c, path) && |c.streams[Lower(path)]| != Size(fmt)
    ensures OleExtract(c, path, fmt).Err? ==>
      OleExtract(c, path, fmt).error == StructSize(Size(fmt), |c.streams[Lower(path)]|)
    ensures Exists(c, path) && |c.streams[Lower(path)]| == Size(fmt) ==>
      OleExtract(c, path, fmt) == Ok(Some(Decode(fmt, c.streams[Lower(path)])))
  {
  }

  /** The image dimension stored in a four-byte stream. */
  function Dimension(c: Container, path: string): nat
    requires Exists(c, path) && |c.streams[Lower(path)]| == 4
  {
    LeUnsigned(c.streams[Lower(path)])
  }

  /** ole_extract(ole, stream, "<I")[0]: subscripting None is a TypeError. */
  function ExtractDimension(c: Container, path: string): (r: Result<nat>)
    ensures r.Ok? <==> Exists(c, path) && |c.streams[Lower(path)]| == 4
    ensures r.Ok? ==> r.value == Dimension(c, path)
    ensures !Exists(c, path) ==> r == Err(NoneSubscript)
  {
    var cells :- OleExtract(c, path, UInt32);
    if cells.None? then Err(NoneSubscript) else Ok(cells.value[0].u)
  }

  /** The pixels of an (n_cols, n_rows) image: np.reshape(imgdata,
      (n_cols, n_rows), order="F").astype(np.uint16). */
  function CastImage(cells: seq<Cell>, nCols: nat, nRows: nat): (p: TxmPlanes.Plane)
    requires |cells| == nCols * nRows
    requires forall k :: 0 <= k < |cells| ==> cells[k].I?
    ensures TxmPlanes.HasShape(p, nCols, nRows)
  {
    TxmPlanes.Reshape(seq(|cells|, k requires 0 <= k < |cells| => TxmPlanes.IntS(ToUint16(cells[k].i))), nCols, nRows)
  }

  /** Both dimension streams hold a '<I' field. */
  predicate ValidDimensions(c: Container)
  {
    && Exists(c, WidthPath) && |c.streams[Lower(WidthPath)]| == 4
    && Exists(c, HeightPath) && |c.streams[Lower(HeightPath)]| == 4
  }

  /** n_cols. */
  function Width(c: Container): nat
    requires ValidDimensions(c)
  {
    Dimension(c, WidthPath)
  }

  /** n_rows. */
  function Height(c: Container): nat
    requires ValidDimensions(c)
  {
    Dimension(c, HeightPath)
  }

  /** The decoding half of process_xrm: the width and height, the '<{n}h'
      image of width * height values, and the cast image; every exception
      it can raise is the Err it returns. */
  function XrmImage(f: XrmFile): (r: Result<TxmPlanes.Plane>)
    ensures r.Ok? ==> f.content.Some? && ValidDimensions(f.content.value)
    ensures r.Ok? ==> TxmPlanes.HasShape(r.value, Width(f.content.value), Height(f.content.value))
  {
    if f.content.None? then Err(NotOleFile)
    else
      var c := f.content.value;
      var nCols :- ExtractDimension(c, WidthPath);
      var nRows :- ExtractDimension(c, HeightPath);
      var imgdata :- OleExtract(c, ImagePath, Int16s(nCols * nRows));
      if imgdata.None? then Err(MissingData)
      else Ok(CastImage(imgdata.value, nCols, nRows))
  }

  /** process_xrm decodes a file exactly when it is a compound file whose
      width and height streams hold four bytes each and whose image stream
      holds two bytes per pixel. A missing width or height fails on the
      subscript of None, before the "Missing data" check; a missing image
      fails that check. */
  lemma XrmImageSpec(f: XrmFile)
    ensures XrmImage(f).Ok? <==>
      && f.content.Some? && ValidDimensions(f.content.value)
      && Exists(f.content.value, ImagePath)
      && |f.content.value.streams[Lower(ImagePath)]| == 2 * Width(f.content.value) * Height(f.content.value)
    ensures f.content.None? ==> XrmImage(f) == Err(NotOleFile)
    ensures f.content.Some? && !Exists(f.content.value, WidthPath) ==> XrmImage(f) == Err(NoneSubscript)
    ensures (&& f.content.Some? && ExtractDimension(f.content.value, WidthPath).Ok?
             && !Exists(f.content.value, HeightPath)) ==> XrmImage(f) == Err(NoneSubscript)
    ensures (&& f.content.Some? && ValidDimensions(f.content.value)
             && !Exists(f.content.value, ImagePath)) ==> XrmImage(f) == Err(MissingData)
  {
    if f.content.Some? && ValidDimensions(f.content.value) {
      var c := f.content.value;
      OleExtractSpec(c, ImagePath, Int16s(Width(c) * Height(c)));
      assert 2 * (Width(c) * Height(c)) == 2 * Width(c) * Height(c);
    }
  }

  /** The image stream of a file that decodes. */
  function ImageBytes(f: XrmFile): seq<byte>
    requires XrmImage(f).Ok?
  {
    f.content.value.streams[Lower(ImagePath)]
  }

  /** absdata[i, j] of a file that decodes. */
  function Pixel(f: XrmFile, i: nat, j: nat): TxmPlanes.Sample
    requires XrmImage(f).Ok?
    requires i < Width(f.content.value) && j < Height(f.content.value)
  {
    XrmImage(f).value[i][j]
  }

  /** Element k of a buffer of little-endian 16-bit values, read unsigned. */
  function Uint16At(data: seq<byte>, k: nat): int
    requires 2 * k + 2 <= |data|
  {
    data[2 * k] as int + 256 * (data[2 * k + 1] as int)
  }

  /** Pixel (i, j) of the decoded image is the unsigned little-endian
      reading of bytes 2k and 2k + 1 of the image stream, where k = i +
      j * n_cols is its column-major position. */
  lemma XrmPixels(f: XrmFile, i: nat, j: nat)
    requires XrmImage(f).Ok?
    requires i < Width(f.content.value) && j < Height(f.content.value)
    ensures var k := TxmPlanes.FlatIndex(i, j, Width(f.content.value));
      2 * k + 2 <= |ImageBytes(f)| && Pixel(f, i, j) == TxmPlanes.IntS(Uint16At(ImageBytes(f), k))
  {
    XrmImageSpec(f);
    var c := f.content.value;
    var nCols, nRows := Width(c), Height(c);
    var data := c.streams[Lower(ImagePath)];
    var n := nCols * nRows;
    OleExtractSpec(c, ImagePath, Int16s(n));
    var cells := Decode(Int16s(n), data);
    assert Pixel(f, i, j) == CastImage(cells, nCols, nRows)[i][j];
    var k := TxmPlanes.FlatIndex(i, j, nCols);
    TxmPlanes.ColumnMajorIndex(i, j, nCols, nRows);
    TxmPlanes.ReshapeAt(seq(|cells|, m requires 0 <= m < |cells| => TxmPlanes.IntS(ToUint16(cells[m].i))), nCols, nRows);
    Int16Element(n, data, k);
    var u := Uint16At(data, k);
    ToUint16Spec(cells[k].i);
    assert ToUint16(ToSigned(u, 2)) == u;
  }

  /** output_file = file_path.parent / f"{file_path.stem}.{output_format}". */
  function OutputPath(f: XrmFile, format: string): string
  {
    f.parent + "/" + f.stem + "." + format
  }

  /** Two files of one directory are written to one path only when they
      have the same stem. */
  lemma OutputPathInjective(f: XrmFile, g: XrmFile, format: string)
    requires f.parent == g.parent && OutputPath(f, format) == OutputPath(g, format)
    ensures f.stem == g.stem
  {
    var pre := f.parent + "/";
    var post := "." + format;
    assert OutputPath(f, format) == pre + f.stem + post;
    assert OutputPath(g, format) == pre + g.stem + post;
    assert f.stem == OutputPath(f, format)[|pre|..|OutputPath(f, format)| - |post|];
    assert g.stem == OutputPath(g, format)[|pre|..|OutputPath(g, format)| - |post|];
  }

  /** An image written to disk: io.imsave(str(output_file), rescale_img). */
  datatype Saved = Saved(path: string, image: TxmPlanes.Plane)

  /** The error dialog for a file that failed: its name and the exception. */
  datatype Failure = Failure(name: string, error: Error)

  /** What one call of process_xrm leaves behind: the image it saved, or
      the dialog it showed. `rescale` is the percentile clipping and
      intensity rescaling, which work in floating point. */
  function Outcome(f: XrmFile, format: string, rescale: TxmPlanes.Plane -> TxmPlanes.Plane): Result<Saved>
  {
    var image :- XrmImage(f);
    Ok(Saved(OutputPath(f, format), rescale(image)))
  }

  /** The images the batch saves, in file order. */
  function SavedBy(files: seq<XrmFile>, format: string, rescale: TxmPlanes.Plane -> TxmPlanes.Plane): seq<Saved>
  {
    if files == [] then []
    else
      var last := Outcome(files[|files| - 1], format, rescale);
      SavedBy(files[..|files| - 1], format, rescale) + (if last.Ok? then [last.value] else [])
  }

  /** The error dialogs the batch shows, in file order. */
  function FailuresOf(files: seq<XrmFile>): seq<Failure>
  {
    if files == [] then []
    else
      var f := files[|files| - 1];
      FailuresOf(files[..|files| - 1]) + (if XrmImage(f).Err? then [Failure(f.name, XrmImage(f).error)] else [])
  }

  /** The batch over one more file: that file's image or dialog is added
      after those of the files before it. */
  lemma BatchStep(files: seq<XrmFile>, k: nat, format: string, rescale: TxmPlanes.Plane -> TxmPlanes.Plane)
    requires k < |files|
    ensures SavedBy(files[..k + 1], format, rescale) == SavedBy(files[..k], format, rescale)
      + (if XrmImage(files[k]).Ok? then [Outcome(files[k], format, rescale).value] else [])
    ensures FailuresOf(files[..k + 1]) == FailuresOf(files[..k])
      + (if XrmImage(files[k]).Ok? then [] else [Failure(files[k].name, XrmImage(files[k]).error)])
  {
    assert files[..k + 1][..k] == files[..k];
  }

  /** progress_var.get() / total_files * 100. */
  function Percent(count: int, total: nat): real
    requires total > 0
  {
    (count as real) / (total as real) * 100.0
  }

  /** The bar stands at 100 once every file is counted. */
  lemma PercentFull(total: nat)
    ensures total > 0 ==> Percent(total, total) == 100.0
  {
  }

  /** Every file either saves one image or shows one dialog. */
  lemma {:induction false} SavedOrFailed(files: seq<XrmFile>, format: string, rescale: TxmPlanes.Plane -> TxmPlanes.Plane)
    ensures |SavedBy(files, format, rescale)| + |FailuresOf(files)| == |files|
    decreases |files|
  {
    if files != [] {
      SavedOrFailed(files[..|files| - 1], format, rescale);
    }
  }

  /** When every file decodes, the batch saves one image per file, in file
      order, each next to its file under the file's stem. */
  lemma {:induction false} SavedAll(files: seq<XrmFile>, format: string, rescale: TxmPlanes.Plane -> TxmPlanes.Plane)
    requires forall k :: 0 <= k < |files| ==> XrmImage(files[k]).Ok?
    ensures |SavedBy(files, format, rescale)| == |files|
    ensures forall k :: 0 <= k < |files| ==>
      SavedBy(files, format, rescale)[k] == Saved(OutputPath(files[k], format), rescale(XrmImage(files[k]).value))
    ensures FailuresOf(files) == []
    decreases |files|
  {
    if files != [] {
      var init := files[..|files| - 1];
      SavedAll(init, format, rescale);
      var s := SavedBy(files, format, rescale);
      assert s == SavedBy(init, format, rescale) + [Outcome(files[|files| - 1], format, rescale).value];
      forall k | 0 <= k < |files|
        ensures s[k] == Saved(OutputPath(files[k], format), rescale(XrmImage(files[k]).value))
      {
        if k < |init| {
          assert init[k] == files[k];
        }
      }
    }
  }

  /** The converter's state: progress_var, the progress bar's maximum and
      value, the images written, the error dialogs shown, and whether the
      completion dialog has been scheduled. */
  class Converter {
    var count: int
    var maximum: int
    var value: real
    var saved: seq<Saved>
    var shown: seq<Failure>
    var finished: bool

    /** The widgets main() creates: IntVar() is 0 and the bar's maximum 100. */
    constructor ()
      ensures count == 0 && maximum == 100 && value == 0.0
      ensures saved == [] && shown == [] && !finished
    {
      count := 0;
      maximum := 100;
      value := 0.0;
      saved := [];
      shown := [];
      finished := false;
    }

    /** process_xrm(file_path, output_format, ...): saves the rescaled
        image or shows the error, then, in `finally`, counts the file and
        sets the bar to the percentage of files done. Returns True exactly
        when the file decodes. */
    method ProcessXrm(f: XrmFile, format: string, rescale: TxmPlanes.Plane -> TxmPlanes.Plane, total: nat)
      returns (ok: bool)
      requires total > 0
      modifies this
      ensures ok <==> XrmImage(f).Ok?
      ensures saved == old(saved) + (if ok then [Outcome(f, format, rescale).value] else [])
      ensures shown == old(shown) + (if ok then [] else [Failure(f.name, XrmImage(f).error)])
      ensures count == old(count) + 1
      ensures value == Percent(count, total)
      ensures maximum == old(maximum) && finished == old(finished)
    {
      var image := XrmImage(f);
      if image.Ok? {
        saved := saved + [Saved(OutputPath(f, format), rescale(image.value))];
        ok := true;
      } else {
        shown := shown + [Failure(f.name, image.error)];
        ok := false;
      }
      count := count + 1;
      value := Percent(count, total);
    }

    /** batch_xrm_convert(root, input_dir, output_format, ...): one
        process_xrm call per file found, a file that fails not stopping the
        rest; afterwards the counter equals the number of files and the bar
        stands at 100. */
    method BatchXrmConvert(files: seq<XrmFile>, format: string, rescale: TxmPlanes.Plane -> TxmPlanes.Plane)
      modifies this
      ensures saved == old(saved) + SavedBy(files, format, rescale)
      ensures shown == old(shown) + FailuresOf(files)
      ensures count == |files| && maximum == |files|
      ensures value == if files == [] then old(value) else 100.0
      ensures finished
    {
      var total := |files|;
      maximum := total;
      count := 0;
      for k := 0 to |files|
        invariant count == k && maximum == total
        invariant saved == old(saved) + SavedBy(files[..k], format, rescale)
        invariant shown == old(shown) + FailuresOf(files[..k])
        invariant value == if k == 0 then old(value) else Percent(k, total)
      {
        BatchStep(files, k, format, rescale);
        var ok := ProcessXrm(files[k], format, rescale, total);
      }
      assert files[..|files|] == files;
      PercentFull(total);
      finished := true;
    }
  }
}
