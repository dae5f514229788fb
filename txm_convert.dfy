/** process_txm: one .txm container to a TIFF stack or a 3-D TIFF. Covers
    _extract_metadata, the output-format table, _create_output_folder's
    path, the 8-bit / 16-bit branching and the file naming and middle-slice
    choice of _save_slices. Writing the files is not modelled; the result
    says which files would be written and with which pixels. */
module TxmConvert {

  import opened Common
  import opened Text
  import opened Ole
  import opened Fields
  import TxmStreams
  import opened TxmPlanes
  import opened Rescale

  /** What _extract_metadata returns (the pixel size before rounding). */
  datatype TxmInfo = TxmInfo(nCols: nat, nRows: nat, nImages: nat, pixelSize: Float32, fType: nat)

  /** int(ole_extract(ole, path, '<I')[0]). */
  function ReadU32(c: Container, path: string): Result<nat>
  {
    var cells :- OleExtract(c, path, UInt32);
    Ok(cells[0].u)
  }

  /** ole_extract(ole, path, '<f')[0]. */
  function ReadF32(c: Container, path: string): Result<Float32>
  {
    var cells :- OleExtract(c, path, Single);
    Ok(cells[0].f)
  }

  /** A field read succeeds exactly when the stream exists and holds four
      bytes; the value is those bytes read little-endian. */
  lemma ReadU32Spec(c: Container, path: string)
    ensures ReadU32(c, path).Ok? <==> Exists(c, path) && |c.streams[Lower(path)]| == 4
    ensures ReadU32(c, path).Ok? ==> ReadU32(c, path).value == LeUnsigned(c.streams[Lower(path)])
    ensures !Exists(c, path) ==> ReadU32(c, path) == Err(StreamNotFound(path))
  {
  }

  lemma ReadF32Spec(c: Container, path: string)
    ensures ReadF32(c, path).Ok? <==> Exists(c, path) && |c.streams[Lower(path)]| == 4
    ensures ReadF32(c, path).Ok? ==> ReadF32(c, path).value == c.streams[Lower(path)]
    ensures !Exists(c, path) ==> ReadF32(c, path) == Err(StreamNotFound(path))
  {
  }

  /** The ImageInfo streams _extract_metadata reads. */
  const WidthPath := "ImageInfo/ImageWidth"
  const HeightPath := "ImageInfo/ImageHeight"
  const ImagesTakenPath := "ImageInfo/ImagesTaken"
  const PixelSizePath := "ImageInfo/PixelSize"
  const DataTypePath := "ImageInfo/DataType"

  /** _extract_metadata(ole): the five ImageInfo fields, read in this order;
      the first one that is missing or of the wrong size is the error. */
  function ExtractMetadata(c: Container): (r: Result<TxmInfo>)
  {
    match ReadU32(c, WidthPath)
    case Err(e) => Err(e)
    case Ok(nCols) =>
      match ReadU32(c, HeightPath)
      case Err(e) => Err(e)
      case Ok(nRows) =>
        match ReadU32(c, ImagesTakenPath)
        case Err(e) => Err(e)
        case Ok(nImages) =>
          match ReadF32(c, PixelSizePath)
          case Err(e) => Err(e)
          case Ok(pixelSize) =>
            match ReadU32(c, DataTypePath)
            case Err(e) => Err(e)
            case Ok(fType) => Ok(TxmInfo(nCols, nRows, nImages, pixelSize, fType))
  }

  /** Every field is required: metadata extraction succeeds exactly when
      all five reads do, and then returns their values. */
  lemma ExtractMetadataOk(c: Container)
    ensures ExtractMetadata(c).Ok? <==>
      && ReadU32(c, WidthPath).Ok? && ReadU32(c, HeightPath).Ok?
      && ReadU32(c, ImagesTakenPath).Ok? && ReadF32(c, PixelSizePath).Ok?
      && ReadU32(c, DataTypePath).Ok?
    ensures ExtractMetadata(c).Ok? ==>
      ExtractMetadata(c).value == TxmInfo(ReadU32(c, WidthPath).value, ReadU32(c, HeightPath).value,
                                          ReadU32(c, ImagesTakenPath).value, ReadF32(c, PixelSizePath).value,
                                          ReadU32(c, DataTypePath).value)
  {
    var w, h := ReadU32(c, WidthPath), ReadU32(c, HeightPath);
    var n, p := ReadU32(c, ImagesTakenPath), ReadF32(c, PixelSizePath);
    var t := ReadU32(c, DataTypePath);
    if w.Ok? && h.Ok? && n.Ok? && p.Ok? && t.Ok? {
      assert ExtractMetadata(c) == Ok(TxmInfo(w.value, h.value, n.value, p.value, t.value));
    }
  }

  /** The fields are read in order, so the first failing read is the error;
      in particular an unreadable ImageInfo/ImagesTaken fails the conversion
      although its value is never used. */
  lemma ExtractMetadataFirstError(c: Container)
    ensures ReadU32(c, WidthPath).Err? ==> ExtractMetadata(c) == Err(ReadU32(c, WidthPath).error)
    ensures ReadU32(c, WidthPath).Ok? && ReadU32(c, HeightPath).Err? ==>
      ExtractMetadata(c) == Err(ReadU32(c, HeightPath).error)
    ensures ReadU32(c, WidthPath).Ok? && ReadU32(c, HeightPath).Ok? && ReadU32(c, ImagesTakenPath).Err? ==>
      ExtractMetadata(c) == Err(ReadU32(c, ImagesTakenPath).error)
  {
  }

  /** The OutputFormat enumeration and OUTPUT_FORMAT_EXTS. */
  datatype OutputFormat = TiffStack | Tiff3D

  /** OutputFormat(index): 0 and 1 are the only members. */
  function FormatOf(index: int): (r: Result<OutputFormat>)
    ensures r.Ok? <==> index == 0 || index == 1
    ensures r.Ok? ==> (r.value == TiffStack <==> index == 0)
    ensures r.Err? ==> r.error == UnknownOutputFormat(index)
  {
    if index == 0 then Ok(TiffStack) else if index == 1 then Ok(Tiff3D) else Err(UnknownOutputFormat(index))
  }

  function Ext(fmt: OutputFormat): string
  {
    match fmt
    case TiffStack => "tiff"
    case Tiff3D => "tif"
  }

  /** output_base_dir / short_output_name / extension. */
  function OutputFolder(baseDir: string, shortName: string, fmt: OutputFormat): string
  {
    baseDir + "/" + shortName + "/" + Ext(fmt)
  }

  /** Python's round(x) for one argument: the nearest integer, ties to even. */
  function RoundHalfEven(x: real): (r: int)
    ensures -0.5 <= x - r as real <= 0.5
    ensures x - r as real == 0.5 || x - r as real == -0.5 ==> r % 2 == 0
  {
    var f := x.Floor;
    var d := x - f as real;
    if d < 0.5 then f
    else if d > 0.5 then f + 1
    else if f % 2 == 0 then f else f + 1
  }

  lemma RoundWhole(q: int)
    ensures RoundHalfEven(q as real) == q
  {
    assert (q as real).Floor == q;
  }

  lemma RoundTie(q: int)
    ensures RoundHalfEven(q as real + 0.5) == if q % 2 == 0 then q else q + 1
  {
    assert (q as real + 0.5).Floor == q;
  }

  /** round(len(slices) / 2): the index of the preview slice. */
  function MiddleIndex(n: nat): int
  {
    RoundHalfEven(n as real / 2.0)
  }

  /** The middle index is n / 2 for even n and the even one of (n - 1) / 2 and
      (n + 1) / 2 for odd n; it always names an existing slice when there is
      one. */
  lemma MiddleIndexSpec(n: nat)
    ensures n % 2 == 0 ==> MiddleIndex(n) == n / 2
    ensures n % 2 == 1 ==> MiddleIndex(n) % 2 == 0 && (MiddleIndex(n) == (n - 1) / 2 || MiddleIndex(n) == (n + 1) / 2)
    ensures n > 0 ==> 0 <= MiddleIndex(n) < n
  {
    var q := n / 2;
    if n % 2 == 0 {
      assert n as real / 2.0 == q as real;
      RoundWhole(q);
    } else {
      assert n as real / 2.0 == q as real + 0.5;
      RoundTie(q);
    }
  }

  /** f'{out_folder}/{stem}_{str(slice_index).zfill(4)}.tiff'. */
  function StackFileName(folder: string, stem: string, k: nat): string
  {
    folder + "/" + stem + "_" + ZFill(NatToString(k), 4) + "." + Ext(TiffStack)
  }

  /** Different slices get different files, and the number in the name reads
      back as the slice index. */
  lemma StackFileNamesDistinct(folder: string, stem: string, k: nat, m: nat)
    requires StackFileName(folder, stem, k) == StackFileName(folder, stem, m)
    ensures k == m
  {
    var pre := folder + "/" + stem + "_";
    var zk, zm := ZFill(NatToString(k), 4), ZFill(NatToString(m), 4);
    ZFillNatRoundTrip(k, 4);
    ZFillNatRoundTrip(m, 4);
    assert StackFileName(folder, stem, k) == pre + zk + ".tiff";
    assert StackFileName(folder, stem, m) == pre + zm + ".tiff";
    assert zk == (pre + zk + ".tiff")[|pre|..|pre| + |zk|];
    assert zm == (pre + zm + ".tiff")[|pre|..|pre| + |zm|];
    ZFillNatInjective(k, m, 4);
  }

  /** A pixel as handed to the writer: an exact integer, or a float sample
      cast to uint16 (a float-to-integer conversion that is not modelled). */
  datatype Pixel = Value(n: int) | FloatCast(f: Float32)

  datatype DType = UInt8 | UInt16

  /** What _save_slices is given: the dtype and the pixels. `pixels` is None
      when the 8-bit rescale of a constant volume divides 0 by 0 (NaN). */
  datatype Saved = Saved(dtype: DType, pixels: Option<Volume<Pixel>>)

  /** What one call of process_txm produces. */
  datatype TxmOutput = TxmOutput(folder: string, files: seq<string>, preview: Option<nat>, saved: Saved)

  /** The exact value of a decoded sample; `num` gives the value of a 32-bit
      float. */
  function SampleValue(x: Sample, num: Float32 -> real): real
  {
    match x
    case IntS(v) => v as real
    case FloatS(f) => num(f)
  }

  function AsReals(vol: Volume<Sample>, num: Float32 -> real): (out: Volume<real>)
    ensures SameShape(vol, out)
    ensures forall s, i, j :: 0 <= s < |vol| && 0 <= i < |vol[s]| && 0 <= j < |vol[s][i]| ==>
      out[s][i][j] == SampleValue(vol[s][i][j], num)
  {
    seq(|vol|, s requires 0 <= s < |vol| =>
      seq(|vol[s]|, i requires 0 <= i < |vol[s]| =>
        seq(|vol[s][i]|, j requires 0 <= j < |vol[s][i]| => SampleValue(vol[s][i][j], num))))
  }

  /** img.astype(np.uint16): integers wrap modulo 2^16. */
  function ToUInt16(x: Sample): Pixel
  {
    match x
    case IntS(v) => Value(ToUint16(v))
    case FloatS(f) => FloatCast(f)
  }

  /** An int16 sample keeps its value when non-negative and becomes v + 65536
      when negative. */
  lemma ToUInt16Int16(v: int)
    requires -32768 <= v < 32768
    ensures ToUInt16(IntS(v)) == Value(if v < 0 then v + 65536 else v)
  {
    ToUint16Spec(v);
  }

  function Cast16(vol: Volume<Sample>): (out: Volume<Pixel>)
    ensures SameShape(vol, out)
    ensures forall s, i, j :: 0 <= s < |vol| && 0 <= i < |vol[s]| && 0 <= j < |vol[s][i]| ==>
      out[s][i][j] == ToUInt16(vol[s][i][j])
  {
    seq(|vol|, s requires 0 <= s < |vol| =>
      seq(|vol[s]|, i requires 0 <= i < |vol[s]| =>
        seq(|vol[s][i]|, j requires 0 <= j < |vol[s][i]| => ToUInt16(vol[s][i][j]))))
  }

  /** img.astype(np.uint8) of data that is already 8-bit: unchanged. */
  function ToUInt8(x: Sample): Pixel
  {
    match x
    case IntS(v) => Value(v)
    case FloatS(f) => FloatCast(f)
  }

  function Keep8(vol: Volume<Sample>): (out: Volume<Pixel>)
    ensures SameShape(vol, out)
    ensures forall s, i, j :: 0 <= s < |vol| && 0 <= i < |vol[s]| && 0 <= j < |vol[s][i]| ==>
      out[s][i][j] == ToUInt8(vol[s][i][j])
  {
    seq(|vol|, s requires 0 <= s < |vol| =>
      seq(|vol[s]|, i requires 0 <= i < |vol[s]| =>
        seq(|vol[s][i]|, j requires 0 <= j < |vol[s][i]| => ToUInt8(vol[s][i][j]))))
  }

  function AsPixels(vol: Volume<int>): (out: Volume<Pixel>)
    ensures SameShape(vol, out)
    ensures forall s, i, j :: 0 <= s < |vol| && 0 <= i < |vol[s]| && 0 <= j < |vol[s][i]| ==>
      out[s][i][j] == Value(vol[s][i][j])
  {
    seq(|vol|, s requires 0 <= s < |vol| =>
      seq(|vol[s]|, i requires 0 <= i < |vol[s]| =>
        seq(|vol[s][i]|, j requires 0 <= j < |vol[s][i]| => Value(vol[s][i][j]))))
  }

  /** _convert_to_8bit as process_txm meets it: np.min of an empty volume
      raises, a constant one gives NaN pixels, otherwise Convert8Bit. */
  function Rescale8(vol: Volume<Sample>, num: Float32 -> real): (r: Result<Option<Volume<Pixel>>>)
    ensures r.Err? <==> |Values(AsReals(vol, num))| == 0
    ensures r.Err? ==> r.error == EmptyVolume
    ensures r == Ok(None) <==> |Values(AsReals(vol, num))| > 0 && !Rescalable(AsReals(vol, num))
    ensures r.Ok? && r.value.Some? ==> Rescalable(AsReals(vol, num)) && r.value.value == AsPixels(Convert8Bit(AsReals(vol, num)))
  {
    var xs := AsReals(vol, num);
    if |Values(xs)| == 0 then Err(EmptyVolume)
    else if !Rescalable(xs) then Ok(None)
    else Ok(Some(AsPixels(Convert8Bit(xs))))
  }

  /** The branching of process_txm: rescale to 8 bit only when asked and the
      data is not already 8-bit; type-3 data is saved unchanged as uint8;
      without the flag everything is saved as uint16. */
  function ChoosePixels(slices: Volume<Sample>, fType: nat, convert: bool, num: Float32 -> real): (r: Result<Saved>)
    ensures r.Ok? ==> (r.value.dtype == UInt8 <==> convert)
    ensures !convert ==> r == Ok(Saved(UInt16, Some(Cast16(slices))))
    ensures convert && fType == 3 ==> r == Ok(Saved(UInt8, Some(Keep8(slices))))
    ensures convert && fType != 3 ==> (r.Err? <==> Rescale8(slices, num).Err?)
    ensures convert && fType != 3 && r.Ok? ==> r.value.pixels == Rescale8(slices, num).value
  {
    if convert then
      if fType != 3 then
        var px :- Rescale8(slices, num);
        Ok(Saved(UInt8, px))
      else Ok(Saved(UInt8, Some(Keep8(slices))))
    else Ok(Saved(UInt16, Some(Cast16(slices))))
  }

  /** round(x, 2) == 0 for the exact value x of the pixel size. */
  predicate RoundsToZero(x: real)
  {
    RoundHalfEven(x * 100.0) == 0
  }

  /** The file names and preview index of _save_slices. A 3-D TIFF divides
      25400 by the rounded pixel size before writing, which fails for zero. */
  function SaveSlices(n: nat, stem: string, folder: string, fmt: OutputFormat, display: bool, pixelSize: real): (r: Result<(seq<string>, Option<nat>)>)
    ensures fmt == TiffStack ==> r.Ok?
    ensures fmt == Tiff3D ==> (r.Err? <==> RoundsToZero(pixelSize))
  {
    match fmt
    case TiffStack =>
      var files := seq(n, k requires 0 <= k < n => StackFileName(folder, stem, k));
      var preview := if display && n > 0 then (MiddleIndexSpec(n); Some(MiddleIndex(n) as nat)) else None;
      Ok((files, preview))
    case Tiff3D =>
      if RoundsToZero(pixelSize) then Err(ZeroDivision)
      else Ok(([folder + "/" + stem + "." + Ext(Tiff3D)], None))
  }

  /** A TIFF stack has one distinct file per slice, named by its index; the
      preview, when asked for and there is a slice, is the middle one. A 3-D
      TIFF is one file named after the stem. */
  lemma SaveSlicesSpec(n: nat, stem: string, folder: string, fmt: OutputFormat, display: bool, pixelSize: real)
    requires SaveSlices(n, stem, folder, fmt, display, pixelSize).Ok?
    ensures var (files, preview) := SaveSlices(n, stem, folder, fmt, display, pixelSize).value;
      && (fmt == TiffStack ==>
            && |files| == n
            && (forall k :: 0 <= k < n ==> files[k] == StackFileName(folder, stem, k))
            && (forall k, m :: 0 <= k < m < n ==> files[k] != files[m])
            && (preview.Some? <==> display && n > 0)
            && (preview.Some? ==> preview.value == MiddleIndex(n) < n))
      && (fmt == Tiff3D ==> files == [folder + "/" + stem + ".tif"] && preview == None)
  {
    if fmt == TiffStack {
      forall k, m | 0 <= k < m < n
        ensures StackFileName(folder, stem, k) != StackFileName(folder, stem, m)
      {
        if StackFileName(folder, stem, k) == StackFileName(folder, stem, m) {
          StackFileNamesDistinct(folder, stem, k, m);
        }
      }
      if display && n > 0 {
        MiddleIndexSpec(n);
      }
    } else {
      var pre := folder + "/" + stem;
      assert pre + "." + Ext(Tiff3D) == pre + ".tif";
    }
  }

  /** process_txm(txm_file, output_base_dir, short_output_name,
      output_format_index, zip_output, should_display_slice, convert_to_8bit),
      with zipping left out. The steps run in the source's order and the first
      failure is the error. */
  function ProcessTxm(c: Container, stem: string, baseDir: string, shortName: string, formatIndex: int,
                      display: bool, convert: bool, num: Float32 -> real): (r: Result<TxmOutput>)
  {
    var info :- ExtractMetadata(c);
    var streams :- TxmStreams.SortedImageStreams(c);
    var fmt :- FormatOf(formatIndex);
    var folder := OutputFolder(baseDir, shortName, fmt);
    var slices :- LoadSlicesSpec(c, streams, info.fType, info.nCols, info.nRows);
    var saved :- ChoosePixels(slices, info.fType, convert, num);
    var written :- SaveSlices(|slices|, stem, folder, fmt, display, num(info.pixelSize));
    Ok(TxmOutput(folder, written.0, written.1, saved))
  }

  /** A successful conversion loads one plane per image stream, chooses its
      pixels by the branching rule and writes into
      base / short name / extension; a TIFF stack has exactly one file per
      plane. */
  lemma ProcessTxmSpec(c: Container, stem: string, baseDir: string, shortName: string, formatIndex: int,
                       display: bool, convert: bool, num: Float32 -> real)
    requires ProcessTxm(c, stem, baseDir, shortName, formatIndex, display, convert, num).Ok?
    ensures var out := ProcessTxm(c, stem, baseDir, shortName, formatIndex, display, convert, num).value;
      var info := ExtractMetadata(c).value;
      var streams := TxmStreams.SortedImageStreams(c).value;
      var slices := LoadSlicesSpec(c, streams, info.fType, info.nCols, info.nRows).value;
      && (formatIndex == 0 || formatIndex == 1)
      && |slices| == |streams|
      && out.folder == baseDir + "/" + shortName + "/" + (if formatIndex == 0 then "tiff" else "tif")
      && out.saved == ChoosePixels(slices, info.fType, convert, num).value
      && (out.saved.dtype == UInt8 <==> convert)
      && (formatIndex == 0 ==> |out.files| == |slices|)
      && (formatIndex == 1 ==> |out.files| == 1)
  {
    var info := ExtractMetadata(c).value;
    var streams := TxmStreams.SortedImageStreams(c).value;
    LoadSlicesSpecOk(c, streams, info.fType, info.nCols, info.nRows);
    var fmt := FormatOf(formatIndex).value;
    var slices := LoadSlicesSpec(c, streams, info.fType, info.nCols, info.nRows).value;
    SaveSlicesSpec(|slices|, stem, OutputFolder(baseDir, shortName, fmt), fmt, display, num(info.pixelSize));
  }
}
