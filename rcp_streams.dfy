/** stream_unpacker and stream_unpacker_from of the RCP metadata reader,
    and the typed field reads built on them: '<f', '<i' and '?' fields
    (the first element of the unpacked tuple), raw stream bytes, and the
    two byte decodings the reader applies. */
module RcpStreams {

  import opened Common
  import opened Text
  import opened Ole
  import opened Fields

  /** The `datatype` argument: 0 asks for the raw bytes, anything else is a
      struct format. */
  datatype Unpacking = RawBytes | Struct(fmt: Format)

  /** What stream_unpacker returns: the bytes, or the unpacked tuple. */
  datatype Unpacked = Bytes(bytes: seq<byte>) | Cells(cells: seq<Cell>)

  /** stream_unpacker(ole, stream, datatype). */
  function StreamUnpacker(c: Container, path: string, u: Unpacking): Result<Unpacked>
  {
    var header :- OpenStream(c, path);
    match u
    case RawBytes => Ok(Bytes(header))
    case Struct(fmt) =>
      var cells :- Unpack(fmt, header);
      Ok(Cells(cells))
  }

  /** A missing stream always fails; datatype 0 returns the stream as it is;
      a struct format needs the stream to be exactly the format's size. */
  lemma StreamUnpackerSpec(c: Container, path: string, u: Unpacking)
    ensures StreamUnpacker(c, path, u).Ok? <==>
      Exists(c, path) && (u.Struct? ==> |c.streams[Lower(path)]| == Size(u.fmt))
    ensures !Exists(c, path) ==> StreamUnpacker(c, path, u) == Err(StreamNotFound(path))
    ensures Exists(c, path) && u == RawBytes ==> StreamUnpacker(c, path, u) == Ok(Bytes(c.streams[Lower(path)]))
    ensures Exists(c, path) && u.Struct? && |c.streams[Lower(path)]| != Size(u.fmt) ==>
      StreamUnpacker(c, path, u) == Err(StructSize(Size(u.fmt), |c.streams[Lower(path)]|))
    ensures Exists(c, path) && u.Struct? && |c.streams[Lower(path)]| == Size(u.fmt) ==>
      StreamUnpacker(c, path, u) == Ok(Cells(Decode(u.fmt, c.streams[Lower(path)])))
  {
  }

  /** stream_unpacker_from(ole, stream, datatype, offset). */
  function StreamUnpackerFrom(c: Container, path: string, fmt: Format, offset: nat): Result<seq<Cell>>
  {
    var header :- OpenStream(c, path);
    UnpackFrom(fmt, header, offset)
  }

  /** An offset read needs only offset + size bytes and decodes exactly
      those; bytes after them, and a longer stream, do not matter. */
  lemma StreamUnpackerFromSpec(c: Container, path: string, fmt: Format, offset: nat)
    ensures StreamUnpackerFrom(c, path, fmt, offset).Ok? <==>
      Exists(c, path) && |c.streams[Lower(path)]| >= offset + Size(fmt)
    ensures !Exists(c, path) ==> StreamUnpackerFrom(c, path, fmt, offset) == Err(StreamNotFound(path))
    ensures Exists(c, path) && |c.streams[Lower(path)]| < offset + Size(fmt) ==>
      StreamUnpackerFrom(c, path, fmt, offset) == Err(StructOffset(offset + Size(fmt), |c.streams[Lower(path)]|))
    ensures StreamUnpackerFrom(c, path, fmt, offset).Ok? ==>
      StreamUnpackerFrom(c, path, fmt, offset).value
        == Decode(fmt, c.streams[Lower(path)][offset..offset + Size(fmt)])
  {
  }

  /** At offset 0 on a stream of exactly the format's size, the offset read
      and the exact read agree. */
  lemma UnpackerFromZero(c: Container, path: string, fmt: Format)
    requires Exists(c, path) && |c.streams[Lower(path)]| == Size(fmt)
    ensures StreamUnpackerFrom(c, path, fmt, 0) == Ok(StreamUnpacker(c, path, Struct(fmt)).value.cells)
  {
    var b := c.streams[Lower(path)];
    assert b[0..Size(fmt)] == b;
  }

  /** stream_unpacker(ole, stream, 0): the raw bytes. */
  function ReadRaw(c: Container, path: string): Result<seq<byte>>
  {
    var u :- StreamUnpacker(c, path, RawBytes);
    Ok(u.bytes)
  }

  /** stream_unpacker(ole, stream, "<f")[0]. */
  function ReadFloat(c: Container, path: string): Result<Float32>
  {
    var u :- StreamUnpacker(c, path, Struct(Single));
    Ok(u.cells[0].f)
  }

  /** stream_unpacker(ole, stream, "<i")[0]. */
  function ReadInt(c: Container, path: string): Result<int>
  {
    var u :- StreamUnpacker(c, path, Struct(Int32));
    Ok(u.cells[0].i)
  }

  /** stream_unpacker(ole, stream, "?")[0] is True. */
  function ReadBool(c: Container, path: string): Result<bool>
  {
    var u :- StreamUnpacker(c, path, Struct(Bool8));
    Ok(u.cells[0].b)
  }

  /** stream_unpacker_from(ole, stream, "<f", offset)[0]. */
  function ReadFloatAt(c: Container, path: string, offset: nat): Result<Float32>
  {
    var cells :- StreamUnpackerFrom(c, path, Single, offset);
    Ok(cells[0].f)
  }

  /** The typed reads: a '<f' field is its four bytes, a '<i' field their
      two's-complement value, a '?' field true for any non-zero byte; each
      needs the stream to be exactly that long. */
  lemma TypedReadsSpec(c: Container, path: string)
    ensures ReadRaw(c, path).Ok? <==> Exists(c, path)
    ensures ReadRaw(c, path).Ok? ==> ReadRaw(c, path).value == c.streams[Lower(path)]
    ensures ReadFloat(c, path).Ok? <==> Exists(c, path) && |c.streams[Lower(path)]| == 4
    ensures ReadFloat(c, path).Ok? ==> ReadFloat(c, path).value == c.streams[Lower(path)]
    ensures ReadInt(c, path).Ok? <==> Exists(c, path) && |c.streams[Lower(path)]| == 4
    ensures ReadInt(c, path).Ok? ==> ReadInt(c, path).value == ToSigned(LeUnsigned(c.streams[Lower(path)]), 4)
    ensures ReadBool(c, path).Ok? <==> Exists(c, path) && |c.streams[Lower(path)]| == 1
    ensures ReadBool(c, path).Ok? ==> ReadBool(c, path).value == (c.streams[Lower(path)][0] != 0)
  {
    StreamUnpackerSpec(c, path, RawBytes);
    StreamUnpackerSpec(c, path, Struct(Single));
    StreamUnpackerSpec(c, path, Struct(Int32));
    StreamUnpackerSpec(c, path, Struct(Bool8));
  }

  /** A '<f' read at an offset takes the four bytes starting there. */
  lemma ReadFloatAtSpec(c: Container, path: string, offset: nat)
    ensures ReadFloatAt(c, path, offset).Ok? <==> Exists(c, path) && |c.streams[Lower(path)]| >= offset + 4
    ensures ReadFloatAt(c, path, offset).Ok? ==>
      ReadFloatAt(c, path, offset).value == c.streams[Lower(path)][offset..offset + 4]
  {
    StreamUnpackerFromSpec(c, path, Single, offset);
  }

  /** bytes.decode("ascii"): fails on any byte above 127. */
  function Ascii(b: seq<byte>): (r: Result<string>)
  {
    if forall k :: 0 <= k < |b| ==> b[k] < 128
    then Ok(seq(|b|, k requires 0 <= k < |b| => b[k] as char))
    else Err(NotAscii)
  }

  /** ASCII decoding keeps every byte as the character with that code, and
      it is undone by taking the codes back. */
  lemma AsciiSpec(b: seq<byte>)
    ensures Ascii(b).Ok? <==> forall k :: 0 <= k < |b| ==> b[k] < 128
    ensures Ascii(b).Ok? ==> |Ascii(b).value| == |b|
    ensures Ascii(b).Ok? ==> seq(|b|, k requires 0 <= k < |b| => Ascii(b).value[k] as int) == b
  {
  }

  /** bytes.decode('IBM855'). Code page 855 agrees with ASCII below 128;
      a byte above 127 is kept here as the character with the same code,
      not as the code page's glyph. */
  function Ibm855(b: seq<byte>): (s: string)
    ensures |s| == |b|
    ensures forall k :: 0 <= k < |b| && b[k] < 128 ==> s[k] as int == b[k]
  {
    seq(|b|, k requires 0 <= k < |b| => b[k] as char)
  }

  /** stream_unpacker(...).decode("ascii"). */
  function ReadAscii(c: Container, path: string): Result<string>
  {
    var b :- ReadRaw(c, path);
    Ascii(b)
  }
}
