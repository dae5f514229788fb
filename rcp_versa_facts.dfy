/** What Versa_reader's dictionary holds: the order of its keys, the
    .txm acquisition-mode codes, and the error of a file without its date
    stream. */
module RcpVersaFacts {

  import opened Common
  import opened Text
  import opened Ole
  import opened RcpText
  import opened RcpStreams
  import opened RcpDict
  import opened RcpEntries
  import opened RcpOutput
  import opened RcpVersa

  /** The keys of the mode block: all four for .txrm; for .txm the mode
      and segment count when the acquisition-mode code is 17 or 10, and
      none for any other code. */
  function AcquisitionKeys(c: Container, kind: VersaKind): seq<Key>
  {
    if kind == Txrm then [AcqMode, Segments, Hart, VExp]
    else if ReadInt(c, "ImageInfo/AcquisitionMode").Ok? && ReadInt(c, "ImageInfo/AcquisitionMode").value in {10, 17}
    then [AcqMode, Segments]
    else []
  }

  /** The keys each group assigns, in order. */
  function GroupKeys(g: VersaGroup, c: Container, kind: VersaKind): seq<Key>
  {
    match g
    case Stamp => [Date, Time]
    case Source => [KV, UA, Power]
    case Turn => [Imgs, Rot]
    case Timing => [Exposure]
    case Optics => [ObjLens, XFilt]
    case Pixel => [VoxSize]
    case Detector => [Cone, DBin]
    case Frames => [FrAvg, BeamH]
    case Distances => [Src, Det]
    case Stage => [XAx, YAx, ZAx]
    case Acquisition => AcquisitionKeys(c, kind)
  }

  function BlockKeys(b: VersaBlock, c: Container, kind: VersaKind): seq<Key>
  {
    match b
    case Group(g) => GroupKeys(g, c, kind)
    case Pair(x, y) => BlockKeys(x, c, kind) + BlockKeys(y, c, kind)
  }

  lemma {:induction false} KeysOfAppend(a: seq<Entry>, b: seq<Entry>)
    ensures KeysOf(a + b) == KeysOf(a) + KeysOf(b)
  {
  }

  /** Each group that succeeds assigns exactly its keys, in order. */
  lemma GroupKeysSpec(g: VersaGroup, c: Container, kind: VersaKind, render: FExpr -> string)
    requires GroupEntries(g, c, kind, render).Ok?
    ensures KeysOf(GroupEntries(g, c, kind, render).value) == GroupKeys(g, c, kind)
  {
  }

  /** Every block that succeeds assigns exactly its keys, in order. */
  lemma {:induction false} BlockKeysSpec(b: VersaBlock, c: Container, kind: VersaKind, render: FExpr -> string)
    requires BlockEntries(b, c, kind, render).Ok?
    ensures KeysOf(BlockEntries(b, c, kind, render).value) == BlockKeys(b, c, kind)
  {
    match b
    case Group(g) => GroupKeysSpec(g, c, kind, render);
    case Pair(x, y) =>
      BlockKeysSpec(x, c, kind, render);
      BlockKeysSpec(y, c, kind, render);
      KeysOfAppend(BlockEntries(x, c, kind, render).value, BlockEntries(y, c, kind, render).value);
  }

  /** The keys of the source settings and the scan settings, in order. */
  lemma FrontKeys(c: Container, kind: VersaKind)
    ensures BlockKeys(Front, c, kind) == [Date, Time, KV, UA, Power, Imgs, Rot, Exposure, ObjLens, XFilt, VoxSize]
  {
    assert BlockKeys(Pair(Group(Stamp), Group(Source)), c, kind) == [Date, Time] + [KV, UA, Power];
    assert BlockKeys(Pair(Group(Turn), Group(Timing)), c, kind) == [Imgs, Rot] + [Exposure];
    assert BlockKeys(Pair(Group(Optics), Group(Pixel)), c, kind) == [ObjLens, XFilt] + [VoxSize];
    assert BlockKeys(Scan, c, kind) == [Imgs, Rot, Exposure] + [ObjLens, XFilt, VoxSize];
  }

  /** The keys of the detector settings, the positions and the mode, in
      order. */
  lemma BackKeys(c: Container, kind: VersaKind)
    ensures BlockKeys(Back, c, kind) == [Cone, DBin, FrAvg, BeamH, Src, Det, XAx, YAx, ZAx] + AcquisitionKeys(c, kind)
  {
    assert BlockKeys(Pair(Group(Detector), Group(Frames)), c, kind) == [Cone, DBin] + [FrAvg, BeamH];
    assert BlockKeys(Pair(Group(Distances), Group(Stage)), c, kind) == [Src, Det] + [XAx, YAx, ZAx];
    assert BlockKeys(Rig, c, kind) == [Cone, DBin, FrAvg, BeamH] + [Src, Det, XAx, YAx, ZAx];
  }

  /** The keys of every assignment after the file name, in order. */
  lemma WholeKeys(c: Container, kind: VersaKind)
    ensures BlockKeys(Whole, c, kind)
      == [Date, Time, KV, UA, Power, Imgs, Rot, Exposure, ObjLens, XFilt, VoxSize,
          Cone, DBin, FrAvg, BeamH, Src, Det, XAx, YAx, ZAx] + AcquisitionKeys(c, kind)
  {
    FrontKeys(c, kind);
    BackKeys(c, kind);
  }

  /** The file name first, then the keys of a block. */
  lemma NamedKeys(b: VersaBlock, c: Container, name: string, kind: VersaKind, render: FExpr -> string)
    requires Then(Ok([(FName, Line("File", name))]), BlockEntries(b, c, kind, render)).Ok?
    ensures KeysOf(Then(Ok([(FName, Line("File", name))]), BlockEntries(b, c, kind, render)).value)
      == [FName] + BlockKeys(b, c, kind)
  {
    var es := BlockEntries(b, c, kind, render);
    BlockKeysSpec(b, c, kind, render);
    KeysOfAppend([(FName, Line("File", name))], es.value);
  }

  /** A dictionary that Versa_reader completes holds its keys in this
      order: 'F_name', 'Date', 'Time', 'kV', 'uA', 'Power', 'imgs', 'rot',
      'exposure', 'objlens', 'XFilt', 'Vox_size', 'cone', 'D_bin',
      'fr_avg', 'beam_h', 'Src', 'Det', the three stage positions, then
      the mode keys. */
  lemma VersaKeys(c: Container, name: string, kind: VersaKind, render: FExpr -> string)
    requires VersaSpec(c, name, kind, render).Ok?
    ensures KeysOf(VersaSpec(c, name, kind, render).value)
      == [FName, Date, Time, KV, UA, Power, Imgs, Rot, Exposure, ObjLens, XFilt, VoxSize,
          Cone, DBin, FrAvg, BeamH, Src, Det, XAx, YAx, ZAx] + AcquisitionKeys(c, kind)
  {
    NamedKeys(Whole, c, name, kind, render);
    NamedWholeKeys(c, kind, BlockKeys(Whole, c, kind));
  }

  /** The file name's key before those of every later assignment. */
  lemma NamedWholeKeys(c: Container, kind: VersaKind, tail: seq<Key>)
    requires tail == BlockKeys(Whole, c, kind)
    ensures [FName] + tail
      == [FName, Date, Time, KV, UA, Power, Imgs, Rot, Exposure, ObjLens, XFilt, VoxSize,
          Cone, DBin, FrAvg, BeamH, Src, Det, XAx, YAx, ZAx] + AcquisitionKeys(c, kind)
  {
    WholeKeys(c, kind);
    NamedFixedKeys(AcquisitionKeys(c, kind));
  }

  lemma NamedFixedKeys(acq: seq<Key>)
    ensures [FName] + ([Date, Time, KV, UA, Power, Imgs, Rot, Exposure, ObjLens, XFilt, VoxSize,
                        Cone, DBin, FrAvg, BeamH, Src, Det, XAx, YAx, ZAx] + acq)
      == [FName, Date, Time, KV, UA, Power, Imgs, Rot, Exposure, ObjLens, XFilt, VoxSize,
          Cone, DBin, FrAvg, BeamH, Src, Det, XAx, YAx, ZAx] + acq
  {
  }

  /** A completed .txrm dictionary holds 25 entries, a .txm one 21 or
      23. */
  lemma VersaEntryCount(c: Container, name: string, kind: VersaKind, render: FExpr -> string)
    requires VersaSpec(c, name, kind, render).Ok?
    ensures kind == Txrm ==> |VersaSpec(c, name, kind, render).value| == 25
    ensures kind == Txm ==> |VersaSpec(c, name, kind, render).value| in {21, 23}
  {
    VersaKeys(c, name, kind, render);
  }

  /** Without its 'ImageInfo/Date' stream the reader stops at the first
      read, with that stream's error. */
  lemma VersaMissingDate(c: Container, name: string, kind: VersaKind, render: FExpr -> string)
    requires !Exists(c, "ImageInfo/Date")
    ensures VersaSpec(c, name, kind, render) == Err(StreamNotFound("ImageInfo/Date"))
  {
    StreamUnpackerSpec(c, "ImageInfo/Date", RawBytes);
    var stamp := BlockEntries(Group(Stamp), c, kind, render);
    assert stamp == Err(StreamNotFound("ImageInfo/Date"));
    ThenSpec(stamp, BlockEntries(Group(Source), c, kind, render), stamp);
    ThenSpec(BlockEntries(Header, c, kind, render), BlockEntries(Scan, c, kind, render), stamp);
    ThenSpec(BlockEntries(Front, c, kind, render), BlockEntries(Back, c, kind, render), stamp);
    ThenSpec(Ok([(FName, Line("File", name))]), BlockEntries(Whole, c, kind, render), stamp);
  }

  /** The date entry is the stamp's first ten characters, MM/DD/YYYY,
      written as DD/MM/YYYY (a one-digit day loses its leading zero). */
  lemma VersaDateText(stamp: seq<byte>)
    requires DateText(stamp).Ok?
    ensures var s := Ascii(Slice(stamp, 0, 10)).value;
      DateText(stamp).value == DayDigits(s[3], s[4]) + "/" + s[0..2] + "/" + s[6..10]
  {
    VersaDateRearranged(Ascii(Slice(stamp, 0, 10)).value);
  }

  /** A .txm acquisition-mode code other than 17 and 10 adds no entries and
      reads nothing more. */
  lemma TxmOtherCode(c: Container)
    requires ReadInt(c, "ImageInfo/AcquisitionMode").Ok?
    requires ReadInt(c, "ImageInfo/AcquisitionMode").value !in {10, 17}
    ensures TxmMode(c) == Ok([])
  {
  }

  /** Code 17 is wide and 10 is not; with the stitch flag they fix the mode
      entries. */
  lemma TxmModeCodes(c: Container)
    requires ReadInt(c, "ImageInfo/AcquisitionMode").Ok? && ReadBool(c, EnabledPath).Ok?
    ensures ReadInt(c, "ImageInfo/AcquisitionMode").value == 17 ==>
      TxmMode(c) == ModeEntries(c, true, ReadBool(c, EnabledPath).value, SegmentsPath)
    ensures ReadInt(c, "ImageInfo/AcquisitionMode").value == 10 ==>
      TxmMode(c) == ModeEntries(c, false, ReadBool(c, EnabledPath).value, SegmentsPath)
  {
  }

  /** Versa_reader writes one file for output option 1 or 2, named
      f'{stem}_txrm' or f'{stem}_txm' with the option's extension and
      holding the dictionary's values, and none for any other option. */
  lemma VersaOutputFile(c: Container, stem: string, kind: VersaKind, out: int, render: FExpr -> string)
    requires VersaOutput(c, stem, kind, out, render).Ok?
    ensures VersaSpec(c, stem + Suffix(kind), kind, render).Ok?
    ensures var fs := VersaOutput(c, stem, kind, out, render).value;
      var values := ValuesOf(VersaSpec(c, stem + Suffix(kind), kind, render).value);
      var base := stem + "_" + (if kind == Txrm then "txrm" else "txm");
      && |fs| == (if out == 1 || out == 2 then 1 else 0)
      && (out == 1 ==> fs[0] == OutFile(base + ".txt", TxtText(values)))
      && (out == 2 ==> fs[0] == OutFile(base + ".csv", ReplaceChar(TxtText(values), '\t', ',')))
  {
    var values := ValuesOf(VersaSpec(c, stem + Suffix(kind), kind, render).value);
    assert Suffix(kind)[1..] == if kind == Txrm then "txrm" else "txm";
    OutputFilesSpec(stem + "_" + Suffix(kind)[1..], out, values);
  }
}
