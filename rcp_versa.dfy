/** Versa_reader: the scan parameters of a .txrm (projection) or .txm
    (reconstruction) file, assigned to the parameter dictionary in a fixed
    order, with reads that depend on the file kind, and then written out.
    The first read that fails ends the reader with that error, and nothing
    is written. */
module RcpVersa {

  import opened Common
  import opened Text
  import opened Ole
  import opened Fields
  import opened RcpText
  import opened RcpStreams
  import opened RcpDict
  import opened RcpEntries
  import opened RcpOutput

  /** The two Versa file kinds, told apart by the file suffix. */
  datatype VersaKind = Txrm | Txm

  function Suffix(kind: VersaKind): string
  {
    if kind == Txrm then ".txrm" else ".txm"
  }

  const EnabledPath := "ReconSettings/StitchParams/AutoStitchSettings/Enabled"
  const SegmentsPath := "ReconSettings/StitchParams/AutoStitchSettings/NumSegments"

  // ----- the values whose reads depend on the kind -----

  /** Projections taken: 'ImageInfo/ImagesTaken' for .txrm,
      'AutoRecon/NumOfProjects' for .txm. */
  function ProjectionsPath(kind: VersaKind): string
  {
    if kind == Txrm then "ImageInfo/ImagesTaken" else "AutoRecon/NumOfProjects"
  }

  /** Rotation: round(AngleSpan, 0) for .txm, round(|End| + |Start|) for .txrm. */
  function Rotation(c: Container, kind: VersaKind, render: FExpr -> string): Result<string>
  {
    if kind == Txm then RoundedText(c, "AutoRecon/AngleSpan", 0, render)
    else TurnText(c, "AcquisitionSettings/EndAngle", "AcquisitionSettings/StartAngle", render)
  }

  /** Exposure, round 2: 'AcquisitionSettings/ExpTime' for .txrm; for .txm
      the second '<f' of 'Imageinfo/ExpTimes' (offset 4). */
  function ExposureText(c: Container, kind: VersaKind, render: FExpr -> string): Result<string>
  {
    if kind == Txrm then RoundedText(c, "AcquisitionSettings/ExpTime", 2, render)
    else RoundedAtText(c, "Imageinfo/ExpTimes", 4, 2, render)
  }

  /** The objective name: decoded, its last 256 characters dropped, and
      cut after the first 'X' (the whole text when there is none). */
  function ObjectiveText(c: Container): Result<string>
  {
    var raw :- ReadRaw(c, "ImageInfo/ObjectiveName");
    Ok(ThroughFirst(DropLast(Ibm855(raw), 256), 'X'))
  }

  function FilterPath(kind: VersaKind): string
  {
    if kind == Txrm then "AcquisitionSettings/SourceFilterName" else "ImageInfo/SourceFilterName"
  }

  /** Source distance, round 2: /1000 for .txm, its absolute value for .txrm. */
  function SourceText(s: Float32, kind: VersaKind): FExpr
  {
    if kind == Txm then Round(Div(Field(s), Int(1000)), 2) else Round(Abs(Field(s)), 2)
  }

  /** Detector distance, round 2: /1000 for .txm, as read for .txrm. */
  function DetectorText(s: Float32, kind: VersaKind): FExpr
  {
    if kind == Txm then Round(Div(Field(s), Int(1000)), 2) else Round(Field(s), 2)
  }

  /** The date: the first 10 bytes of the stamp as MM/DD/YYYY, written
      back as DD/MM/YYYY. */
  function DateText(stamp: seq<byte>): Result<string>
  {
    var text :- Ascii(Slice(stamp, 0, 10));
    var date :- ParseMdy(text);
    Ok(DmyText(date))
  }

  // ----- the groups of assignments, in the reader's order -----

  /** Date and time from 'ImageInfo/Date': the time is bytes 11 to 19 of
      the same stream, as text. */
  function VersaStamp(c: Container): (r: Result<seq<Entry>>)
    ensures r.Ok? ==> KeysOf(r.value) == [Date, Time]
  {
    var stamp :- ReadRaw(c, "ImageInfo/Date");
    var date :- DateText(stamp);
    var time :- Ascii(Slice(stamp, 11, 19));
    Ok([(Date, Line("Date", date)), (Time, Line("Time", time))])
  }

  method PutVersaStamp(d: ParamDict, c: Container, kind: VersaKind, render: FExpr -> string) returns (r: Result<()>)
    requires d.Valid() && d.Below(Date)
    modifies d
    ensures Extends(d, old(d.entries), KV, BlockEntries(Group(Stamp), c, kind, render), r)
  {
    var stamp :- ReadRaw(c, "ImageInfo/Date");
    var date :- DateText(stamp);
    d.Add(Date, Line("Date", date));
    var time :- Ascii(Slice(stamp, 11, 19));
    d.Add(Time, Line("Time", time));
    r := Ok(());
  }

  /** Voltage, current and power = round(volts * (curr / 1000), 1). */
  function VersaSource(c: Container, render: FExpr -> string): (r: Result<seq<Entry>>)
    ensures r.Ok? ==> KeysOf(r.value) == [KV, UA, Power]
  {
    var volts :- ReadFloat(c, "ImageInfo/Voltage");
    var curr :- ReadFloat(c, "ImageInfo/Current");
    Ok([(KV, Line("kV", render(Field(volts)))), (UA, Line("uA", render(Field(curr)))),
        (Power, Line("Power (W)", render(Round(Mul(Field(volts), Div(Field(curr), Int(1000))), 1))))])
  }

  method PutVersaSource(d: ParamDict, c: Container, kind: VersaKind, render: FExpr -> string) returns (r: Result<()>)
    requires d.Valid() && d.Below(KV)
    modifies d
    ensures Extends(d, old(d.entries), Imgs, BlockEntries(Group(Source), c, kind, render), r)
  {
    var volts :- ReadFloat(c, "ImageInfo/Voltage");
    d.Add(KV, Line("kV", render(Field(volts))));
    var curr :- ReadFloat(c, "ImageInfo/Current");
    d.Add(UA, Line("uA", render(Field(curr))));
    d.Add(Power, Line("Power (W)", render(Round(Mul(Field(volts), Div(Field(curr), Int(1000))), 1))));
    r := Ok(());
  }

  /** Projections taken and rotation. */
  function VersaTurn(c: Container, kind: VersaKind, render: FExpr -> string): (r: Result<seq<Entry>>)
    ensures r.Ok? ==> KeysOf(r.value) == [Imgs, Rot]
    ensures r.Ok? && kind == Txrm ==>
      && ReadFloat(c, "AcquisitionSettings/EndAngle").Ok? && !IsNonFinite(ReadFloat(c, "AcquisitionSettings/EndAngle").value)
      && ReadFloat(c, "AcquisitionSettings/StartAngle").Ok? && !IsNonFinite(ReadFloat(c, "AcquisitionSettings/StartAngle").value)
  {
    var proj :- IntText(c, ProjectionsPath(kind));
    var rot :- Rotation(c, kind, render);
    Ok([(Imgs, Line("Projections taken", proj)), (Rot, Line("Rotation (deg)", rot))])
  }

  method PutVersaTurn(d: ParamDict, c: Container, kind: VersaKind, render: FExpr -> string) returns (r: Result<()>)
    requires d.Valid() && d.Below(Imgs)
    modifies d
    ensures Extends(d, old(d.entries), Exposure, BlockEntries(Group(Turn), c, kind, render), r)
  {
    var proj :- IntText(c, ProjectionsPath(kind));
    d.Add(Imgs, Line("Projections taken", proj));
    var rot :- Rotation(c, kind, render);
    d.Add(Rot, Line("Rotation (deg)", rot));
    r := Ok(());
  }

  /** Exposure. */
  function VersaTiming(c: Container, kind: VersaKind, render: FExpr -> string): (r: Result<seq<Entry>>)
    ensures r.Ok? ==> KeysOf(r.value) == [Exposure]
  {
    var exp :- ExposureText(c, kind, render);
    Ok([(Exposure, Line("Exposure (secs)", exp))])
  }

  method PutVersaTiming(d: ParamDict, c: Container, kind: VersaKind, render: FExpr -> string) returns (r: Result<()>)
    requires d.Valid() && d.Below(Exposure)
    modifies d
    ensures Extends(d, old(d.entries), ObjLens, BlockEntries(Group(Timing), c, kind, render), r)
  {
    var exp :- ExposureText(c, kind, render);
    d.Add(Exposure, Line("Exposure (secs)", exp));
    r := Ok(());
  }

  /** Objective and filter (its last 257 characters dropped). */
  function VersaOptics(c: Container, kind: VersaKind, render: FExpr -> string): (r: Result<seq<Entry>>)
    ensures r.Ok? ==> KeysOf(r.value) == [ObjLens, XFilt]
  {
    var mag :- ObjectiveText(c);
    var filt :- TrimmedText(c, FilterPath(kind), 257);
    Ok([(ObjLens, Line("Objective lens", mag)), (XFilt, Line("Filter", filt))])
  }

  method PutVersaOptics(d: ParamDict, c: Container, kind: VersaKind, render: FExpr -> string) returns (r: Result<()>)
    requires d.Valid() && d.Below(ObjLens)
    modifies d
    ensures Extends(d, old(d.entries), VoxSize, BlockEntries(Group(Optics), c, kind, render), r)
  {
    var mag :- ObjectiveText(c);
    d.Add(ObjLens, Line("Objective lens", mag));
    var filt :- TrimmedText(c, FilterPath(kind), 257);
    d.Add(XFilt, Line("Filter", filt));
    r := Ok(());
  }

  /** Voxel size: 'ImageInfo/PixelSize', round 2. */
  function VersaPixel(c: Container, render: FExpr -> string): (r: Result<seq<Entry>>)
    ensures r.Ok? ==> KeysOf(r.value) == [VoxSize]
  {
    var px :- RoundedText(c, "ImageInfo/PixelSize", 2, render);
    Ok([(VoxSize, Line("Voxel size (um)", px))])
  }

  method PutVersaPixel(d: ParamDict, c: Container, kind: VersaKind, render: FExpr -> string) returns (r: Result<()>)
    requires d.Valid() && d.Below(VoxSize)
    modifies d
    ensures Extends(d, old(d.entries), Cone, BlockEntries(Group(Pixel), c, kind, render), r)
  {
    var px :- RoundedText(c, "ImageInfo/PixelSize", 2, render);
    d.Add(VoxSize, Line("Voxel size (um)", px));
    r := Ok(());
  }

  /** Cone angle (first '<f' of 'ImageInfo/ConeAngle', round 2) and binning. */
  function VersaDetector(c: Container, render: FExpr -> string): (r: Result<seq<Entry>>)
    ensures r.Ok? ==> KeysOf(r.value) == [Cone, DBin]
  {
    var cone :- RoundedAtText(c, "ImageInfo/ConeAngle", 0, 2, render);
    var binning :- IntText(c, "ImageInfo/CameraBinning");
    Ok([(Cone, Line("Cone angle (deg)", cone)), (DBin, Line("Binning", binning))])
  }

  method PutVersaDetector(d: ParamDict, c: Container, kind: VersaKind, render: FExpr -> string) returns (r: Result<()>)
    requires d.Valid() && d.Below(Cone)
    modifies d
    ensures Extends(d, old(d.entries), FrAvg, BlockEntries(Group(Detector), c, kind, render), r)
  {
    var cone :- RoundedAtText(c, "ImageInfo/ConeAngle", 0, 2, render);
    d.Add(Cone, Line("Cone angle (deg)", cone));
    var binning :- IntText(c, "ImageInfo/CameraBinning");
    d.Add(DBin, Line("Binning", binning));
    r := Ok(());
  }

  /** Frame averaging and beam hardening (round 2). */
  function VersaFrames(c: Container, render: FExpr -> string): (r: Result<seq<Entry>>)
    ensures r.Ok? ==> KeysOf(r.value) == [FrAvg, BeamH]
  {
    var frames :- IntText(c, "ImageInfo/CameraNumberOfFramesPerImage");
    var bh :- RoundedText(c, "ReconSettings/BeamHardening", 2, render);
    Ok([(FrAvg, Line("Frame Averaging", frames)), (BeamH, Line("Beam Hardening", bh))])
  }

  method PutVersaFrames(d: ParamDict, c: Container, kind: VersaKind, render: FExpr -> string) returns (r: Result<()>)
    requires d.Valid() && d.Below(FrAvg)
    modifies d
    ensures Extends(d, old(d.entries), Src, BlockEntries(Group(Frames), c, kind, render), r)
  {
    var frames :- IntText(c, "ImageInfo/CameraNumberOfFramesPerImage");
    d.Add(FrAvg, Line("Frame Averaging", frames));
    var bh :- RoundedText(c, "ReconSettings/BeamHardening", 2, render);
    d.Add(BeamH, Line("Beam Hardening", bh));
    r := Ok(());
  }

  /** Source and detector distances (first '<f' of each stream). */
  function VersaDistances(c: Container, kind: VersaKind, render: FExpr -> string): (r: Result<seq<Entry>>)
    ensures r.Ok? ==> KeysOf(r.value) == [Src, Det]
  {
    var src :- ReadFloatAt(c, "ImageInfo/StoRADistance", 0);
    var det :- ReadFloatAt(c, "ImageInfo/DtoRADistance", 0);
    Ok([(Src, Line("Src-Obj distance (mm)", render(SourceText(src, kind)))),
        (Det, Line("Det-Obj distance (mm)", render(DetectorText(det, kind))))])
  }

  method PutVersaDistances(d: ParamDict, c: Container, kind: VersaKind, render: FExpr -> string) returns (r: Result<()>)
    requires d.Valid() && d.Below(Src)
    modifies d
    ensures Extends(d, old(d.entries), XAx, BlockEntries(Group(Distances), c, kind, render), r)
  {
    var src :- ReadFloatAt(c, "ImageInfo/StoRADistance", 0);
    d.Add(Src, Line("Src-Obj distance (mm)", render(SourceText(src, kind))));
    var det :- ReadFloatAt(c, "ImageInfo/DtoRADistance", 0);
    d.Add(Det, Line("Det-Obj distance (mm)", render(DetectorText(det, kind))));
    r := Ok(());
  }

  /** The X, Y, Z stage positions (first '<f' of each stream, round 2). */
  function VersaStage(c: Container, render: FExpr -> string): (r: Result<seq<Entry>>)
    ensures r.Ok? ==> KeysOf(r.value) == [XAx, YAx, ZAx]
  {
    var x :- RoundedAtText(c, "ImageInfo/XPosition", 0, 2, render);
    var y :- RoundedAtText(c, "ImageInfo/YPosition", 0, 2, render);
    var z :- RoundedAtText(c, "ImageInfo/ZPosition", 0, 2, render);
    Ok([(XAx, Line("X position (um)", x)), (YAx, Line("Y position (um)", y)), (ZAx, Line("Z position (um)", z))])
  }

  method PutVersaStage(d: ParamDict, c: Container, kind: VersaKind, render: FExpr -> string) returns (r: Result<()>)
    requires d.Valid() && d.Below(XAx)
    modifies d
    ensures Extends(d, old(d.entries), AcqMode, BlockEntries(Group(Stage), c, kind, render), r)
  {
    assert BlockEntries(Group(Stage), c, kind, render) == VersaStage(c, render);
    var x :- RoundedAtText(c, "ImageInfo/XPosition", 0, 2, render);
    d.Add(XAx, Line("X position (um)", x));
    var y :- RoundedAtText(c, "ImageInfo/YPosition", 0, 2, render);
    d.Add(YAx, Line("Y position (um)", y));
    var z :- RoundedAtText(c, "ImageInfo/ZPosition", 0, 2, render);
    d.Add(ZAx, Line("Z position (um)", z));
    r := Ok(());
  }

  /** The .txm mode block: acquisition-mode code 17 is wide and 10 is not;
      for either the stitch flag decides the rest, and any other code adds
      no entries. */
  function TxmMode(c: Container): (r: Result<seq<Entry>>)
    ensures r.Ok? ==> ReadInt(c, "ImageInfo/AcquisitionMode").Ok?
    ensures r.Ok? ==> KeysOf(r.value) == if ReadInt(c, "ImageInfo/AcquisitionMode").value in {10, 17} then [AcqMode, Segments] else []
  {
    var code :- ReadInt(c, "ImageInfo/AcquisitionMode");
    if code == 17 || code == 10 then
      var stitch :- ReadBool(c, EnabledPath);
      ModeEntries(c, code == 17, stitch, SegmentsPath)
    else Ok([])
  }

  method PutTxmMode(d: ParamDict, c: Container) returns (r: Result<()>)
    requires d.Valid() && d.Below(AcqMode)
    modifies d
    ensures Extends(d, old(d.entries), Hart, TxmMode(c), r)
  {
    var code :- ReadInt(c, "ImageInfo/AcquisitionMode");
    if code == 17 {
      var stitch :- ReadBool(c, EnabledPath);
      r := PutModeEntries(d, c, true, stitch, SegmentsPath);
    } else if code == 10 {
      var stitch :- ReadBool(c, EnabledPath);
      r := PutModeEntries(d, c, false, stitch, SegmentsPath);
    } else {
      r := Ok(());
    }
  }

  /** The mode block: for .txrm the mode string and stitch flag, then HART
      and variable exposure; for .txm the acquisition-mode code. */
  function VersaMode(c: Container, kind: VersaKind): (r: Result<seq<Entry>>)
    ensures r.Ok? && kind == Txrm ==> KeysOf(r.value) == [AcqMode, Segments, Hart, VExp]
  {
    if kind == Txm then TxmMode(c)
    else
      var mode :- StitchModeEntries(c, "AcquisitionSettings/AcqModeString", EnabledPath, SegmentsPath);
      var hart :- FlagEntries(c, "AcquisitionSettings/VariableAngleMode", Hart, "HART");
      var vexp :- FlagEntries(c, "AcquisitionSettings/VariableExposureTimeMode", VExp, "Variable exposure");
      Ok(mode + hart + vexp)
  }

  method PutVersaMode(d: ParamDict, c: Container, kind: VersaKind, render: FExpr -> string) returns (r: Result<()>)
    requires d.Valid() && d.Below(AcqMode)
    modifies d
    ensures Extends(d, old(d.entries), KeyCount, BlockEntries(Group(Acquisition), c, kind, render), r)
  {
    if kind == Txm {
      r := PutTxmMode(d, c);
    } else {
      r := PutTxrmMode(d, c);
    }
  }

  method PutTxrmMode(d: ParamDict, c: Container) returns (r: Result<()>)
    requires d.Valid() && d.Below(AcqMode)
    modifies d
    ensures Extends(d, old(d.entries), KeyCount, VersaMode(c, Txrm), r)
  {
    var m := PutStitchMode(d, c, "AcquisitionSettings/AcqModeString", EnabledPath, SegmentsPath);
    if m.Err? {
      return Err(m.error);
    }
    var h := PutFlag(d, c, "AcquisitionSettings/VariableAngleMode", Hart, "HART");
    if h.Err? {
      return Err(h.error);
    }
    var v := PutFlag(d, c, "AcquisitionSettings/VariableExposureTimeMode", VExp, "Variable exposure");
    if v.Err? {
      return Err(v.error);
    }
    r := Ok(());
  }

  // ----- the groups put together -----

  /** The groups of assignments above. */
  datatype VersaGroup = Stamp | Source | Turn | Timing | Optics | Pixel | Detector | Frames | Distances | Stage | Acquisition

  /** A block of assignments: one group, or two blocks run one after the
      other. */
  datatype VersaBlock = Group(g: VersaGroup) | Pair(first: VersaBlock, second: VersaBlock)

  const Header := Pair(Group(Stamp), Group(Source))
  const Timed := Pair(Group(Turn), Group(Timing))
  const Imaging := Pair(Group(Optics), Group(Pixel))
  const Scan := Pair(Timed, Imaging)
  const Settings := Pair(Group(Detector), Group(Frames))
  const Positions := Pair(Group(Distances), Group(Stage))
  const Front := Pair(Header, Scan)
  const Rig := Pair(Settings, Positions)
  const Back := Pair(Rig, Group(Acquisition))
  /** Every assignment after the file name, in the reader's order. */
  const Whole := Pair(Front, Back)

  /** The entries of a group, or the first read in it that fails. */
  function GroupEntries(g: VersaGroup, c: Container, kind: VersaKind, render: FExpr -> string): Result<seq<Entry>>
  {
    match g
    case Stamp => VersaStamp(c)
    case Source => VersaSource(c, render)
    case Turn => VersaTurn(c, kind, render)
    case Timing => VersaTiming(c, kind, render)
    case Optics => VersaOptics(c, kind, render)
    case Pixel => VersaPixel(c, render)
    case Detector => VersaDetector(c, render)
    case Frames => VersaFrames(c, render)
    case Distances => VersaDistances(c, kind, render)
    case Stage => VersaStage(c, render)
    case Acquisition => VersaMode(c, kind)
  }

  /** The entries of a block, or the first read in it that fails. */
  function BlockEntries(b: VersaBlock, c: Container, kind: VersaKind, render: FExpr -> string): Result<seq<Entry>>
  {
    match b
    case Group(g) => GroupEntries(g, c, kind, render)
    case Pair(x, y) => Then(BlockEntries(x, c, kind, render), BlockEntries(y, c, kind, render))
  }

  /** The source settings: date and time, then voltage, current and power. */
  method PutVersaHeader(d: ParamDict, c: Container, kind: VersaKind, render: FExpr -> string) returns (r: Result<()>)
    requires d.Valid() && d.Below(Date)
    modifies d
    ensures Extends(d, old(d.entries), Imgs, BlockEntries(Header, c, kind, render), r)
  {
    ghost var e0 := d.entries;
    r := PutVersaStamp(d, c, kind, render);
    if r.Ok? {
      ghost var e1 := d.entries;
      r := PutVersaSource(d, c, kind, render);
      AppendsBoth(e0, e1, d.entries, BlockEntries(Group(Stamp), c, kind, render), BlockEntries(Group(Source), c, kind, render), r);
    } else {
      AppendsFirstFails(d.entries, e0, BlockEntries(Group(Stamp), c, kind, render), BlockEntries(Group(Source), c, kind, render), r);
    }
  }

  /** Projections and rotation, then exposure. */
  method PutVersaTimed(d: ParamDict, c: Container, kind: VersaKind, render: FExpr -> string) returns (r: Result<()>)
    requires d.Valid() && d.Below(Imgs)
    modifies d
    ensures Extends(d, old(d.entries), ObjLens, BlockEntries(Timed, c, kind, render), r)
  {
    ghost var e0 := d.entries;
    r := PutVersaTurn(d, c, kind, render);
    if r.Ok? {
      ghost var e1 := d.entries;
      r := PutVersaTiming(d, c, kind, render);
      AppendsBoth(e0, e1, d.entries, BlockEntries(Group(Turn), c, kind, render), BlockEntries(Group(Timing), c, kind, render), r);
    } else {
      AppendsFirstFails(d.entries, e0, BlockEntries(Group(Turn), c, kind, render), BlockEntries(Group(Timing), c, kind, render), r);
    }
  }

  /** Objective and filter, then voxel size. */
  method PutVersaImaging(d: ParamDict, c: Container, kind: VersaKind, render: FExpr -> string) returns (r: Result<()>)
    requires d.Valid() && d.Below(ObjLens)
    modifies d
    ensures Extends(d, old(d.entries), Cone, BlockEntries(Imaging, c, kind, render), r)
  {
    ghost var e0 := d.entries;
    r := PutVersaOptics(d, c, kind, render);
    if r.Ok? {
      ghost var e1 := d.entries;
      r := PutVersaPixel(d, c, kind, render);
      AppendsBoth(e0, e1, d.entries, BlockEntries(Group(Optics), c, kind, render), BlockEntries(Group(Pixel), c, kind, render), r);
    } else {
      AppendsFirstFails(d.entries, e0, BlockEntries(Group(Optics), c, kind, render), BlockEntries(Group(Pixel), c, kind, render), r);
    }
  }

  /** The scan settings: projections, rotation and exposure, then the optics. */
  method PutVersaScan(d: ParamDict, c: Container, kind: VersaKind, render: FExpr -> string) returns (r: Result<()>)
    requires d.Valid() && d.Below(Imgs)
    modifies d
    ensures Extends(d, old(d.entries), Cone, BlockEntries(Scan, c, kind, render), r)
  {
    ghost var e0 := d.entries;
    r := PutVersaTimed(d, c, kind, render);
    if r.Ok? {
      ghost var e1 := d.entries;
      r := PutVersaImaging(d, c, kind, render);
      AppendsBoth(e0, e1, d.entries, BlockEntries(Timed, c, kind, render), BlockEntries(Imaging, c, kind, render), r);
    } else {
      AppendsFirstFails(d.entries, e0, BlockEntries(Timed, c, kind, render), BlockEntries(Imaging, c, kind, render), r);
    }
  }

  /** The distances, then the stage positions. */
  method PutVersaPositions(d: ParamDict, c: Container, kind: VersaKind, render: FExpr -> string) returns (r: Result<()>)
    requires d.Valid() && d.Below(Src)
    modifies d
    ensures Extends(d, old(d.entries), AcqMode, BlockEntries(Positions, c, kind, render), r)
  {
    ghost var e0 := d.entries;
    r := PutVersaDistances(d, c, kind, render);
    if r.Ok? {
      ghost var e1 := d.entries;
      r := PutVersaStage(d, c, kind, render);
      AppendsBoth(e0, e1, d.entries, BlockEntries(Group(Distances), c, kind, render), BlockEntries(Group(Stage), c, kind, render), r);
    } else {
      AppendsFirstFails(d.entries, e0, BlockEntries(Group(Distances), c, kind, render), BlockEntries(Group(Stage), c, kind, render), r);
    }
  }

  /** The source settings, then the scan settings. */
  method PutVersaFront(d: ParamDict, c: Container, kind: VersaKind, render: FExpr -> string) returns (r: Result<()>)
    requires d.Valid() && d.Below(Date)
    modifies d
    ensures Extends(d, old(d.entries), Cone, BlockEntries(Front, c, kind, render), r)
  {
    ghost var e0 := d.entries;
    r := PutVersaHeader(d, c, kind, render);
    if r.Ok? {
      ghost var e1 := d.entries;
      r := PutVersaScan(d, c, kind, render);
      AppendsBoth(e0, e1, d.entries, BlockEntries(Header, c, kind, render), BlockEntries(Scan, c, kind, render), r);
    } else {
      AppendsFirstFails(d.entries, e0, BlockEntries(Header, c, kind, render), BlockEntries(Scan, c, kind, render), r);
    }
  }

  /** Cone angle and binning, then frame averaging and beam hardening. */
  method PutVersaSettings(d: ParamDict, c: Container, kind: VersaKind, render: FExpr -> string) returns (r: Result<()>)
    requires d.Valid() && d.Below(Cone)
    modifies d
    ensures Extends(d, old(d.entries), Src, BlockEntries(Settings, c, kind, render), r)
  {
    ghost var e0 := d.entries;
    r := PutVersaDetector(d, c, kind, render);
    if r.Ok? {
      ghost var e1 := d.entries;
      r := PutVersaFrames(d, c, kind, render);
      AppendsBoth(e0, e1, d.entries, BlockEntries(Group(Detector), c, kind, render), BlockEntries(Group(Frames), c, kind, render), r);
    } else {
      AppendsFirstFails(d.entries, e0, BlockEntries(Group(Detector), c, kind, render), BlockEntries(Group(Frames), c, kind, render), r);
    }
  }

  /** The detector settings, then the positions. */
  method PutVersaRig(d: ParamDict, c: Container, kind: VersaKind, render: FExpr -> string) returns (r: Result<()>)
    requires d.Valid() && d.Below(Cone)
    modifies d
    ensures Extends(d, old(d.entries), AcqMode, BlockEntries(Rig, c, kind, render), r)
  {
    ghost var e0 := d.entries;
    r := PutVersaSettings(d, c, kind, render);
    if r.Ok? {
      ghost var e1 := d.entries;
      r := PutVersaPositions(d, c, kind, render);
      AppendsBoth(e0, e1, d.entries, BlockEntries(Settings, c, kind, render), BlockEntries(Positions, c, kind, render), r);
    } else {
      AppendsFirstFails(d.entries, e0, BlockEntries(Settings, c, kind, render), BlockEntries(Positions, c, kind, render), r);
    }
  }

  /** The detector settings and positions, then the mode block. */
  method PutVersaBack(d: ParamDict, c: Container, kind: VersaKind, render: FExpr -> string) returns (r: Result<()>)
    requires d.Valid() && d.Below(Cone)
    modifies d
    ensures Extends(d, old(d.entries), KeyCount, BlockEntries(Back, c, kind, render), r)
  {
    ghost var e0 := d.entries;
    r := PutVersaRig(d, c, kind, render);
    if r.Ok? {
      ghost var e1 := d.entries;
      r := PutVersaMode(d, c, kind, render);
      AppendsBoth(e0, e1, d.entries, BlockEntries(Rig, c, kind, render), BlockEntries(Group(Acquisition), c, kind, render), r);
    } else {
      AppendsFirstFails(d.entries, e0, BlockEntries(Rig, c, kind, render), BlockEntries(Group(Acquisition), c, kind, render), r);
    }
  }

  /** Every entry after the file name. */
  method PutVersaWhole(d: ParamDict, c: Container, kind: VersaKind, render: FExpr -> string) returns (r: Result<()>)
    requires d.Valid() && d.Below(Date)
    modifies d
    ensures Extends(d, old(d.entries), KeyCount, BlockEntries(Whole, c, kind, render), r)
  {
    ghost var e0 := d.entries;
    r := PutVersaFront(d, c, kind, render);
    if r.Ok? {
      ghost var e1 := d.entries;
      r := PutVersaBack(d, c, kind, render);
      AppendsBoth(e0, e1, d.entries, BlockEntries(Front, c, kind, render), BlockEntries(Back, c, kind, render), r);
    } else {
      AppendsFirstFails(d.entries, e0, BlockEntries(Front, c, kind, render), BlockEntries(Back, c, kind, render), r);
    }
  }

  // ----- the whole reader -----

  /** The dictionary Versa_reader builds for the file `name`: the file
      name, then the groups in order; the first failing read is the error. */
  function VersaSpec(c: Container, name: string, kind: VersaKind, render: FExpr -> string): Result<seq<Entry>>
  {
    Then(Ok([(FName, Line("File", name))]), BlockEntries(Whole, c, kind, render))
  }

  /** The files written for `stem` + suffix: the dictionary's values under
      the name f'{stem}_{suffix without its dot}'. */
  function VersaOutput(c: Container, stem: string, kind: VersaKind, out: int, render: FExpr -> string): Result<seq<OutFile>>
  {
    var es :- VersaSpec(c, stem + Suffix(kind), kind, render);
    Ok(OutputFiles(stem + "_" + Suffix(kind)[1..], out, ValuesOf(es)))
  }

  /** Versa_reader(File, out_file) on the file `stem` + suffix: the
      dictionary, then the output file. */
  method VersaReader(c: Container, stem: string, kind: VersaKind, out: int, render: FExpr -> string)
    returns (r: Result<seq<OutFile>>)
    ensures r == VersaOutput(c, stem, kind, out, render)
  {
    var d := new ParamDict();
    d.Add(FName, Line("File", stem + Suffix(kind)));
    var e := PutVersaWhole(d, c, kind, render);
    if e.Err? {
      return Err(e.error);
    }
    var base := stem + "_" + Suffix(kind)[1..];
    var values := d.Values();
    if out == 1 {
      var text := WriteValues(values, false);
      r := Ok([OutFile(base + ".txt", text)]);
    } else if out == 2 {
      var text := WriteValues(values, true);
      r := Ok([OutFile(base + ".csv", text)]);
    } else {
      r := Ok([]);
    }
  }
}
