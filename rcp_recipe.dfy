/** Recipe_reader: the scan parameters of every recipe of a .rcp file. The
    number of recipes is read first; each recipe then gets a dictionary of
    its own, built in a fixed order from the streams under
    'RecipePoint<x>', and its output file is written before the next
    recipe is read. The first read that fails ends the reader, with the
    files of the earlier recipes already written. */
module RcpRecipe {

  import opened Common
  import opened Text
  import opened Ole
  import opened Fields
  import opened RcpText
  import opened RcpStreams
  import opened RcpDict
  import opened RcpEntries
  import opened RcpOutput

  // ----- the streams of recipe x -----

  /** f'RecipePoint{x}/{leaf}'. */
  function PointPath(x: nat, leaf: string): string
  {
    "RecipePoint" + NatToString(x) + "/" + leaf
  }

  /** f'RecipePoint{x}/AcquisitionSettings/{leaf}'. */
  function AcqPath(x: nat, leaf: string): string
  {
    PointPath(x, "AcquisitionSettings/" + leaf)
  }

  /** The record of initial positions: x, y and z at byte offsets 0, 4 and
      8, the source and detector distances at 16 and 20, each a '<f'. */
  const XOffset: nat := 0
  const YOffset: nat := 4
  const ZOffset: nat := 8
  const SourceOffset: nat := 16
  const DetectorOffset: nat := 20

  /** The recipe name: 'PointName' decoded, its last character dropped.
      It names the output file; it is empty when the stream cannot be read,
      in which case the dictionary is never completed. */
  function RecipeName(c: Container, x: nat): string
  {
    match TrimmedText(c, PointPath(x, "PointName"), 1)
    case Ok(name) => name
    case Err(_) => ""
  }

  /** The date: the first 10 bytes of 'TimeStamp' as YYYY-MM-DD, written
      as DD/MM/YYYY. */
  function RecipeDateText(stamp: seq<byte>): Result<string>
  {
    var text :- Ascii(Slice(stamp, 0, 10));
    var date :- ParseYmd(text);
    Ok(DmyText(date))
  }

  /** The time: bytes 11 to 17 of 'TimeStamp' as HHMMSS, written as
      HH:MM:SS. */
  function RecipeTimeText(stamp: seq<byte>): Result<string>
  {
    var text :- Ascii(Slice(stamp, 11, 17));
    var time :- ParseHms(text);
    Ok(HmsText(time))
  }

  /** geom_mag = (|src| + det) / |src|. */
  function Magnification(src: Float32, det: Float32): FExpr
  {
    Div(Add(Abs(Field(src)), Field(det)), Abs(Field(src)))
  }

  /** Px_size = (CCD_size / float(mag[:-1]) / geom_mag) * binning, where
      mag is the objective-lens text. */
  function PixelSize(ccd: Float32, mag: string, src: Float32, det: Float32, binning: int): FExpr
  {
    Mul(Div(Div(Field(ccd), ParseFloat(DropLast(mag, 1))), Magnification(src, det)), Int(binning))
  }

  /** round(2 * asin(detrad / slant), 2) with detrad = Px_size * (2042 /
      binning) and slant = sqrt((|src| + det)**2 + detrad**2). */
  function ConeAngle(px: FExpr, src: Float32, det: Float32, binning: int): FExpr
  {
    var detrad := Mul(px, Div(Int(2042), Int(binning)));
    var slant := Sqrt(Add(Square(Add(Abs(Field(src)), Field(det))), Square(detrad)));
    Round(Mul(Int(2), Asin(Div(detrad, slant))), 2)
  }

  // ----- the groups of assignments, in the reader's order -----

  /** The recipe name. */
  function RecipeTitle(c: Container, x: nat): (r: Result<seq<Entry>>)
    ensures r.Ok? ==> KeysOf(r.value) == [RcpName]
  {
    var name :- TrimmedText(c, PointPath(x, "PointName"), 1);
    Ok([(RcpName, Line("Recipe", name))])
  }

  method PutRecipeTitle(d: ParamDict, c: Container, x: nat, render: FExpr -> string) returns (r: Result<()>)
    requires d.Valid() && d.Below(RcpName)
    modifies d
    ensures Extends(d, old(d.entries), Date, BlockEntries(Group(Title), c, x, render), r)
  {
    var name :- TrimmedText(c, PointPath(x, "PointName"), 1);
    d.Add(RcpName, Line("Recipe", name));
    r := Ok(());
  }

  /** Date and time, from the file's one 'TimeStamp' stream. */
  function RecipeClock(c: Container): (r: Result<seq<Entry>>)
    ensures r.Ok? ==> KeysOf(r.value) == [Date, Time]
  {
    var stamp :- ReadRaw(c, "TimeStamp");
    var date :- RecipeDateText(stamp);
    var time :- RecipeTimeText(stamp);
    Ok([(Date, Line("Date", date)), (Time, Line("Time", time))])
  }

  method PutRecipeClock(d: ParamDict, c: Container, x: nat, render: FExpr -> string) returns (r: Result<()>)
    requires d.Valid() && d.Below(Date)
    modifies d
    ensures Extends(d, old(d.entries), KV, BlockEntries(Group(Clock), c, x, render), r)
  {
    var stamp :- ReadRaw(c, "TimeStamp");
    var date :- RecipeDateText(stamp);
    d.Add(Date, Line("Date", date));
    var time :- RecipeTimeText(stamp);
    d.Add(Time, Line("Time", time));
    r := Ok(());
  }

  /** Voltage, power, then the current derived from them. */
  function RecipeTube(c: Container, x: nat, render: FExpr -> string): (r: Result<seq<Entry>>)
    ensures r.Ok? ==> KeysOf(r.value) == [KV, Power, UA]
  {
    var volts :- ReadFloat(c, AcqPath(x, "SrcVoltage"));
    var watts :- ReadFloat(c, AcqPath(x, "SrcPower"));
    Ok([(KV, Line("kV", render(Field(volts)))), (Power, Line("Power (W)", render(Field(watts)))),
        (UA, Line("uA", RecipeCurrent(volts, watts, render)))])
  }

  method PutRecipeTube(d: ParamDict, c: Container, x: nat, render: FExpr -> string) returns (r: Result<()>)
    requires d.Valid() && d.Below(KV)
    modifies d
    ensures Extends(d, old(d.entries), Imgs, BlockEntries(Group(Tube), c, x, render), r)
  {
    var volts :- ReadFloat(c, AcqPath(x, "SrcVoltage"));
    d.Add(KV, Line("kV", render(Field(volts))));
    var watts :- ReadFloat(c, AcqPath(x, "SrcPower"));
    d.Add(Power, Line("Power (W)", render(Field(watts))));
    d.Add(UA, Line("uA", RecipeCurrent(volts, watts, render)));
    r := Ok(());
  }

  /** Projections taken and rotation round(|end| + |start|). */
  function RecipeTurn(c: Container, x: nat, render: FExpr -> string): (r: Result<seq<Entry>>)
    ensures r.Ok? ==> KeysOf(r.value) == [Imgs, Rot]
    ensures r.Ok? ==>
      && ReadFloat(c, AcqPath(x, "EndAngle")).Ok? && !IsNonFinite(ReadFloat(c, AcqPath(x, "EndAngle")).value)
      && ReadFloat(c, AcqPath(x, "StartAngle")).Ok? && !IsNonFinite(ReadFloat(c, AcqPath(x, "StartAngle")).value)
  {
    var proj :- IntText(c, AcqPath(x, "TotalImages"));
    var rot :- TurnText(c, AcqPath(x, "EndAngle"), AcqPath(x, "StartAngle"), render);
    Ok([(Imgs, Line("Projections taken", proj)), (Rot, Line("Rotation (deg)", rot))])
  }

  method PutRecipeTurn(d: ParamDict, c: Container, x: nat, render: FExpr -> string) returns (r: Result<()>)
    requires d.Valid() && d.Below(Imgs)
    modifies d
    ensures Extends(d, old(d.entries), Exposure, BlockEntries(Group(Turn), c, x, render), r)
  {
    var proj :- IntText(c, AcqPath(x, "TotalImages"));
    d.Add(Imgs, Line("Projections taken", proj));
    var rot :- TurnText(c, AcqPath(x, "EndAngle"), AcqPath(x, "StartAngle"), render);
    d.Add(Rot, Line("Rotation (deg)", rot));
    r := Ok(());
  }

  /** Exposure, round 2. */
  function RecipeTiming(c: Container, x: nat, render: FExpr -> string): (r: Result<seq<Entry>>)
    ensures r.Ok? ==> KeysOf(r.value) == [Exposure]
  {
    var exp :- RoundedText(c, AcqPath(x, "ExpTime"), 2, render);
    Ok([(Exposure, Line("Exposure (secs)", exp))])
  }

  method PutRecipeTiming(d: ParamDict, c: Container, x: nat, render: FExpr -> string) returns (r: Result<()>)
    requires d.Valid() && d.Below(Exposure)
    modifies d
    ensures Extends(d, old(d.entries), ObjLens, BlockEntries(Group(Timing), c, x, render), r)
  {
    var exp :- RoundedText(c, AcqPath(x, "ExpTime"), 2, render);
    d.Add(Exposure, Line("Exposure (secs)", exp));
    r := Ok(());
  }

  /** The magnification text (last character dropped) and the filter (last
      257 characters dropped). */
  function RecipeOptics(c: Container, x: nat): (r: Result<seq<Entry>>)
    ensures r.Ok? ==> KeysOf(r.value) == [ObjLens, XFilt]
  {
    var mag :- TrimmedText(c, PointPath(x, "MagStr"), 1);
    var filt :- TrimmedText(c, AcqPath(x, "SourceFilterName"), 257);
    Ok([(ObjLens, Line("Objective lens", mag)), (XFilt, Line("Filter", filt))])
  }

  method PutRecipeOptics(d: ParamDict, c: Container, x: nat, render: FExpr -> string) returns (r: Result<()>)
    requires d.Valid() && d.Below(ObjLens)
    modifies d
    ensures Extends(d, old(d.entries), VoxSize, BlockEntries(Group(Optics), c, x, render), r)
  {
    var mag :- TrimmedText(c, PointPath(x, "MagStr"), 1);
    d.Add(ObjLens, Line("Objective lens", mag));
    var filt :- TrimmedText(c, AcqPath(x, "SourceFilterName"), 257);
    d.Add(XFilt, Line("Filter", filt));
    r := Ok(());
  }

  /** Binning and frame averaging. The recipe puts the voxel size and the
      cone angle after the distances, so the groups from here to the
      distances leave their keys free. */
  function RecipeFrames(c: Container, x: nat): (r: Result<seq<Entry>>)
    ensures r.Ok? ==> KeysOf(r.value) == [DBin, FrAvg]
  {
    var binning :- IntText(c, AcqPath(x, "Binning"));
    var frames :- IntText(c, AcqPath(x, "FramesPerImage"));
    Ok([(DBin, Line("Binning", binning)), (FrAvg, Line("Frame Averaging", frames))])
  }

  method PutRecipeFrames(d: ParamDict, c: Container, x: nat, render: FExpr -> string) returns (r: Result<()>)
    requires d.Valid() && d.Below(VoxSize)
    modifies d
    ensures Extends(d, old(d.entries), BeamH, BlockEntries(Group(Frames), c, x, render), r)
    ensures r.Ok? ==> d.Skips(VoxSize, DBin, BeamH)
  {
    assert BlockEntries(Group(Frames), c, x, render) == RecipeFrames(c, x);
    var binning :- IntText(c, AcqPath(x, "Binning"));
    d.Add(DBin, Line("Binning", binning));
    var frames :- IntText(c, AcqPath(x, "FramesPerImage"));
    d.Add(FrAvg, Line("Frame Averaging", frames));
    r := Ok(());
  }

  /** Beam hardening, round 2. */
  function RecipeHardening(c: Container, x: nat, render: FExpr -> string): (r: Result<seq<Entry>>)
    ensures r.Ok? ==> KeysOf(r.value) == [BeamH]
  {
    var bh :- RoundedText(c, PointPath(x, "ReconSettings/BeamHardening"), 2, render);
    Ok([(BeamH, Line("Beam Hardening", bh))])
  }

  method PutRecipeHardening(d: ParamDict, c: Container, x: nat, render: FExpr -> string) returns (r: Result<()>)
    requires d.Valid() && d.Skips(VoxSize, DBin, BeamH)
    modifies d
    ensures Extends(d, old(d.entries), Src, BlockEntries(Group(Hardening), c, x, render), r)
    ensures r.Ok? ==> d.Skips(VoxSize, DBin, Src)
  {
    var bh :- RoundedText(c, PointPath(x, "ReconSettings/BeamHardening"), 2, render);
    d.Add(BeamH, Line("Beam Hardening", bh));
    r := Ok(());
  }

  /** The source distance (its absolute value) and the detector distance
      from the initial-position record, round 2. */
  function RecipeDistances(c: Container, x: nat, render: FExpr -> string): (r: Result<seq<Entry>>)
    ensures r.Ok? ==> KeysOf(r.value) == [Src, Det]
  {
    var src :- ReadFloatAt(c, AcqPath(x, "InitialPositions"), SourceOffset);
    var det :- ReadFloatAt(c, AcqPath(x, "InitialPositions"), DetectorOffset);
    Ok([(Src, Line("Src-Obj distance (mm)", render(Round(Abs(Field(src)), 2)))),
        (Det, Line("Det-Obj distance (mm)", render(Round(Field(det), 2))))])
  }

  method PutRecipeDistances(d: ParamDict, c: Container, x: nat, render: FExpr -> string) returns (r: Result<()>)
    requires d.Valid() && d.Skips(VoxSize, DBin, Src)
    modifies d
    ensures Extends(d, old(d.entries), XAx, BlockEntries(Group(Distances), c, x, render), r)
    ensures r.Ok? ==> d.Skips(VoxSize, DBin, XAx)
  {
    var src :- ReadFloatAt(c, AcqPath(x, "InitialPositions"), SourceOffset);
    d.Add(Src, Line("Src-Obj distance (mm)", render(Round(Abs(Field(src)), 2))));
    var det :- ReadFloatAt(c, AcqPath(x, "InitialPositions"), DetectorOffset);
    d.Add(Det, Line("Det-Obj distance (mm)", render(Round(Field(det), 2))));
    r := Ok(());
  }

  /** The voxel size and the cone angle, derived from the two distances,
      the CCD pixel size, the magnification text and the binning (the
      distances, the text and the binning as read by the groups before). A
      zero source distance divides by zero in the magnification, a zero
      binning in the cone angle. */
  function RecipePixel(c: Container, x: nat, render: FExpr -> string): (r: Result<seq<Entry>>)
    ensures r.Ok? ==> KeysOf(r.value) == [VoxSize, Cone]
  {
    var src :- ReadFloatAt(c, AcqPath(x, "InitialPositions"), SourceOffset);
    var det :- ReadFloatAt(c, AcqPath(x, "InitialPositions"), DetectorOffset);
    var ccd :- ReadFloat(c, AcqPath(x, "CCDPixelSize"));
    if IsZero(src) then Err(ZeroDivision)
    else
      var mag :- TrimmedText(c, PointPath(x, "MagStr"), 1);
      var binning :- ReadInt(c, AcqPath(x, "Binning"));
      var px := PixelSize(ccd, mag, src, det, binning);
      if binning == 0 then Err(ZeroDivision)
      else
        Ok([(VoxSize, Line("Voxel size (um)", render(Round(px, 2)))),
            (Cone, Line("Cone angle (deg)", render(ConeAngle(px, src, det, binning))))])
  }

  method PutRecipePixel(d: ParamDict, c: Container, x: nat, render: FExpr -> string) returns (r: Result<()>)
    requires d.Valid() && d.Skips(VoxSize, DBin, XAx)
    modifies d
    ensures Extends(d, old(d.entries), XAx, BlockEntries(Group(Pixel), c, x, render), r)
  {
    var src :- ReadFloatAt(c, AcqPath(x, "InitialPositions"), SourceOffset);
    var det :- ReadFloatAt(c, AcqPath(x, "InitialPositions"), DetectorOffset);
    var ccd :- ReadFloat(c, AcqPath(x, "CCDPixelSize"));
    if IsZero(src) {
      return Err(ZeroDivision);
    }
    var mag :- TrimmedText(c, PointPath(x, "MagStr"), 1);
    var binning :- ReadInt(c, AcqPath(x, "Binning"));
    var px := PixelSize(ccd, mag, src, det, binning);
    d.Add(VoxSize, Line("Voxel size (um)", render(Round(px, 2))));
    if binning == 0 {
      return Err(ZeroDivision);
    }
    d.Add(Cone, Line("Cone angle (deg)", render(ConeAngle(px, src, det, binning))));
    r := Ok(());
  }

  /** The X, Y, Z positions from the initial-position record, round 2. */
  function RecipeStage(c: Container, x: nat, render: FExpr -> string): (r: Result<seq<Entry>>)
    ensures r.Ok? ==> KeysOf(r.value) == [XAx, YAx, ZAx]
  {
    var px :- RoundedAtText(c, AcqPath(x, "InitialPositions"), XOffset, 2, render);
    var py :- RoundedAtText(c, AcqPath(x, "InitialPositions"), YOffset, 2, render);
    var pz :- RoundedAtText(c, AcqPath(x, "InitialPositions"), ZOffset, 2, render);
    Ok([(XAx, Line("X position (um)", px)), (YAx, Line("Y position (um)", py)), (ZAx, Line("Z position (um)", pz))])
  }

  method PutRecipeStage(d: ParamDict, c: Container, x: nat, render: FExpr -> string) returns (r: Result<()>)
    requires d.Valid() && d.Below(XAx)
    modifies d
    ensures Extends(d, old(d.entries), AcqMode, BlockEntries(Group(Stage), c, x, render), r)
  {
    var px :- RoundedAtText(c, AcqPath(x, "InitialPositions"), XOffset, 2, render);
    d.Add(XAx, Line("X position (um)", px));
    var py :- RoundedAtText(c, AcqPath(x, "InitialPositions"), YOffset, 2, render);
    d.Add(YAx, Line("Y position (um)", py));
    var pz :- RoundedAtText(c, AcqPath(x, "InitialPositions"), ZOffset, 2, render);
    d.Add(ZAx, Line("Z position (um)", pz));
    r := Ok(());
  }

  /** The mode block: the mode string and the stitch flag under
      'AutoStitchSettings', then HART and variable exposure. */
  function RecipeMode(c: Container, x: nat): (r: Result<seq<Entry>>)
    ensures r.Ok? ==> KeysOf(r.value) == [AcqMode, Segments, Hart, VExp]
  {
    var mode :- StitchModeEntries(c, AcqPath(x, "AcqModeString"), PointPath(x, "AutoStitchSettings/Enabled"),
                                  PointPath(x, "AutoStitchSettings/NumSegments"));
    var hart :- FlagEntries(c, AcqPath(x, "VariableAngleMode"), Hart, "HART");
    var vexp :- FlagEntries(c, AcqPath(x, "VariableExposureTimeMode"), VExp, "Variable exposure");
    Ok(mode + hart + vexp)
  }

  method PutRecipeMode(d: ParamDict, c: Container, x: nat, render: FExpr -> string) returns (r: Result<()>)
    requires d.Valid() && d.Below(AcqMode)
    modifies d
    ensures Extends(d, old(d.entries), KeyCount, BlockEntries(Group(Acquisition), c, x, render), r)
  {
    var m := PutStitchMode(d, c, AcqPath(x, "AcqModeString"), PointPath(x, "AutoStitchSettings/Enabled"),
                           PointPath(x, "AutoStitchSettings/NumSegments"));
    if m.Err? {
      return Err(m.error);
    }
    var h := PutFlag(d, c, AcqPath(x, "VariableAngleMode"), Hart, "HART");
    if h.Err? {
      return Err(h.error);
    }
    var v := PutFlag(d, c, AcqPath(x, "VariableExposureTimeMode"), VExp, "Variable exposure");
    if v.Err? {
      return Err(v.error);
    }
    r := Ok(());
  }

  // ----- the groups put together -----

  /** The groups of assignments above. */
  datatype RecipeGroup = Title | Clock | Tube | Turn | Timing | Optics | Frames | Hardening | Distances | Pixel | Stage | Acquisition

  /** A block of assignments: one group, or two blocks run one after the
      other. */
  datatype RecipeBlock = Group(g: RecipeGroup) | Pair(first: RecipeBlock, second: RecipeBlock)

  const Header := Pair(Pair(Group(Title), Group(Clock)), Group(Tube))
  const Timed := Pair(Group(Turn), Group(Timing))
  const Scan := Pair(Timed, Group(Optics))
  const Settings := Pair(Group(Frames), Group(Hardening))
  const Geometry := Pair(Group(Distances), Group(Pixel))
  const Detector := Pair(Settings, Geometry)
  const Back := Pair(Group(Stage), Group(Acquisition))
  const Front := Pair(Header, Scan)
  const Rear := Pair(Detector, Back)
  /** Every assignment after the file name, in the reader's order. */
  const Whole := Pair(Front, Rear)

  /** The entries of a group, or the first read in it that fails. */
  function GroupEntries(g: RecipeGroup, c: Container, x: nat, render: FExpr -> string): Result<seq<Entry>>
  {
    match g
    case Title => RecipeTitle(c, x)
    case Clock => RecipeClock(c)
    case Tube => RecipeTube(c, x, render)
    case Turn => RecipeTurn(c, x, render)
    case Timing => RecipeTiming(c, x, render)
    case Optics => RecipeOptics(c, x)
    case Frames => RecipeFrames(c, x)
    case Hardening => RecipeHardening(c, x, render)
    case Distances => RecipeDistances(c, x, render)
    case Pixel => RecipePixel(c, x, render)
    case Stage => RecipeStage(c, x, render)
    case Acquisition => RecipeMode(c, x)
  }

  /** The entries of a block, or the first read in it that fails. */
  function BlockEntries(b: RecipeBlock, c: Container, x: nat, render: FExpr -> string): Result<seq<Entry>>
  {
    match b
    case Group(g) => GroupEntries(g, c, x, render)
    case Pair(p, q) => Then(BlockEntries(p, c, x, render), BlockEntries(q, c, x, render))
  }

  /** The recipe name, date and time, then the source settings. */
  method PutRecipeNamed(d: ParamDict, c: Container, x: nat, render: FExpr -> string) returns (r: Result<()>)
    requires d.Valid() && d.Below(RcpName)
    modifies d
    ensures Extends(d, old(d.entries), KV, BlockEntries(Pair(Group(Title), Group(Clock)), c, x, render), r)
  {
    ghost var e0 := d.entries;
    r := PutRecipeTitle(d, c, x, render);
    if r.Ok? {
      ghost var e1 := d.entries;
      r := PutRecipeClock(d, c, x, render);
      AppendsBoth(e0, e1, d.entries, BlockEntries(Group(Title), c, x, render), BlockEntries(Group(Clock), c, x, render), r);
    } else {
      AppendsFirstFails(d.entries, e0, BlockEntries(Group(Title), c, x, render), BlockEntries(Group(Clock), c, x, render), r);
    }
  }

  method PutRecipeHeader(d: ParamDict, c: Container, x: nat, render: FExpr -> string) returns (r: Result<()>)
    requires d.Valid() && d.Below(RcpName)
    modifies d
    ensures Extends(d, old(d.entries), Imgs, BlockEntries(Header, c, x, render), r)
  {
    ghost var e0 := d.entries;
    r := PutRecipeNamed(d, c, x, render);
    if r.Ok? {
      ghost var e1 := d.entries;
      r := PutRecipeTube(d, c, x, render);
      AppendsBoth(e0, e1, d.entries, BlockEntries(Pair(Group(Title), Group(Clock)), c, x, render), BlockEntries(Group(Tube), c, x, render), r);
    } else {
      AppendsFirstFails(d.entries, e0, BlockEntries(Pair(Group(Title), Group(Clock)), c, x, render), BlockEntries(Group(Tube), c, x, render), r);
    }
  }

  method PutRecipeTimed(d: ParamDict, c: Container, x: nat, render: FExpr -> string) returns (r: Result<()>)
    requires d.Valid() && d.Below(Imgs)
    modifies d
    ensures Extends(d, old(d.entries), ObjLens, BlockEntries(Timed, c, x, render), r)
  {
    ghost var e0 := d.entries;
    r := PutRecipeTurn(d, c, x, render);
    if r.Ok? {
      ghost var e1 := d.entries;
      r := PutRecipeTiming(d, c, x, render);
      AppendsBoth(e0, e1, d.entries, BlockEntries(Group(Turn), c, x, render), BlockEntries(Group(Timing), c, x, render), r);
    } else {
      AppendsFirstFails(d.entries, e0, BlockEntries(Group(Turn), c, x, render), BlockEntries(Group(Timing), c, x, render), r);
    }
  }

  method PutRecipeScan(d: ParamDict, c: Container, x: nat, render: FExpr -> string) returns (r: Result<()>)
    requires d.Valid() && d.Below(Imgs)
    modifies d
    ensures Extends(d, old(d.entries), VoxSize, BlockEntries(Scan, c, x, render), r)
  {
    ghost var e0 := d.entries;
    r := PutRecipeTimed(d, c, x, render);
    if r.Ok? {
      ghost var e1 := d.entries;
      r := PutRecipeOptics(d, c, x, render);
      AppendsBoth(e0, e1, d.entries, BlockEntries(Timed, c, x, render), BlockEntries(Group(Optics), c, x, render), r);
    } else {
      AppendsFirstFails(d.entries, e0, BlockEntries(Timed, c, x, render), BlockEntries(Group(Optics), c, x, render), r);
    }
  }

  method PutRecipeSettings(d: ParamDict, c: Container, x: nat, render: FExpr -> string) returns (r: Result<()>)
    requires d.Valid() && d.Below(VoxSize)
    modifies d
    ensures Extends(d, old(d.entries), Src, BlockEntries(Settings, c, x, render), r)
    ensures r.Ok? ==> d.Skips(VoxSize, DBin, Src)
  {
    ghost var e0 := d.entries;
    r := PutRecipeFrames(d, c, x, render);
    if r.Ok? {
      ghost var e1 := d.entries;
      r := PutRecipeHardening(d, c, x, render);
      AppendsBoth(e0, e1, d.entries, BlockEntries(Group(Frames), c, x, render), BlockEntries(Group(Hardening), c, x, render), r);
    } else {
      AppendsFirstFails(d.entries, e0, BlockEntries(Group(Frames), c, x, render), BlockEntries(Group(Hardening), c, x, render), r);
    }
  }

  method PutRecipeGeometry(d: ParamDict, c: Container, x: nat, render: FExpr -> string) returns (r: Result<()>)
    requires d.Valid() && d.Skips(VoxSize, DBin, Src)
    modifies d
    ensures Extends(d, old(d.entries), XAx, BlockEntries(Geometry, c, x, render), r)
  {
    ghost var e0 := d.entries;
    r := PutRecipeDistances(d, c, x, render);
    if r.Ok? {
      ghost var e1 := d.entries;
      r := PutRecipePixel(d, c, x, render);
      AppendsBoth(e0, e1, d.entries, BlockEntries(Group(Distances), c, x, render), BlockEntries(Group(Pixel), c, x, render), r);
    } else {
      AppendsFirstFails(d.entries, e0, BlockEntries(Group(Distances), c, x, render), BlockEntries(Group(Pixel), c, x, render), r);
    }
  }

  method PutRecipeDetector(d: ParamDict, c: Container, x: nat, render: FExpr -> string) returns (r: Result<()>)
    requires d.Valid() && d.Below(VoxSize)
    modifies d
    ensures Extends(d, old(d.entries), XAx, BlockEntries(Detector, c, x, render), r)
  {
    ghost var e0 := d.entries;
    r := PutRecipeSettings(d, c, x, render);
    if r.Ok? {
      ghost var e1 := d.entries;
      r := PutRecipeGeometry(d, c, x, render);
      AppendsBoth(e0, e1, d.entries, BlockEntries(Settings, c, x, render), BlockEntries(Geometry, c, x, render), r);
    } else {
      AppendsFirstFails(d.entries, e0, BlockEntries(Settings, c, x, render), BlockEntries(Geometry, c, x, render), r);
    }
  }

  method PutRecipeBack(d: ParamDict, c: Container, x: nat, render: FExpr -> string) returns (r: Result<()>)
    requires d.Valid() && d.Below(XAx)
    modifies d
    ensures Extends(d, old(d.entries), KeyCount, BlockEntries(Back, c, x, render), r)
  {
    ghost var e0 := d.entries;
    r := PutRecipeStage(d, c, x, render);
    if r.Ok? {
      ghost var e1 := d.entries;
      r := PutRecipeMode(d, c, x, render);
      AppendsBoth(e0, e1, d.entries, BlockEntries(Group(Stage), c, x, render), BlockEntries(Group(Acquisition), c, x, render), r);
    } else {
      AppendsFirstFails(d.entries, e0, BlockEntries(Group(Stage), c, x, render), BlockEntries(Group(Acquisition), c, x, render), r);
    }
  }

  method PutRecipeFront(d: ParamDict, c: Container, x: nat, render: FExpr -> string) returns (r: Result<()>)
    requires d.Valid() && d.Below(RcpName)
    modifies d
    ensures Extends(d, old(d.entries), VoxSize, BlockEntries(Front, c, x, render), r)
  {
    ghost var e0 := d.entries;
    r := PutRecipeHeader(d, c, x, render);
    if r.Ok? {
      ghost var e1 := d.entries;
      r := PutRecipeScan(d, c, x, render);
      AppendsBoth(e0, e1, d.entries, BlockEntries(Header, c, x, render), BlockEntries(Scan, c, x, render), r);
    } else {
      AppendsFirstFails(d.entries, e0, BlockEntries(Header, c, x, render), BlockEntries(Scan, c, x, render), r);
    }
  }

  method PutRecipeRear(d: ParamDict, c: Container, x: nat, render: FExpr -> string) returns (r: Result<()>)
    requires d.Valid() && d.Below(VoxSize)
    modifies d
    ensures Extends(d, old(d.entries), KeyCount, BlockEntries(Rear, c, x, render), r)
  {
    ghost var e0 := d.entries;
    r := PutRecipeDetector(d, c, x, render);
    if r.Ok? {
      ghost var e1 := d.entries;
      r := PutRecipeBack(d, c, x, render);
      AppendsBoth(e0, e1, d.entries, BlockEntries(Detector, c, x, render), BlockEntries(Back, c, x, render), r);
    } else {
      AppendsFirstFails(d.entries, e0, BlockEntries(Detector, c, x, render), BlockEntries(Back, c, x, render), r);
    }
  }

  method PutRecipeWhole(d: ParamDict, c: Container, x: nat, render: FExpr -> string) returns (r: Result<()>)
    requires d.Valid() && d.Below(RcpName)
    modifies d
    ensures Extends(d, old(d.entries), KeyCount, BlockEntries(Whole, c, x, render), r)
  {
    ghost var e0 := d.entries;
    r := PutRecipeFront(d, c, x, render);
    if r.Ok? {
      ghost var e1 := d.entries;
      r := PutRecipeRear(d, c, x, render);
      AppendsBoth(e0, e1, d.entries, BlockEntries(Front, c, x, render), BlockEntries(Rear, c, x, render), r);
    } else {
      AppendsFirstFails(d.entries, e0, BlockEntries(Front, c, x, render), BlockEntries(Rear, c, x, render), r);
    }
  }

  // ----- one recipe, then all of them -----

  /** The dictionary of recipe x of the file `name`: the file name, then
      the groups in order; the first failing read is the error. */
  function RecipeSpec(c: Container, x: nat, name: string, render: FExpr -> string): Result<seq<Entry>>
  {
    Then(Ok([(FName, Line("File", name))]), BlockEntries(Whole, c, x, render))
  }

  /** The files written for recipe x of `stem`.rcp, named
      f'{stem}_{Rname}_rcp'. */
  function RecipeOutput(c: Container, x: nat, stem: string, out: int, render: FExpr -> string): Result<seq<OutFile>>
  {
    var es :- RecipeSpec(c, x, stem + ".rcp", render);
    Ok(OutputFiles(stem + "_" + RecipeName(c, x) + "_rcp", out, ValuesOf(es)))
  }

  /** One pass of the loop: a fresh dictionary for recipe x, filled, then
      written out. */
  method ReadRecipe(c: Container, x: nat, stem: string, out: int, render: FExpr -> string)
    returns (r: Result<seq<OutFile>>)
    ensures r == RecipeOutput(c, x, stem, out, render)
  {
    var d := new ParamDict();
    d.Add(FName, Line("File", stem + ".rcp"));
    var e := PutRecipeWhole(d, c, x, render);
    if e.Err? {
      return Err(e.error);
    }
    var base := stem + "_" + RecipeName(c, x) + "_rcp";
    var values := d.Values();
    if out == 1 {
      var text := WriteValues(values, false);
      r := Ok([OutFile(base + ".txt", text)]);
    } else if out == 2 {
      var text := WriteValues(values, true);
      r := Ok([OutFile(base + ".csv", text)]);
    } else {
      r := Ok([]);
    }
  }

  /** One pass after the passes `before`: nothing once a recipe has
      failed, otherwise the recipe's files or its error. */
  function Pass(before: Run, step: Result<seq<OutFile>>): Run
  {
    if before.error.Some? then before
    else
      match step
      case Err(e) => Run(before.files, Some(e))
      case Ok(fs) => Run(before.files + fs, None)
  }

  /** The first n passes of a loop whose pass x yields `step(x)`: the
      files of the passes made so far, and the error of the first pass that
      failed, after which no pass is made. */
  function Passes(step: nat -> Result<seq<OutFile>>, n: nat): Run
  {
    if n == 0 then Run([], None)
    else Pass(Passes(step, n - 1), step(n - 1))
  }

  /** Once a pass has failed, later passes change nothing: the files
      already written stay, and the error is that first one. */
  lemma {:induction false} PassesSticks(step: nat -> Result<seq<OutFile>>, k: nat, n: nat)
    requires k <= n && Passes(step, k).error.Some?
    ensures Passes(step, n) == Passes(step, k)
    decreases n
  {
    if n > k {
      PassesSticks(step, k, n - 1);
    }
  }

  /** Pass x after x passes without error: its error stops the loop, its
      files are added otherwise. */
  lemma PassStep(step: nat -> Result<seq<OutFile>>, x: nat, files: seq<OutFile>, r: Result<seq<OutFile>>)
    requires Passes(step, x) == Run(files, None) && r == step(x)
    ensures r.Err? ==> Passes(step, x + 1) == Run(files, Some(r.error))
    ensures r.Ok? ==> Passes(step, x + 1) == Run(files + r.value, None)
  {
  }

  /** Pass x of Recipe_reader's loop: recipe x read and written. */
  function RecipeStep(c: Container, stem: string, out: int, render: FExpr -> string): nat -> Result<seq<OutFile>>
  {
    (x: nat) => RecipeOutput(c, x, stem, out, render)
  }

  /** The first n passes of Recipe_reader's loop. */
  function RecipesRun(c: Container, stem: string, out: int, render: FExpr -> string, n: nat): Run
  {
    Passes(RecipeStep(c, stem, out, render), n)
  }

  /** The number of recipes as range() sees it: none for a negative count. */
  function RecipeCount(toms: int): nat
  {
    if toms > 0 then toms else 0
  }

  /** Recipe_reader on `stem`.rcp: 'NoOfTomoDataSets', then every recipe. */
  function RecipeReaderSpec(c: Container, stem: string, out: int, render: FExpr -> string): Run
  {
    match ReadInt(c, "NoOfTomoDataSets")
    case Err(e) => Run([], Some(e))
    case Ok(toms) => RecipesRun(c, stem, out, render, RecipeCount(toms))
  }

  /** The value of no_out after the loop: 0 for output options 1 and 2, 1
      for option 3, and unbound (None) when no pass ran or the option is
      none of these. */
  function NoOutAfter(toms: int, out: int): Option<int>
  {
    if toms <= 0 then None
    else if out == 1 || out == 2 then Some(0)
    else if out == 3 then Some(1)
    else None
  }

  /** Recipe_reader(File, out_file): returns what it wrote and, when every
      recipe was read, the value no_out holds after the loop. */
  method RecipeReader(c: Container, stem: string, out: int, render: FExpr -> string)
    returns (run: Run, noOut: Option<int>)
    ensures run == RecipeReaderSpec(c, stem, out, render)
    ensures run.error.None? ==> noOut == NoOutAfter(ReadInt(c, "NoOfTomoDataSets").value, out)
  {
    noOut := None;
    var toms := ReadInt(c, "NoOfTomoDataSets");
    if toms.Err? {
      return Run([], Some(toms.error)), noOut;
    }
    var n := RecipeCount(toms.value);
    var files: seq<OutFile> := [];
    ghost var step := RecipeStep(c, stem, out, render);
    for x := 0 to n
      invariant Passes(step, x) == Run(files, None)
      invariant noOut == NoOutAfter(x, out)
    {
      var r := ReadRecipe(c, x, stem, out, render);
      PassStep(step, x, files, r);
      if r.Err? {
        PassesSticks(step, x + 1, n);
        return Run(files, Some(r.error)), noOut;
      }
      files := files + r.value;
      if out == 1 || out == 2 {
        noOut := Some(0);
      } else if out == 3 {
        noOut := Some(1);
      }
    }
    run := Run(files, None);
  }
}
