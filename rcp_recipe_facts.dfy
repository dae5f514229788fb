/** What Recipe_reader's dictionaries and files hold: the order of the
    keys, the recipe name, the fields of the initial-position record, the
    rearranged date and time, the divisions by zero, the files written
    recipe by recipe, and no_out after the loop. */
module RcpRecipeFacts {

  import opened Common
  import opened Text
  import opened Ole
  import opened Fields
  import opened RcpText
  import opened RcpStreams
  import opened RcpDict
  import opened RcpEntries
  import opened RcpOutput
  import opened RcpRecipe

  /** The keys each group assigns, in order. */
  function GroupKeys(g: RecipeGroup): seq<Key>
  {
    match g
    case Title => [RcpName]
    case Clock => [Date, Time]
    case Tube => [KV, Power, UA]
    case Turn => [Imgs, Rot]
    case Timing => [Exposure]
    case Optics => [ObjLens, XFilt]
    case Frames => [DBin, FrAvg]
    case Hardening => [BeamH]
    case Distances => [Src, Det]
    case Pixel => [VoxSize, Cone]
    case Stage => [XAx, YAx, ZAx]
    case Acquisition => [AcqMode, Segments, Hart, VExp]
  }

  function BlockKeys(b: RecipeBlock): seq<Key>
  {
    match b
    case Group(g) => GroupKeys(g)
    case Pair(p, q) => BlockKeys(p) + BlockKeys(q)
  }

  lemma {:induction false} KeysOfAppend(a: seq<Entry>, b: seq<Entry>)
    ensures KeysOf(a + b) == KeysOf(a) + KeysOf(b)
  {
  }

  /** Each group that succeeds assigns exactly its keys, in order. */
  lemma GroupKeysSpec(g: RecipeGroup, c: Container, x: nat, render: FExpr -> string)
    requires GroupEntries(g, c, x, render).Ok?
    ensures KeysOf(GroupEntries(g, c, x, render).value) == GroupKeys(g)
  {
  }

  /** Every block that succeeds assigns exactly its keys, in order. */
  lemma {:induction false} BlockKeysSpec(b: RecipeBlock, c: Container, x: nat, render: FExpr -> string)
    requires BlockEntries(b, c, x, render).Ok?
    ensures KeysOf(BlockEntries(b, c, x, render).value) == BlockKeys(b)
  {
    match b
    case Group(g) => GroupKeysSpec(g, c, x, render);
    case Pair(p, q) =>
      BlockKeysSpec(p, c, x, render);
      BlockKeysSpec(q, c, x, render);
      KeysOfAppend(BlockEntries(p, c, x, render).value, BlockEntries(q, c, x, render).value);
  }

  /** The keys of the name, the source and the scan settings, in order. */
  lemma FrontKeys()
    ensures BlockKeys(Front) == [RcpName, Date, Time, KV, Power, UA, Imgs, Rot, Exposure, ObjLens, XFilt]
  {
    assert BlockKeys(Pair(Pair(Group(Title), Group(Clock)), Group(Tube))) == [RcpName] + [Date, Time] + [KV, Power, UA];
    assert BlockKeys(Pair(Pair(Group(Turn), Group(Timing)), Group(Optics))) == [Imgs, Rot] + [Exposure] + [ObjLens, XFilt];
  }

  /** The keys of the detector settings, the geometry, the positions and
      the mode, in order: the voxel size and cone angle after the
      distances. */
  lemma RearKeys()
    ensures BlockKeys(Rear) == [DBin, FrAvg, BeamH, Src, Det, VoxSize, Cone, XAx, YAx, ZAx, AcqMode, Segments, Hart, VExp]
  {
    assert BlockKeys(Pair(Group(Frames), Group(Hardening))) == [DBin, FrAvg] + [BeamH];
    assert BlockKeys(Pair(Group(Distances), Group(Pixel))) == [Src, Det] + [VoxSize, Cone];
    assert BlockKeys(Pair(Group(Stage), Group(Acquisition))) == [XAx, YAx, ZAx] + [AcqMode, Segments, Hart, VExp];
    assert BlockKeys(Detector) == [DBin, FrAvg, BeamH] + [Src, Det, VoxSize, Cone];
  }

  /** The file name first, then the keys of a block. */
  lemma NamedKeys(b: RecipeBlock, c: Container, x: nat, name: string, render: FExpr -> string)
    requires Then(Ok([(FName, Line("File", name))]), BlockEntries(b, c, x, render)).Ok?
    ensures KeysOf(Then(Ok([(FName, Line("File", name))]), BlockEntries(b, c, x, render)).value)
      == [FName] + BlockKeys(b)
  {
    BlockKeysSpec(b, c, x, render);
    KeysOfAppend([(FName, Line("File", name))], BlockEntries(b, c, x, render).value);
  }

  /** The file name's key before those of every later assignment. */
  lemma NamedWholeKeys(tail: seq<Key>)
    requires tail == BlockKeys(Whole)
    ensures [FName] + tail
      == [FName, RcpName, Date, Time, KV, Power, UA, Imgs, Rot, Exposure, ObjLens, XFilt,
          DBin, FrAvg, BeamH, Src, Det, VoxSize, Cone, XAx, YAx, ZAx, AcqMode, Segments, Hart, VExp]
  {
    FrontKeys();
    RearKeys();
  }

  /** A completed recipe dictionary holds all 26 keys, in this order:
      'F_name', 'Rcp_name', 'Date', 'Time', 'kV', 'Power', 'uA', 'imgs',
      'rot', 'exposure', 'objlens', 'XFilt', 'D_bin', 'fr_avg', 'beam_h',
      'Src', 'Det', 'Vox_size', 'cone', the three positions, then the mode,
      the segments, 'HART' and 'V_exp'. */
  lemma RecipeKeys(c: Container, x: nat, name: string, render: FExpr -> string)
    requires RecipeSpec(c, x, name, render).Ok?
    ensures KeysOf(RecipeSpec(c, x, name, render).value)
      == [FName, RcpName, Date, Time, KV, Power, UA, Imgs, Rot, Exposure, ObjLens, XFilt,
          DBin, FrAvg, BeamH, Src, Det, VoxSize, Cone, XAx, YAx, ZAx, AcqMode, Segments, Hart, VExp]
  {
    NamedKeys(Whole, c, x, name, render);
    NamedWholeKeys(BlockKeys(Whole));
  }

  /** The first entry of a block that succeeds is the first entry of its
      first part, when that part assigns anything. */
  lemma FirstOfPair(p: RecipeBlock, q: RecipeBlock, c: Container, x: nat, render: FExpr -> string)
    requires BlockEntries(Pair(p, q), c, x, render).Ok?
    ensures BlockEntries(p, c, x, render).Ok?
    ensures |BlockEntries(p, c, x, render).value| > 0 ==>
      BlockEntries(Pair(p, q), c, x, render).value[0] == BlockEntries(p, c, x, render).value[0]
  {
    ThenSpec(BlockEntries(p, c, x, render), BlockEntries(q, c, x, render), BlockEntries(q, c, x, render));
  }

  /** The entry after the file name is the recipe name, which also names
      the output file. */
  lemma RecipeNameFirst(c: Container, x: nat, name: string, render: FExpr -> string)
    requires RecipeSpec(c, x, name, render).Ok?
    ensures RecipeSpec(c, x, name, render).value[0] == (FName, Line("File", name))
    ensures |RecipeSpec(c, x, name, render).value| > 1
    ensures RecipeSpec(c, x, name, render).value[1] == (RcpName, Line("Recipe", RecipeName(c, x)))
  {
    RecipeKeys(c, x, name, render);
    FirstOfPair(Front, Rear, c, x, render);
    FirstOfPair(Header, Scan, c, x, render);
    FirstOfPair(Pair(Group(Title), Group(Clock)), Group(Tube), c, x, render);
    FirstOfPair(Group(Title), Group(Clock), c, x, render);
  }

  /** The stage positions are the '<f' fields at offsets 0, 4 and 8 of the
      record, which must hold at least 12 bytes. */
  lemma RecipeStagePositions(c: Container, x: nat, render: FExpr -> string)
    ensures var p := AcqPath(x, "InitialPositions");
      RecipeStage(c, x, render).Ok? <==> Exists(c, p) && |c.streams[Lower(p)]| >= 12
    ensures var p := AcqPath(x, "InitialPositions");
      RecipeStage(c, x, render).Ok? ==>
        var b := c.streams[Lower(p)];
        RecipeStage(c, x, render).value ==
          [(XAx, Line("X position (um)", render(Round(Field(b[0..4]), 2)))),
           (YAx, Line("Y position (um)", render(Round(Field(b[4..8]), 2)))),
           (ZAx, Line("Z position (um)", render(Round(Field(b[8..12]), 2))))]
  {
    var p := AcqPath(x, "InitialPositions");
    FieldTextSpec(c, p, XOffset, 2, 1, render);
    FieldTextSpec(c, p, YOffset, 2, 1, render);
    FieldTextSpec(c, p, ZOffset, 2, 1, render);
  }

  /** The source and detector distances are the '<f' fields at offsets 16
      and 20 of the record, which must hold at least 24 bytes; the source
      distance is printed without its sign. */
  lemma RecipeDistanceFields(c: Container, x: nat, render: FExpr -> string)
    ensures var p := AcqPath(x, "InitialPositions");
      RecipeDistances(c, x, render).Ok? <==> Exists(c, p) && |c.streams[Lower(p)]| >= 24
    ensures var p := AcqPath(x, "InitialPositions");
      RecipeDistances(c, x, render).Ok? ==>
        var b := c.streams[Lower(p)];
        RecipeDistances(c, x, render).value ==
          [(Src, Line("Src-Obj distance (mm)", render(Round(Abs(Field(b[16..20])), 2)))),
           (Det, Line("Det-Obj distance (mm)", render(Round(Field(b[20..24]), 2))))]
  {
    var p := AcqPath(x, "InitialPositions");
    ReadFloatAtSpec(c, p, SourceOffset);
    ReadFloatAtSpec(c, p, DetectorOffset);
  }

  /** The date entry is 'TimeStamp' bytes 0 to 10, YYYY-MM-DD, written as
      DD/MM/YYYY (a one-digit day loses its leading zero), and the time
      entry bytes 11 to 17, HHMMSS, written as HH:MM:SS. */
  lemma RecipeStampTexts(stamp: seq<byte>)
    ensures RecipeDateText(stamp).Ok? ==>
      var s := Ascii(Slice(stamp, 0, 10)).value;
      RecipeDateText(stamp).value == DayDigits(s[8], s[9]) + "/" + s[5..7] + "/" + s[..4]
    ensures RecipeTimeText(stamp).Ok? ==>
      var s := Ascii(Slice(stamp, 11, 17)).value;
      RecipeTimeText(stamp).value == s[..2] + ":" + s[2..4] + ":" + s[4..6]
  {
    if RecipeDateText(stamp).Ok? {
      RecipeDateRearranged(Ascii(Slice(stamp, 0, 10)).value);
    }
    if RecipeTimeText(stamp).Ok? {
      RecipeTimeRearranged(Ascii(Slice(stamp, 11, 17)).value);
    }
  }

  /** The current is "0.0", with no division made, when the voltage or
      the power is zero, and otherwise round(power * 1000 / voltage, 1). */
  lemma RecipeCurrentGuard(c: Container, x: nat, render: FExpr -> string)
    requires RecipeTube(c, x, render).Ok?
    ensures var volts := ReadFloat(c, AcqPath(x, "SrcVoltage")).value;
      var watts := ReadFloat(c, AcqPath(x, "SrcPower")).value;
      RecipeTube(c, x, render).value[2] ==
        (UA, Line("uA", if IsZero(volts) || IsZero(watts) then "0.0"
                        else render(Round(Div(Mul(Field(watts), Int(1000)), Field(volts)), 1))))
  {
  }

  /** A zero source distance, or else a zero binning, ends the reader with
      a division by zero once the fields before it have been read. */
  lemma RecipePixelDivisions(c: Container, x: nat, render: FExpr -> string)
    requires ReadFloatAt(c, AcqPath(x, "InitialPositions"), SourceOffset).Ok?
    requires ReadFloatAt(c, AcqPath(x, "InitialPositions"), DetectorOffset).Ok?
    requires ReadFloat(c, AcqPath(x, "CCDPixelSize")).Ok?
    ensures IsZero(ReadFloatAt(c, AcqPath(x, "InitialPositions"), SourceOffset).value) ==>
      RecipePixel(c, x, render) == Err(ZeroDivision)
    ensures (&& !IsZero(ReadFloatAt(c, AcqPath(x, "InitialPositions"), SourceOffset).value)
             && TrimmedText(c, PointPath(x, "MagStr"), 1).Ok?
             && ReadInt(c, AcqPath(x, "Binning")) == Ok(0)) ==>
      RecipePixel(c, x, render) == Err(ZeroDivision)
  {
  }

  /** For option 1 or 2 a recipe that is read writes one file, named
      after the file stem and the recipe's name, holding its dictionary. */
  lemma RecipeOutputFile(c: Container, x: nat, stem: string, out: int, render: FExpr -> string)
    requires out == 1 || out == 2
    requires RecipeOutput(c, x, stem, out, render).Ok?
    ensures RecipeSpec(c, x, stem + ".rcp", render).Ok?
    ensures RecipeOutput(c, x, stem, out, render).value
      == OutputFiles(stem + "_" + RecipeName(c, x) + "_rcp", out, ValuesOf(RecipeSpec(c, x, stem + ".rcp", render).value))
    ensures |RecipeOutput(c, x, stem, out, render).value| == 1
  {
    OutputFilesSpec(stem + "_" + RecipeName(c, x) + "_rcp", out, ValuesOf(RecipeSpec(c, x, stem + ".rcp", render).value));
  }

  /** When no pass fails and every pass writes one file, the files are
      one per pass, in the order of the passes. */
  lemma {:induction false} PassesFiles(step: nat -> Result<seq<OutFile>>, n: nat)
    requires Passes(step, n).error.None?
    requires forall x :: 0 <= x < n && step(x).Ok? ==> |step(x).value| == 1
    ensures |Passes(step, n).files| == n
    ensures forall x :: 0 <= x < n ==> step(x).Ok? && Passes(step, n).files[x] == step(x).value[0]
    decreases n
  {
    if n > 0 {
      var before := Passes(step, n - 1);
      assert before.error.None? && step(n - 1).Ok?;
      PassesFiles(step, n - 1);
      var files := Passes(step, n).files;
      assert files == before.files + step(n - 1).value;
      forall x | 0 <= x < n
        ensures step(x).Ok? && files[x] == step(x).value[0]
      {
        if x < n - 1 {
          assert files[x] == before.files[x];
        }
      }
    }
  }

  /** When every recipe is read with option 1 or 2, the files are one per
      recipe, in the order of the recipes. */
  lemma RecipesRunFiles(c: Container, stem: string, out: int, render: FExpr -> string, n: nat)
    requires RecipesRun(c, stem, out, render, n).error.None?
    requires out == 1 || out == 2
    ensures |RecipesRun(c, stem, out, render, n).files| == n
    ensures forall x :: 0 <= x < n ==>
      RecipeOutput(c, x, stem, out, render).Ok? &&
      RecipesRun(c, stem, out, render, n).files[x] == RecipeOutput(c, x, stem, out, render).value[0]
  {
    var step := RecipeStep(c, stem, out, render);
    forall x | 0 <= x < n && step(x).Ok?
      ensures |step(x).value| == 1
    {
      RecipeOutputFile(c, x, stem, out, render);
    }
    PassesFiles(step, n);
    forall x | 0 <= x < n
      ensures step(x) == RecipeOutput(c, x, stem, out, render)
    {
    }
  }

  /** A recipe that fails ends the reader with its error; the files of the
      recipes before it stay written, and no later recipe is read. */
  lemma RecipeFailureStops(c: Container, stem: string, out: int, render: FExpr -> string, x: nat, n: nat)
    requires x < n && RecipesRun(c, stem, out, render, x).error.None?
    requires RecipeOutput(c, x, stem, out, render).Err?
    ensures RecipesRun(c, stem, out, render, n)
      == Run(RecipesRun(c, stem, out, render, x).files, Some(RecipeOutput(c, x, stem, out, render).error))
  {
    PassesSticks(RecipeStep(c, stem, out, render), x + 1, n);
  }

  /** no_out is bound after the loop exactly when at least one recipe was
      read and the output option is 1, 2 or 3. */
  lemma NoOutBound(toms: int, out: int)
    ensures NoOutAfter(toms, out).Some? <==> toms > 0 && 1 <= out <= 3
    ensures NoOutAfter(toms, out) == Some(1) <==> toms > 0 && out == 3
  {
  }
}
