/** Dictionary entries that both RCP readers build the same way: the
    acquisition-mode block of a .txrm file and of a recipe, and the HART
    and variable-exposure flags. Each block is a specification function
    (what entries it yields, or which read fails first) and a method that
    assigns the entries one by one, as the readers do. */
module RcpEntries {

  import opened Common
  import opened Text
  import opened Ole
  import opened RcpText
  import opened RcpStreams
  import opened RcpDict
  import opened Fields

  /** Entries `after` are what a block of assignments leaves behind when
      run on entries `before` against its specification: it fails exactly
      when the specification does, with the same error, and otherwise has
      appended exactly the specified entries. */
  ghost predicate Appends(after: seq<Entry>, before: seq<Entry>, spec: Result<seq<Entry>>, r: Result<()>)
  {
    && (r.Ok? <==> spec.Ok?)
    && (r.Err? ==> spec.Err? && r.error == spec.error)
    && (r.Ok? ==> after == before + spec.value)
  }

  /** A block of assignments run on `d` against its specification, every
      key afterwards ranking below `bound`. */
  ghost predicate Extends(d: ParamDict, before: seq<Entry>, bound: int, spec: Result<seq<Entry>>, r: Result<()>)
    reads d
  {
    && d.Valid()
    && Appends(d.entries, before, spec, r)
    && (r.Ok? ==> d.Below(bound))
  }

  /** Two blocks one after the other: the first one's error if it fails,
      otherwise the second one's error if that fails, otherwise the entries
      of both in order. */
  function Then(a: Result<seq<Entry>>, b: Result<seq<Entry>>): (r: Result<seq<Entry>>)
  {
    if a.Err? then a else if b.Err? then Err(b.error) else Ok(a.value + b.value)
  }

  /** Sequencing succeeds exactly when both blocks do, and is associative,
      so the blocks of a reader may be grouped in any way. */
  lemma ThenSpec(a: Result<seq<Entry>>, b: Result<seq<Entry>>, c: Result<seq<Entry>>)
    ensures Then(a, b).Ok? <==> a.Ok? && b.Ok?
    ensures a.Err? ==> Then(a, b) == a
    ensures a.Ok? && b.Err? ==> Then(a, b) == Err(b.error)
    ensures Then(Then(a, b), c) == Then(a, Then(b, c))
  {
    if a.Ok? && b.Ok? && c.Ok? {
      assert (a.value + b.value) + c.value == a.value + (b.value + c.value);
    }
  }

  /** A failing first block ends the pair with its error. */
  lemma AppendsFirstFails(after: seq<Entry>, before: seq<Entry>, a: Result<seq<Entry>>, b: Result<seq<Entry>>, r: Result<()>)
    requires Appends(after, before, a, r) && r.Err?
    ensures Appends(after, before, Then(a, b), r)
  {
  }

  /** After a first block that succeeds, the pair ends as the second does. */
  lemma AppendsBoth(e0: seq<Entry>, e1: seq<Entry>, e2: seq<Entry>, a: Result<seq<Entry>>, b: Result<seq<Entry>>, r: Result<()>)
    requires Appends(e1, e0, a, Ok(())) && Appends(e2, e1, b, r)
    ensures Appends(e2, e0, Then(a, b), r)
  {
    if r.Ok? {
      assert e2 == e0 + (a.value + b.value);
    }
  }

  // ----- the printed value of one field -----

  /** An '<i' field, printed as a decimal integer. */
  function IntText(c: Container, path: string): Result<string>
  {
    var n :- ReadInt(c, path);
    Ok(IntToString(n))
  }

  /** A '<f' field printed as it is read. */
  function FloatText(c: Container, path: string, render: FExpr -> string): Result<string>
  {
    var x :- ReadFloat(c, path);
    Ok(render(Field(x)))
  }

  /** round(x, digits) of a '<f' field. */
  function RoundedText(c: Container, path: string, digits: nat, render: FExpr -> string): Result<string>
  {
    var x :- ReadFloat(c, path);
    Ok(render(Round(Field(x), digits)))
  }

  /** round(x, digits) of the '<f' at an offset of a stream. */
  function RoundedAtText(c: Container, path: string, offset: nat, digits: nat, render: FExpr -> string): Result<string>
  {
    var x :- ReadFloatAt(c, path, offset);
    Ok(render(Round(Field(x), digits)))
  }

  /** The rotation round(abs(end) + abs(start)), end angle read first. The
      sum of two magnitudes is a NaN when either is one and otherwise an
      infinity when either is one; round() with no digits raises on both. */
  function TurnText(c: Container, endPath: string, startPath: string, render: FExpr -> string): Result<string>
  {
    var end :- ReadFloat(c, endPath);
    var start :- ReadFloat(c, startPath);
    if IsNaN(end) || IsNaN(start) then Err(RoundNaN)
    else if IsNonFinite(end) || IsNonFinite(start) then Err(RoundInfinity)
    else Ok(render(RoundInt(Add(Abs(Field(end)), Abs(Field(start))))))
  }

  /** The rotation fails with the first failed read, then with round()'s
      error when an angle is not finite, and is printed otherwise. */
  lemma TurnTextSpec(c: Container, endPath: string, startPath: string, render: FExpr -> string)
    ensures ReadFloat(c, endPath).Err? ==> TurnText(c, endPath, startPath, render) == Err(ReadFloat(c, endPath).error)
    ensures ReadFloat(c, endPath).Ok? && ReadFloat(c, startPath).Err? ==>
      TurnText(c, endPath, startPath, render) == Err(ReadFloat(c, startPath).error)
    ensures ReadFloat(c, endPath).Ok? && ReadFloat(c, startPath).Ok? ==>
      var end := ReadFloat(c, endPath).value;
      var start := ReadFloat(c, startPath).value;
      && (TurnText(c, endPath, startPath, render).Ok? <==> !IsNonFinite(end) && !IsNonFinite(start))
      && (IsNaN(end) || IsNaN(start) ==> TurnText(c, endPath, startPath, render) == Err(RoundNaN))
      && (!IsNaN(end) && !IsNaN(start) && (IsNonFinite(end) || IsNonFinite(start)) ==>
            TurnText(c, endPath, startPath, render) == Err(RoundInfinity))
  {
  }

  /** A text stream decoded as ASCII with its last `drop` characters removed. */
  function TrimmedText(c: Container, path: string, drop: nat): Result<string>
    requires drop >= 1
  {
    var s :- ReadAscii(c, path);
    Ok(DropLast(s, drop))
  }

  /** Each printed value fails exactly when its read does; an integer is
      printed in decimal and read back from that text, a trimmed text is a
      prefix of the stream's characters. */
  lemma FieldTextSpec(c: Container, path: string, offset: nat, digits: nat, drop: nat, render: FExpr -> string)
    requires drop >= 1
    ensures IntText(c, path).Ok? <==> ReadInt(c, path).Ok?
    ensures IntText(c, path).Ok? ==>
      var t := IntText(c, path).value;
      t == IntToString(ToSigned(LeUnsigned(c.streams[Lower(path)]), 4))
    ensures RoundedText(c, path, digits, render).Ok? <==> Exists(c, path) && |c.streams[Lower(path)]| == 4
    ensures RoundedAtText(c, path, offset, digits, render).Ok? <==> Exists(c, path) && |c.streams[Lower(path)]| >= offset + 4
    ensures RoundedAtText(c, path, offset, digits, render).Ok? ==>
      RoundedAtText(c, path, offset, digits, render).value == render(Round(Field(c.streams[Lower(path)][offset..offset + 4]), digits))
    ensures TrimmedText(c, path, drop).Ok? <==> ReadAscii(c, path).Ok?
    ensures TrimmedText(c, path, drop).Ok? ==>
      TrimmedText(c, path, drop).value <= ReadAscii(c, path).value &&
      |TrimmedText(c, path, drop).value| == if |ReadAscii(c, path).value| >= drop then |ReadAscii(c, path).value| - drop else 0
  {
    TypedReadsSpec(c, path);
    ReadFloatAtSpec(c, path, offset);
  }

  /** The entries of a stitched mode: the segment count is read from the file. */
  function CountedMode(c: Container, name: string, segsPath: string): Result<seq<Entry>>
  {
    match ReadInt(c, segsPath)
    case Err(e) => Err(e)
    case Ok(n) => Ok([(AcqMode, Line("Acquisition mode", name)), (Segments, Line("No. of segments", IntToString(n)))])
  }

  /** The entries of an unstitched mode: one segment. */
  function SingleMode(name: string): seq<Entry>
  {
    [(AcqMode, Line("Acquisition mode", name)), (Segments, Line("No. of segments", "1"))]
  }

  /** The mode entries once the wide and stitch tests are known: the
      segment count is read only when stitching, and is 1 otherwise. */
  function ModeEntries(c: Container, wide: bool, stitch: bool, segsPath: string): (r: Result<seq<Entry>>)
    ensures r.Ok? ==> KeysOf(r.value) == [AcqMode, Segments]
  {
    var name := ModeName(ModeOf(wide, stitch));
    if stitch then CountedMode(c, name, segsPath) else Ok(SingleMode(name))
  }

  /** The four outcomes: wide and stitching is "Wide Stitch" with the
      segment count from the file, wide alone is "Wide" with 1 segment,
      stitching alone is "Stitch" with the count from the file, and
      neither is "Normal" with 1 segment. */
  lemma ModeEntriesSpec(c: Container, wide: bool, stitch: bool, segsPath: string)
    ensures stitch ==> (ModeEntries(c, wide, stitch, segsPath).Ok? <==> ReadInt(c, segsPath).Ok?)
    ensures stitch && ReadInt(c, segsPath).Ok? ==>
      ModeEntries(c, wide, stitch, segsPath).value ==
        [(AcqMode, Line("Acquisition mode", if wide then "Wide Stitch" else "Stitch")),
         (Segments, Line("No. of segments", IntToString(ReadInt(c, segsPath).value)))]
    ensures stitch && ReadInt(c, segsPath).Err? ==> ModeEntries(c, wide, stitch, segsPath) == Err(ReadInt(c, segsPath).error)
    ensures !stitch ==>
      ModeEntries(c, wide, stitch, segsPath) == Ok([(AcqMode, Line("Acquisition mode", if wide then "Wide" else "Normal")), (Segments, Line("No. of segments", "1"))])
  {
  }

  method PutCountedMode(d: ParamDict, c: Container, name: string, segsPath: string) returns (r: Result<()>)
    requires d.Valid() && d.Below(AcqMode)
    modifies d
    ensures Extends(d, old(d.entries), Hart, CountedMode(c, name, segsPath), r)
  {
    d.Add(AcqMode, Line("Acquisition mode", name));
    var segs :- ReadInt(c, segsPath);
    d.Add(Segments, Line("No. of segments", IntToString(segs)));
    r := Ok(());
  }

  method PutSingleMode(d: ParamDict, name: string)
    requires d.Valid() && d.Below(AcqMode)
    modifies d
    ensures d.Valid() && d.entries == old(d.entries) + SingleMode(name) && d.Below(Hart)
  {
    d.Add(AcqMode, Line("Acquisition mode", name));
    d.Add(Segments, Line("No. of segments", "1"));
  }

  /** The source's four branches. */
  method PutModeEntries(d: ParamDict, c: Container, wide: bool, stitch: bool, segsPath: string) returns (r: Result<()>)
    requires d.Valid() && d.Below(AcqMode)
    modifies d
    ensures Extends(d, old(d.entries), Hart, ModeEntries(c, wide, stitch, segsPath), r)
  {
    if wide {
      if stitch {
        r := PutCountedMode(d, c, "Wide Stitch", segsPath);
      } else {
        PutSingleMode(d, "Wide");
        r := Ok(());
      }
    } else if stitch {
      r := PutCountedMode(d, c, "Stitch", segsPath);
    } else {
      PutSingleMode(d, "Normal");
      r := Ok(());
    }
  }

  /** The .txrm and recipe mode block: the wide test on the mode string,
      then the '?' stitch flag, then the mode entries. */
  function StitchModeEntries(c: Container, modePath: string, enabledPath: string, segsPath: string): (r: Result<seq<Entry>>)
    ensures r.Ok? ==> KeysOf(r.value) == [AcqMode, Segments]
  {
    match ReadAscii(c, modePath)
    case Err(e) => Err(e)
    case Ok(mode) =>
      match ReadBool(c, enabledPath)
      case Err(e) => Err(e)
      case Ok(stitch) => ModeEntries(c, IsWideString(mode), stitch, segsPath)
  }

  /** The block is wide exactly when the mode string is 'Tomography Wide'
      and 245 more characters; the stitch flag is read either way. */
  lemma StitchModeSpec(c: Container, modePath: string, enabledPath: string, segsPath: string)
    ensures ReadAscii(c, modePath).Err? ==> StitchModeEntries(c, modePath, enabledPath, segsPath) == Err(ReadAscii(c, modePath).error)
    ensures ReadAscii(c, modePath).Ok? && ReadBool(c, enabledPath).Err? ==>
      StitchModeEntries(c, modePath, enabledPath, segsPath) == Err(ReadBool(c, enabledPath).error)
    ensures ReadAscii(c, modePath).Ok? && ReadBool(c, enabledPath).Ok? ==>
      var s := ReadAscii(c, modePath).value;
      StitchModeEntries(c, modePath, enabledPath, segsPath) ==
        ModeEntries(c, |s| == 260 && s[..15] == "Tomography Wide", ReadBool(c, enabledPath).value, segsPath)
  {
    if ReadAscii(c, modePath).Ok? {
      IsWideStringSpec(ReadAscii(c, modePath).value);
    }
  }

  method PutStitchMode(d: ParamDict, c: Container, modePath: string, enabledPath: string, segsPath: string)
    returns (r: Result<()>)
    requires d.Valid() && d.Below(AcqMode)
    modifies d
    ensures Extends(d, old(d.entries), Hart, StitchModeEntries(c, modePath, enabledPath, segsPath), r)
  {
    var mode :- ReadAscii(c, modePath);
    if DropLast(mode, 245) == "Tomography Wide" {
      var stitch :- ReadBool(c, enabledPath);
      r := PutModeEntries(d, c, true, stitch, segsPath);
    } else {
      var stitch :- ReadBool(c, enabledPath);
      r := PutModeEntries(d, c, false, stitch, segsPath);
    }
  }

  /** A HART or variable-exposure entry: "Enabled" for 1, "Disabled" for
      any other value of the '<i' field. */
  function FlagEntries(c: Container, path: string, k: Key, title: string): (r: Result<seq<Entry>>)
    ensures r.Ok? ==> KeysOf(r.value) == [k]
  {
    match ReadInt(c, path)
    case Err(e) => Err(e)
    case Ok(v) => Ok([(k, Line(title, FlagName(v)))])
  }

  lemma FlagEntriesSpec(c: Container, path: string, k: Key, title: string)
    ensures FlagEntries(c, path, k, title).Ok? <==> ReadInt(c, path).Ok?
    ensures ReadInt(c, path).Ok? ==>
      (FlagEntries(c, path, k, title).value == [(k, Line(title, "Enabled"))] <==> ReadInt(c, path).value == 1)
    ensures ReadInt(c, path).Ok? && ReadInt(c, path).value != 1 ==>
      FlagEntries(c, path, k, title).value == [(k, Line(title, "Disabled"))]
  {
    if ReadInt(c, path).Ok? && ReadInt(c, path).value != 1 {
      assert Line(title, "Disabled")[|title| + 2] != Line(title, "Enabled")[|title| + 2];
    }
  }

  method PutFlag(d: ParamDict, c: Container, path: string, k: Key, title: string) returns (r: Result<()>)
    requires d.Valid() && d.Below(k)
    modifies d
    ensures Extends(d, old(d.entries), k + 1, FlagEntries(c, path, k, title), r)
  {
    var v :- ReadInt(c, path);
    if v == 1 {
      d.Add(k, Line(title, "Enabled"));
    } else {
      d.Add(k, Line(title, "Disabled"));
    }
    r := Ok(());
  }
}
