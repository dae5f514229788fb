/** read_files of the RCP metadata reader: the selected file goes to
    Versa_reader when its suffix is '.txrm' or '.txm', to Recipe_reader
    when it is '.rcp', and to nothing otherwise. */
module RcpFiles {

  import opened Common
  import opened Ole
  import opened RcpText
  import opened RcpOutput
  import RcpVersa
  import RcpVersaFacts
  import RcpRecipe

  /** The selected file as pathlib.Path sees it: the name without its last
      suffix, and that suffix with its dot. */
  datatype FilePath = FilePath(stem: string, suffix: string)

  /** The reader a suffix selects. */
  datatype Reader = Versa(kind: RcpVersa.VersaKind) | Recipe | NoReader

  function ReaderFor(suffix: string): Reader
  {
    if suffix == ".txrm" then Versa(RcpVersa.Txrm)
    else if suffix == ".txm" then Versa(RcpVersa.Txm)
    else if suffix == ".rcp" then Recipe
    else NoReader
  }

  /** Versa_reader's result as a run: its files, or no files and its error
      (it raises before its one file is written). */
  function VersaRun(r: Result<seq<OutFile>>): Run
  {
    match r
    case Ok(fs) => Run(fs, None)
    case Err(e) => Run([], Some(e))
  }

  /** What read_files(f, out) leaves behind for file f with container c. */
  function ReadFilesSpec(f: FilePath, c: Container, out: int, render: FExpr -> string): Run
  {
    match ReaderFor(f.suffix)
    case Versa(kind) => VersaRun(RcpVersa.VersaOutput(c, f.stem, kind, out, render))
    case Recipe => RcpRecipe.RecipeReaderSpec(c, f.stem, out, render)
    case NoReader => Run([], None)
  }

  /** read_files(f, out). */
  method ReadFiles(f: FilePath, c: Container, out: int, render: FExpr -> string) returns (run: Run)
    ensures run == ReadFilesSpec(f, c, out, render)
  {
    if f.suffix == ".txrm" || f.suffix == ".txm" {
      var kind := if f.suffix == ".txrm" then RcpVersa.Txrm else RcpVersa.Txm;
      var r := RcpVersa.VersaReader(c, f.stem, kind, out, render);
      run := VersaRun(r);
    } else if f.suffix == ".rcp" {
      var noOut;
      run, noOut := RcpRecipe.RecipeReader(c, f.stem, out, render);
    } else {
      run := Run([], None);
    }
  }

  /** Each reader's suffix selects it, and it is the only suffix that does:
      the two Versa suffixes select their own kind, '.rcp' the recipe
      reader, and every other suffix none. */
  lemma ReaderForSpec(suffix: string)
    ensures ReaderFor(suffix).Versa? <==> suffix == ".txrm" || suffix == ".txm"
    ensures ReaderFor(suffix).Versa? ==> RcpVersa.Suffix(ReaderFor(suffix).kind) == suffix
    ensures ReaderFor(suffix) == Recipe <==> suffix == ".rcp"
    ensures forall kind :: ReaderFor(RcpVersa.Suffix(kind)) == Versa(kind)
  {
  }

  /** A file of any other suffix is read by neither reader: nothing is
      written and nothing is raised. A Versa file writes at most one file,
      and none when its reader fails. */
  lemma ReadFilesOutcomes(f: FilePath, c: Container, out: int, render: FExpr -> string)
    ensures ReaderFor(f.suffix) == NoReader ==> ReadFilesSpec(f, c, out, render) == Run([], None)
    ensures ReaderFor(f.suffix).Versa? ==>
      |ReadFilesSpec(f, c, out, render).files| <= 1 &&
      (ReadFilesSpec(f, c, out, render).error.Some? ==> ReadFilesSpec(f, c, out, render).files == [])
  {
    if ReaderFor(f.suffix).Versa? {
      var kind := ReaderFor(f.suffix).kind;
      var r := RcpVersa.VersaOutput(c, f.stem, kind, out, render);
      if r.Ok? {
        RcpVersaFacts.VersaOutputFile(c, f.stem, kind, out, render);
      }
    }
  }
}
