/** What the RCP metadata reader writes for one dictionary: the values one
    after another into a .txt file (output option 1), or with every tab
    turned into a comma into a .csv file (option 2). */
module RcpOutput {

  import opened Common
  import opened Text
  import opened RcpText

  /** A file written to the working directory. */
  datatype OutFile = OutFile(name: string, text: string)

  /** What a reader leaves behind: the files it wrote, in order, and the
      exception that ended it, if any. */
  datatype Run = Run(files: seq<OutFile>, error: Option<Error>)

  /** The write loop: `for value in param_dict.values(): write(value)`,
      each value first passed through replace('\t', ',') for CSV. */
  method WriteValues(values: seq<string>, comma: bool) returns (text: string)
    ensures text == if comma then CsvText(values) else TxtText(values)
  {
    text := "";
    for i := 0 to |values|
      invariant text == if comma then CsvText(values[..i]) else TxtText(values[..i])
    {
      assert values[..i + 1][..i] == values[..i];
      if comma {
        text := text + ReplaceChar(values[i], '\t', ',');
      } else {
        text := text + values[i];
      }
    }
    assert values[..|values|] == values;
  }

  /** The files written for one dictionary under the name `base`: option 1
      a .txt, option 2 a .csv, any other option none. */
  function OutputFiles(base: string, out: int, values: seq<string>): seq<OutFile>
  {
    if out == 1 then [OutFile(base + ".txt", TxtText(values))]
    else if out == 2 then [OutFile(base + ".csv", CsvText(values))]
    else []
  }

  /** Option 1 writes one .txt file holding the values in order, option 2
      one .csv file that is that text with commas for tabs, and every other
      option writes nothing. */
  lemma OutputFilesSpec(base: string, out: int, values: seq<string>)
    ensures |OutputFiles(base, out, values)| == if out == 1 || out == 2 then 1 else 0
    ensures out == 1 ==> OutputFiles(base, out, values)[0] == OutFile(base + ".txt", TxtText(values))
    ensures out == 2 ==>
      OutputFiles(base, out, values)[0] == OutFile(base + ".csv", ReplaceChar(TxtText(values), '\t', ','))
  {
    CsvIsTxtWithCommas(values);
  }
}
