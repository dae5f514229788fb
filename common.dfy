/** Shared value types: bytes, the Option/Result wrappers and the error
    taxonomy of the scan-container readers. */
module Common {

  /** One byte of a stream. */
  type byte = x: int | 0 <= x < 256

  datatype Option<+T> = None | Some(value: T)

  /** The exceptions the readers raise, one constructor per cause. */
  datatype Error =
    | StreamNotFound(path: string)             // olefile: stream missing (FileNotFoundError / OSError)
    | StructSize(expected: nat, actual: nat)   // struct.unpack: byte length differs from the format size
    | StructOffset(needed: nat, actual: nat)   // struct.unpack_from: stream shorter than offset + size
    | UnknownDataType(code: int)               // ftype_dic[f_type]: KeyError
    | StreamNameIndex                          // stream[1] on a one-component stream name: IndexError
    | EmptyVolume                              // np.min of an empty array: ValueError
    | NotAscii                                 // bytes.decode("ascii"): UnicodeDecodeError
    | BadDate                                  // datetime.strptime: ValueError
    | NoneSubscript                            // `None[0]`: TypeError
    | MissingData                              // ValueError("Missing data in ...")
    | NoFiles                                  // FileNotFoundError("No .txm files found ...")
    | UnknownOutputFormat(index: int)          // OutputFormat(index): ValueError
    | ZeroDivision                             // a division by zero: ZeroDivisionError
    | NotOleFile                               // olefile.OleFileIO: not a compound file (OSError)
    | RoundNaN                                 // round(nan): ValueError
    | RoundInfinity                            // round(inf): OverflowError

  datatype Result<+T> = Ok(value: T) | Err(error: Error) {
    predicate IsFailure() { Err? }
    function PropagateFailure<U>(): Result<U>
      requires Err?
    {
      Err(error)
    }
    function Extract(): T
      requires Ok?
    {
      value
    }
  }

  /** Runs a sequence of steps in order: the values of all of them, or the
      error of the first one that fails. */
  function Collect<T>(rs: seq<Result<T>>): (r: Result<seq<T>>)
  {
    if rs == [] then Ok([])
    else
      var prev :- Collect(rs[..|rs| - 1]);
      var x :- rs[|rs| - 1];
      Ok(prev + [x])
  }

  /** Collect succeeds exactly when every step does, and then returns every
      step's value in order; otherwise it returns the error of the earliest
      failing step. */
  lemma {:induction false} CollectSpec<T>(rs: seq<Result<T>>)
    ensures Collect(rs).Ok? <==> forall k :: 0 <= k < |rs| ==> rs[k].Ok?
    ensures Collect(rs).Ok? ==>
      |Collect(rs).value| == |rs| && forall k :: 0 <= k < |rs| ==> Collect(rs).value[k] == rs[k].value
    ensures Collect(rs).Err? ==>
      exists k :: 0 <= k < |rs| && rs[k].Err? && Collect(rs).error == rs[k].error && forall m :: 0 <= m < k ==> rs[m].Ok?
    decreases |rs|
  {
    if rs != [] {
      var n := |rs| - 1;
      var init := rs[..n];
      CollectSpec(init);
      assert forall k :: 0 <= k < n ==> init[k] == rs[k];
      var prev := Collect(init);
      if prev.Ok? && rs[n].Ok? {
        assert Collect(rs) == Ok(prev.value + [rs[n].value]);
      } else if prev.Err? {
        var k :| 0 <= k < n && init[k].Err? && prev.error == init[k].error && forall m :: 0 <= m < k ==> init[m].Ok?;
        assert rs[k].Err? && Collect(rs).error == rs[k].error;
      } else {
        assert Collect(rs).error == rs[n].error;
      }
    }
  }

  /** Collecting one more step extends the prefix's result. */
  lemma CollectSnoc<T>(rs: seq<Result<T>>, x: Result<T>)
    ensures Collect(rs + [x]) == (if Collect(rs).Err? then Collect(rs) else if x.Err? then Err(x.error) else Ok(Collect(rs).value + [x.value]))
  {
    assert (rs + [x])[..|rs|] == rs;
  }

  /** Once a prefix of the steps fails, the whole sequence fails the same way. */
  lemma {:induction false} CollectErrorSticks<T>(rs: seq<Result<T>>, n: nat)
    requires n <= |rs| && Collect(rs[..n]).Err?
    ensures Collect(rs) == Collect(rs[..n])
    decreases |rs| - n
  {
    if n < |rs| {
      assert rs[..n + 1][..n] == rs[..n];
      CollectErrorSticks(rs, n + 1);
    } else {
      assert rs[..n] == rs;
    }
  }
}
