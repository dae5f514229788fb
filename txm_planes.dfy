/** Decoding the image planes of a .txm container: ole_extract (raising on
    a missing stream), the data-type table ftype_dic, the column-major
    reshape and the slice-loading loop of _load_slices. */
module TxmPlanes {

  import opened Common
  import opened Text
  import opened Ole
  import opened Fields
  import TxmStreams

  /** One decoded pixel: an integer (types 3 and 5) or an opaque float (type 10). */
  datatype Sample = IntS(v: int) | FloatS(f: Float32)

  /** A plane of shape (n_cols, n_rows): plane[i][j] for i < n_cols, j < n_rows. */
  type Plane = seq<seq<Sample>>

  predicate HasShape(p: Plane, nCols: nat, nRows: nat)
  {
    |p| == nCols && forall i :: 0 <= i < nCols ==> |p[i]| == nRows
  }

  /** ole_extract(ole, stream, datatype): FileNotFoundError for a missing
      stream, otherwise struct.unpack of its whole content. */
  function OleExtract(c: Container, path: string, fmt: Format): (r: Result<seq<Cell>>)
    ensures r.Ok? <==> Exists(c, path) && |c.streams[Lower(path)]| == Size(fmt)
    ensures !Exists(c, path) ==> r == Err(StreamNotFound(path))
    ensures r.Ok? ==> |r.value| == Count(fmt)
  {
    if Exists(c, path) then Unpack(fmt, c.streams[Lower(path)]) else Err(StreamNotFound(path))
  }

  /** ftype_dic = {3: '<{}B', 5: '<{}h', 10: '<{}f'} formatted with n; any
      other code is a KeyError. */
  function PlaneFormat(fType: int, n: nat): (r: Result<Format>)
    ensures r.Ok? <==> fType in {3, 5, 10}
    ensures r.Ok? ==> Count(r.value) == n
    ensures r.Ok? ==> Size(r.value) == n * (if fType == 3 then 1 else if fType == 5 then 2 else 4)
    ensures r.Err? ==> r.error == UnknownDataType(fType)
  {
    if fType == 3 then Ok(UInt8s(n))
    else if fType == 5 then Ok(Int16s(n))
    else if fType == 10 then Ok(Singles(n))
    else Err(UnknownDataType(fType))
  }

  function ToSample(cell: Cell): Sample
  {
    match cell
    case U(u) => IntS(u)
    case I(i) => IntS(i)
    case F(f) => FloatS(f)
    case B(b) => IntS(if b then 1 else 0)
  }

  /** The column-major position of element (i, j) of an (n_cols, n_rows) plane. */
  function FlatIndex(i: nat, j: nat, nCols: nat): nat
  {
    i + j * nCols
  }

  /** a <= b implies a * n <= b * n for natural n. */
  lemma MulMono(a: int, b: int, n: nat)
    requires a <= b
    ensures a * n <= b * n
  {
    var d := b - a;
    assert b * n == a * n + d * n;
  }

  lemma ColumnMajorIndex(i: nat, j: nat, nCols: nat, nRows: nat)
    requires i < nCols && j < nRows
    ensures FlatIndex(i, j, nCols) < nCols * nRows
  {
    MulMono(j + 1, nRows, nCols);
    assert (j + 1) * nCols == j * nCols + nCols;
    assert nRows * nCols == nCols * nRows;
  }

  /** Column i of the reshaped plane: data[i], data[i + n_cols], ... */
  function Column(data: seq<Sample>, i: nat, nCols: nat, nRows: nat): (col: seq<Sample>)
    requires |data| == nCols * nRows && i < nCols
    ensures |col| == nRows
  {
    seq(nRows, j requires 0 <= j < nRows => ColumnMajorIndex(i, j, nCols, nRows); data[FlatIndex(i, j, nCols)])
  }

  /** np.reshape(data, (n_cols, n_rows), order='F'): successive elements
      fill a column before the next column starts. */
  function Reshape(data: seq<Sample>, nCols: nat, nRows: nat): (p: Plane)
    requires |data| == nCols * nRows
    ensures HasShape(p, nCols, nRows)
  {
    seq(nCols, i requires 0 <= i < nCols => Column(data, i, nCols, nRows))
  }

  /** Element (i, j) of the plane is element i + j * n_cols of the stream. */
  lemma ReshapeAt(data: seq<Sample>, nCols: nat, nRows: nat)
    requires |data| == nCols * nRows
    ensures forall i, j :: 0 <= i < nCols && 0 <= j < nRows ==>
      FlatIndex(i, j, nCols) < |data| && Reshape(data, nCols, nRows)[i][j] == data[FlatIndex(i, j, nCols)]
  {
    forall i, j | 0 <= i < nCols && 0 <= j < nRows
      ensures FlatIndex(i, j, nCols) < |data| && Reshape(data, nCols, nRows)[i][j] == data[FlatIndex(i, j, nCols)]
    {
      assert Reshape(data, nCols, nRows)[i] == Column(data, i, nCols, nRows);
      ColumnMajorIndex(i, j, nCols, nRows);
    }
  }

  /** Euclidean division is unique: i + j * n splits back into i and j. */
  lemma DivModUnique(k: int, n: nat, i: int, j: int)
    requires n > 0 && 0 <= i < n && k == i + j * n
    ensures k / n == j && k % n == i
  {
    var q, r := k / n, k % n;
    assert k == q * n + r && 0 <= r < n;
    if q < j {
      MulMono(q + 1, j, n);
    } else if j < q {
      MulMono(j + 1, q, n);
    }
    assert q == j;
  }

  /** Flat positions and plane coordinates correspond one to one: splitting
      a flat index k < n_cols * n_rows gives a valid (i, j) whose flat
      position is k, and the flat position of a valid (i, j) splits back
      into i and j. */
  lemma FlatIndexBijection(nCols: nat, nRows: nat)
    ensures forall k :: 0 <= k < nCols * nRows ==>
      nCols > 0 && k % nCols < nCols && k / nCols < nRows && FlatIndex(k % nCols, k / nCols, nCols) == k
    ensures forall i, j :: 0 <= i < nCols && 0 <= j < nRows ==>
      FlatIndex(i, j, nCols) < nCols * nRows
      && FlatIndex(i, j, nCols) % nCols == i && FlatIndex(i, j, nCols) / nCols == j
  {
    forall k | 0 <= k < nCols * nRows
      ensures nCols > 0 && k % nCols < nCols && k / nCols < nRows && FlatIndex(k % nCols, k / nCols, nCols) == k
    {
      FlatSplit(k, nCols, nRows);
    }
    forall i, j | 0 <= i < nCols && 0 <= j < nRows
      ensures FlatIndex(i, j, nCols) < nCols * nRows
        && FlatIndex(i, j, nCols) % nCols == i && FlatIndex(i, j, nCols) / nCols == j
    {
      ColumnMajorIndex(i, j, nCols, nRows);
      DivModUnique(i + j * nCols, nCols, i, j);
    }
  }

  lemma FlatSplit(k: nat, nCols: nat, nRows: nat)
    requires k < nCols * nRows
    ensures nCols > 0 && k % nCols < nCols && k / nCols < nRows && FlatIndex(k % nCols, k / nCols, nCols) == k
  {
    if nCols == 0 {
      assert false;
    }
    var q := k / nCols;
    assert k == q * nCols + k % nCols;
    if q >= nRows {
      MulMono(nRows, q, nCols);
      assert false;
    }
  }

  /** Reshape places data[k] at column k % n_cols, row k / n_cols: every
      element of the stream appears in the plane exactly once. */
  lemma ReshapeInverse(data: seq<Sample>, nCols: nat, nRows: nat)
    requires |data| == nCols * nRows
    ensures forall k :: 0 <= k < |data| ==>
      nCols > 0 && k / nCols < nRows && Reshape(data, nCols, nRows)[k % nCols][k / nCols] == data[k]
  {
    forall k | 0 <= k < |data|
      ensures nCols > 0 && k / nCols < nRows && Reshape(data, nCols, nRows)[k % nCols][k / nCols] == data[k]
    {
      FlatSplit(k, nCols, nRows);
    }
  }

  /** One iteration of _load_slices: the format lookup, ole_extract of the
      stream and the reshape. */
  function LoadPlane(c: Container, stream: TxmStreams.Entry, fType: int, nCols: nat, nRows: nat): (r: Result<Plane>)
    ensures r.Ok? ==> HasShape(r.value, nCols, nRows)
  {
    var fmt :- PlaneFormat(fType, nCols * nRows);
    var cells :- OleExtract(c, JoinPath(stream), fmt);
    Ok(Reshape(seq(|cells|, k requires 0 <= k < |cells| => ToSample(cells[k])), nCols, nRows))
  }

  lemma LoadPlaneSpec(c: Container, stream: TxmStreams.Entry, fType: int, nCols: nat, nRows: nat)
    ensures LoadPlane(c, stream, fType, nCols, nRows).Ok? <==>
      fType in {3, 5, 10} && Exists(c, JoinPath(stream))
      && |c.streams[Lower(JoinPath(stream))]| == nCols * nRows * (if fType == 3 then 1 else if fType == 5 then 2 else 4)
  {
  }

  /** The per-stream steps of _load_slices, in stream order. */
  function PlaneSteps(c: Container, streams: seq<TxmStreams.Entry>, fType: int, nCols: nat, nRows: nat): (rs: seq<Result<Plane>>)
    ensures |rs| == |streams|
  {
    seq(|streams|, k requires 0 <= k < |streams| => LoadPlane(c, streams[k], fType, nCols, nRows))
  }

  /** What _load_slices returns: one plane per stream in stream order, or
      the error of the first stream that fails. */
  function LoadSlicesSpec(c: Container, streams: seq<TxmStreams.Entry>, fType: int, nCols: nat, nRows: nat): Result<seq<Plane>>
  {
    Collect(PlaneSteps(c, streams, fType, nCols, nRows))
  }

  /** Success needs every stream to decode; then there is one plane of shape
      (n_cols, n_rows) per stream, in stream order. With no streams the data
      type is never looked up, so even an unknown type succeeds; otherwise an
      unknown type fails with UnknownDataType. */
  lemma LoadSlicesSpecOk(c: Container, streams: seq<TxmStreams.Entry>, fType: int, nCols: nat, nRows: nat)
    ensures var r := LoadSlicesSpec(c, streams, fType, nCols, nRows);
      && (r.Ok? <==> forall k :: 0 <= k < |streams| ==> LoadPlane(c, streams[k], fType, nCols, nRows).Ok?)
      && (r.Ok? ==>
            |r.value| == |streams|
            && forall k :: 0 <= k < |streams| ==>
                 HasShape(r.value[k], nCols, nRows) && r.value[k] == LoadPlane(c, streams[k], fType, nCols, nRows).value)
      && (streams == [] ==> r == Ok([]))
      && (streams != [] && fType !in {3, 5, 10} ==> r == Err(UnknownDataType(fType)))
  {
    var rs := PlaneSteps(c, streams, fType, nCols, nRows);
    CollectSpec(rs);
    assert forall k :: 0 <= k < |streams| ==> rs[k] == LoadPlane(c, streams[k], fType, nCols, nRows);
    if streams != [] && fType !in {3, 5, 10} {
      var k :| 0 <= k < |rs| && rs[k].Err? && Collect(rs).error == rs[k].error;
    }
  }

  /** _load_slices(ole, image_streams, f_type, n_cols, n_rows). */
  method LoadSlices(c: Container, streams: seq<TxmStreams.Entry>, fType: int, nCols: nat, nRows: nat)
    returns (r: Result<seq<Plane>>)
    ensures r == LoadSlicesSpec(c, streams, fType, nCols, nRows)
  {
    ghost var rs := PlaneSteps(c, streams, fType, nCols, nRows);
    var slices: seq<Plane> := [];
    var i := 0;
    while i < |streams|
      invariant 0 <= i <= |streams|
      invariant Collect(rs[..i]) == Ok(slices)
    {
      assert rs[..i + 1] == rs[..i] + [rs[i]];
      CollectSnoc(rs[..i], rs[i]);
      var plane := LoadPlane(c, streams[i], fType, nCols, nRows);
      if plane.Err? {
        r := Err(plane.error);
        CollectErrorSticks(rs, i + 1);
        return;
      }
      slices := slices + [plane.value];
      i := i + 1;
    }
    assert rs[..i] == rs;
    r := Ok(slices);
  }
}
