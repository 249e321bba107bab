/**
 * `InputLayer` (`src/PVX_NeuralNets_Input.cpp`): a layer whose output buffer
 * is set from outside. Its output has the features in the top rows and a
 * bias row of ones at the bottom; `nInput()` is the number of feature rows.
 */
module Inputs {
  import opened Wrappers
  import opened Matrices
  import opened Bytes
  import opened BinFormat
  import opened Names
  import opened Graph

  /** `InputLayer(Name, Size)`: a single sample of `size` features plus the bias row. */
  function NewInput(name: seq<byte>, size: nat): (nd: Node)
    ensures nd.kind == InputLayer && nd.prev == Null && nd.inputs == [] && nd.name == name
    ensures NOutput(nd.output) == size && BatchSize(nd.output) == 1
    ensures forall i | 0 <= i < nd.output.rows :: nd.output.cols[0][i] == 1.0
  {
    Node(name, 0, Ones(size + 1, 1), -1, Null, [], InputLayer)
  }

  /**
   * `Input(Data)`: refused (`0`, buffer untouched) unless the buffer has one
   * row more than `Data`; otherwise `1`, and the feature block becomes
   * `Data`. The buffer is reallocated to ones only when the column count
   * changes, so with an unchanged batch size the old last row stays.
   */
  function InputData(out: Mat, d: Mat): (r: (int, Mat))
    ensures out.rows != d.rows + 1 ==> r == (0, out)
    ensures out.rows == d.rows + 1 ==> r.0 == 1 && HasShape(r.1, out.rows, Width(d)) && OutPart(r.1) == d
    ensures out.rows == d.rows + 1 && Width(out) == Width(d) ==> LastRow(r.1) == LastRow(out)
    ensures out.rows == d.rows + 1 && Width(out) != Width(d) ==>
      forall j | 0 <= j < Width(d) :: r.1.cols[j][out.rows - 1] == 1.0
  {
    if out.rows == d.rows + 1 then
      var o := if Width(out) != Width(d) then Ones(out.rows, Width(d)) else out;
      (1, SetOutPart(o, d))
    else (0, out)
  }

  /**
   * `Input(Data, Count)`: the buffer takes `Count` columns (reallocated to
   * ones if that changes the width) and its feature block is read from the
   * flat buffer `data` in column-major order.
   */
  function InputFlat(out: Mat, data: seq<real>, count: int): (r: Result<Mat>)
    ensures r.Success? <==> count >= 0 && out.rows >= 1 && |data| >= (out.rows - 1) * count
    ensures r.Success? ==>
      HasShape(r.value, out.rows, count)
      && OutPart(r.value) == Unflatten(data[..(out.rows - 1) * count], out.rows - 1, count)
    ensures r.Success? && count == Width(out) ==> LastRow(r.value) == LastRow(out)
  {
    if count < 0 || out.rows == 0 then Failure(BadShape)
    else
      var n := (out.rows - 1) * count;
      if |data| < n then Failure(BadIndex)
      else
        var o := if Width(out) != count then Ones(out.rows, count) else out;
        Success(SetOutPart(o, Unflatten(data[..n], out.rows - 1, count)))
  }

  /** `MakeRawInput(Data)`: `Data` with a row of ones appended; the layer is not touched. */
  function MakeRawInput(d: Mat): (r: Mat)
    ensures HasShape(r, d.rows + 1, Width(d)) && OutPart(r) == d
    ensures forall j | 0 <= j < Width(d) :: r.cols[j][d.rows] == 1.0
  {
    SetOutPart(Ones(d.rows + 1, Width(d)), d)
  }

  /** `MakeRawInput(Data, Count)`: `Count` columns of `rows(output) - 1` features read from `data`. */
  function MakeRawInputFlat(out: Mat, data: seq<real>, count: int): (r: Result<Mat>)
    ensures r.Success? <==> count >= 0 && out.rows >= 1 && |data| >= (out.rows - 1) * count
    ensures r.Success? ==>
      HasShape(r.value, out.rows, count)
      && OutPart(r.value) == Unflatten(data[..(out.rows - 1) * count], out.rows - 1, count)
      && forall j | 0 <= j < count :: r.value.cols[j][out.rows - 1] == 1.0
  {
    if count < 0 || out.rows == 0 then Failure(BadShape)
    else
      var n := (out.rows - 1) * count;
      if |data| < n then Failure(BadIndex)
      else Success(MakeRawInput(Unflatten(data[..n], out.rows - 1, count)))
  }

  /** `MakeRawInput(vector)`: as many columns as `size / nInput()`; trailing values are ignored. */
  function MakeRawInputVec(out: Mat, v: seq<real>): (r: Result<Mat>)
    ensures NOutput(out) == 0 ==> r == Failure(DivideByZero)
    ensures r.Success? ==> out.rows >= 2 && Width(r.value) == |v| / (out.rows - 1) && r.value.rows == out.rows
  {
    var n := NOutput(out);
    if n == 0 then Failure(DivideByZero)
    else MakeRawInputFlat(out, v, |v| / n)
  }

  /** A vector of whole samples gives one column per sample, holding that sample. */
  lemma MakeRawInputVecSamples(out: Mat, v: seq<real>, count: nat)
    requires out.rows >= 2 && |v| == (out.rows - 1) * count
    ensures MakeRawInputVec(out, v).Success?
    ensures var r := MakeRawInputVec(out, v).value;
      Width(r) == count && OutPart(r) == Unflatten(v, out.rows - 1, count)
  {
    var n := out.rows - 1;
    DivExact(|v|, n, count);
    assert v[..n * count] == v;
  }

  // ---------------------------------------------------------------- file format

  /** The fields of an `INPT` chunk: `NAME` when the name is not empty, then `ICNT = int(nInput())`. */
  function InputFields(nd: Node): seq<Field> {
    (if nd.name != [] then [Field(NAME, nd.name)] else [])
    + [Field(ICNT, EncodeInt(ToInt32(NOutput(nd.output))))]
  }

  /** `InputLayer::Save`. */
  function InputChunk(nd: Node): seq<byte> {
    Chunk(INPT, Encode(InputFields(nd)))
  }

  /** `InputLayer(bin)`: reads `NAME` and `ICNT` (an uninitialised `int`), then `Ones(ICNT + 1, 1)`. */
  function InputLoad(payload: seq<byte>): (r: Result<Node>)
    ensures r.Success? ==>
      r.value.kind == InputLayer && r.value.prev == Null && r.value.inputs == []
      && BatchSize(r.value.output) == 1
  {
    match ParseChunks(payload)
    case None => Failure(Truncated)
    case Some(fs) =>
      var name := ReadString(fs, NAME, []);
      match ReadScalar(Int32, fs, ICNT, None)
      case Failure(e) => Failure(e)
      case Success(ic) =>
        if ic + 1 < 0 then Failure(BadShape)
        else Success(Node(name, 0, Ones(ic + 1, 1), -1, Null, [], InputLayer))
  }

  /** Without an `ICNT` chunk the count is read from an uninitialised variable. */
  lemma InputLoadNeedsCount(payload: seq<byte>)
    requires ParseChunks(payload).Some? && Lookup(ParseChunks(payload).value, ICNT) == []
    ensures InputLoad(payload) == Failure(Indeterminate)
  {
  }

  /** The `INPT` fields fit their headers, and each name occurs at most once. */
  lemma InputFieldsRead(nd: Node)
    requires 1 <= nd.output.rows <= 0x8000_0000 && |nd.name| < TWO32
    ensures var fs := InputFields(nd);
      Fits(fs) && Lookup(fs, ICNT) == [EncodeInt(NOutput(nd.output))]
      && Lookup(fs, NAME) == (if nd.name != [] then [nd.name] else [])
  {
    var n := NOutput(nd.output);
    var fs := InputFields(nd);
    var ic := Field(ICNT, EncodeInt(n));
    assert |EncodeInt(n)| == 4;
    if nd.name != [] {
      assert fs == [Field(NAME, nd.name), ic];
      assert fs[1..] == [ic] && fs[1..][1..] == [];
    } else {
      assert fs == [ic] && fs[1..] == [];
    }
  }

  /** A saved input layer reloads as a one-sample layer with the same name and input count. */
  lemma InputRoundTrip(nd: Node)
    requires 1 <= nd.output.rows <= 0x8000_0000 && |nd.name| < TWO32
    ensures var r := InputLoad(Encode(InputFields(nd)));
      r.Success? && r.value.name == nd.name && r.value.output == Ones(nd.output.rows, 1)
      && NOutput(r.value.output) == NOutput(nd.output)
  {
    var n := NOutput(nd.output);
    var fs := InputFields(nd);
    IntExact(n);
    InputFieldsRead(nd);
    ParseEncode(fs);
    ReadWritten(Int32, fs, ICNT, n, None);
  }
}
