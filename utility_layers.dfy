/**
 * `NeuronAdder`, `NeuronMultiplier`, `Concat` and `DivercitySort`
 * (`src/PVX_NeuralNets_UtilityLayers.cpp`). The adder and the multiplier
 * combine the outputs of several input layers; here are their own parts of
 * each pass, applied to the input outputs in input order. The recursion
 * into the inputs is in module `Network`.
 */
module Utility {
  import opened Wrappers
  import opened Matrices
  import opened Bytes
  import opened BinFormat
  import opened Names
  import opened Graph

  // ---------------------------------------------------------------- NeuronAdder

  /** `NeuronAdder(InputSize)`: a zero buffer of `InputSize` features plus the bias row. */
  function NewAdder(inputSize: int): (r: Result<Node>)
    ensures r.Success? <==> inputSize + 1 >= 0
    ensures r.Success? ==>
      r.value.kind == NeuronAdder && r.value.prev == Null && r.value.inputs == []
      && r.value.output == Zeros(inputSize + 1, 1)
  {
    if inputSize + 1 < 0 then Failure(BadShape)
    else Success(Node([], 0, Zeros(inputSize + 1, 1), -1, Null, [], NeuronAdder))
  }

  /** `NeuronAdder(Inputs)`: sized by `int(Inputs[0]->nOutput())`; an empty list has no `Inputs[0]`. */
  function NewAdderOn(ns: seq<Node>, ls: seq<nat>): (r: Result<Node>)
    requires forall k | 0 <= k < |ls| :: ls[k] < |ns|
    ensures r.Success? ==> r.value.kind == NeuronAdder && |r.value.inputs| == |ls|
    ensures r.Success? ==> forall k | 0 <= k < |ls| :: r.value.inputs[k] == At(ls[k])
    ensures ls == [] ==> r == Failure(BadIndex)
    ensures ls != [] && ns[ls[0]].output.rows >= 1 && IsInt(ns[ls[0]].output.rows - 1) ==>
      r.Success? && HasShape(r.value.output, ns[ls[0]].output.rows, 1)
  {
    if ls == [] then Failure(BadIndex)
    else match NewAdder(ToInt32(NOutput(ns[ls[0]].output)))
      case Failure(e) => Failure(e)
      case Success(nd) => Success(nd.(inputs := seq(|ls|, k requires 0 <= k < |ls| => At(ls[k]))))
  }

  /** The sum, over the first `n` matrices, of entry `(i, j)`. */
  function EntrySum(os: seq<Mat>, n: nat, j: nat, i: nat): real
    requires n <= |os| && forall k | 0 <= k < n :: j < Width(os[k]) && i < os[k].rows
  {
    if n == 0 then 0.0
    else
      var m := os[n - 1];
      assert j < Width(os[n - 1]) && i < os[n - 1].rows;
      assert Wf(m);
      EntrySum(os, n - 1, j, i) + m.cols[j][i]
  }

  /** All matrices have the shape of the first. */
  predicate Uniform(os: seq<Mat>) {
    forall k | 0 <= k < |os| :: SameShape(os[k], os[0])
  }

  /**
   * `output = InputLayers[0]->Output(); output += InputLayers[i]->Output()`:
   * Eigen's `+=` refuses a shape that differs from the running sum's.
   */
  function {:induction false} Sum(os: seq<Mat>): (r: Result<Mat>)
    ensures r.Success? <==> os != [] && Uniform(os)
    ensures r.Success? ==>
      SameShape(r.value, os[0])
      && forall j, i | 0 <= j < Width(os[0]) && 0 <= i < os[0].rows :: r.value.cols[j][i] == EntrySum(os, |os|, j, i)
  {
    if os == [] then Failure(BadIndex)
    else if |os| == 1 then Success(os[0])
    else
      var init := os[..|os| - 1];
      assert forall k | 0 <= k < |init| :: init[k] == os[k];
      match Sum(init)
      case Failure(e) => Failure(e)
      case Success(s) =>
        if !SameShape(s, os[|os| - 1]) then Failure(BadShape)
        else
          var r := Add(s, os[|os| - 1]);
          assert forall j, i | 0 <= j < Width(os[0]) && 0 <= i < os[0].rows ::
            EntrySum(os, |os| - 1, j, i) == EntrySum(init, |init|, j, i) by {
            forall j, i | 0 <= j < Width(os[0]) && 0 <= i < os[0].rows
              ensures EntrySum(os, |os| - 1, j, i) == EntrySum(init, |init|, j, i)
            {
              EntrySumPrefix(os, init, |init|, j, i);
            }
          }
          Success(r)
  }

  /** `EntrySum` looks only at the matrices it sums. */
  lemma {:induction false} EntrySumPrefix(os: seq<Mat>, ps: seq<Mat>, n: nat, j: nat, i: nat)
    requires n <= |os| && n <= |ps| && forall k | 0 <= k < n :: os[k] == ps[k]
    requires forall k | 0 <= k < n :: j < Width(os[k]) && i < os[k].rows
    ensures EntrySum(os, n, j, i) == EntrySum(ps, n, j, i)
  {
    if n > 0 {
      EntrySumPrefix(os, ps, n - 1, j, i);
    }
  }

  /**
   * The adder's output: the sum of its inputs' outputs, then
   * `output.row(rows - 1) = Ones(1, cols)`.
   */
  function AdderOutput(os: seq<Mat>): (r: Result<Mat>)
    ensures r.Success? <==> os != [] && Uniform(os) && os[0].rows >= 1
    ensures r.Success? ==>
      SameShape(r.value, os[0])
      && (forall j | 0 <= j < Width(os[0]) :: r.value.cols[j][os[0].rows - 1] == 1.0)
      && forall j, i | 0 <= j < Width(os[0]) && 0 <= i < os[0].rows - 1 :: r.value.cols[j][i] == EntrySum(os, |os|, j, i)
  {
    match Sum(os)
    case Failure(e) => Failure(e)
    case Success(s) => if s.rows == 0 then Failure(BadShape) else Success(SetLastRow(s, 1.0))
  }

  /** Once a prefix of the running sum fails, the whole sum fails the same way. */
  lemma {:induction false} SumStops(os: seq<Mat>, n: nat)
    requires 1 <= n <= |os| && Sum(os[..n]).Failure?
    ensures Sum(os) == Sum(os[..n])
    decreases |os| - n
  {
    if n < |os| {
      assert os[..n + 1][..n] == os[..n];
      SumStops(os, n + 1);
    } else {
      assert os[..n] == os;
    }
  }

  /**
   * The adder's loop over its inputs' outputs, in order: the running sum
   * starts as the first output and each later one is added to it; then the
   * bias row is set to ones.
   */
  method AddOutputs(os: seq<Mat>) returns (r: Result<Mat>)
    ensures r == AdderOutput(os)
  {
    if os == [] {
      return Failure(BadIndex);
    }
    var acc := os[0];
    var q := 1;
    assert os[..1] == [os[0]];
    while q < |os|
      invariant 1 <= q <= |os| && Sum(os[..q]) == Success(acc)
      decreases |os| - q
    {
      assert os[..q + 1][..q] == os[..q];
      if !SameShape(acc, os[q]) {
        SumStops(os, q + 1);
        return Failure(BadShape);
      }
      acc := Add(acc, os[q]);
      q := q + 1;
    }
    assert os[..q] == os;
    if acc.rows == 0 {
      return Failure(BadShape);
    }
    r := Success(SetLastRow(acc, 1.0));
  }

  /** `nInput()`: the feature rows of the buffer. */
  function AdderNInput(nd: Node): (n: nat)
    ensures nd.output.rows >= 1 ==> n + 1 == nd.output.rows
  {
    NOutput(nd.output)
  }

  /**
   * The 1-based indices `IndexOf.at(i)` of the input layers, in input order;
   * a layer without one throws.
   */
  function {:induction false} InputIndices(indexOf: map<nat, nat>, ls: seq<Link>): (r: Result<seq<nat>>)
    ensures r.Success? <==> forall k | 0 <= k < |ls| :: ls[k].At? && ls[k].index in indexOf
    ensures r.Success? ==> |r.value| == |ls| && forall k | 0 <= k < |ls| :: r.value[k] == indexOf[ls[k].index]
  {
    if ls == [] then Success([])
    else match (IndexOfLink(indexOf, ls[0]), InputIndices(indexOf, ls[1..]))
      case (Success(h), Success(t)) =>
        assert forall k | 1 <= k < |ls| :: ls[k] == ls[1..][k - 1];
        Success([h] + t)
      case (Failure(e), _) => Failure(e)
      case (_, Failure(e)) =>
        assert forall k | 0 <= k < |ls[1..]| :: ls[1..][k] == ls[k + 1];
        Failure(e)
  }

  /** The `int`s of a list of indices. */
  function Ints(xs: seq<nat>): (r: seq<int>)
    ensures |r| == |xs| && forall k | 0 <= k < |xs| :: r[k] == ToInt32(xs[k])
  {
    seq(|xs|, k requires 0 <= k < |xs| => ToInt32(xs[k]))
  }

  /** The fields of an `ADDR` chunk: `INPC = int(nInput())` and the raw `int` indices inside `LYRS`. */
  function AdderFields(nd: Node, idxs: seq<nat>): seq<Field> {
    [Field(INPC, EncodeInt(ToInt32(NOutput(nd.output)))), Field(LYRS, EncodeAll(Int32, Ints(idxs)))]
  }

  /** `NeuronAdder::Save`. */
  function AdderSave(nd: Node, indexOf: map<nat, nat>): (r: Result<seq<byte>>)
    ensures r.Success? <==> forall k | 0 <= k < |nd.inputs| :: nd.inputs[k].At? && nd.inputs[k].index in indexOf
    ensures r.Success? ==> r.value == Chunk(ADDR, Encode(AdderFields(nd, InputIndices(indexOf, nd.inputs).value)))
  {
    match InputIndices(indexOf, nd.inputs)
    case Failure(e) => Failure(e)
    case Success(idxs) => Success(Chunk(ADDR, Encode(AdderFields(nd, idxs))))
  }

  /** The placeholders `reinterpret_cast<NeuralLayer_Base*>(l)`, in file order. */
  function Marks(ps: seq<int>): (r: seq<Link>)
    ensures |r| == |ps| && forall k | 0 <= k < |ps| :: r[k] == Mark(ps[k])
  {
    seq(|ps|, k requires 0 <= k < |ps| => Mark(ps[k]))
  }

  /** `NeuronAdder::Load2`: an uninitialised `INPC`, an initially empty `LYRS` vector. */
  function AdderLoad(payload: seq<byte>): (r: Result<Node>)
    ensures r.Success? ==> r.value.kind == NeuronAdder && r.value.prev == Null
    ensures r.Success? ==> forall k | 0 <= k < |r.value.inputs| :: r.value.inputs[k].Mark?
  {
    match ParseChunks(payload)
    case None => Failure(Truncated)
    case Some(fs) =>
      match (ReadScalar(Int32, fs, INPC, None), ReadVector(Int32, fs, LYRS, []))
      case (Success(inp), Success(layers)) =>
        (match NewAdder(inp)
         case Success(nd) => Success(nd.(inputs := Marks(layers)))
         case Failure(e) => Failure(e))
      case (Failure(e), _) => Failure(e)
      case (_, Failure(e)) => Failure(e)
  }

  lemma IntsExact(xs: seq<nat>)
    ensures AllExact(Int32, Ints(xs))
  {
    forall k | 0 <= k < |xs| ensures Exact(Int32, Ints(xs)[k]) {
      IntExact(Ints(xs)[k]);
    }
  }

  /**
   * Save then Load2: a zero buffer with the saved row count and, in order,
   * one placeholder per input holding that input's index.
   */
  lemma AdderRoundTrip(nd: Node, indexOf: map<nat, nat>)
    requires forall k | 0 <= k < |nd.inputs| :: nd.inputs[k].At? && nd.inputs[k].index in indexOf
    requires forall k | 0 <= k < |nd.inputs| :: IsInt(indexOf[nd.inputs[k].index])
    requires nd.output.rows >= 1 && IsInt(nd.output.rows - 1) && |nd.inputs| * 4 < TWO32
    ensures var idxs := InputIndices(indexOf, nd.inputs).value;
      var r := AdderLoad(Encode(AdderFields(nd, idxs)));
      r.Success? && r.value.output == Zeros(nd.output.rows, 1) && |r.value.inputs| == |nd.inputs|
      && forall k | 0 <= k < |nd.inputs| :: r.value.inputs[k] == Mark(indexOf[nd.inputs[k].index])
  {
    var idxs := InputIndices(indexOf, nd.inputs).value;
    var fs := AdderFields(nd, idxs);
    AdderFieldsRead(nd, idxs);
    ParseEncode(fs);
    var nd' := NewAdder(NOutput(nd.output)).value;
    assert AdderLoad(Encode(fs)) == Success(nd'.(inputs := Marks(Ints(idxs))));
    assert forall k | 0 <= k < |idxs| :: Ints(idxs)[k] == idxs[k];
  }

  lemma AdderFieldsRead(nd: Node, idxs: seq<nat>)
    requires nd.output.rows >= 1 && IsInt(nd.output.rows - 1) && |idxs| * 4 < TWO32
    ensures var fs := AdderFields(nd, idxs);
      Fits(fs) && ReadScalar(Int32, fs, INPC, None) == Success(NOutput(nd.output) as int)
      && ReadVector(Int32, fs, LYRS, []) == Success(Ints(idxs))
  {
    var fs := AdderFields(nd, idxs);
    var n := NOutput(nd.output);
    IntExact(n);
    IntsExact(idxs);
    EncodeAllLength(Int32, Ints(idxs));
    LookupUnique(fs, 0);
    LookupUnique(fs, 1);
    ReadWritten(Int32, fs, INPC, n, None);
    ReadVectorWritten(Int32, fs, LYRS, Ints(idxs), []);
  }

  // ---------------------------------------------------------------- NeuronMultiplier

  /** `NeuronMultiplier(inputs)`: a zero buffer of `inputs + 1` rows. */
  function NewMultiplier(inputs: int): (r: Result<Node>)
    ensures r.Success? <==> inputs + 1 >= 0
    ensures r.Success? ==> r.value.kind == NeuronMultiplier && r.value.output == Zeros(inputs + 1, 1)
  {
    if inputs + 1 < 0 then Failure(BadShape)
    else Success(Node([], 0, Zeros(inputs + 1, 1), -1, Null, [], NeuronMultiplier))
  }

  /** `NeuronMultiplier(inputs)` on a list: the rows of `inputs[0]`'s whole output. */
  function NewMultiplierOn(ns: seq<Node>, ls: seq<nat>): (r: Result<Node>)
    requires forall k | 0 <= k < |ls| :: ls[k] < |ns|
    ensures r.Success? <==> ls != []
    ensures r.Success? ==>
      r.value.kind == NeuronMultiplier && r.value.output == Zeros(ns[ls[0]].output.rows, 1)
      && |r.value.inputs| == |ls| && forall k | 0 <= k < |ls| :: r.value.inputs[k] == At(ls[k])
  {
    if ls == [] then Failure(BadIndex)
    else
      var ins := seq(|ls|, k requires 0 <= k < |ls| => At(ls[k]));
      Success(Node([], 0, Zeros(ns[ls[0]].output.rows, 1), -1, Null, ins, NeuronMultiplier))
  }

  /** The product, over the first `n` matrices except the `skip`-th, of entry `(i, j)`. */
  function EntryProduct(os: seq<Mat>, n: nat, skip: int, j: nat, i: nat): real
    requires n <= |os| && forall k | 0 <= k < n && k != skip :: j < Width(os[k]) && i < os[k].rows
  {
    if n == 0 then 1.0
    else if n - 1 == skip then EntryProduct(os, n - 1, skip, j, i)
    else
      var m := os[n - 1];
      assert j < Width(os[n - 1]) && i < os[n - 1].rows;
      assert Wf(m);
      EntryProduct(os, n - 1, skip, j, i) * m.cols[j][i]
  }

  /** `tmp = os[0]; tmp *= os[i]`, skipping `skip`, over the first `n` matrices. */
  function {:induction false} ProductExcept(os: seq<Mat>, n: nat, skip: int, start: Mat): (r: Result<Mat>)
    requires n <= |os|
    ensures r.Success? <==> forall k | 0 <= k < n && k != skip :: SameShape(os[k], start)
    ensures r.Success? ==>
      SameShape(r.value, start)
      && forall j, i | 0 <= j < Width(start) && 0 <= i < start.rows ::
        r.value.cols[j][i] == start.cols[j][i] * EntryProduct(os, n, skip, j, i)
  {
    if n == 0 then Success(start)
    else match ProductExcept(os, n - 1, skip, start)
      case Failure(e) => Failure(e)
      case Success(p) =>
        if n - 1 == skip then Success(p)
        else if !SameShape(p, os[n - 1]) then Failure(BadShape)
        else Success(Hadamard(p, os[n - 1]))
  }

  /**
   * The multiplier's output: the elementwise product of its inputs' whole
   * outputs (bias rows included), in input order.
   */
  function MultiplierOutput(os: seq<Mat>): (r: Result<Mat>)
    ensures r.Success? <==> os != [] && Uniform(os)
    ensures r.Success? ==>
      SameShape(r.value, os[0])
      && forall j, i | 0 <= j < Width(os[0]) && 0 <= i < os[0].rows ::
        r.value.cols[j][i] == EntryProduct(os, |os|, -1, j, i)
  {
    if os == [] then Failure(BadIndex)
    else
      var one := Ones(os[0].rows, Width(os[0]));
      match ProductExcept(os, |os|, -1, one)
      case Failure(e) => Failure(e)
      case Success(p) => Success(p)
  }

  /** Once a prefix of the running product fails, the whole product fails the same way. */
  lemma {:induction false} ProductStops(os: seq<Mat>, n: nat, m: nat, skip: int, start: Mat)
    requires n <= m <= |os| && ProductExcept(os, n, skip, start).Failure?
    ensures ProductExcept(os, m, skip, start) == ProductExcept(os, n, skip, start)
    decreases m - n
  {
    if n < m {
      ProductStops(os, n, m - 1, skip, start);
    }
  }

  /**
   * The multiplier's loop over its inputs' outputs, in order: the running
   * product starts as ones of the first output's shape and is multiplied
   * entrywise by each output.
   */
  method MultiplyOutputs(os: seq<Mat>) returns (r: Result<Mat>)
    ensures r == MultiplierOutput(os)
  {
    if os == [] {
      return Failure(BadIndex);
    }
    var one := Ones(os[0].rows, Width(os[0]));
    var acc := one;
    var q := 0;
    while q < |os|
      invariant q <= |os| && ProductExcept(os, q, -1, one) == Success(acc)
      decreases |os| - q
    {
      if !SameShape(acc, os[q]) {
        ProductStops(os, q + 1, |os|, -1, one);
        return Failure(BadShape);
      }
      acc := Hadamard(acc, os[q]);
      q := q + 1;
    }
    r := Success(acc);
  }

  /** `nInput()` of a multiplier is its batch size. */
  function MultiplierNInput(nd: Node): (n: nat)
    ensures n == BatchSize(nd.output)
  {
    Width(nd.output)
  }

  /**
   * The gradient `BackPropagate` sends input `j`: `Gradient` times the
   * product of every other input's `RealOutput()`. Input `0` starts from
   * `InputLayers[1]`, every other input from `InputLayers[0]`, so a
   * multiplier with fewer than two inputs reads past its list.
   */
  function MultiplierMessage(g: Mat, reals: seq<Mat>, j: nat): (r: Result<Mat>)
    requires j < |reals|
    ensures |reals| < 2 ==> r == Failure(BadIndex)
    ensures r.Success? ==>
      |reals| >= 2 && SameShape(r.value, g)
      && (forall k | 0 <= k < |reals| && k != j :: SameShape(reals[k], g))
      && forall c, i | 0 <= c < Width(g) && 0 <= i < g.rows ::
        r.value.cols[c][i] == g.cols[c][i] * EntryProduct(reals, |reals|, j, c, i)
  {
    if |reals| < 2 then Failure(BadIndex)
    else
      var first := if j == 0 then 1 else 0;
      match ProductExcept(reals, |reals|, j, Ones(reals[first].rows, Width(reals[first])))
      case Failure(e) => Failure(e)
      case Success(p) => if !SameShape(g, p) then Failure(BadShape) else Success(Hadamard(g, p))
  }

  /** The payload of a `MULP` chunk: the raw `int` indices of the inputs, no inner chunks. */
  function MultiplierSave(nd: Node, indexOf: map<nat, nat>): (r: Result<seq<byte>>)
    ensures r.Success? <==> forall k | 0 <= k < |nd.inputs| :: nd.inputs[k].At? && nd.inputs[k].index in indexOf
    ensures r.Success? ==> r.value == Chunk(MULP, EncodeAll(Int32, Ints(InputIndices(indexOf, nd.inputs).value)))
  {
    match InputIndices(indexOf, nd.inputs)
    case Failure(e) => Failure(e)
    case Success(idxs) => Success(Chunk(MULP, EncodeAll(Int32, Ints(idxs))))
  }

  // ---------------------------------------------------------------- Concat

  /** All columns of all matrices, block after block. */
  function AllCols(ms: seq<Mat>): (cs: seq<seq<real>>)
    ensures |cs| == ColCount(ms)
  {
    if ms == [] then [] else AllCols(ms[..|ms| - 1]) + ms[|ms| - 1].cols
  }

  function ColCount(ms: seq<Mat>): nat {
    if ms == [] then 0 else ColCount(ms[..|ms| - 1]) + Width(ms[|ms| - 1])
  }

  /** All matrices have the row count of the first. */
  predicate SameRows(ms: seq<Mat>) {
    forall k | 0 <= k < |ms| :: ms[k].rows == ms[0].rows
  }

  /** The buffers of the matrices one after another. */
  function FlatAll(ms: seq<Mat>): seq<real> {
    if ms == [] then [] else FlatAll(ms[..|ms| - 1]) + Flatten(ms[|ms| - 1])
  }

  lemma {:induction false} FlattenAppend(rows: nat, a: seq<seq<real>>, b: seq<seq<real>>)
    ensures Flatten(Matrix(rows, a + b)) == Flatten(Matrix(rows, a)) + Flatten(Matrix(rows, b))
    decreases |a|
  {
    if a != [] {
      assert (a + b)[1..] == a[1..] + b;
      FlattenAppend(rows, a[1..], b);
    } else {
      assert a + b == b;
    }
  }

  /** Laying the matrices' buffers end to end lays out their columns end to end. */
  lemma {:induction false} FlatAllCols(ms: seq<Mat>, rows: nat)
    requires forall k | 0 <= k < |ms| :: ms[k].rows == rows
    ensures FlatAll(ms) == Flatten(Matrix(rows, AllCols(ms)))
    ensures Wf(Matrix(rows, AllCols(ms)))
  {
    if ms != [] {
      var init := ms[..|ms| - 1];
      FlatAllCols(init, rows);
      FlattenAppend(rows, AllCols(init), ms[|ms| - 1].cols);
      assert Matrix(rows, ms[|ms| - 1].cols) == ms[|ms| - 1];
      var cs := AllCols(ms);
      assert forall j | 0 <= j < |cs| :: |cs[j]| == rows by {
        forall j | 0 <= j < |cs| ensures |cs[j]| == rows {
          if j >= |AllCols(init)| {
            assert cs[j] == ms[|ms| - 1].cols[j - |AllCols(init)|];
          }
        }
      }
    }
  }

  /**
   * `Concat(M)`: a buffer of `rows(M[0])` rows and `Σ cols` columns, filled
   * by `memcpy` of each matrix's data at a running offset and read back in
   * column-major order. Inputs holding more floats than the buffer overrun
   * it; inputs holding fewer leave its tail unset.
   */
  method Concat(ms: seq<Mat>) returns (r: Result<Mat>)
    ensures ms == [] ==> r == Failure(BadIndex)
    ensures ms != [] && |FlatAll(ms)| > ms[0].rows * ColCount(ms) ==> r == Failure(BadIndex)
    ensures ms != [] && |FlatAll(ms)| < ms[0].rows * ColCount(ms) ==> r == Failure(Indeterminate)
    ensures ms != [] && |FlatAll(ms)| == ms[0].rows * ColCount(ms) ==>
      r == Success(Unflatten(FlatAll(ms), ms[0].rows, ColCount(ms)))
  {
    if ms == [] { return Failure(BadIndex); }
    var rows := ms[0].rows;
    var cols := ColumnTotal(ms);
    var size := |FlatAll(ms)|;
    if size > rows * cols { return Failure(BadIndex); }
    if size < rows * cols { return Failure(Indeterminate); }
    var buf := new real[rows * cols];
    CopyAll(buf, ms);
    r := Success(Unflatten(buf[..], rows, cols));
  }

  /**
   * With equal row counts the buffers fit exactly and the result holds the
   * columns of every matrix, block after block.
   */
  lemma ConcatSameRows(ms: seq<Mat>)
    requires ms != [] && SameRows(ms)
    ensures |FlatAll(ms)| == ms[0].rows * ColCount(ms)
    ensures Unflatten(FlatAll(ms), ms[0].rows, ColCount(ms)) == Matrix(ms[0].rows, AllCols(ms))
  {
    var m := Matrix(ms[0].rows, AllCols(ms));
    FlatAllCols(ms, ms[0].rows);
    UnflattenFlatten(m);
  }

  /** Column `j` of block `k` of the concatenation is column `j` of `M[k]`. */
  lemma {:induction false} AllColsBlock(ms: seq<Mat>, k: nat, j: nat)
    requires k < |ms| && j < Width(ms[k])
    ensures ColCount(ms[..k]) + j < ColCount(ms)
    ensures AllCols(ms)[ColCount(ms[..k]) + j] == ms[k].cols[j]
    decreases |ms|
  {
    var n := |ms| - 1;
    var init := ms[..n];
    assert ms[..n + 1] == ms;
    if k == n {
      assert ms[..k] == init;
    } else {
      assert init[..k] == ms[..k];
      AllColsBlock(init, k, j);
    }
  }

  /** `for (auto& m : M) cols += m.cols()`. */
  method ColumnTotal(ms: seq<Mat>) returns (cols: nat)
    ensures cols == ColCount(ms)
  {
    cols := 0;
    var k := 0;
    while k < |ms|
      invariant 0 <= k <= |ms| && cols == ColCount(ms[..k])
    {
      assert ms[..k + 1][..k] == ms[..k];
      cols := cols + Width(ms[k]);
      k := k + 1;
    }
    assert ms[..|ms|] == ms;
  }

  /** The copy loop of `Concat`: each matrix's data at the running offset. */
  method CopyAll(buf: array<real>, ms: seq<Mat>)
    requires buf.Length == |FlatAll(ms)|
    modifies buf
    ensures buf[..] == FlatAll(ms)
  {
    var offset := 0;
    var k := 0;
    while k < |ms|
      invariant 0 <= k <= |ms| && offset == |FlatAll(ms[..k])| && offset <= buf.Length
      invariant buf[..offset] == FlatAll(ms[..k])
    {
      var data := Flatten(ms[k]);
      assert ms[..k + 1][..k] == ms[..k];
      assert FlatAll(ms[..k + 1]) == FlatAll(ms[..k]) + data;
      FlatPrefixFits(ms, k + 1);
      CopyInto(buf, offset, data);
      offset := offset + |data|;
      k := k + 1;
    }
    assert ms[..|ms|] == ms;
    assert buf[..] == buf[..offset];
  }

  /** `memcpy(buf + offset, data, ...)`: the first `offset` entries are kept, `data` follows them. */
  method CopyInto(buf: array<real>, offset: nat, data: seq<real>)
    requires offset + |data| <= buf.Length
    modifies buf
    ensures buf[..offset + |data|] == old(buf[..offset]) + data
  {
    var t := 0;
    while t < |data|
      invariant 0 <= t <= |data|
      invariant buf[..offset + t] == old(buf[..offset]) + data[..t]
    {
      buf[offset + t] := data[t];
      assert buf[..offset + t + 1] == buf[..offset + t] + [data[t]];
      assert data[..t + 1] == data[..t] + [data[t]];
      t := t + 1;
    }
    assert data[..|data|] == data;
  }

  /** Any prefix of the buffers fits in the whole. */
  lemma FlatPrefixFits(ms: seq<Mat>, n: nat)
    requires n <= |ms|
    ensures |FlatAll(ms[..n])| <= |FlatAll(ms)|
    decreases |ms| - n
  {
    if n < |ms| {
      FlatPrefixFits(ms, n + 1);
      assert ms[..n + 1][..n] == ms[..n];
    } else {
      assert ms[..n] == ms;
    }
  }

  // ---------------------------------------------------------------- DivercitySort

  /** A column and its sort key. */
  datatype Keyed = Keyed(key: real, col: seq<real>)

  predicate SortedByKey(s: seq<Keyed>) {
    forall a, b | 0 <= a < b < |s| :: s[a].key <= s[b].key
  }

  /**
   * `std::sort` with `a.first < b.first`: an ordering by nondecreasing key.
   * The order among equal keys is one the library is free to choose; this
   * model keeps them in input order.
   */
  function {:induction false} SortKeyed(s: seq<Keyed>): (r: seq<Keyed>)
    ensures SortedByKey(r) && multiset(r) == multiset(s) && |r| == |s|
  {
    if s == [] then []
    else
      var t := SortKeyed(s[..|s| - 1]);
      assert s == s[..|s| - 1] + [s[|s| - 1]];
      InsertKeyed(s[|s| - 1], t)
  }

  function {:induction false} InsertKeyed(x: Keyed, s: seq<Keyed>): (r: seq<Keyed>)
    requires SortedByKey(s)
    ensures SortedByKey(r) && multiset(r) == multiset(s) + multiset{x} && |r| == |s| + 1
    decreases |s|
  {
    if s == [] then [x]
    else if s[|s| - 1].key <= x.key then s + [x]
    else
      var init := s[..|s| - 1];
      assert s == init + [s[|s| - 1]];
      assert SortedByKey(init) by {
        forall a, b | 0 <= a < b < |init| ensures init[a].key <= init[b].key {
          assert s[a] == init[a] && s[b] == init[b];
        }
      }
      var t := InsertKeyed(x, init);
      InsertedBelow(x, init, s[|s| - 1], t);
      t + [s[|s| - 1]]
  }

  /** Every element of the shorter sorted run is at most `last`, so `last` can follow it. */
  lemma InsertedBelow(x: Keyed, init: seq<Keyed>, last: Keyed, t: seq<Keyed>)
    requires SortedByKey(init + [last]) && x.key < last.key
    requires SortedByKey(t) && multiset(t) == multiset(init) + multiset{x}
    ensures SortedByKey(t + [last])
  {
    var s := init + [last];
    forall e: Keyed | e in multiset(t) ensures e.key <= last.key {
      assert e in multiset(init) + multiset{x};
      if e in multiset(init) {
        var a :| 0 <= a < |init| && init[a] == e;
        assert s[a] == e && s[|init|] == last;
      }
    }
    forall a, b | 0 <= a < b < |t| + 1 ensures (t + [last])[a].key <= (t + [last])[b].key {
      if b == |t| {
        assert (t + [last])[a] == t[a] && t[a] in multiset(t);
      } else {
        assert (t + [last])[a] == t[a] && (t + [last])[b] == t[b];
      }
    }
  }

  /** The columns of `a` each paired with its key, in column order. */
  function Pairs(a: Mat, div: seq<real>): (r: seq<Keyed>)
    requires |div| <= Width(a)
    ensures |r| == |div| && forall i | 0 <= i < |div| :: r[i].key == div[i] && r[i].col == a.cols[i]
  {
    seq(|div|, i requires 0 <= i < |div| => Keyed(div[i], a.cols[i]))
  }

  function ColOf(e: Keyed): seq<real> { e.col }

  /**
   * `DivercitySort(a, div)`: the columns of `a` paired with their keys,
   * sorted by key, laid into a matrix of `a`'s shape: column `i` of the
   * result is the column whose key is the `i`-th smallest. A key list longer
   * than the column count reads past `a`; a shorter one leaves columns unset.
   */
  function DivercitySort(a: Mat, div: seq<real>): (r: Result<Mat>)
    ensures r.Success? <==> |div| == Width(a)
    ensures |div| > Width(a) ==> r == Failure(BadIndex)
    ensures |div| < Width(a) ==> r == Failure(Indeterminate)
    ensures r.Success? ==>
      HasShape(r.value, a.rows, Width(a))
      && multiset(r.value.cols) == multiset(a.cols)
      && exists s: seq<Keyed> ::
           SortedByKey(s) && multiset(s) == multiset(Pairs(a, div)) && r.value.cols == Project(s, ColOf)
  {
    if |div| > Width(a) then Failure(BadIndex)
    else if |div| < Width(a) then Failure(Indeterminate)
    else
      var all := Pairs(a, div);
      var sorted := SortKeyed(all);
      var cols := Project(sorted, ColOf);
      ProjectPerm(sorted, all, ColOf);
      assert Project(all, ColOf) == a.cols;
      assert forall j | 0 <= j < |cols| :: |cols[j]| == a.rows by {
        forall j | 0 <= j < |cols| ensures |cols[j]| == a.rows {
          assert sorted[j] in multiset(all);
        }
      }
      Success(Matrix(a.rows, cols))
  }

  /** `f` applied to every element. */
  function Project<A, B>(s: seq<A>, f: A -> B): (r: seq<B>)
    ensures |r| == |s| && forall i | 0 <= i < |s| :: r[i] == f(s[i])
  {
    seq(|s|, i requires 0 <= i < |s| => f(s[i]))
  }

  lemma ProjectConcat<A, B>(a: seq<A>, b: seq<A>, f: A -> B)
    ensures Project(a + b, f) == Project(a, f) + Project(b, f)
  {
  }

  lemma MultisetRemove<A>(t: seq<A>, i: nat)
    requires i < |t|
    ensures multiset(t[..i] + t[i + 1..]) == multiset(t) - multiset{t[i]}
  {
    assert t == t[..i] + [t[i]] + t[i + 1..];
  }

  lemma ProjectSplit<A, B>(t: seq<A>, i: nat, f: A -> B)
    requires i < |t|
    ensures Project(t, f) == Project(t[..i], f) + ([f(t[i])] + Project(t[i + 1..], f))
  {
    assert t == t[..i] + ([t[i]] + t[i + 1..]);
    ProjectConcat(t[..i], [t[i]] + t[i + 1..], f);
    ProjectConcat([t[i]], t[i + 1..], f);
  }

  /** Taking element `i` out of a sequence takes its image out of the image. */
  lemma ProjectRemove<A, B>(t: seq<A>, i: nat, f: A -> B)
    requires i < |t|
    ensures multiset(Project(t, f)) == multiset(Project(t[..i] + t[i + 1..], f)) + multiset{f(t[i])}
  {
    var a, b := Project(t[..i], f), Project(t[i + 1..], f);
    ProjectSplit(t, i, f);
    ProjectConcat(t[..i], t[i + 1..], f);
    assert multiset(a + ([f(t[i])] + b)) == multiset(a) + (multiset{f(t[i])} + multiset(b));
  }

  /** Rearranging a sequence rearranges its image. */
  lemma {:induction false} ProjectPerm<A, B>(s: seq<A>, t: seq<A>, f: A -> B)
    requires multiset(s) == multiset(t)
    ensures multiset(Project(s, f)) == multiset(Project(t, f))
    decreases |s|
  {
    if s == [] {
      assert |t| == |multiset(t)| == 0;
    } else {
      var n := |s| - 1;
      var x := s[n];
      assert x in multiset(t);
      var i :| 0 <= i < |t| && t[i] == x;
      var t' := t[..i] + t[i + 1..];
      MultisetRemove(t, i);
      MultisetRemove(s, n);
      assert s[..n] + s[n + 1..] == s[..n];
      ProjectPerm(s[..n], t', f);
      ProjectRemove(s, n, f);
      ProjectRemove(t, i, f);
    }
  }
}
