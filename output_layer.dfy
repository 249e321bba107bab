/**
 * `OutputLayer` (`src/PVX_NeuralNets_Output.cpp`): the end of a network. It
 * binds a forward pass, an error and a training step by `OutputType`, runs
 * the graph with a fresh version on each forward pass, and keeps a
 * checkpoint of the weights as one flat vector.
 */
module Outputs {
  import opened Wrappers
  import opened Matrices
  import opened Graph
  import opened BinFormat
  import opened Names
  import opened Network
  import opened Dna
  import opened Nets

  // ---------------------------------------------------------------- strategies

  /** What `FeedForward` does with `outPart` of the last layer's output. */
  datatype Forward = Plain | SoftMax | StableSoftMax

  /** What `GetError` and `Train` measure. */
  datatype Loss = MeanSquare | CrossEntropy

  datatype Strategy = Strategy(forward: Forward, loss: Loss)

  /**
   * The constructor's `switch (Type)` over `int(Type)`: `MeanSquare` (0),
   * `SoftMax` (1) and `StableSoftMax` (2), the last two sharing the
   * cross-entropy error and training step. Any other value binds nothing.
   */
  function Bind(t: int): (s: Option<Strategy>)
    ensures s.Some? <==> 0 <= t <= 2
    ensures t == 0 ==> s == Some(Strategy(Plain, MeanSquare))
    ensures 1 <= t <= 2 ==> s.value.loss == CrossEntropy && s.value.forward != Plain
    ensures s.Some? ==> (s.value.forward == Plain <==> s.value.loss == MeanSquare)
  {
    if t == 0 then Some(Strategy(Plain, MeanSquare))
    else if t == 1 then Some(Strategy(SoftMax, CrossEntropy))
    else if t == 2 then Some(Strategy(StableSoftMax, CrossEntropy))
    else None
  }

  /** The float kernels of the softmax outputs: `exp`-then-normalise per column, and `log`. */
  datatype OutKernels = OutKernels(softMax: Mat -> Mat, stableSoftMax: Mat -> Mat, log: real -> real)

  /** The matrix a forward strategy stores in `output`, from the feature rows of the last layer. */
  function Squash(k: OutKernels, f: Forward, m: Mat): Mat {
    match f
    case Plain => m
    case SoftMax => k.softMax(m)
    case StableSoftMax => k.stableSoftMax(m)
  }

  // ---------------------------------------------------------------- errors

  function Id(x: real): real { x }

  /**
   * `x²`, written as the product of `x` with an equal but distinct term: the
   * solver reasons about a literal square `x * x` of reals far less well.
   */
  function Square(x: real): real { x * Id(x) }

  function SumSquares(s: seq<real>): real {
    if s == [] then 0.0 else SumSquares(s[..|s| - 1]) + Square(s[|s| - 1])
  }

  function Sum(s: seq<real>): real {
    if s == [] then 0.0 else Sum(s[..|s| - 1]) + s[|s| - 1]
  }

  /** A sum of squares is never negative, and it is zero exactly when every term is. */
  lemma {:induction false} SumSquaresZero(s: seq<real>)
    ensures SumSquares(s) >= 0.0
    ensures SumSquares(s) == 0.0 <==> forall k | 0 <= k < |s| :: s[k] == 0.0
  {
    if s != [] {
      var n := |s| - 1;
      var p := s[..n];
      SumSquaresZero(p);
      assert forall k | 0 <= k < n :: p[k] == s[k];
      if forall k | 0 <= k < |s| :: s[k] == 0.0 {
        assert SumSquares(p) == 0.0;
      } else {
        var k :| 0 <= k < |s| && s[k] != 0.0;
        if k < n {
          assert SumSquares(p) > 0.0;
        }
      }
    }
  }

  /**
   * `GetError_MeanSquare`: `0.5 * Σ (target - output)² / cols`. The shapes
   * must agree (Eigen's difference), and with no columns the division is
   * `0 / 0`.
   */
  function MeanSquareError(t: Mat, o: Mat): (r: Result<real>)
    ensures r.Success? <==> SameShape(t, o) && Width(o) > 0
    ensures SameShape(t, o) && Width(o) == 0 ==> r == Failure(NotANumber)
  {
    if !SameShape(t, o) then Failure(BadShape)
    else if Width(o) == 0 then Failure(NotANumber)
    else Success(0.5 * SumSquares(Flatten(Sub(t, o))) / (Width(o) as real))
  }

  /** The mean-square error is never negative, and zero exactly when the target equals the output. */
  lemma MeanSquareZero(t: Mat, o: Mat)
    requires MeanSquareError(t, o).Success?
    ensures MeanSquareError(t, o).value >= 0.0
    ensures MeanSquareError(t, o).value == 0.0 <==> t == o
  {
    var d := Sub(t, o);
    var f := Flatten(d);
    SumSquaresZero(f);
    var w := Width(o) as real;
    var e := 0.5 * SumSquares(f) / w;
    assert MeanSquareError(t, o).value == e;
    if SumSquares(f) > 0.0 {
      assert e > 0.0;
    }
    if t == o {
      forall k | 0 <= k < |f|
        ensures f[k] == 0.0
      {
        DivMod(k, d.rows, Width(d));
        FlattenAt(d, k / d.rows, k % d.rows);
      }
    }
    if MeanSquareError(t, o).value == 0.0 {
      forall j, i | 0 <= j < |t.cols| && 0 <= i < t.rows
        ensures t.cols[j][i] == o.cols[j][i]
      {
        FlattenAt(d, j, i);
      }
      Ext(t, o);
    }
  }

  /** `GetError_SoftMax`: `-Σ target * log(output) / cols`, with `log` a kernel. */
  function CrossEntropyError(k: OutKernels, t: Mat, o: Mat): (r: Result<real>)
    ensures r.Success? <==> SameShape(t, o) && Width(o) > 0
  {
    if !SameShape(t, o) then Failure(BadShape)
    else if Width(o) == 0 then Failure(NotANumber)
    else Success(-Sum(Flatten(Hadamard(t, MapEntries(o, k.log)))) / (Width(o) as real))
  }

  /** `GetErrorFnc(Data)`: the bound error of `target` against `output`. */
  function ErrorOf(k: OutKernels, s: Option<Strategy>, t: Mat, o: Mat): (r: Result<real>)
    ensures s.None? ==> r == Failure(Unbound)
    ensures s.Some? && s.value.loss == MeanSquare ==> r == MeanSquareError(t, o)
    ensures s.Some? && s.value.loss == CrossEntropy ==> r == CrossEntropyError(k, t, o)
  {
    match s
    case None => Failure(Unbound)
    case Some(st) => if st.loss == MeanSquare then MeanSquareError(t, o) else CrossEntropyError(k, t, o)
  }

  /** `Eigen::Map<MatrixXf>(Data, 1, cols)`: the first `cols` floats as one row. */
  function RowOf(data: seq<real>, cols: nat): (m: Mat)
    requires cols <= |data|
    ensures HasShape(m, 1, cols) && forall j | 0 <= j < cols :: m.cols[j] == [data[j]]
  {
    Matrix(1, seq(cols, j requires 0 <= j < cols => [data[j]]))
  }

  // ---------------------------------------------------------------- Save

  /** The fields of an `OUTP` chunk: `TYPE = int(Type)` and `LAST = int(IndexOf.at(LastLayer))`. */
  function OutputFields(t: int, idx: nat): seq<Field> {
    [Field(TYPE, EncodeInt(t)), Field(LAST, EncodeInt(ToInt32(idx)))]
  }

  /** The two fields of an `OUTP` chunk, one chunk after the other. */
  lemma OutputFieldsBytes(t: int, idx: nat)
    ensures Encode(OutputFields(t, idx)) == ValueChunk(Int32, TYPE, t) + ValueChunk(Int32, LAST, ToInt32(idx))
  {
    var fs := OutputFields(t, idx);
    assert Encode(fs) == Chunk(fs[0].name, fs[0].payload) + Encode(fs[1..]);
    assert Encode(fs[1..]) == Chunk(fs[1].name, fs[1].payload) + Encode(fs[2..]);
  }

  /** Reading an `OUTP` chunk back gives the type and the index, when both fit an `int`. */
  lemma OutputFieldsRead(t: int, idx: nat)
    requires IsInt(t) && IsInt(idx)
    ensures var fs := OutputFields(t, idx);
      Fits(fs) && ParseChunks(Encode(fs)) == Some(fs)
      && ReadScalar(Int32, fs, TYPE, None) == Success(t) && ReadScalar(Int32, fs, LAST, None) == Success(idx as int)
  {
    var fs := OutputFields(t, idx);
    IntExact(t);
    IntExact(idx);
    ParseEncode(fs);
    LookupUnique(fs, 0);
    LookupUnique(fs, 1);
    ReadWritten(Int32, fs, TYPE, t, None);
    ReadWritten(Int32, fs, LAST, idx as int, None);
  }

  /** The first `cols` floats of `data()`; on a one-row matrix, that row. */
  function Leading(m: Mat): (r: Result<seq<real>>)
    ensures r.Success? <==> Width(m) <= |Flatten(m)|
    ensures r.Success? ==> |r.value| == Width(m) && r.value == Flatten(m)[..Width(m)]
    ensures r.Success? && m.rows == 1 ==> forall j | 0 <= j < Width(m) :: r.value[j] == m.cols[j][0]
  {
    if |Flatten(m)| < Width(m) then Failure(BadShape)
    else
      var f := Flatten(m);
      assert m.rows == 1 ==> forall j | 0 <= j < Width(m) :: f[j] == m.cols[j][0] by {
        if m.rows == 1 {
          forall j | 0 <= j < Width(m)
            ensures f[j] == m.cols[j][0]
          {
            FlattenAt(m, j, 0);
          }
        }
      }
      Success(f[..Width(m)])
  }

  // ---------------------------------------------------------------- the class

  class OutputLayer {
    const net: Net
    /** `LastLayer`, as its position in the arena. */
    const last: nat
    /** `int(Type)`. */
    const kind: int
    const outKernels: OutKernels
    var output: Mat
    var error: real
    var version: int
    var checkpoint: NetDNA
    var checkpointError: real
    var checkpointDNA: seq<real>

    /** The last layer is a layer of a live graph, and the checkpoint layout tiles and fits its vector. */
    ghost predicate Valid()
      reads this, net
    {
      Wired(net.nodes) && last < |net.nodes|
      && Tiles(checkpoint) && Ascending(checkpoint.layers) && Within(checkpoint.layers, |checkpointDNA|)
    }

    /** `OutputLayer(Last, Type)`: `Error` and `CheckpointError` start at `-1`, `Version` at `0`. */
    constructor (n: Net, l: nat, t: int, k: OutKernels)
      requires Wired(n.nodes) && l < |n.nodes|
      ensures Valid()
      ensures net == n && last == l && kind == t && outKernels == k
      ensures output == Matrix(0, []) && error == -1.0 && version == 0
      ensures checkpoint == NetDNA([], 0) && checkpointError == -1.0 && checkpointDNA == []
    {
      net := n;
      last := l;
      kind := t;
      outKernels := k;
      output := Matrix(0, []);
      error := -1.0;
      version := 0;
      checkpoint := NetDNA([], 0);
      checkpointError := -1.0;
      checkpointDNA := [];
    }

    /** `nOutput()`: `rows - 1` of the last layer's output, as an `int`, so `-1` for an empty one. */
    function NOutputs(): (n: int)
      requires last < |net.nodes|
      reads this, net
      ensures IsInt(n)
      ensures IsInt(net.nodes[last].output.rows) ==> n + 1 == net.nodes[last].output.rows
      ensures net.nodes[last].output.rows == 0 ==> n == -1
    {
      ToInt32(net.nodes[last].output.rows - 1)
    }

    /** `Gather()`: the layers reachable from the last one. */
    function Gathered(): (g: set<nat>)
      requires Wired(net.nodes) && last < |net.nodes|
      reads this, net
      ensures forall b: nat :: b in g <==> b < |net.nodes| && Reaches(net.nodes, last, b)
    {
      GatherExactly(net.nodes, last);
      Gather(net.nodes, last, {})
    }

    /**
     * The bound `FeedForward`: `++Version`, the graph fed from the last
     * layer with it, then `output` set from `outPart` of the last layer's
     * output. Unbound, it throws before touching anything.
     */
    method FeedForward() returns (ok: bool)
      requires Valid()
      modifies this, net
      ensures Valid()
      ensures checkpoint == old(checkpoint) && checkpointDNA == old(checkpointDNA)
      ensures error == old(error) && checkpointError == old(checkpointError)
      ensures Bind(kind).None? ==> !ok && version == old(version) && net.nodes == old(net.nodes) && output == old(output)
      ensures SameWiring(old(net.nodes), net.nodes)
      ensures Bind(kind).Some? ==> version == old(version) + 1 && SameWiring(old(net.nodes), net.nodes)
      ensures Bind(kind).Some? && Feed(net.kernels, old(net.nodes), last, version).Success? ==>
        net.nodes == Feed(net.kernels, old(net.nodes), last, version).value
      ensures Bind(kind).Some? ==>
        (ok <==> Feed(net.kernels, old(net.nodes), last, version).Success? && net.nodes[last].output.rows >= 1)
      ensures ok ==> output == Squash(outKernels, Bind(kind).value.forward, OutPart(net.nodes[last].output))
    {
      var s := Bind(kind);
      if s.None? {
        return false;
      }
      version := version + 1;
      ok := net.FeedForward(last, version);
      if ok {
        if net.nodes[last].output.rows >= 1 {
          output := Squash(outKernels, s.value.forward, OutPart(net.nodes[last].output));
        } else {
          ok := false;
        }
      }
    }

    /** `Result()`: always feeds forward again, then hands back `output`. */
    method Result() returns (ok: bool, r: Mat)
      requires Valid()
      modifies this, net
      ensures Valid()
      ensures Bind(kind).Some? ==> version == old(version) + 1
      ensures SameWiring(old(net.nodes), net.nodes)
      ensures ok ==> (Bind(kind).Some? && net.nodes[last].output.rows >= 1 && r == output
        && output == Squash(outKernels, Bind(kind).value.forward, OutPart(net.nodes[last].output)))
    {
      ok := FeedForward();
      r := output;
    }

    /** `Result(res)`: copies `cols` floats of `output.data()`, the first row of a one-row output. */
    method ResultFlat() returns (r: Result<seq<real>>)
      requires Valid()
      modifies this, net
      ensures Valid()
      ensures Bind(kind).None? ==> r == Failure(Unbound)
      ensures r.Success? ==> Width(output) <= |Flatten(output)| && |r.value| == Width(output) && r.value == Flatten(output)[..Width(output)]
      ensures r.Success? && output.rows == 1 ==> forall j | 0 <= j < Width(output) :: r.value[j] == output.cols[j][0]
    {
      var ok := FeedForward();
      if !ok {
        return Failure(if Bind(kind).None? then Unbound else BadShape);
      }
      r := Leading(output);
    }

    /** `GetError(Data)`: the bound error against the stored `output`; nothing changes. */
    method GetError(t: Mat) returns (r: Result<real>)
      ensures r == ErrorOf(outKernels, Bind(kind), t, output)
      ensures Bind(kind) == Some(Strategy(Plain, MeanSquare)) && r.Success? ==> (r.value == 0.0 <==> t == output)
    {
      r := ErrorOf(outKernels, Bind(kind), t, output);
      if Bind(kind) == Some(Strategy(Plain, MeanSquare)) && r.Success? {
        MeanSquareZero(t, output);
      }
    }

    /**
     * `Train(Data)`. The mean-square step records `Error` before it
     * back-propagates `target - output` from the last layer; the softmax
     * step computes its error into a local of the same name, so the member
     * `Error` keeps its old value. An unbound step throws.
     */
    method Train(t: Mat) returns (ok: bool, e: real)
      requires Valid()
      modifies this, net
      ensures Valid()
      ensures output == old(output) && version == old(version)
      ensures checkpoint == old(checkpoint) && checkpointDNA == old(checkpointDNA) && checkpointError == old(checkpointError)
      ensures Retrained(old(net.nodes), net.nodes)
      ensures var r := ErrorOf(outKernels, Bind(kind), t, old(output));
        && (r.Failure? ==> !ok && net.nodes == old(net.nodes) && error == old(error))
        && (r.Success? ==>
              (ok <==> Back(net.kernels, old(net.nodes), last, Sub(t, old(output))).Success?)
              && (ok ==> e == r.value && net.nodes == Back(net.kernels, old(net.nodes), last, Sub(t, old(output))).value)
              && error == (if Bind(kind).value.loss == MeanSquare then r.value else old(error)))
    {
      var r := ErrorOf(outKernels, Bind(kind), t, output);
      if r.Failure? {
        return false, error;
      }
      if Bind(kind).value.loss == MeanSquare {
        error := r.value;
      }
      ok := net.BackPropagate(last, Sub(t, output));
      e := r.value;
    }

    /** `Train(const float*)`: the data read as one row of `cols(output)` floats. */
    method TrainFlat(data: seq<real>) returns (ok: bool, e: real)
      requires Valid() && Width(output) <= |data|
      modifies this, net
      ensures Valid()
      ensures output == old(output) && version == old(version)
      ensures checkpoint == old(checkpoint) && checkpointDNA == old(checkpointDNA) && checkpointError == old(checkpointError)
      ensures Retrained(old(net.nodes), net.nodes)
      ensures var t := RowOf(data, Width(old(output)));
        var r := ErrorOf(outKernels, Bind(kind), t, old(output));
        && (r.Failure? ==> !ok && net.nodes == old(net.nodes) && error == old(error))
        && (r.Success? ==>
              (ok <==> Back(net.kernels, old(net.nodes), last, Sub(t, old(output))).Success?)
              && (ok ==> e == r.value && net.nodes == Back(net.kernels, old(net.nodes), last, Sub(t, old(output))).value)
              && error == (if Bind(kind).value.loss == MeanSquare then r.value else old(error)))
    {
      ok, e := Train(RowOf(data, Width(output)));
    }

    /** `ResetMomentum()`: delegated to the last layer. */
    method ResetMomentum() returns (ok: bool)
      requires Valid()
      modifies net
      ensures Valid() && SameWiring(old(net.nodes), net.nodes)
      ensures ok <==> Delegate(Reset, old(net.nodes), last).Success?
      ensures ok ==> net.nodes == Delegate(Reset, old(net.nodes), last).value
    {
      ok := net.Pass(Reset, last);
    }

    /**
     * `GetDNA()`: `DNA` from the last layer collects the dense layers it
     * reaches, each once; the loop over the map lays them out one after
     * another.
     */
    method GetDNA() returns (r: Result<NetDNA>)
      requires Valid()
      ensures Linked(net.nodes) ==> r.Success?
      ensures r.Success? ==> Tiles(r.value) && Ascending(r.value.layers) && Matches(net.nodes, r.value.layers)
      ensures r.Success? ==>
        forall l: nat :: Listed(r.value.layers, l) <==> l in DenseIn(net.nodes, Visited(net.nodes, last))
    {
      var w := Register(net.nodes, last, map[]);
      RegisterVisits(net.nodes, last, map[]);
      if w.Failure? {
        return Failure(w.error);
      }
      var data := w.value;
      assert data == Registered(net.nodes, Visited(net.nodes, last), map[]);
      var d := Layout(data, |net.nodes|);
      forall l: nat | Listed(d.layers, l)
        ensures l in data
      {
        var k :| 0 <= k < |d.layers| && d.layers[k].layer == l;
      }
      r := Success(d);
    }

    /**
     * `SaveCheckpoint()`: the layout is built on the first call only (or
     * while it is still empty); then the weights are copied out and `Error`
     * is kept beside them.
     */
    method SaveCheckpoint() returns (ok: bool)
      requires Valid() && Matches(net.nodes, checkpoint.layers)
      modifies this
      ensures Valid()
      ensures output == old(output) && error == old(error) && version == old(version)
      ensures old(checkpoint.layers) != [] ==> ok && checkpoint == old(checkpoint)
      ensures old(checkpoint.layers) == [] && Linked(net.nodes) ==> ok
      ensures ok ==> (Matches(net.nodes, checkpoint.layers)
        && checkpointDNA == Snapshot(net.nodes, checkpoint.layers) && checkpointError == error)
    {
      if |checkpoint.layers| == 0 {
        var d := GetDNA();
        if d.Failure? {
          return false;
        }
        checkpoint := d.value;
      }
      forall k | 0 <= k < |checkpoint.layers|
        ensures checkpoint.layers[k].offset + checkpoint.layers[k].count <= checkpoint.size
      {
        SegmentInside(checkpoint.layers, k);
      }
      checkpointDNA := net.GetData(checkpoint);
      SnapshotWithin(net.nodes, checkpoint.layers);
      checkpointError := error;
      ok := true;
    }

    /**
     * `LoadCheckpoint()`: `Error` is restored, then each checkpointed layer
     * gets its saved weights back; the restored error is returned.
     */
    method LoadCheckpoint() returns (e: real)
      requires Valid() && Matches(net.nodes, checkpoint.layers)
      modifies this, net
      ensures Valid()
      ensures e == old(checkpointError) && error == e
      ensures checkpoint == old(checkpoint) && checkpointDNA == old(checkpointDNA) && output == old(output)
      ensures net.nodes == Restore(old(net.nodes), checkpoint.layers, checkpointDNA)
      ensures Retrained(old(net.nodes), net.nodes) && Matches(net.nodes, checkpoint.layers)
    {
      error := checkpointError;
      net.SetData(checkpoint, checkpointDNA);
      RestoreRetrained(old(net.nodes), checkpoint.layers, checkpointDNA);
      RetrainedWiring(old(net.nodes), net.nodes);
      WiredKept(old(net.nodes), net.nodes);
      e := error;
    }

    /**
     * `Save(bin, IndexOf)`: writes `TYPE`, then `LAST`. A last layer without
     * an index throws at `IndexOf.at`, after the `TYPE` chunk is written.
     */
    method Save(bin: BinSaver, indexOf: map<nat, nat>) returns (ok: bool)
      requires bin.Valid()
      modifies bin
      ensures bin.Valid() && bin.sizePos == old(bin.sizePos)
      ensures ok <==> last in indexOf
      ensures ok ==> bin.bytes == old(bin.bytes) + Encode(OutputFields(kind, indexOf[last]))
      ensures !ok ==> bin.bytes == old(bin.bytes) + ValueChunk(Int32, TYPE, kind)
    {
      var t := kind;
      ghost var b0 := bin.bytes;
      bin.WriteValue(Int32, TYPE, t);
      if last !in indexOf {
        return false;
      }
      var idx := indexOf[last];
      OutputFieldsBytes(t, idx);
      bin.WriteValue(Int32, LAST, ToInt32(idx));
      AppendAssoc(b0, ValueChunk(Int32, TYPE, t), ValueChunk(Int32, LAST, ToInt32(idx)));
      ok := true;
    }
  }
}
