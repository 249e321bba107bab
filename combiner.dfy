/**
 * `NeuronCombiner` (`src/PVX_NeuralNets_Combiner.cpp`): stacks the feature
 * rows of several input layers on top of each other. Input `k` owns the rows
 * starting at `S_k`, the sum of the feature counts of the inputs before it.
 * Here are the layer's own parts of each pass, applied to its inputs'
 * outputs in input order; the loops that feed the inputs are in module
 * `Network`.
 */
module Combiners {
  import opened Wrappers
  import opened Matrices
  import opened Bytes
  import opened BinFormat
  import opened Names
  import opened Graph
  import Utility

  /** `int count; count += i->nOutput()`: each step wraps to 32 bits. */
  function CombCount(os: seq<Mat>): (c: int)
    ensures IsInt(c)
  {
    if os == [] then 0 else ToInt32(CombCount(os[..|os| - 1]) + NOutput(os[|os| - 1]))
  }

  /** Every output has a bias row. */
  predicate Augmented(os: seq<Mat>) {
    forall k | 0 <= k < |os| :: os[k].rows >= 1
  }

  /** The feature rows of the first `k` outputs: the offset `S_k` of block `k`. */
  function Offset(os: seq<Mat>, k: nat): nat
    requires k <= |os| && Augmented(os)
  {
    if k == 0 then 0 else Offset(os, k - 1) + NOutput(os[k - 1])
  }

  lemma {:induction false} OffsetGrows(os: seq<Mat>, a: nat, b: nat)
    requires Augmented(os) && a <= b <= |os|
    ensures Offset(os, a) <= Offset(os, b)
    decreases b
  {
    if a < b {
      OffsetGrows(os, a, b - 1);
    }
  }

  /** Without wrap-around the count is the sum of the feature counts. */
  lemma {:induction false} CombCountIsOffset(os: seq<Mat>)
    requires Augmented(os) && Offset(os, |os|) < 0x8000_0000
    ensures CombCount(os) == Offset(os, |os|)
  {
    if os != [] {
      var init := os[..|os| - 1];
      assert forall k | 0 <= k <= |init| :: Offset(init, k) == Offset(os, k) by {
        forall k | 0 <= k <= |init| ensures Offset(init, k) == Offset(os, k) {
          OffsetPrefix(os, init, k);
        }
      }
      OffsetGrows(os, |os| - 1, |os|);
      CombCountIsOffset(init);
    }
  }

  lemma CombCountExact(os: seq<Mat>)
    ensures Augmented(os) && Offset(os, |os|) < 0x8000_0000 ==> CombCount(os) == Offset(os, |os|)
  {
    if Augmented(os) && Offset(os, |os|) < 0x8000_0000 {
      CombCountIsOffset(os);
    }
  }

  lemma {:induction false} OffsetPrefix(os: seq<Mat>, ps: seq<Mat>, k: nat)
    requires Augmented(os) && Augmented(ps)
    requires k <= |os| && k <= |ps| && forall i | 0 <= i < k :: os[i] == ps[i]
    ensures Offset(os, k) == Offset(ps, k)
  {
    if k > 0 {
      OffsetPrefix(os, ps, k - 1);
    }
  }

  /** `NeuronCombiner(inputs)`: a zero buffer of `inputs + 1` rows. */
  function NewCombiner(inputs: int): (r: Result<Node>)
    ensures r.Success? <==> inputs + 1 >= 0
    ensures r.Success? ==> r.value.kind == NeuronCombiner && r.value.output == Zeros(inputs + 1, 1)
  {
    if inputs + 1 < 0 then Failure(BadShape)
    else Success(Node([], 0, Zeros(inputs + 1, 1), -1, Null, [], NeuronCombiner))
  }

  /**
   * `NeuronCombiner(inputs)` on a list: `makeComb` sizes the buffer to the
   * inputs' total feature count plus one bias row.
   */
  function NewCombinerOn(ns: seq<Node>, ls: seq<nat>): (r: Result<Node>)
    requires forall k | 0 <= k < |ls| :: ls[k] < |ns|
    ensures var os := Outputs(ns, ls);
      Augmented(os) && Offset(os, |os|) < 0x8000_0000 ==>
        r.Success? && r.value.kind == NeuronCombiner
        && r.value.output == Zeros(Offset(os, |os|) + 1, 1)
        && |r.value.inputs| == |ls| && forall k | 0 <= k < |ls| :: r.value.inputs[k] == At(ls[k])
  {
    var os := Outputs(ns, ls);
    CombCountExact(os);
    match NewCombiner(CombCount(os))
    case Failure(e) => Failure(e)
    case Success(nd) => Success(nd.(inputs := seq(|ls|, k requires 0 <= k < |ls| => At(ls[k]))))
  }

  /** The outputs of the listed layers. */
  function Outputs(ns: seq<Node>, ls: seq<nat>): (os: seq<Mat>)
    requires forall k | 0 <= k < |ls| :: ls[k] < |ns|
    ensures |os| == |ls| && forall k | 0 <= k < |ls| :: os[k] == ns[ls[k]].output
  {
    seq(|ls|, k requires 0 <= k < |ls| => ns[ls[k]].output)
  }

  /** `nInput()`: the buffer's feature rows. */
  function CombinerNInput(nd: Node): (n: nat)
    ensures nd.output.rows >= 1 ==> n + 1 == nd.output.rows
  {
    NOutput(nd.output)
  }

  // ---------------------------------------------------------------- FeedForward

  /**
   * `output.conservativeResize(NoChange, batch)` when input `0`'s batch size
   * differs: the columns kept are unchanged. Eigen leaves new columns
   * uninitialised; the `0.0` they get here is arbitrary, as every row is
   * then overwritten by the blocks.
   */
  function Resized(out: Mat, batch: nat): (r: Mat)
    ensures HasShape(r, out.rows, batch)
    ensures batch == Width(out) ==> r == out
    ensures forall j | 0 <= j < batch && j < Width(out) :: r.cols[j] == out.cols[j]
  {
    if batch != Width(out) then ResizeColumns(out, batch, 0.0) else out
  }

  /**
   * `output.block(Start, 0, o.rows(), o.cols()) = o; Start += o.rows() - 1`
   * for blocks `k` onwards, `start` being the running `Start`: Eigen refuses
   * a block that leaves the buffer.
   */
  function {:induction false} Blocks(out: Mat, os: seq<Mat>, k: nat, start: int): (r: Result<Mat>)
    requires k <= |os|
    ensures r.Success? ==> HasShape(r.value, out.rows, Width(out))
    decreases |os| - k
  {
    if k == |os| then Success(out)
    else if start < 0 || start + os[k].rows > out.rows || Width(os[k]) > Width(out) then Failure(BadShape)
    else Blocks(SetBlock(out, start as nat, os[k]), os, k + 1, start + os[k].rows - 1)
  }

  /** The combiner's part of `FeedForward`, once its inputs have been fed. */
  function CombinerForward(out: Mat, os: seq<Mat>): (r: Result<Mat>)
    ensures os == [] ==> r == Failure(BadIndex)
    ensures r.Success? ==> HasShape(r.value, out.rows, Width(os[0]))
  {
    if os == [] then Failure(BadIndex) else Blocks(Resized(out, Width(os[0])), os, 0, 0)
  }

  /**
   * The combiner's loop over its inputs' outputs, in order: the buffer first
   * takes input `0`'s batch size, then each output is written at the running
   * `Start`, which then moves on by its feature rows.
   */
  method CombineOutputs(out: Mat, os: seq<Mat>) returns (r: Result<Mat>)
    ensures r == CombinerForward(out, os)
  {
    if os == [] {
      return Failure(BadIndex);
    }
    var cur: Mat := Resized(out, Width(os[0]));
    var start: int := 0;
    var k := 0;
    while k < |os|
      invariant k <= |os| && CombinerForward(out, os) == Blocks(cur, os, k, start)
      decreases |os| - k
    {
      var o := os[k];
      if start < 0 || start + o.rows > cur.rows || Width(o) > Width(cur) {
        return Failure(BadShape);
      }
      cur := SetBlock(cur, start as nat, o);
      start := start + o.rows - 1;
      k := k + 1;
    }
    r := Success(cur);
  }

  /** The batch agrees across the inputs and the feature counts fill the buffer. */
  predicate Fitting(os: seq<Mat>, rows: nat, width: nat) {
    Augmented(os) && Offset(os, |os|) + 1 == rows && forall k | 0 <= k < |os| :: Width(os[k]) == width
  }

  /** One step of the pass on fitting inputs: block `k` fits at `S_k`. */
  lemma {:induction false} BlocksStep(m: Mat, os: seq<Mat>, k: nat)
    requires k < |os| && Fitting(os, m.rows, Width(m))
    ensures Offset(os, k) + os[k].rows <= m.rows && Width(os[k]) == Width(m)
    ensures Offset(os, k + 1) == Offset(os, k) + os[k].rows - 1
    ensures HasShape(SetBlock(m, Offset(os, k), os[k]), m.rows, Width(m))
    ensures Blocks(m, os, k, Offset(os, k)) == Blocks(SetBlock(m, Offset(os, k), os[k]), os, k + 1, Offset(os, k + 1))
  {
    OffsetGrows(os, k + 1, |os|);
  }

  /** From block `k` on, the pass succeeds on fitting inputs. */
  lemma {:induction false} BlocksSucceed(m: Mat, os: seq<Mat>, k: nat)
    requires k <= |os| && Fitting(os, m.rows, Width(m))
    ensures Blocks(m, os, k, Offset(os, k)).Success?
    decreases |os| - k
  {
    if k < |os| {
      BlocksStep(m, os, k);
      BlocksSucceed(SetBlock(m, Offset(os, k), os[k]), os, k + 1);
    }
  }

  /** From block `k` on, the rows above `S_k` are kept. */
  lemma {:induction false} BlocksKeep(m: Mat, os: seq<Mat>, k: nat, j: nat, i: nat)
    requires k <= |os| && Fitting(os, m.rows, Width(m)) && j < Width(m) && i < Offset(os, k)
    ensures Blocks(m, os, k, Offset(os, k)).Success?
    ensures Blocks(m, os, k, Offset(os, k)).value.cols[j][i] == m.cols[j][i]
    decreases |os| - k
  {
    if k < |os| {
      BlocksStep(m, os, k);
      var m' := SetBlock(m, Offset(os, k), os[k]);
      SetBlockOutside(m, Offset(os, k), os[k], j, i);
      BlocksKeep(m', os, k + 1, j, i);
    }
  }

  /** Block `k`'s feature row `i` lands at row `S_k + i`. */
  lemma {:induction false} BlocksPlaceHere(m: Mat, os: seq<Mat>, k: nat, j: nat, i: nat)
    requires k < |os| && Fitting(os, m.rows, Width(m)) && j < Width(m) && i < os[k].rows - 1
    ensures Offset(os, k) + i < m.rows
    ensures Blocks(m, os, k, Offset(os, k)).Success?
    ensures Blocks(m, os, k, Offset(os, k)).value.cols[j][Offset(os, k) + i] == os[k].cols[j][i]
  {
    BlocksStep(m, os, k);
    PlaceAfterStep(m, os, k, j, i);
  }

  /** What `BlocksPlaceHere` needs of the blocks after `k`. */
  lemma {:induction false} PlaceAfterStep(m: Mat, os: seq<Mat>, k: nat, j: nat, i: nat)
    requires k < |os| && Fitting(os, m.rows, Width(m)) && j < Width(m) && i < os[k].rows - 1
    ensures Offset(os, k) + os[k].rows <= m.rows && Width(os[k]) <= Width(m)
    ensures var b := Blocks(SetBlock(m, Offset(os, k), os[k]), os, k + 1, Offset(os, k + 1));
      b.Success? && b.value.cols[j][Offset(os, k) + i] == os[k].cols[j][i]
  {
    BlocksStep(m, os, k);
    var r := Offset(os, k) + i;
    var m' := SetBlock(m, Offset(os, k), os[k]);
    SetBlockAt(m, Offset(os, k), os[k], j, i);
    BlocksKeep(m', os, k + 1, j, r);
  }

  /** Block `q`'s feature row `i` lands at row `S_q + i`. */
  lemma {:induction false} BlocksPlace(m: Mat, os: seq<Mat>, k: nat, q: nat, j: nat, i: nat)
    requires k <= q < |os| && Fitting(os, m.rows, Width(m)) && j < Width(m) && i < os[q].rows - 1
    ensures Offset(os, q) + i < m.rows
    ensures Blocks(m, os, k, Offset(os, k)).Success?
    ensures Blocks(m, os, k, Offset(os, k)).value.cols[j][Offset(os, q) + i] == os[q].cols[j][i]
    decreases |os| - k
  {
    if q == k {
      BlocksPlaceHere(m, os, k, j, i);
    } else {
      BlocksStep(m, os, k);
      var m' := SetBlock(m, Offset(os, k), os[k]);
      assert HasShape(m', m.rows, Width(m));
      BlocksPlace(m', os, k + 1, q, j, i);
    }
  }

  /** The last row is the last input's bias row. */
  lemma {:induction false} BlocksLast(m: Mat, os: seq<Mat>, k: nat, j: nat)
    requires k < |os| && Fitting(os, m.rows, Width(m)) && j < Width(m)
    ensures Blocks(m, os, k, Offset(os, k)).Success?
    ensures Blocks(m, os, k, Offset(os, k)).value.cols[j][m.rows - 1] == os[|os| - 1].cols[j][os[|os| - 1].rows - 1]
    decreases |os| - k
  {
    BlocksStep(m, os, k);
    var m' := SetBlock(m, Offset(os, k), os[k]);
    if k + 1 < |os| {
      BlocksLast(m', os, k + 1, j);
    } else {
      SetBlockAt(m, Offset(os, k), os[k], j, os[k].rows - 1);
    }
  }

  /** Entry `(S_q + i, j)` of `r` is input `q`'s feature entry `(i, j)`. */
  predicate Placed(r: Mat, os: seq<Mat>, q: nat, j: nat, i: nat)
    requires Augmented(os) && q < |os|
  {
    Offset(os, q) + i < r.rows && j < Width(r) && i < os[q].rows && j < Width(os[q])
    && r.cols[j][Offset(os, q) + i] == os[q].cols[j][i]
  }

  /** Entry `(rows - 1, j)` of `r` is the last input's bias entry in column `j`. */
  predicate BiasPlaced(r: Mat, os: seq<Mat>, j: nat)
    requires Augmented(os) && os != []
  {
    var o := os[|os| - 1];
    j < Width(r) && 1 <= r.rows && j < Width(o) && r.cols[j][r.rows - 1] == o.cols[j][o.rows - 1]
  }

  /**
   * `r` holds input `q`'s feature rows at `[S_q, S_q + nOutput_q)` and the
   * last input's bias row at the bottom.
   */
  predicate Laid(r: Mat, os: seq<Mat>)
    requires Augmented(os)
  {
    os != []
    && (forall q: nat, j: nat, i: nat | q < |os| && j < Width(os[q]) && i < os[q].rows - 1 :: Placed(r, os, q, j, i))
    && forall j: nat | j < Width(os[|os| - 1]) :: BiasPlaced(r, os, j)
  }

  /** Input `q`'s feature row `i` lands at row `S_q + i` of the combiner's buffer. */
  lemma CombinerPlace(out: Mat, os: seq<Mat>, q: nat, j: nat, i: nat)
    requires os != [] && Fitting(os, out.rows, Width(os[0]))
    requires q < |os| && j < Width(os[0]) && i < os[q].rows - 1
    ensures CombinerForward(out, os).Success? && Placed(CombinerForward(out, os).value, os, q, j, i)
  {
    var m := Resized(out, Width(os[0]));
    assert HasShape(m, out.rows, Width(os[0]));
    BlocksPlace(m, os, 0, q, j, i);
  }

  lemma CombinerSucceeds(out: Mat, os: seq<Mat>)
    requires os != [] && Fitting(os, out.rows, Width(os[0]))
    ensures CombinerForward(out, os).Success? && HasShape(CombinerForward(out, os).value, out.rows, Width(os[0]))
  {
    var m := Resized(out, Width(os[0]));
    assert HasShape(m, out.rows, Width(os[0]));
    BlocksSucceed(m, os, 0);
  }

  /** The combiner's last row is the last input's bias row. */
  lemma CombinerLastRow(out: Mat, os: seq<Mat>, j: nat)
    requires os != [] && Fitting(os, out.rows, Width(os[0])) && j < Width(os[0])
    ensures CombinerForward(out, os).Success? && BiasPlaced(CombinerForward(out, os).value, os, j)
  {
    var m := Resized(out, Width(os[0]));
    assert HasShape(m, out.rows, Width(os[0]));
    BlocksLast(m, os, 0, j);
    CombinerSucceeds(out, os);
  }

  /**
   * With inputs that fill the buffer exactly and share one batch size, input
   * `q`'s feature rows land at `[S_q, S_q + nOutput_q)` and the final row is
   * the last input's bias row.
   */
  lemma CombinerLayout(out: Mat, os: seq<Mat>)
    requires os != [] && Fitting(os, out.rows, Width(os[0]))
    ensures CombinerForward(out, os).Success? && Laid(CombinerForward(out, os).value, os)
  {
    CombinerSucceeds(out, os);
    var r := CombinerForward(out, os).value;
    forall q: nat, j: nat, i: nat | q < |os| && j < Width(os[q]) && i < os[q].rows - 1
      ensures Placed(r, os, q, j, i)
    {
      CombinerPlace(out, os, q, j, i);
    }
    forall j: nat | j < Width(os[|os| - 1])
      ensures BiasPlaced(r, os, j)
    {
      CombinerLastRow(out, os, j);
    }
  }

  // ---------------------------------------------------------------- BackPropagate

  /** The sum of the first `k` feature counts: the offset of input `k`'s gradient rows. */
  function GradOffset(nOuts: seq<nat>, k: nat): nat
    requires k <= |nOuts|
  {
    if k == 0 then 0 else GradOffset(nOuts, k - 1) + nOuts[k - 1]
  }

  /**
   * `Gradient.block(Start, 0, i->nOutput(), Gradient.cols())`, then
   * `Start += i->nOutput()`: the gradient rows input `k` is sent.
   */
  function CombinerMessage(g: Mat, nOuts: seq<nat>, k: nat): (r: Result<Mat>)
    requires k < |nOuts|
    ensures r.Success? <==> GradOffset(nOuts, k) + nOuts[k] <= g.rows
    ensures r.Success? ==>
      HasShape(r.value, nOuts[k], Width(g))
      && forall j, i | 0 <= j < Width(g) && 0 <= i < nOuts[k] ::
        r.value.cols[j][i] == g.cols[j][GradOffset(nOuts, k) + i]
  {
    var start := GradOffset(nOuts, k);
    if start + nOuts[k] > g.rows then Failure(BadShape) else Success(RowBlock(g, start, nOuts[k]))
  }

  /** The backward pass uses the forward pass's offsets. */
  lemma {:induction false} OffsetsAgree(os: seq<Mat>, nOuts: seq<nat>, k: nat)
    requires |nOuts| == |os| && k <= |os| && Augmented(os)
    requires forall q | 0 <= q < |os| :: nOuts[q] == NOutput(os[q])
    ensures GradOffset(nOuts, k) == Offset(os, k)
  {
    if k > 0 {
      OffsetsAgree(os, nOuts, k - 1);
    }
  }

  /**
   * The part of `Gradient` input `k` receives is exactly the part of the
   * combiner's output its feature rows went to.
   */
  lemma BackMatchesForward(out: Mat, os: seq<Mat>, g: Mat, k: nat)
    requires os != [] && Fitting(os, out.rows, Width(os[0])) && k < |os|
    requires g.rows == out.rows - 1
    ensures var nOuts := seq(|os|, q requires 0 <= q < |os| => NOutput(os[q]));
      CombinerMessage(g, nOuts, k).Success?
      && GradOffset(nOuts, k) == Offset(os, k)
  {
    var nOuts := seq(|os|, q requires 0 <= q < |os| => NOutput(os[q]));
    OffsetsAgree(os, nOuts, k);
    OffsetsAgree(os, nOuts, k + 1);
    OffsetGrows(os, k + 1, |os|);
  }

  // ---------------------------------------------------------------- Save

  /** The payload of a `CMBN` chunk: one raw `int` index per input, in input order. */
  function CombinerSave(nd: Node, indexOf: map<nat, nat>): (r: Result<seq<byte>>)
    ensures r.Success? <==> forall k | 0 <= k < |nd.inputs| :: nd.inputs[k].At? && nd.inputs[k].index in indexOf
    ensures r.Success? ==>
      r.value == Chunk(CMBN, EncodeAll(Int32, Utility.Ints(Utility.InputIndices(indexOf, nd.inputs).value)))
  {
    match Utility.InputIndices(indexOf, nd.inputs)
    case Failure(e) => Failure(e)
    case Success(idxs) => Success(Chunk(CMBN, EncodeAll(Int32, Utility.Ints(idxs))))
  }
}
