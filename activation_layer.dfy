/**
 * `ActivationLayer` (`src/PVX_NeuralNets_Activation.cpp`): applies an
 * activation function entrywise to its predecessor's output, with no
 * weights. The steps here are the layer's own part of each pass; the
 * recursion into the predecessor is in module `Network`.
 */
module ActivationLayers {
  import opened Wrappers
  import opened Matrices
  import opened Bytes
  import opened BinFormat
  import opened Names
  import opened Graph
  import opened Activations

  /**
   * `ActivationLayer(int inp, Activation)`: `inp` features plus the bias row,
   * one sample, no predecessor. Eigen refuses a negative row count.
   */
  function NewActivation(inp: int, act: Act): (r: Result<Node>)
    ensures r.Success? <==> inp + 1 >= 0
    ensures r.Success? ==>
      r.value.kind == ActivationLayer(act) && r.value.prev == Null && r.value.inputs == []
      && r.value.output == Ones(inp + 1, 1) && (inp >= 0 ==> NOutput(r.value.output) == inp)
  {
    if inp + 1 < 0 then Failure(BadShape)
    else Success(Node([], 0, Ones(inp + 1, 1), -1, Null, [], ActivationLayer(act)))
  }

  /** `ActivationLayer(inp, Activation)`: sized by `int(inp->nOutput())`, then linked to `inp`. */
  function NewActivationOn(p: nat, prev: Node, act: Act): (r: Result<Node>)
    ensures r.Success? ==> r.value.prev == At(p) && r.value.kind == ActivationLayer(act)
    ensures prev.output.rows >= 1 && IsInt(prev.output.rows - 1) ==>
      r.Success? && HasShape(r.value.output, prev.output.rows, 1)
  {
    match NewActivation(ToInt32(NOutput(prev.output)), act)
    case Success(nd) => Success(nd.(prev := At(p)))
    case Failure(e) => Failure(e)
  }

  /** `nInput()` is `nOutput()`: the layer does not change the number of features. */
  function ActivationNInput(nd: Node): (n: nat)
    ensures n == NOutput(nd.output)
  {
    NOutput(nd.output)
  }

  // ---------------------------------------------------------------- FeedForward

  /**
   * The layer's part of `FeedForward` as written: `outPart(output) =
   * Activate(inp)` with `inp` the predecessor's whole output, bias row
   * included. The assignment only fits when `inp` has one row fewer than
   * this layer's buffer.
   */
  function ForwardAsWritten(k: Kernels, nd: Node, inp: Mat): (r: Result<Mat>)
    requires nd.kind.ActivationLayer?
    ensures r.Success? <==> nd.output.rows == inp.rows + 1 && !nd.kind.activation.OtherAct?
  {
    var out := nd.output;
    var o := if Width(inp) != Width(out) then Ones(out.rows, Width(inp)) else out;
    match Activate(k, nd.kind.activation, inp)
    case Failure(e) => Failure(e)
    case Success(a) => if o.rows != a.rows + 1 then Failure(BadShape) else Success(SetOutPart(o, a))
  }

  /**
   * A layer built on its predecessor has the predecessor's row count, so as
   * written its forward step never fits the predecessor's output.
   */
  lemma ForwardAsWrittenMismatch(k: Kernels, p: nat, prev: Node, act: Act)
    requires prev.output.rows >= 1 && IsInt(prev.output.rows - 1)
    ensures var nd := NewActivationOn(p, prev, act);
      nd.Success? && ForwardAsWritten(k, nd.value, prev.output).Failure?
  {
  }

  /**
   * The forward step with the predecessor's feature rows only:
   * `outPart(output) = Activate(outPart(inp))`. The buffer is reallocated to
   * ones only when the batch size changed.
   */
  function ActivationForward(k: Kernels, nd: Node, inp: Mat): (r: Result<Mat>)
    requires nd.kind.ActivationLayer?
    ensures r.Success? <==> inp.rows >= 1 && nd.output.rows == inp.rows && !nd.kind.activation.OtherAct?
    ensures r.Success? ==>
      HasShape(r.value, inp.rows, Width(inp))
      && forall j, i | 0 <= j < Width(inp) && 0 <= i < inp.rows - 1 ::
        r.value.cols[j][i] == EntryFn(k, nd.kind.activation).value(inp.cols[j][i])
    ensures r.Success? && Width(inp) == Width(nd.output) ==> LastRow(r.value) == LastRow(nd.output)
    ensures r.Success? && Width(inp) != Width(nd.output) ==>
      forall j | 0 <= j < Width(inp) :: r.value.cols[j][inp.rows - 1] == 1.0
  {
    var out := nd.output;
    if inp.rows == 0 || out.rows != inp.rows then Failure(BadShape)
    else
      var o := if Width(inp) != Width(out) then Ones(out.rows, Width(inp)) else out;
      match Activate(k, nd.kind.activation, OutPart(inp))
      case Failure(e) => Failure(e)
      case Success(a) => Success(SetOutPart(o, a))
  }

  /** The corrected step fits exactly where the one as written does not. */
  lemma ForwardFits(k: Kernels, p: nat, prev: Node, act: Act)
    requires prev.output.rows >= 1 && IsInt(prev.output.rows - 1) && !act.OtherAct?
    ensures var nd := NewActivationOn(p, prev, act);
      nd.Success? && ActivationForward(k, nd.value, prev.output).Success?
  {
  }

  // ---------------------------------------------------------------- BackPropagate

  /**
   * `grad = Gradient * Derivative(outPart(output))`, entrywise. Eigen's array
   * product needs the incoming gradient to have the feature rows' shape.
   */
  function LocalGradient(k: Kernels, nd: Node, g: Mat): (r: Result<Mat>)
    requires nd.kind.ActivationLayer?
    ensures r.Success? <==>
      nd.output.rows >= 1 && !nd.kind.activation.OtherAct?
      && g.rows == nd.output.rows - 1 && Width(g) == Width(nd.output)
    ensures r.Success? ==>
      HasShape(r.value, g.rows, Width(g))
      && forall j, i | 0 <= j < Width(g) && 0 <= i < g.rows ::
        r.value.cols[j][i] == g.cols[j][i] * DerFn(k, nd.kind.activation).value(nd.output.cols[j][i])
  {
    var out := nd.output;
    if out.rows == 0 || g.rows != out.rows - 1 || Width(g) != Width(out) then Failure(BadShape)
    else match Derivative(k, nd.kind.activation, OutPart(out))
      case Failure(e) => Failure(e)
      case Success(d) => Success(Hadamard(g, d))
  }

  /** The message `BackPropagate` sends the predecessor as written: `outPart(grad)`. */
  function BackwardAsWritten(k: Kernels, nd: Node, g: Mat): (r: Result<Mat>)
    requires nd.kind.ActivationLayer?
    ensures r.Success? ==>
      LocalGradient(k, nd, g).Success? && LocalGradient(k, nd, g).value.rows >= 1
      && r.value == OutPart(LocalGradient(k, nd, g).value)
  {
    match LocalGradient(k, nd, g)
    case Failure(e) => Failure(e)
    case Success(grad) => if grad.rows == 0 then Failure(BadShape) else Success(OutPart(grad))
  }

  /**
   * As written the predecessor receives one row fewer than its own
   * `nOutput()`: the last feature's gradient is dropped.
   */
  lemma BackwardAsWrittenDropsRow(k: Kernels, nd: Node, g: Mat)
    requires nd.kind.ActivationLayer? && BackwardAsWritten(k, nd, g).Success?
    ensures BackwardAsWritten(k, nd, g).value.rows == g.rows - 1 == NOutput(nd.output) - 1
  {
  }

  /** The message with every feature row: the local gradient itself. */
  function ActivationBackward(k: Kernels, nd: Node, g: Mat): (r: Result<Mat>)
    requires nd.kind.ActivationLayer?
    ensures r.Success? <==>
      nd.output.rows >= 1 && !nd.kind.activation.OtherAct?
      && g.rows == nd.output.rows - 1 && Width(g) == Width(nd.output)
    ensures r.Success? ==>
      HasShape(r.value, NOutput(nd.output), Width(g))
      && forall j, i | 0 <= j < Width(g) && 0 <= i < g.rows ::
        r.value.cols[j][i] == g.cols[j][i] * DerFn(k, nd.kind.activation).value(nd.output.cols[j][i])
  {
    LocalGradient(k, nd, g)
  }

  // ---------------------------------------------------------------- Save / Load2

  /**
   * The fields of an `ACTV` chunk as `Save` writes them: `nOutput()` and
   * `IndexOf.at(PreviousLayer)` are `size_t`, eight bytes each.
   */
  function FieldsAsWritten(nd: Node, idx: nat): seq<Field>
    requires nd.kind.ActivationLayer?
  {
    [Field(OUTC, SizeT.enc(NOutput(nd.output))),
     Field(ACTV, EncodeInt(ToInt32(ActCode(nd.kind.activation)))),
     Field(INPT, SizeT.enc(idx))]
  }

  /** The fields with `OUTC` and `INPT` written as the `int`s `Load2` reads. */
  function ActivationFields(nd: Node, idx: nat): seq<Field>
    requires nd.kind.ActivationLayer?
  {
    [Field(OUTC, EncodeInt(ToInt32(NOutput(nd.output)))),
     Field(ACTV, EncodeInt(ToInt32(ActCode(nd.kind.activation)))),
     Field(INPT, EncodeInt(ToInt32(idx)))]
  }

  /** `ActivationLayer::Save` with `int` fields; fails when the predecessor has no index. */
  function ActivationSave(nd: Node, indexOf: map<nat, nat>): (r: Result<seq<byte>>)
    requires nd.kind.ActivationLayer?
    ensures r.Success? <==> nd.prev.At? && nd.prev.index in indexOf
    ensures r.Success? ==> r.value == Chunk(Names.ACTV, Encode(ActivationFields(nd, indexOf[nd.prev.index])))
  {
    match IndexOfLink(indexOf, nd.prev)
    case Failure(e) => Failure(e)
    case Success(idx) => Success(Chunk(Names.ACTV, Encode(ActivationFields(nd, idx))))
  }

  /**
   * `ActivationLayer::Load2`: three uninitialised `int`s, then a new layer
   * whose predecessor's bytes hold `prev`: `nullptr` for `0`, otherwise a
   * placeholder.
   */
  function ActivationLoad(payload: seq<byte>): (r: Result<Node>)
    ensures r.Success? ==> r.value.kind.ActivationLayer? && !r.value.prev.At? && r.value.inputs == []
  {
    match ParseChunks(payload)
    case None => Failure(Truncated)
    case Some(fs) =>
      match (ReadScalar(Int32, fs, OUTC, None), ReadScalar(Int32, fs, ACTV, None), ReadScalar(Int32, fs, INPT, None))
      case (Success(outc), Success(act), Success(prev)) =>
        (match NewActivation(outc, ActOf(act))
         case Success(nd) => Success(nd.(prev := Cast(prev)))
         case Failure(e) => Failure(e))
      case (Failure(e), _, _) => Failure(e)
      case (_, Failure(e), _) => Failure(e)
      case (_, _, Failure(e)) => Failure(e)
  }

  /**
   * An `ACTV` scope whose `INPT` is `0` loads a layer with a null
   * predecessor, and `FixInputs` then accepts it as it is.
   */
  lemma ActivationLoadNull(payload: seq<byte>, fs: seq<Field>, n: nat)
    requires ParseChunks(payload) == Some(fs) && ReadScalar(Int32, fs, INPT, None) == Success(0)
    ensures ActivationLoad(payload).Success? ==>
      ActivationLoad(payload).value.prev == Null
      && FixInputs(ActivationLoad(payload).value, n) == Success(ActivationLoad(payload).value)
  {
  }

  lemma FieldsRead(nd: Node, idx: nat, fs: seq<Field>)
    requires nd.kind.ActivationLayer?
    requires fs == ActivationFields(nd, idx) || fs == FieldsAsWritten(nd, idx)
    ensures Lookup(fs, OUTC) == [fs[0].payload] && Lookup(fs, ACTV) == [fs[1].payload]
    ensures Lookup(fs, INPT) == [fs[2].payload]
  {
    LookupUnique(fs, 0);
    LookupUnique(fs, 1);
    LookupUnique(fs, 2);
  }

  /**
   * As written, loading a saved activation layer always fails: the eight-byte
   * `OUTC` payload does not fit the four-byte `int` it is read into.
   */
  lemma LoadAsWrittenOverflows(nd: Node, idx: nat)
    requires nd.kind.ActivationLayer?
    ensures ActivationLoad(Encode(FieldsAsWritten(nd, idx))) == Failure(Overflow)
  {
    var fs := FieldsAsWritten(nd, idx);
    assert |fs[0].payload| == 8 && |fs[1].payload| == 4 && |fs[2].payload| == 8;
    ParseEncode(fs);
    FieldsRead(nd, idx, fs);
    ReadTooWide(Int32, fs, OUTC, fs[0].payload, None);
  }

  /**
   * With `int` fields, Save then Load2 gives back the activation, the
   * feature count (as a single-sample buffer) and the predecessor's index.
   */
  lemma ActivationRoundTrip(nd: Node, indexOf: map<nat, nat>)
    requires nd.kind.ActivationLayer? && nd.prev.At? && nd.prev.index in indexOf
    requires nd.output.rows >= 1 && IsInt(nd.output.rows - 1) && IsInt(indexOf[nd.prev.index])
    requires ActCanonical(nd.kind.activation) && IsInt(ActCode(nd.kind.activation))
    ensures var idx := indexOf[nd.prev.index];
      ActivationSave(nd, indexOf) == Success(Chunk(Names.ACTV, Encode(ActivationFields(nd, idx))))
      && ActivationLoad(Encode(ActivationFields(nd, idx))) ==
           Success(Node([], 0, Ones(nd.output.rows, 1), -1, Cast(idx), [], nd.kind))
  {
    var idx := indexOf[nd.prev.index];
    var fs := ActivationFields(nd, idx);
    assert Fits(fs) by { IntsRead(nd, idx); }
    ParseEncode(fs);
    IntsRead(nd, idx);
    ActRoundTrip(nd.kind.activation);
  }

  lemma IntsRead(nd: Node, idx: nat)
    requires nd.kind.ActivationLayer? && nd.output.rows >= 1 && IsInt(nd.output.rows - 1) && IsInt(idx)
    requires IsInt(ActCode(nd.kind.activation))
    ensures var fs := ActivationFields(nd, idx);
      Fits(fs) && ReadScalar(Int32, fs, OUTC, None) == Success(NOutput(nd.output) as int)
      && ReadScalar(Int32, fs, ACTV, None) == Success(ActCode(nd.kind.activation))
      && ReadScalar(Int32, fs, INPT, None) == Success(idx as int)
  {
    var fs := ActivationFields(nd, idx);
    var n := NOutput(nd.output);
    var a := ActCode(nd.kind.activation);
    IntExact(n);
    IntExact(a);
    IntExact(idx);
    FieldsRead(nd, idx, fs);
    ReadWritten(Int32, fs, OUTC, n, None);
    ReadWritten(Int32, fs, ACTV, a, None);
    ReadWritten(Int32, fs, INPT, idx as int, None);
  }
}
