/**
 * `NeuronLayer` (`src/PVX_NeuralNets_DenseLayer.cpp`): a fully connected
 * layer. Its weights are `nOutput x (nInput + 1)`, the last column
 * multiplying the bias row of the predecessor's output. The steps here are
 * the layer's own part of each operation; the recursion into the
 * predecessor is in module `Network`.
 */
module Dense {
  import opened Wrappers
  import opened Matrices
  import opened Bytes
  import opened BinFormat
  import opened Names
  import opened Graph
  import opened Activations

  /** A matrix whose entry `(i, j)` is `f(i, j)` (the scaled `Random` initial weights). */
  function Tabulate(r: nat, c: nat, f: (nat, nat) -> real): (m: Mat)
    ensures HasShape(m, r, c)
    ensures forall j, i | 0 <= j < c && 0 <= i < r :: m.cols[j][i] == f(i, j)
  {
    Matrix(r, seq(c, (j: int) requires 0 <= j < c => seq(r, (i: int) requires 0 <= i < r => f(i, j))))
  }

  /**
   * `NeuronLayer(nInput, nOutput, Activation, Train)`: `rnd` stands for the
   * random initial weights (already scaled), `hp` for the global defaults the
   * layer copies. Eigen refuses a negative dimension.
   */
  function NewDense(name: seq<byte>, nIn: int, nOut: int, act: Act, train: Scheme, hp: Hyper,
                    rnd: (nat, nat) -> real): (r: Result<Node>)
    ensures r.Success? <==> nOut >= 0 && nIn + 1 >= 0
    ensures r.Success? ==>
      var nd := r.value;
      nd.kind.NeuronLayer? && nd.name == name && nd.prev == Null && nd.inputs == []
      && nd.kind.activation == act && nd.kind.training == train && nd.kind.hp == hp
      && HasShape(nd.kind.buf.weights, nOut, nIn + 1)
      && nd.kind.buf.delta == Zeros(nOut, nIn + 1) && nd.kind.buf.rms == Ones(nOut, 1)
      && nd.output == Ones(nOut + 1, 1)
  {
    if nOut < 0 || nIn + 1 < 0 then Failure(BadShape)
    else
      var buf := Buffers(Tabulate(nOut, nIn + 1, rnd), Zeros(nOut, nIn + 1), Ones(nOut, 1));
      Success(Node(name, 0, Ones(nOut + 1, 1), -1, Null, [], NeuronLayer(buf, act, train, hp)))
  }

  /** `NeuronLayer(inp, nOutput, ...)`: sized by the predecessor's `nOutput()`. */
  function NewDenseOn(name: seq<byte>, p: nat, prev: Node, nOut: int, act: Act, train: Scheme, hp: Hyper,
                      rnd: (nat, nat) -> real): (r: Result<Node>)
    ensures r.Success? ==> r.value.prev == At(p)
    ensures prev.output.rows >= 1 && nOut >= 0 && IsInt(prev.output.rows - 1) ==>
      r.Success? && r.value.kind.NeuronLayer? && HasShape(r.value.kind.buf.weights, nOut, prev.output.rows)
  {
    match NewDense(name, ToInt32(NOutput(prev.output)), nOut, act, train, hp, rnd)
    case Success(nd) => Success(nd.(prev := At(p)))
    case Failure(e) => Failure(e)
  }

  /** `nInput()`: the weights' column count, the bias column included. */
  function DenseNInput(nd: Node): nat
    requires nd.kind.NeuronLayer?
  {
    Width(nd.kind.buf.weights)
  }

  /** A layer built on a predecessor counts one input more than the predecessor's `nOutput()`. */
  lemma NInputCountsBias(name: seq<byte>, p: nat, prev: Node, nOut: int, act: Act, train: Scheme, hp: Hyper,
                         rnd: (nat, nat) -> real)
    requires prev.output.rows >= 1 && nOut >= 0 && IsInt(prev.output.rows - 1)
    ensures var r := NewDenseOn(name, p, prev, nOut, act, train, hp, rnd);
      r.Success? && DenseNInput(r.value) == NOutput(prev.output) + 1
  {
  }

  // ---------------------------------------------------------------- FeedForward

  /**
   * The layer's part of `FeedForward` once the predecessor has been fed:
   * `inp` is the predecessor's whole output (bias row included). The buffer
   * is reallocated to ones only when the batch size changed; the feature rows
   * become `Activate(Weights * inp)`.
   */
  function DenseForward(k: Kernels, nd: Node, inp: Mat): (r: Result<Mat>)
    requires nd.kind.NeuronLayer?
    ensures var w := nd.kind.buf.weights;
      r.Success? <==> Width(w) == inp.rows && nd.output.rows == w.rows + 1 && !nd.kind.activation.OtherAct?
    ensures r.Success? ==>
      HasShape(r.value, nd.output.rows, Width(inp))
      && OutPart(r.value) == Activate(k, nd.kind.activation, MatMul(nd.kind.buf.weights, inp)).value
    ensures r.Success? && Width(inp) == Width(nd.output) ==> LastRow(r.value) == LastRow(nd.output)
    ensures r.Success? && Width(inp) != Width(nd.output) ==>
      forall j | 0 <= j < Width(inp) :: r.value.cols[j][nd.output.rows - 1] == 1.0
  {
    var w := nd.kind.buf.weights;
    var out := nd.output;
    if Width(w) != inp.rows || out.rows != w.rows + 1 then Failure(BadShape)
    else match Activate(k, nd.kind.activation, MatMul(w, inp))
      case Failure(e) => Failure(e)
      case Success(a) =>
        var o := if Width(inp) != Width(out) then Ones(out.rows, Width(inp)) else out;
        Success(SetOutPart(o, a))
  }

  // ---------------------------------------------------------------- BackPropagate

  /** What a layer's backward step computes: its own gradient and the message for the predecessor. */
  datatype Step = Step(grad: Mat, message: Mat)

  /**
   * The layer's part of `BackPropagate` before the recursion: the gradient
   * is the incoming one times the derivative at the output's feature rows,
   * and the predecessor is sent `outPart(Weights^T * grad)`.
   */
  function DenseBackward(k: Kernels, nd: Node, g: Mat): (r: Result<Step>)
    requires nd.kind.NeuronLayer?
    ensures var w := nd.kind.buf.weights;
      r.Success? <==>
        nd.output.rows >= 1 && !nd.kind.activation.OtherAct? && g.rows == nd.output.rows - 1
        && Width(g) == Width(nd.output) && w.rows == g.rows && Width(w) >= 1
    ensures r.Success? ==>
      var w := nd.kind.buf.weights;
      var s := r.value;
      HasShape(s.grad, g.rows, Width(g)) && HasShape(s.message, Width(w) - 1, Width(g))
      && (forall j, i | 0 <= j < Width(g) && 0 <= i < g.rows ::
            s.grad.cols[j][i] == g.cols[j][i] * DerFn(k, nd.kind.activation).value(nd.output.cols[j][i]))
      && forall j, i | 0 <= j < Width(g) && 0 <= i < Width(w) - 1 :: s.message.cols[j][i] == Dot(w.cols[i], s.grad.cols[j])
  {
    var w := nd.kind.buf.weights;
    var out := nd.output;
    if out.rows == 0 || g.rows != out.rows - 1 || Width(g) != Width(out) || w.rows != g.rows || Width(w) == 0 then
      Failure(BadShape)
    else match Derivative(k, nd.kind.activation, OutPart(out))
      case Failure(e) => Failure(e)
      case Success(d) =>
        var grad := Hadamard(g, d);
        var prop := MatMul(Transpose(w), grad);
        Success(Step(grad, OutPart(prop)))
  }

  // ---------------------------------------------------------------- update rules

  /**
   * `Gradient * PreviousLayer->Output().transpose()`: entry `(i, j)` sums,
   * over the batch, the gradient of output `i` times input `j`.
   */
  function Outer(g: Mat, p: Mat): (r: Result<Mat>)
    ensures r.Success? <==> Width(g) == Width(p)
    ensures r.Success? ==>
      HasShape(r.value, g.rows, p.rows)
      && forall j, i | 0 <= j < p.rows && 0 <= i < g.rows :: r.value.cols[j][i] == Dot(Row(g, i), Row(p, j))
  {
    if Width(g) != Width(p) then Failure(BadShape) else Success(MatMul(g, Transpose(p)))
  }

  /** `Weights += step`, which Eigen refuses unless the shapes agree. */
  function AddTo(w: Mat, step: Mat): (r: Result<Mat>)
    ensures r.Success? <==> SameShape(w, step)
    ensures r.Success? ==>
      HasShape(r.value, w.rows, Width(w))
      && forall j, i | 0 <= j < Width(w) && 0 <= i < w.rows :: r.value.cols[j][i] == w.cols[j][i] + step.cols[j][i]
  {
    if SameShape(w, step) then Success(Add(w, step)) else Failure(BadShape)
  }

  /** The adaptive rules that keep a running sum of squared gradients in `RMSprop`. */
  predicate Adaptive(s: Scheme) {
    s == Adam || s == RMSprop || s == AdaGrad
  }

  /** How much of the old squared-gradient sum is kept: AdaGrad keeps all of it. */
  function Decay(s: Scheme, hp: Hyper): real {
    if s == AdaGrad then 1.0 else hp.rmsProp
  }

  /** How much of the new squared gradient is added. */
  function Gain(s: Scheme, hp: Hyper): real {
    if s == AdaGrad then 1.0 else hp.iRmsProp
  }

  /**
   * The `RMSprop` buffer after an adaptive step: reset to ones of the
   * gradient's shape when the column counts differ, then
   * `decay * RMSprop + gain * g * g` entrywise.
   */
  function Accumulate(s: Scheme, hp: Hyper, rms: Mat, g: Mat): (r: Result<Mat>)
    ensures r.Success? <==> Width(rms) != Width(g) || rms.rows == g.rows
    ensures r.Success? ==>
      HasShape(r.value, g.rows, Width(g))
      && forall j, i | 0 <= j < Width(g) && 0 <= i < g.rows ::
        r.value.cols[j][i] ==
          Decay(s, hp) * (if Width(rms) != Width(g) then 1.0 else rms.cols[j][i]) + Gain(s, hp) * (g.cols[j][i] * g.cols[j][i])
  {
    var r0 := if Width(rms) != Width(g) then Ones(g.rows, Width(g)) else rms;
    if !SameShape(r0, g) then Failure(BadShape)
    else Success(Zip(r0, g, (x: real, y: real) => Decay(s, hp) * x + Gain(s, hp) * (y * y)))
  }

  /** `a * x + c * y`, the momentum rule's blend of a step and the previous delta. */
  function Blend(a: real, x: real, c: real, y: real): real {
    a * x + c * y
  }

  /** `Momentum`-style delta: `step * (rate * iMomentum) + DeltaWeights * Momentum`. */
  function MomentumDelta(hp: Hyper, step: Mat, delta: Mat): (r: Result<Mat>)
    ensures r.Success? <==> SameShape(step, delta)
    ensures r.Success? ==>
      HasShape(r.value, delta.rows, Width(delta))
      && forall j, i | 0 <= j < Width(delta) && 0 <= i < delta.rows ::
        r.value.cols[j][i] == Blend(hp.learnRate * hp.iMomentum, step.cols[j][i], hp.momentum, delta.cols[j][i])
  {
    if !SameShape(step, delta) then Failure(BadShape)
    else Success(Zip(step, delta, (x: real, y: real) => Blend(hp.learnRate * hp.iMomentum, x, hp.momentum, y)))
  }

  /**
   * `(this->*updateWeights)(grad)` with `p` the predecessor's output: one of
   * `SgdF`, `MomentumF`, `AdamF`, `RMSpropF`, `AdaGradF`, chosen by the
   * layer's scheme. The adaptive rules divide the gradient entrywise by the
   * square root of the running sum (`k.normalise`).
   */
  function Update(k: Kernels, s: Scheme, hp: Hyper, b: Buffers, g: Mat, p: Mat): (r: Result<Buffers>)
    ensures s.OtherScheme? ==> r == Failure(Unbound)
    ensures r.Success? ==> SameShape(r.value.weights, b.weights) && Width(g) == Width(p)
    ensures r.Success? && s == Sgd ==> r.value.delta == b.delta && r.value.rms == b.rms
    ensures r.Success? && s == Momentum ==>
      r.value.rms == b.rms && SameShape(r.value.delta, b.weights) && r.value.weights == Add(b.weights, r.value.delta)
    ensures r.Success? && s == Adam ==>
      SameShape(r.value.delta, b.weights) && r.value.weights == Add(b.weights, r.value.delta)
    ensures r.Success? && (s == RMSprop || s == AdaGrad) ==> r.value.delta == b.delta
    ensures r.Success? && Adaptive(s) ==> HasShape(r.value.rms, g.rows, Width(g))
  {
    match s
    case Sgd =>
      (match Outer(g, p)
       case Failure(e) => Failure(e)
       case Success(step) =>
         match AddTo(b.weights, Scale(hp.learnRate, step))
         case Failure(e) => Failure(e)
         case Success(w) => Success(b.(weights := w)))
    case Momentum =>
      (match Outer(g, p)
       case Failure(e) => Failure(e)
       case Success(step) => Apply(b, MomentumDelta(hp, step, b.delta), b.rms))
    case OtherScheme(_) => Failure(Unbound)
    case Adam => AdaptiveUpdate(k, s, hp, b, g, p)
    case RMSprop => AdaptiveUpdate(k, s, hp, b, g, p)
    case AdaGrad => AdaptiveUpdate(k, s, hp, b, g, p)
  }

  /**
   * `AdamF`, `RMSpropF`, `AdaGradF`: the gradient is normalised by the new
   * running sum; Adam then takes a momentum step, the other two a plain one.
   */
  function AdaptiveUpdate(k: Kernels, s: Scheme, hp: Hyper, b: Buffers, g: Mat, p: Mat): (r: Result<Buffers>)
    requires Adaptive(s)
    ensures r.Success? ==> SameShape(r.value.weights, b.weights) && Width(g) == Width(p)
    ensures r.Success? && s == Adam ==>
      SameShape(r.value.delta, b.weights) && r.value.weights == Add(b.weights, r.value.delta)
    ensures r.Success? && s != Adam ==> r.value.delta == b.delta
    ensures r.Success? ==> HasShape(r.value.rms, g.rows, Width(g))
  {
    match Accumulate(s, hp, b.rms, g)
    case Failure(e) => Failure(e)
    case Success(rms) =>
      var gr := Zip(g, rms, k.normalise);
      match Outer(gr, p)
      case Failure(e) => Failure(e)
      case Success(step) =>
        if s == Adam then Apply(b, MomentumDelta(hp, step, b.delta), rms)
        else
          match AddTo(b.weights, Scale(hp.learnRate, step))
          case Failure(e) => Failure(e)
          case Success(w) => Success(Buffers(w, b.delta, rms))
  }

  /** `DeltaWeights = delta; Weights += DeltaWeights`, with the new `RMSprop`. */
  function Apply(b: Buffers, delta: Result<Mat>, rms: Mat): (r: Result<Buffers>)
    ensures r.Success? ==>
      delta.Success? && r.value.delta == delta.value && r.value.rms == rms
      && SameShape(delta.value, b.weights) && r.value.weights == Add(b.weights, delta.value)
  {
    match delta
    case Failure(e) => Failure(e)
    case Success(d) =>
      match AddTo(b.weights, d)
      case Failure(e) => Failure(e)
      case Success(w) =>
        assert w == Add(b.weights, d) by { Ext(w, Add(b.weights, d)); }
        Success(Buffers(w, d, rms))
  }

  /** An SGD step adds `rate` times the batch's outer-product sum to each weight. */
  lemma SgdStep(k: Kernels, hp: Hyper, b: Buffers, g: Mat, p: Mat)
    requires Update(k, Sgd, hp, b, g, p).Success?
    ensures var w := Update(k, Sgd, hp, b, g, p).value.weights;
      g.rows == b.weights.rows && p.rows == Width(b.weights)
      && forall j, i | 0 <= j < Width(b.weights) && 0 <= i < b.weights.rows ::
        w.cols[j][i] == b.weights.cols[j][i] + hp.learnRate * Dot(Row(g, i), Row(p, j))
  {
  }

  /** A momentum step's new delta is `rate * iMomentum` times the outer-product sum plus `momentum` times the old delta. */
  lemma MomentumStep(k: Kernels, hp: Hyper, b: Buffers, g: Mat, p: Mat)
    requires Update(k, Momentum, hp, b, g, p).Success?
    ensures var d := Update(k, Momentum, hp, b, g, p).value.delta;
      g.rows == b.delta.rows && p.rows == Width(b.delta) && SameShape(d, b.delta)
      && forall j, i | 0 <= j < Width(b.delta) && 0 <= i < b.delta.rows ::
        d.cols[j][i] == Blend(hp.learnRate * hp.iMomentum, Dot(Row(g, i), Row(p, j)), hp.momentum, b.delta.cols[j][i])
  {
    var step := Outer(g, p).value;
    var md := MomentumDelta(hp, step, b.delta);
    assert Update(k, Momentum, hp, b, g, p) == Apply(b, md, b.rms);
    assert md.Success? && Update(k, Momentum, hp, b, g, p).value.delta == md.value;
  }

  // ---------------------------------------------------------------- ResetMomentum

  /** `ResetMomentum` on the layer's own buffers: `RMSprop` to ones, `DeltaWeights` to zeros, shapes kept. */
  function ResetBuffers(b: Buffers): (r: Buffers)
    ensures r.weights == b.weights && SameShape(r.rms, b.rms) && SameShape(r.delta, b.delta)
    ensures forall j, i | 0 <= j < Width(b.rms) && 0 <= i < b.rms.rows :: r.rms.cols[j][i] == 1.0
    ensures forall j, i | 0 <= j < Width(b.delta) && 0 <= i < b.delta.rows :: r.delta.cols[j][i] == 0.0
  {
    Buffers(b.weights, Zeros(b.delta.rows, Width(b.delta)), Ones(b.rms.rows, Width(b.rms)))
  }

  /** Resetting twice is resetting once. */
  lemma ResetIdempotent(b: Buffers)
    ensures ResetBuffers(ResetBuffers(b)) == ResetBuffers(b)
  {
  }

  /**
   * From rest (right after `ResetMomentum`) a momentum step moves the weights
   * exactly as an SGD step at rate `rate * iMomentum` would.
   */
  lemma MomentumFromRest(k: Kernels, hp: Hyper, b: Buffers, g: Mat, p: Mat)
    requires Update(k, Momentum, hp, ResetBuffers(b), g, p).Success?
    ensures var sgd := Update(k, Sgd, hp.(learnRate := hp.learnRate * hp.iMomentum), ResetBuffers(b), g, p);
      sgd.Success? && sgd.value.weights == Update(k, Momentum, hp, ResetBuffers(b), g, p).value.weights
  {
    var rb := ResetBuffers(b);
    var hq := hp.(learnRate := hp.learnRate * hp.iMomentum);
    var m := Update(k, Momentum, hp, rb, g, p).value;
    var step := Outer(g, p).value;
    var sc := Scale(hq.learnRate, step);
    assert SameShape(b.weights, sc);
    var s := Update(k, Sgd, hq, rb, g, p).value;
    forall j, i | 0 <= j < Width(b.weights) && 0 <= i < b.weights.rows
      ensures s.weights.cols[j][i] == m.weights.cols[j][i]
    {
      assert m.delta.cols[j][i] == Blend(hp.learnRate * hp.iMomentum, step.cols[j][i], hp.momentum, rb.delta.cols[j][i]);
    }
    Ext(s.weights, m.weights);
  }

  /** `NeuronLayer::SetLearnRate` on the layer itself. */
  function SetRate(nd: Node, a: real): (r: Node)
    requires nd.kind.NeuronLayer?
    ensures r.kind.NeuronLayer? && r.kind.hp == nd.kind.hp.(learnRate := a)
    ensures r.kind.buf == nd.kind.buf && r.output == nd.output && r.prev == nd.prev && r.inputs == nd.inputs
  {
    nd.(kind := nd.kind.(hp := nd.kind.hp.(learnRate := a)))
  }

  // ---------------------------------------------------------------- Save / Load2

  /** The optional `NAME` field: written only for a non-empty name. */
  function NameField(name: seq<byte>): seq<Field> {
    if name != [] then [Field(NAME, name)] else []
  }

  /**
   * The fields of a `DENS` chunk after the name, in the order `Save` writes
   * them. `fc` is how a `float` lies in memory; `idx` is
   * `IndexOf.at(PreviousLayer)`.
   */
  function DenseTail(fc: Codec<real>, nd: Node, idx: nat): seq<Field>
    requires nd.kind.NeuronLayer?
  {
    var w := nd.kind.buf.weights;
    var h := nd.kind.hp;
    [Field(ROWS, EncodeInt(ToInt32(w.rows))), Field(COLS, EncodeInt(ToInt32(Width(w)))),
     Field(WGHT, EncodeAll(fc, Flatten(w))),
     Field(RATE, fc.enc(h.learnRate)), Field(MMNT, fc.enc(h.momentum)),
     Field(RMSP, fc.enc(h.rmsProp)), Field(DRPT, fc.enc(h.dropout)),
     Field(ACTV, EncodeInt(ToInt32(ActCode(nd.kind.activation)))),
     Field(TRNS, EncodeInt(ToInt32(SchemeCode(nd.kind.training)))),
     Field(INPT, EncodeInt(ToInt32(idx)))]
  }

  function DenseFields(fc: Codec<real>, nd: Node, idx: nat): seq<Field>
    requires nd.kind.NeuronLayer?
  {
    NameField(nd.name) + DenseTail(fc, nd, idx)
  }

  /** `NeuronLayer::Save`: fails when the predecessor has no index. */
  function DenseSave(fc: Codec<real>, nd: Node, indexOf: map<nat, nat>): (r: Result<seq<byte>>)
    requires nd.kind.NeuronLayer?
    ensures r.Success? <==> nd.prev.At? && nd.prev.index in indexOf
    ensures r.Success? ==> r.value == Chunk(DENS, Encode(DenseFields(fc, nd, indexOf[nd.prev.index])))
  {
    match IndexOfLink(indexOf, nd.prev)
    case Failure(e) => Failure(e)
    case Success(idx) => Success(Chunk(DENS, Encode(DenseFields(fc, nd, idx))))
  }

  /** The values `Load2` collects before it builds the layer. */
  datatype DenseRecord = DenseRecord(name: seq<byte>, rows: int, cols: int, ws: seq<real>,
                                     rate: real, mom: real, rms: real, drop: real,
                                     act: int, train: int, prev: int)

  /** `ROWS` and `COLS` (initialised to `0`) and the weight vector (initially empty). */
  function ReadShape(fc: Codec<real>, fs: seq<Field>): Result<(int, int, seq<real>)>
    requires fc.width > 0
  {
    match (ReadScalar(Int32, fs, ROWS, Some(0)), ReadScalar(Int32, fs, COLS, Some(0)), ReadVector(fc, fs, WGHT, []))
    case (Success(rows), Success(cols), Success(ws)) => Success((rows, cols, ws))
    case (Failure(e), _, _) => Failure(e)
    case (_, Failure(e), _) => Failure(e)
    case (_, _, Failure(e)) => Failure(e)
  }

  /** `RATE`, `MMNT`, `RMSP`, `DRPT`: uninitialised `float`s. */
  function ReadRates(fc: Codec<real>, fs: seq<Field>): Result<(real, real, real, real)> {
    match (ReadScalar(fc, fs, RATE, None), ReadScalar(fc, fs, MMNT, None),
           ReadScalar(fc, fs, RMSP, None), ReadScalar(fc, fs, DRPT, None))
    case (Success(rate), Success(mom), Success(rms), Success(drop)) => Success((rate, mom, rms, drop))
    case (Failure(e), _, _, _) => Failure(e)
    case (_, Failure(e), _, _) => Failure(e)
    case (_, _, Failure(e), _) => Failure(e)
    case (_, _, _, Failure(e)) => Failure(e)
  }

  /** `ACTV`, `TRNS`, `INPT`, each initialised to `0`. */
  function ReadCodes(fs: seq<Field>): Result<(int, int, int)> {
    match (ReadScalar(Int32, fs, ACTV, Some(0)), ReadScalar(Int32, fs, TRNS, Some(0)), ReadScalar(Int32, fs, INPT, Some(0)))
    case (Success(act), Success(train), Success(prev)) => Success((act, train, prev))
    case (Failure(e), _, _) => Failure(e)
    case (_, Failure(e), _) => Failure(e)
    case (_, _, Failure(e)) => Failure(e)
  }

  /** Every `Read` of `Load2`, then `Execute()`. */
  function ReadDense(fc: Codec<real>, fs: seq<Field>): Result<DenseRecord>
    requires fc.width > 0
  {
    match (ReadShape(fc, fs), ReadRates(fc, fs), ReadCodes(fs))
    case (Success((rows, cols, ws)), Success((rate, mom, rms, drop)), Success((act, train, prev))) =>
      Success(DenseRecord(ReadString(fs, NAME, []), rows, cols, ws, rate, mom, rms, drop, act, train, prev))
    case (Failure(e), _, _) => Failure(e)
    case (_, Failure(e), _) => Failure(e)
    case (_, _, Failure(e)) => Failure(e)
  }

  /**
   * The layer `Load2` builds: `NeuronLayer(cols - 1, rows)` with its weights
   * read from the first `rows * cols` floats, the complements recomputed and
   * the predecessor `prev` cast to a pointer: `nullptr` for `0`, otherwise
   * a placeholder. A zero dropout rate would make the reciprocal infinite.
   */
  function BuildDense(d: DenseRecord): (r: Result<Node>)
    ensures r.Success? ==>
      r.value.kind.NeuronLayer? && r.value.prev == Cast(d.prev) && r.value.inputs == [] && r.value.name == d.name
      && Complementary(r.value.kind.hp)
      && r.value.output.rows == r.value.kind.buf.weights.rows + 1 && BatchSize(r.value.output) == 1
  {
    if d.rows < 0 || d.cols < 0 then Failure(BadShape)
    else if |d.ws| < d.rows * d.cols then Failure(BadIndex)
    else if d.drop == 0.0 then Failure(Infinite)
    else
      var w := Unflatten(d.ws[..d.rows * d.cols], d.rows, d.cols);
      var h := Hyper(d.rate, d.mom, 1.0 - d.mom, d.rms, 1.0 - d.rms, d.drop, 1.0 / d.drop);
      var buf := Buffers(w, Zeros(d.rows, d.cols), Ones(d.rows, 1));
      Success(Node(d.name, 0, Ones(d.rows + 1, 1), -1, Cast(d.prev), [],
                   NeuronLayer(buf, ActOf(d.act), SchemeOf(d.train), h)))
  }

  /** `NeuronLayer::Load2` on the payload of a `DENS` chunk. */
  function DenseLoad(fc: Codec<real>, payload: seq<byte>): (r: Result<Node>)
    requires fc.width > 0
    ensures r.Success? ==> r.value.kind.NeuronLayer? && !r.value.prev.At? && r.value.inputs == []
  {
    match ParseChunks(payload)
    case None => Failure(Truncated)
    case Some(fs) =>
      match ReadDense(fc, fs)
      case Failure(e) => Failure(e)
      case Success(d) => BuildDense(d)
  }

  /**
   * A `DENS` scope without an `INPT` chunk, or whose `INPT` is `0`, loads a
   * layer with a null predecessor, and `FixInputs` then accepts it as it is.
   */
  lemma DenseLoadNull(fc: Codec<real>, payload: seq<byte>, fs: seq<Field>, n: nat)
    requires fc.width > 0 && ParseChunks(payload) == Some(fs)
    requires Lookup(fs, INPT) == [] || ReadScalar(Int32, fs, INPT, Some(0)) == Success(0)
    ensures DenseLoad(fc, payload).Success? ==>
      DenseLoad(fc, payload).value.prev == Null
      && FixInputs(DenseLoad(fc, payload).value, n) == Success(DenseLoad(fc, payload).value)
  {
    if Lookup(fs, INPT) == [] {
      ReadAbsent(Int32, fs, INPT, Some(0));
    }
  }

  /** What a saved dense layer needs to reload exactly. */
  ghost predicate Saveable(fc: Codec<real>, nd: Node, idx: nat) {
    nd.kind.NeuronLayer? && fc.width == 4
    && var w := nd.kind.buf.weights;
    var h := nd.kind.hp;
    IsInt(w.rows) && IsInt(Width(w)) && |nd.name| < TWO32 && |Flatten(w)| * 4 < TWO32
    && AllExact(fc, Flatten(w)) && Exact(fc, h.learnRate) && Exact(fc, h.momentum)
    && Exact(fc, h.rmsProp) && Exact(fc, h.dropout) && h.dropout != 0.0
    && ActCanonical(nd.kind.activation) && IsInt(ActCode(nd.kind.activation))
    && SchemeCanonical(nd.kind.training) && IsInt(SchemeCode(nd.kind.training)) && IsInt(idx)
  }

  lemma TailDistinct(fc: Codec<real>, nd: Node, idx: nat)
    requires nd.kind.NeuronLayer?
    ensures Distinct(DenseTail(fc, nd, idx))
    ensures forall k | 0 <= k < |DenseTail(fc, nd, idx)| :: DenseTail(fc, nd, idx)[k].name != NAME
  {
  }

  /** Each field after the name is found exactly once in the saved scope. */
  lemma TailLookup(fc: Codec<real>, nd: Node, idx: nat, k: nat)
    requires nd.kind.NeuronLayer? && k < 10
    ensures var t := DenseTail(fc, nd, idx);
      Lookup(DenseFields(fc, nd, idx), t[k].name) == [t[k].payload]
  {
    var t := DenseTail(fc, nd, idx);
    TailDistinct(fc, nd, idx);
    LookupUnique(t, k);
    LookupAppend(NameField(nd.name), t, t[k].name);
  }

  /** The `NAME` chunk is there exactly when the name is not empty. */
  lemma NameLookup(fc: Codec<real>, nd: Node, idx: nat)
    requires nd.kind.NeuronLayer?
    ensures ReadString(DenseFields(fc, nd, idx), NAME, []) == nd.name
  {
    var t := DenseTail(fc, nd, idx);
    TailDistinct(fc, nd, idx);
    LookupMissing(t, NAME);
    LookupAppend(NameField(nd.name), t, NAME);
  }

  lemma FieldsFit(fc: Codec<real>, nd: Node, idx: nat)
    requires Saveable(fc, nd, idx)
    ensures Fits(DenseFields(fc, nd, idx))
  {
    var w := nd.kind.buf.weights;
    EncodeAllLength(fc, Flatten(w));
    var fs := DenseFields(fc, nd, idx);
    var t := DenseTail(fc, nd, idx);
    forall k | 0 <= k < |fs| ensures |fs[k].payload| < TWO32 {
      if nd.name != [] && k == 0 {
      } else {
        var j := if nd.name != [] then k - 1 else k;
        assert fs[k] == t[j];
      }
    }
  }

  /** What `Load2` reads from a scope that `Save` wrote. */
  lemma ReadSaved(fc: Codec<real>, nd: Node, idx: nat)
    requires Saveable(fc, nd, idx)
    ensures var w := nd.kind.buf.weights;
      var h := nd.kind.hp;
      ReadDense(fc, DenseFields(fc, nd, idx)) ==
        Success(DenseRecord(nd.name, w.rows, Width(w), Flatten(w), h.learnRate, h.momentum, h.rmsProp, h.dropout,
                            ActCode(nd.kind.activation), SchemeCode(nd.kind.training), idx))
  {
    var fs := DenseFields(fc, nd, idx);
    var t := DenseTail(fc, nd, idx);
    var w := nd.kind.buf.weights;
    var h := nd.kind.hp;
    IntExact(w.rows);
    IntExact(Width(w));
    IntExact(ActCode(nd.kind.activation));
    IntExact(SchemeCode(nd.kind.training));
    IntExact(idx);
    TailLookup(fc, nd, idx, 0);
    TailLookup(fc, nd, idx, 1);
    TailLookup(fc, nd, idx, 2);
    ReadWritten(Int32, fs, ROWS, w.rows, Some(0));
    ReadWritten(Int32, fs, COLS, Width(w), Some(0));
    ReadVectorWritten(fc, fs, WGHT, Flatten(w), []);
    assert ReadShape(fc, fs) == Success((w.rows, Width(w), Flatten(w)));
    RatesSaved(fc, nd, idx);
    CodesSaved(fc, nd, idx);
    NameLookup(fc, nd, idx);
  }

  lemma RatesSaved(fc: Codec<real>, nd: Node, idx: nat)
    requires Saveable(fc, nd, idx)
    ensures var h := nd.kind.hp;
      ReadRates(fc, DenseFields(fc, nd, idx)) == Success((h.learnRate, h.momentum, h.rmsProp, h.dropout))
  {
    var fs := DenseFields(fc, nd, idx);
    var h := nd.kind.hp;
    TailLookup(fc, nd, idx, 3);
    TailLookup(fc, nd, idx, 4);
    TailLookup(fc, nd, idx, 5);
    TailLookup(fc, nd, idx, 6);
    ReadWritten(fc, fs, RATE, h.learnRate, None);
    ReadWritten(fc, fs, MMNT, h.momentum, None);
    ReadWritten(fc, fs, RMSP, h.rmsProp, None);
    ReadWritten(fc, fs, DRPT, h.dropout, None);
  }

  lemma CodesSaved(fc: Codec<real>, nd: Node, idx: nat)
    requires Saveable(fc, nd, idx)
    ensures ReadCodes(DenseFields(fc, nd, idx)) ==
      Success((ActCode(nd.kind.activation), SchemeCode(nd.kind.training), idx as int))
  {
    var fs := DenseFields(fc, nd, idx);
    IntExact(ActCode(nd.kind.activation));
    IntExact(SchemeCode(nd.kind.training));
    IntExact(idx);
    TailLookup(fc, nd, idx, 7);
    TailLookup(fc, nd, idx, 8);
    TailLookup(fc, nd, idx, 9);
    ReadWritten(Int32, fs, ACTV, ActCode(nd.kind.activation), Some(0));
    ReadWritten(Int32, fs, TRNS, SchemeCode(nd.kind.training), Some(0));
    ReadWritten(Int32, fs, INPT, idx as int, Some(0));
  }

  /**
   * Save then Load2: the reloaded layer has the same name, weights,
   * activation, training scheme and rates, its complements recomputed, and
   * the predecessor's saved index as a placeholder.
   */
  lemma DenseRoundTrip(fc: Codec<real>, nd: Node, indexOf: map<nat, nat>)
    requires nd.prev.At? && nd.prev.index in indexOf && Saveable(fc, nd, indexOf[nd.prev.index])
    ensures var idx := indexOf[nd.prev.index];
      DenseSave(fc, nd, indexOf) == Success(Chunk(DENS, Encode(DenseFields(fc, nd, idx))))
      && var r := DenseLoad(fc, Encode(DenseFields(fc, nd, idx)));
      var h := nd.kind.hp;
      r.Success? && r.value.kind.NeuronLayer? && r.value.name == nd.name
      && r.value.kind.buf.weights == nd.kind.buf.weights
      && r.value.kind.activation == nd.kind.activation && r.value.kind.training == nd.kind.training
      && r.value.kind.hp == Hyper(h.learnRate, h.momentum, 1.0 - h.momentum, h.rmsProp, 1.0 - h.rmsProp,
                                  h.dropout, 1.0 / h.dropout)
      && r.value.prev == Cast(idx)
  {
    var idx := indexOf[nd.prev.index];
    var fs := DenseFields(fc, nd, idx);
    var w := nd.kind.buf.weights;
    var h := nd.kind.hp;
    var d := DenseRecord(nd.name, w.rows, Width(w), Flatten(w), h.learnRate, h.momentum, h.rmsProp,
                         h.dropout, ActCode(nd.kind.activation), SchemeCode(nd.kind.training), idx);
    FieldsFit(fc, nd, idx);
    ParseEncode(fs);
    ReadSaved(fc, nd, idx);
    assert DenseLoad(fc, Encode(fs)) == BuildDense(d);
    BuildSaved(fc, nd, idx);
  }

  /** Building from what was read gives back the saved layer's parameters. */
  lemma BuildSaved(fc: Codec<real>, nd: Node, idx: nat)
    requires Saveable(fc, nd, idx)
    ensures var w := nd.kind.buf.weights;
      var h := nd.kind.hp;
      var r := BuildDense(DenseRecord(nd.name, w.rows, Width(w), Flatten(w), h.learnRate, h.momentum, h.rmsProp,
                                      h.dropout, ActCode(nd.kind.activation), SchemeCode(nd.kind.training), idx));
      r.Success? && r.value.kind.NeuronLayer? && r.value.name == nd.name
      && r.value.kind.buf.weights == w
      && r.value.kind.activation == nd.kind.activation && r.value.kind.training == nd.kind.training
      && r.value.kind.hp == Hyper(h.learnRate, h.momentum, 1.0 - h.momentum, h.rmsProp, 1.0 - h.rmsProp,
                                  h.dropout, 1.0 / h.dropout)
      && r.value.prev == Cast(idx)
  {
    var w := nd.kind.buf.weights;
    assert |Flatten(w)| == w.rows * Width(w);
    assert Flatten(w)[..w.rows * Width(w)] == Flatten(w);
    UnflattenFlatten(w);
    ActRoundTrip(nd.kind.activation);
    SchemeRoundTrip(nd.kind.training);
  }
}
