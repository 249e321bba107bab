/**
 * The passes over a layer graph (`FeedForward`, `BackPropagate`,
 * `SetLearnRate`, `ResetMomentum`) as functions of the arena: each returns
 * the arena after the pass, or the error that stops it (an Eigen shape
 * assertion, a null predecessor, a missing input).
 */
module Network {
  import opened Wrappers
  import opened Matrices
  import opened Graph
  import opened Activations
  import Dense
  import ActivationLayers
  import Utility
  import Combiners

  /** The classes whose passes follow `PreviousLayer`. */
  predicate Chain(k: Kind) {
    k.NeuronLayer? || k.ActivationLayer? || k.RecurrentLayer?
  }

  /** The classes whose passes follow `InputLayers`. */
  predicate Fan(k: Kind) {
    k.NeuronAdder? || k.NeuronMultiplier? || k.NeuronCombiner?
  }

  lemma SameWiringTrans(a: seq<Node>, b: seq<Node>, c: seq<Node>)
    requires SameWiring(a, b) && SameWiring(b, c)
    ensures SameWiring(a, c)
  {
  }

  lemma SameKinds(a: seq<Node>, b: seq<Node>, i: nat)
    requires SameWiring(a, b) && i < |a|
    ensures Chain(a[i].kind) == Chain(b[i].kind) && Fan(a[i].kind) == Fan(b[i].kind)
    ensures a[i].kind.InputLayer? == b[i].kind.InputLayer? && a[i].kind.NeuronLayer? == b[i].kind.NeuronLayer?
    ensures a[i].kind.ActivationLayer? == b[i].kind.ActivationLayer?
    ensures a[i].kind.NeuronAdder? == b[i].kind.NeuronAdder? && a[i].kind.NeuronMultiplier? == b[i].kind.NeuronMultiplier?
    ensures a[i].kind.NeuronCombiner? == b[i].kind.NeuronCombiner? && a[i].kind.RecurrentLayer? == b[i].kind.RecurrentLayer?
  {
    assert Tag(a[i].kind) == Tag(b[i].kind);
  }

  // ---------------------------------------------------------------- FeedForward

  /**
   * `FeedForward(Version)` on layer `i`: nothing happens when `Version` is
   * not newer than the layer's `FeedVersion`, or on an input layer. Otherwise
   * the predecessor, or each input in order, is fed first, then the layer
   * computes its buffer and records the version.
   */
  function Feed(k: Kernels, ns: seq<Node>, i: nat, v: int): (r: Result<seq<Node>>)
    requires Wired(ns) && i < |ns|
    ensures r.Success? ==> SameWiring(ns, r.value)
    ensures v <= ns[i].feedVersion || ns[i].kind.InputLayer? ==> r == Success(ns)
    ensures r.Success? && v > ns[i].feedVersion && !ns[i].kind.InputLayer? ==> r.value[i].feedVersion == v
    ensures r.Success? ==> forall t | i < t < |ns| && !ns[t].kind.InputLayer? :: r.value[t] == ns[t]
    decreases i, 1
  {
    var nd := ns[i];
    if v <= nd.feedVersion || nd.kind.InputLayer? then Success(ns)
    else if Chain(nd.kind) then
      if nd.prev.Null? then Failure(BadPointer)
      else
        match Feed(k, ns, nd.prev.index, v)
        case Failure(e) => Failure(e)
        case Success(ms) =>
          SameKinds(ns, ms, i);
          match ChainStep(k, ms, i, nd.prev.index, v)
          case Failure(e) => Failure(e)
          case Success(ms') => SameWiringTrans(ns, ms, ms'); Success(ms')
    else
      match FeedInputs(k, ns, nd.inputs, i, 0, v, [])
      case Failure(e) => Failure(e)
      case Success((ms, os)) =>
        SameKinds(ns, ms, i);
        match FanStep(ms, i, os, v)
        case Failure(e) => Failure(e)
        case Success(ms') => SameWiringTrans(ns, ms, ms'); Success(ms')
  }

  /**
   * The loop over `InputLayers` from input `q` on: each input is fed, then
   * its output is read, before the next one is fed.
   */
  function FeedInputs(k: Kernels, ns: seq<Node>, ls: seq<Link>, i: nat, q: nat, v: int, acc: seq<Mat>)
    : (r: Result<(seq<Node>, seq<Mat>)>)
    requires Wired(ns) && i < |ns| && q <= |ls|
    requires forall t | 0 <= t < |ls| :: ls[t].At? && ls[t].index < i
    ensures r.Success? ==> SameWiring(ns, r.value.0)
    ensures r.Success? ==> |r.value.1| == |acc| + |ls| - q && r.value.1[..|acc|] == acc
    ensures r.Success? ==> forall t | i <= t < |ns| && !ns[t].kind.InputLayer? :: r.value.0[t] == ns[t]
    decreases i, 0, |ls| - q
  {
    if q == |ls| then Success((ns, acc))
    else
      match Feed(k, ns, ls[q].index, v)
      case Failure(e) => Failure(e)
      case Success(ms) =>
        WiredKept(ns, ms);
        match FeedInputs(k, ms, ls, i, q + 1, v, acc + [ms[ls[q].index].output])
        case Failure(e) => Failure(e)
        case Success((ms', os)) =>
          SameWiringTrans(ns, ms, ms');
          assert os[..|acc|] == (acc + [ms[ls[q].index].output])[..|acc|];
          Success((ms', os))
  }

  /**
   * A chain layer's own step once its predecessor `p` is fed: a dense or an
   * activation layer computes its buffer from the predecessor's output; a
   * recurrent layer takes that output and writes it, with `InputRaw`, into
   * its recurrent input.
   */
  function ChainStep(k: Kernels, ms: seq<Node>, i: nat, p: nat, v: int): (r: Result<seq<Node>>)
    requires i < |ms| && p < |ms| && Chain(ms[i].kind)
    ensures r.Success? ==> SameWiring(ms, r.value) && r.value[i].feedVersion == v
    ensures r.Success? ==> forall t | i < t < |ms| && !ms[t].kind.InputLayer? :: r.value[t] == ms[t]
  {
    var nd := ms[i];
    var inp := ms[p].output;
    match nd.kind
    case NeuronLayer(_, _, _, _) =>
      (match Dense.DenseForward(k, nd, inp)
       case Failure(e) => Failure(e)
       case Success(o) => Success(ms[i := nd.(output := o, feedVersion := v)]))
    case ActivationLayer(_) =>
      (match ActivationLayers.ActivationForward(k, nd, inp)
       case Failure(e) => Failure(e)
       case Success(o) => Success(ms[i := nd.(output := o, feedVersion := v)]))
    case RecurrentLayer(ri) =>
      if ri.At? && ri.index < |ms| && ms[ri.index].kind.InputLayer? then
        var ms1 := ms[i := nd.(output := inp, feedVersion := v)];
        Success(ms1[ri.index := ms1[ri.index].(output := inp)])
      else Failure(BadPointer)
  }

  /** A fan-in layer's own step once its inputs are fed, `os` being their outputs in order. */
  function FanStep(ms: seq<Node>, i: nat, os: seq<Mat>, v: int): (r: Result<seq<Node>>)
    requires i < |ms| && Fan(ms[i].kind)
    ensures r.Success? ==> |r.value| == |ms| && |os| >= 1
    ensures r.Success? ==> r.value == ms[i := ms[i].(output := r.value[i].output, feedVersion := v)]
  {
    var nd := ms[i];
    var o :=
      if nd.kind.NeuronAdder? then Utility.AdderOutput(os)
      else if nd.kind.NeuronMultiplier? then Utility.MultiplierOutput(os)
      else Combiners.CombinerForward(nd.output, os);
    match o
    case Failure(e) => Failure(e)
    case Success(out) => Success(ms[i := nd.(output := out, feedVersion := v)])
  }

  /**
   * Feeding twice with the same version is feeding once: the second pass
   * finds the layer's `FeedVersion` already at `Version`.
   */
  lemma FeedIdempotent(k: Kernels, ns: seq<Node>, i: nat, v: int)
    requires Wired(ns) && i < |ns| && Feed(k, ns, i, v).Success?
    ensures var ms := Feed(k, ns, i, v).value;
      Wired(ms) && Feed(k, ms, i, v) == Success(ms)
  {
    var ms := Feed(k, ns, i, v).value;
    WiredKept(ns, ms);
    SameKinds(ns, ms, i);
  }

  /** A pass with a version that is not newer leaves the whole arena as it was. */
  lemma FeedStale(k: Kernels, ns: seq<Node>, i: nat, v: int)
    requires Wired(ns) && i < |ns| && v <= ns[i].feedVersion
    ensures Feed(k, ns, i, v) == Success(ns)
  {
  }

  // ---------------------------------------------------------------- BackPropagate

  /**
   * `b` is `a` after training: the same layers, outputs and versions; only
   * the buffers of dense layers may differ.
   */
  predicate Retrained(a: seq<Node>, b: seq<Node>) {
    |a| == |b|
    && forall j | 0 <= j < |a| ::
      b[j] == a[j]
      || (a[j].kind.NeuronLayer? && b[j].kind.NeuronLayer? && b[j] == a[j].(kind := a[j].kind.(buf := b[j].kind.buf)))
  }

  lemma RetrainedTrans(a: seq<Node>, b: seq<Node>, c: seq<Node>)
    requires Retrained(a, b) && Retrained(b, c)
    ensures Retrained(a, c)
  {
    forall j | 0 <= j < |a|
      ensures c[j] == a[j]
        || (a[j].kind.NeuronLayer? && c[j].kind.NeuronLayer? && c[j] == a[j].(kind := a[j].kind.(buf := c[j].kind.buf)))
    {
    }
  }

  lemma RetrainedWiring(a: seq<Node>, b: seq<Node>)
    requires Retrained(a, b)
    ensures SameWiring(a, b)
    ensures forall j | 0 <= j < |a| :: b[j].output == a[j].output && b[j].feedVersion == a[j].feedVersion
  {
    forall j | 0 <= j < |a|
      ensures a[j].prev == b[j].prev && a[j].inputs == b[j].inputs
      ensures Tag(a[j].kind) == Tag(b[j].kind) && RecOf(a[j].kind) == RecOf(b[j].kind)
    {
    }
  }

  /**
   * `BackPropagate(Gradient)` on layer `i`. A dense layer sends
   * `outPart(Weights^T * grad)` to its predecessor first and then applies
   * its update rule; an activation layer sends its local gradient; a
   * recurrent layer passes the gradient on; the fan-in layers send each
   * input its message, in input order; an input layer does nothing.
   */
  function Back(k: Kernels, ns: seq<Node>, i: nat, g: Mat): (r: Result<seq<Node>>)
    requires Wired(ns) && i < |ns|
    ensures r.Success? ==> Retrained(ns, r.value)
    ensures ns[i].kind.InputLayer? ==> r == Success(ns)
    decreases i, 1
  {
    var nd := ns[i];
    match nd.kind
    case InputLayer => Success(ns)
    case NeuronLayer(_, _, _, _) =>
      (match Dense.DenseBackward(k, nd, g)
       case Failure(e) => Failure(e)
       case Success(st) =>
         if nd.prev.Null? then Failure(BadPointer)
         else
           var p := nd.prev.index;
           match Back(k, ns, p, st.message)
           case Failure(e) => Failure(e)
           case Success(ms) =>
             RetrainedWiring(ns, ms);
             var me := ms[i];
             assert me.kind.NeuronLayer?;
             match Dense.Update(k, me.kind.training, me.kind.hp, me.kind.buf, st.grad, ms[p].output)
             case Failure(e) => Failure(e)
             case Success(b) =>
               var ms' := ms[i := me.(kind := me.kind.(buf := b))];
               assert Retrained(ms, ms');
               RetrainedTrans(ns, ms, ms');
               Success(ms'))
    case ActivationLayer(_) =>
      (match ActivationLayers.ActivationBackward(k, nd, g)
       case Failure(e) => Failure(e)
       case Success(m) => if nd.prev.Null? then Failure(BadPointer) else Back(k, ns, nd.prev.index, m))
    case RecurrentLayer(_) =>
      if nd.prev.Null? then Failure(BadPointer) else Back(k, ns, nd.prev.index, g)
    case NeuronAdder =>
      BackInputs(k, ns, nd.inputs, i, 0, seq(|nd.inputs|, _ => g))
    case NeuronMultiplier =>
      (match MultiplierMessages(ns, nd.inputs, i, g)
       case Failure(e) => Failure(e)
       case Success(msgs) => BackInputs(k, ns, nd.inputs, i, 0, msgs))
    case NeuronCombiner =>
      (match CombinerMessages(ns, nd.inputs, i, g)
       case Failure(e) => Failure(e)
       case Success(msgs) => BackInputs(k, ns, nd.inputs, i, 0, msgs))
  }

  /** The loop over `InputLayers` from input `q` on: input `t` is sent `msgs[t]`. */
  function BackInputs(k: Kernels, ns: seq<Node>, ls: seq<Link>, i: nat, q: nat, msgs: seq<Mat>): (r: Result<seq<Node>>)
    requires Wired(ns) && i < |ns| && q <= |ls| == |msgs|
    requires forall t | 0 <= t < |ls| :: ls[t].At? && ls[t].index < i
    ensures r.Success? ==> Retrained(ns, r.value)
    decreases i, 0, |ls| - q
  {
    if q == |ls| then Success(ns)
    else
      match Back(k, ns, ls[q].index, msgs[q])
      case Failure(e) => Failure(e)
      case Success(ms) =>
        RetrainedWiring(ns, ms);
        WiredKept(ns, ms);
        match BackInputs(k, ms, ls, i, q + 1, msgs)
        case Failure(e) => Failure(e)
        case Success(ms') => RetrainedTrans(ns, ms, ms'); Success(ms')
  }

  /** The outputs of the listed layers. */
  function OutputsOf(ns: seq<Node>, ls: seq<Link>, i: nat): (os: seq<Mat>)
    requires i <= |ns| && forall t | 0 <= t < |ls| :: ls[t].At? && ls[t].index < i
    ensures |os| == |ls| && forall t | 0 <= t < |ls| :: os[t] == ns[ls[t].index].output
  {
    seq(|ls|, t requires 0 <= t < |ls| => ns[ls[t].index].output)
  }

  /** `RealOutput()` of every input: each needs a bias row to drop. */
  function RealOutputs(os: seq<Mat>): (r: Result<seq<Mat>>)
    ensures r.Success? <==> forall t | 0 <= t < |os| :: os[t].rows >= 1
    ensures r.Success? ==> |r.value| == |os| && forall t | 0 <= t < |os| :: r.value[t] == OutPart(os[t])
  {
    if forall t | 0 <= t < |os| :: os[t].rows >= 1 then
      Success(seq(|os|, t requires 0 <= t < |os| => OutPart(os[t])))
    else Failure(BadShape)
  }

  /**
   * The multiplier's messages: input `t` receives `Gradient` times every
   * other input's `RealOutput()`. Back-propagation does not change outputs,
   * so they can all be computed from the arena before the first is sent.
   */
  function MultiplierMessages(ns: seq<Node>, ls: seq<Link>, i: nat, g: Mat): (r: Result<seq<Mat>>)
    requires i <= |ns| && forall t | 0 <= t < |ls| :: ls[t].At? && ls[t].index < i
    ensures r.Success? ==> |r.value| == |ls| && |ls| >= 2
    ensures r.Success? ==> var reals := RealOutputs(OutputsOf(ns, ls, i));
      reals.Success? && forall t | 0 <= t < |ls| :: Utility.MultiplierMessage(g, reals.value, t) == Success(r.value[t])
  {
    match RealOutputs(OutputsOf(ns, ls, i))
    case Failure(e) => Failure(e)
    case Success(reals) =>
      if |reals| < 2 then Failure(BadIndex)
      else if forall t | 0 <= t < |ls| :: Utility.MultiplierMessage(g, reals, t).Success? then
        Success(seq(|ls|, t requires 0 <= t < |ls| => Utility.MultiplierMessage(g, reals, t).value))
      else Failure(BadShape)
  }

  /**
   * The combiner's messages: input `t` receives the `nOutput()` gradient
   * rows starting at the running offset.
   */
  function CombinerMessages(ns: seq<Node>, ls: seq<Link>, i: nat, g: Mat): (r: Result<seq<Mat>>)
    requires i <= |ns| && forall t | 0 <= t < |ls| :: ls[t].At? && ls[t].index < i
    ensures r.Success? ==> |r.value| == |ls|
    ensures r.Success? ==> var nOuts := NOutputs(OutputsOf(ns, ls, i));
      forall t | 0 <= t < |ls| :: Combiners.CombinerMessage(g, nOuts, t) == Success(r.value[t])
  {
    var nOuts := NOutputs(OutputsOf(ns, ls, i));
    if forall t | 0 <= t < |ls| :: Combiners.CombinerMessage(g, nOuts, t).Success? then
      Success(seq(|ls|, t requires 0 <= t < |ls| => Combiners.CombinerMessage(g, nOuts, t).value))
    else Failure(BadShape)
  }

  /** `i->nOutput()` of every input. */
  function NOutputs(os: seq<Mat>): (r: seq<nat>)
    ensures |r| == |os| && forall t | 0 <= t < |os| :: r[t] == NOutput(os[t])
  {
    seq(|os|, t requires 0 <= t < |os| => NOutput(os[t]))
  }

  /** Back-propagation leaves every output and every version as it was. */
  lemma BackKeepsOutputs(k: Kernels, ns: seq<Node>, i: nat, g: Mat)
    requires Wired(ns) && i < |ns| && Back(k, ns, i, g).Success?
    ensures var ms := Back(k, ns, i, g).value;
      |ms| == |ns| && SameWiring(ns, ms)
      && forall j | 0 <= j < |ns| :: ms[j].output == ns[j].output && ms[j].feedVersion == ns[j].feedVersion
  {
    RetrainedWiring(ns, Back(k, ns, i, g).value);
  }

  // ---------------------------------------------------------------- SetLearnRate / ResetMomentum

  /** The two passes that visit the graph to change dense layers' settings. */
  datatype Op = Rate(a: real) | Reset

  /** A dense layer's own part: the new rate, or `RMSprop` to ones and `DeltaWeights` to zeros. */
  function Touch(op: Op, nd: Node): (r: Node)
    requires nd.kind.NeuronLayer?
    ensures r.kind.NeuronLayer? && r.output == nd.output && r.prev == nd.prev && r.inputs == nd.inputs
    ensures r.kind.activation == nd.kind.activation && r.kind.training == nd.kind.training
    ensures op.Rate? ==> r == Dense.SetRate(nd, op.a)
    ensures op.Reset? ==> r == nd.(kind := nd.kind.(buf := Dense.ResetBuffers(nd.kind.buf)))
  {
    match op
    case Rate(a) => Dense.SetRate(nd, a)
    case Reset => nd.(kind := nd.kind.(buf := Dense.ResetBuffers(nd.kind.buf)))
  }

  lemma TouchTwice(op: Op, nd: Node)
    requires nd.kind.NeuronLayer?
    ensures Touch(op, Touch(op, nd)) == Touch(op, nd)
  {
    if op.Reset? {
      Dense.ResetIdempotent(nd.kind.buf);
    }
  }

  /**
   * The pass on layer `i`: a dense layer changes itself and then passes on to
   * its predecessor; an activation or recurrent layer passes on; a fan-in
   * layer passes on to each input; an input layer does nothing.
   */
  function Delegate(op: Op, ns: seq<Node>, i: nat): (r: Result<seq<Node>>)
    requires Wired(ns) && i < |ns|
    ensures r.Success? ==> SameWiring(ns, r.value)
    decreases i, 1
  {
    var nd := ns[i];
    if Chain(nd.kind) then
      if nd.prev.Null? then Failure(BadPointer)
      else
        var ms := if nd.kind.NeuronLayer? then ns[i := Touch(op, nd)] else ns;
        assert SameWiring(ns, ms);
        WiredKept(ns, ms);
        match Delegate(op, ms, nd.prev.index)
        case Failure(e) => Failure(e)
        case Success(ms') => SameWiringTrans(ns, ms, ms'); Success(ms')
    else if Fan(nd.kind) then DelegateInputs(op, ns, nd.inputs, i, 0)
    else Success(ns)
  }

  function DelegateInputs(op: Op, ns: seq<Node>, ls: seq<Link>, i: nat, q: nat): (r: Result<seq<Node>>)
    requires Wired(ns) && i < |ns| && q <= |ls|
    requires forall t | 0 <= t < |ls| :: ls[t].At? && ls[t].index < i
    ensures r.Success? ==> SameWiring(ns, r.value)
    decreases i, 0, |ls| - q
  {
    if q == |ls| then Success(ns)
    else
      match Delegate(op, ns, ls[q].index)
      case Failure(e) => Failure(e)
      case Success(ms) =>
        WiredKept(ns, ms);
        match DelegateInputs(op, ms, ls, i, q + 1)
        case Failure(e) => Failure(e)
        case Success(ms') => SameWiringTrans(ns, ms, ms'); Success(ms')
  }

  /** One step of the pass over the inputs: the first listed input's pass, then the rest from the graph it leaves. */
  lemma DelegateInputsStep(op: Op, ns: seq<Node>, ls: seq<Link>, i: nat, q: nat)
    requires Wired(ns) && i < |ns| && q < |ls|
    requires forall t | 0 <= t < |ls| :: ls[t].At? && ls[t].index < i
    ensures Delegate(op, ns, ls[q].index).Failure? ==> DelegateInputs(op, ns, ls, i, q).Failure?
    ensures Delegate(op, ns, ls[q].index).Success? ==>
      var ms := Delegate(op, ns, ls[q].index).value;
      Wired(ms) && |ms| == |ns| && DelegateInputs(op, ns, ls, i, q) == DelegateInputs(op, ms, ls, i, q + 1)
  {
    if Delegate(op, ns, ls[q].index).Success? {
      WiredKept(ns, Delegate(op, ns, ls[q].index).value);
    }
  }

  /** The layers the pass started at `i` visits, itself included. */
  function Visited(ns: seq<Node>, i: nat): (s: set<nat>)
    requires Wired(ns) && i < |ns|
    ensures i in s && forall j | j in s :: j <= i
    decreases i, 1
  {
    var nd := ns[i];
    {i}
    + (if Chain(nd.kind) && nd.prev.At? then Visited(ns, nd.prev.index) else {})
    + (if Fan(nd.kind) then VisitedInputs(ns, nd.inputs, i, 0) else {})
  }

  function VisitedInputs(ns: seq<Node>, ls: seq<Link>, i: nat, q: nat): (s: set<nat>)
    requires Wired(ns) && i < |ns| && q <= |ls|
    requires forall t | 0 <= t < |ls| :: ls[t].At? && ls[t].index < i
    ensures forall j | j in s :: j < i
    decreases i, 0, |ls| - q
  {
    if q == |ls| then {} else Visited(ns, ls[q].index) + VisitedInputs(ns, ls, i, q + 1)
  }

  /** The arena with the pass's own part applied to each dense layer in `s`. */
  function TouchAll(op: Op, ns: seq<Node>, s: set<nat>): (r: seq<Node>)
    ensures |r| == |ns| && SameWiring(ns, r)
    ensures forall j | 0 <= j < |ns| :: r[j] == if j in s && ns[j].kind.NeuronLayer? then Touch(op, ns[j]) else ns[j]
  {
    seq(|ns|, j requires 0 <= j < |ns| => if j in s && ns[j].kind.NeuronLayer? then Touch(op, ns[j]) else ns[j])
  }

  /** Applying the pass to a set of layers twice is applying it to their union: a diamond costs nothing. */
  lemma TouchAllUnion(op: Op, ns: seq<Node>, a: set<nat>, b: set<nat>)
    ensures TouchAll(op, TouchAll(op, ns, a), b) == TouchAll(op, ns, a + b)
  {
    var l := TouchAll(op, TouchAll(op, ns, a), b);
    var r := TouchAll(op, ns, a + b);
    forall j | 0 <= j < |ns|
      ensures l[j] == r[j]
    {
      if j in a && j in b && ns[j].kind.NeuronLayer? {
        TouchTwice(op, ns[j]);
      }
    }
  }

  /** Every chain layer has a predecessor: the graphs the constructors build. */
  predicate Linked(ns: seq<Node>) {
    forall j | 0 <= j < |ns| :: Chain(ns[j].kind) ==> ns[j].prev.At?
  }

  lemma LinkedKept(a: seq<Node>, b: seq<Node>)
    requires SameWiring(a, b) && Linked(a)
    ensures Linked(b)
  {
    forall j | 0 <= j < |b| && Chain(b[j].kind)
      ensures b[j].prev.At?
    {
      SameKinds(a, b, j);
    }
  }

  /** Which layers the pass visits depends on the wiring alone. */
  lemma {:induction false} VisitedWiring(a: seq<Node>, b: seq<Node>, i: nat)
    requires Wired(a) && SameWiring(a, b) && i < |a|
    ensures Wired(b) && Visited(a, i) == Visited(b, i)
    decreases i, 1
  {
    WiredKept(a, b);
    SameKinds(a, b, i);
    var nd := a[i];
    if Chain(nd.kind) && nd.prev.At? {
      VisitedWiring(a, b, nd.prev.index);
    }
    if Fan(nd.kind) {
      VisitedInputsWiring(a, b, nd.inputs, i, 0);
    }
  }

  lemma {:induction false} VisitedInputsWiring(a: seq<Node>, b: seq<Node>, ls: seq<Link>, i: nat, q: nat)
    requires Wired(a) && SameWiring(a, b) && i < |a| && q <= |ls|
    requires forall t | 0 <= t < |ls| :: ls[t].At? && ls[t].index < i
    ensures Wired(b) && VisitedInputs(a, ls, i, q) == VisitedInputs(b, ls, i, q)
    decreases i, 0, |ls| - q
  {
    WiredKept(a, b);
    if q < |ls| {
      VisitedWiring(a, b, ls[q].index);
      VisitedInputsWiring(a, b, ls, i, q + 1);
    }
  }

  /**
   * `SetLearnRate` and `ResetMomentum` change exactly the dense layers they
   * reach, each as if visited once however many paths lead to it, and
   * nothing else; on a graph whose chain layers all have a predecessor they
   * always complete.
   */
  lemma {:induction false} DelegateTouches(op: Op, ns: seq<Node>, i: nat)
    requires Wired(ns) && i < |ns|
    ensures Linked(ns) ==> Delegate(op, ns, i).Success?
    ensures Delegate(op, ns, i).Success? ==> Delegate(op, ns, i).value == TouchAll(op, ns, Visited(ns, i))
    decreases i, 1
  {
    var nd := ns[i];
    var s := Visited(ns, i);
    if Chain(nd.kind) {
      if nd.prev.At? {
        DelegateChainTouches(op, ns, i);
      }
    } else if Fan(nd.kind) {
      DelegateInputsTouch(op, ns, nd.inputs, i, 0);
      var si := VisitedInputs(ns, nd.inputs, i, 0);
      assert s == {i} + si;
      assert TouchAll(op, ns, s) == TouchAll(op, ns, si);
    } else {
      assert s == {i};
      assert TouchAll(op, ns, s) == ns;
    }
  }

  /** A chain layer's own part is the pass applied to it alone. */
  lemma TouchOne(op: Op, ns: seq<Node>, i: nat)
    requires i < |ns|
    ensures (if ns[i].kind.NeuronLayer? then ns[i := Touch(op, ns[i])] else ns) == TouchAll(op, ns, {i})
  {
    var ms := if ns[i].kind.NeuronLayer? then ns[i := Touch(op, ns[i])] else ns;
    var t := TouchAll(op, ns, {i});
    forall j | 0 <= j < |ns|
      ensures ms[j] == t[j]
    {
      assert j in {i} <==> j == i;
    }
  }

  /** The chain case: the layer itself, then everything its predecessor reaches. */
  lemma {:induction false} DelegateChainTouches(op: Op, ns: seq<Node>, i: nat)
    requires Wired(ns) && i < |ns| && Chain(ns[i].kind) && ns[i].prev.At?
    ensures Linked(ns) ==> Delegate(op, ns, i).Success?
    ensures Delegate(op, ns, i).Success? ==> Delegate(op, ns, i).value == TouchAll(op, ns, Visited(ns, i))
    decreases i, 0
  {
    var nd := ns[i];
    var p := nd.prev.index;
    var ms := if nd.kind.NeuronLayer? then ns[i := Touch(op, nd)] else ns;
    assert Delegate(op, ns, i) == Delegate(op, ms, p);
    assert SameWiring(ns, ms);
    WiredKept(ns, ms);
    if Linked(ns) {
      LinkedKept(ns, ms);
    }
    DelegateTouches(op, ms, p);
    VisitedWiring(ns, ms, p);
    var sp := Visited(ns, p);
    assert Visited(ns, i) == {i} + sp;
    TouchOne(op, ns, i);
    TouchAllUnion(op, ns, {i}, sp);
    if Delegate(op, ms, p).Success? {
      assert Delegate(op, ms, p).value == TouchAll(op, ms, sp);
    }
  }

  lemma {:induction false} DelegateInputsTouch(op: Op, ns: seq<Node>, ls: seq<Link>, i: nat, q: nat)
    requires Wired(ns) && i < |ns| && q <= |ls|
    requires forall t | 0 <= t < |ls| :: ls[t].At? && ls[t].index < i
    ensures Linked(ns) ==> DelegateInputs(op, ns, ls, i, q).Success?
    ensures DelegateInputs(op, ns, ls, i, q).Success? ==>
      DelegateInputs(op, ns, ls, i, q).value == TouchAll(op, ns, VisitedInputs(ns, ls, i, q))
    decreases i, 0, |ls| - q
  {
    if q == |ls| {
      assert TouchAll(op, ns, {}) == ns;
    } else {
      var a := Visited(ns, ls[q].index);
      DelegateTouches(op, ns, ls[q].index);
      if Delegate(op, ns, ls[q].index).Success? {
        var ms := Delegate(op, ns, ls[q].index).value;
        WiredKept(ns, ms);
        if Linked(ns) {
          LinkedKept(ns, ms);
        }
        DelegateInputsTouch(op, ms, ls, i, q + 1);
        VisitedInputsWiring(ns, ms, ls, i, q + 1);
        TouchAllUnion(op, ns, a, VisitedInputs(ns, ls, i, q + 1));
      }
    }
  }
}
