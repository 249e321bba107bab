/**
 * The layer graph as a mutable object: the passes of `NeuronLayer`,
 * `ActivationLayer`, `NeuronAdder`, `NeuronMultiplier`, `NeuronCombiner`
 * and `RecurrentLayer` as methods that update the arena in place, each
 * proved to do what the corresponding function of module `Network` says.
 * A pass that stops on an error has still changed the layers it reached
 * before it; only the wiring is then guaranteed.
 */
module Nets {
  import opened Wrappers
  import opened Matrices
  import opened Graph
  import opened Activations
  import Dense
  import ActivationLayers
  import Utility
  import Combiners
  import Inputs
  import opened Network
  import opened Dna

  /** One step of the input loop: feeding input `q` succeeded with arena `ms`. */
  lemma FeedInputsNext(k: Kernels, ns: seq<Node>, ms: seq<Node>, ls: seq<Link>, i: nat, q: nat, v: int, os: seq<Mat>)
    requires Wired(ns) && i < |ns| && q < |ls|
    requires forall t | 0 <= t < |ls| :: ls[t].At? && ls[t].index < i
    requires Feed(k, ns, ls[q].index, v) == Success(ms)
    ensures Wired(ms) && ls[q].index < |ms|
    ensures FeedInputs(k, ns, ls, i, q, v, os) == FeedInputs(k, ms, ls, i, q + 1, v, os + [ms[ls[q].index].output])
  {
    WiredKept(ns, ms);
  }

  /** Feeding input `q` failed: so does the loop. */
  lemma FeedInputsStop(k: Kernels, ns: seq<Node>, ls: seq<Link>, i: nat, q: nat, v: int, os: seq<Mat>)
    requires Wired(ns) && i < |ns| && q < |ls|
    requires forall t | 0 <= t < |ls| :: ls[t].At? && ls[t].index < i
    requires Feed(k, ns, ls[q].index, v).Failure?
    ensures FeedInputs(k, ns, ls, i, q, v, os).Failure?
  {
  }

  /** One step of the back-propagation loop: sending input `q` its message succeeded with arena `ms`. */
  lemma BackInputsNext(k: Kernels, ns: seq<Node>, ms: seq<Node>, ls: seq<Link>, i: nat, q: nat, msgs: seq<Mat>)
    requires Wired(ns) && i < |ns| && q < |ls| == |msgs|
    requires forall t | 0 <= t < |ls| :: ls[t].At? && ls[t].index < i
    requires Back(k, ns, ls[q].index, msgs[q]) == Success(ms)
    ensures Wired(ms) && Retrained(ns, ms)
    ensures BackInputs(k, ns, ls, i, q, msgs) == BackInputs(k, ms, ls, i, q + 1, msgs)
  {
    RetrainedWiring(ns, ms);
    WiredKept(ns, ms);
  }

  /** Sending input `q` its message failed: so does the loop. */
  lemma BackInputsStop(k: Kernels, ns: seq<Node>, ls: seq<Link>, i: nat, q: nat, msgs: seq<Mat>)
    requires Wired(ns) && i < |ns| && q < |ls| == |msgs|
    requires forall t | 0 <= t < |ls| :: ls[t].At? && ls[t].index < i
    requires Back(k, ns, ls[q].index, msgs[q]).Failure?
    ensures BackInputs(k, ns, ls, i, q, msgs).Failure?
  {
  }

  /** A fan-in layer's pass is its input loop followed by its own step. */
  lemma FeedFan(k: Kernels, ns: seq<Node>, i: nat, v: int)
    requires Wired(ns) && i < |ns| && Fan(ns[i].kind) && v > ns[i].feedVersion
    ensures Feed(k, ns, i, v) == FanPass(k, ns, i, v)
  {
  }

  /** The loop leaves the fan-in layer itself as it was. */
  lemma FanKeepsSelf(k: Kernels, ns: seq<Node>, i: nat, v: int)
    requires Wired(ns) && i < |ns| && Fan(ns[i].kind)
    ensures var f := FeedInputs(k, ns, ns[i].inputs, i, 0, v, []);
      f.Success? ==> f.value.0[i] == ns[i]
  {
  }

  /** A fan-in layer's pass: its input loop, then its own step. */
  function FanPass(k: Kernels, ns: seq<Node>, i: nat, v: int): Result<seq<Node>>
    requires Wired(ns) && i < |ns| && Fan(ns[i].kind)
  {
    match FeedInputs(k, ns, ns[i].inputs, i, 0, v, [])
    case Failure(e) => Failure(e)
    case Success((ms, os)) => FanStep(ms, i, os, v)
  }

  class Net {
    var nodes: seq<Node>
    const kernels: Kernels

    constructor (k: Kernels, ns: seq<Node>)
      ensures nodes == ns && kernels == k
    {
      nodes := ns;
      kernels := k;
    }

    /** `InputLayer::InputRaw(Data)`: the whole buffer is replaced, bias row included, unchecked. */
    method InputRaw(j: nat, d: Mat)
      requires j < |nodes| && nodes[j].kind.InputLayer?
      modifies this
      ensures nodes == old(nodes)[j := old(nodes)[j].(output := d)]
    {
      nodes := nodes[j := nodes[j].(output := d)];
    }

    /** `InputLayer::Input(Data)`: `1` and the new feature block, or `0` and nothing changed. */
    method Input(j: nat, d: Mat) returns (res: int)
      requires j < |nodes| && nodes[j].kind.InputLayer?
      modifies this
      ensures old(nodes)[j].output.rows != d.rows + 1 ==> res == 0 && nodes == old(nodes)
      ensures old(nodes)[j].output.rows == d.rows + 1 ==>
        res == 1 && |nodes| == |old(nodes)| && nodes[j].kind.InputLayer?
        && nodes == old(nodes)[j := old(nodes)[j].(output := nodes[j].output)]
        && HasShape(nodes[j].output, d.rows + 1, Width(d)) && OutPart(nodes[j].output) == d
      ensures nodes == old(nodes)[j := old(nodes)[j].(output := Inputs.InputData(old(nodes)[j].output, d).1)]
    {
      var r := Inputs.InputData(nodes[j].output, d);
      res := r.0;
      if res == 1 {
        nodes := nodes[j := nodes[j].(output := r.1)];
      }
    }

    /**
     * `FeedForward(Version)` on layer `i`: nothing when the layer is an
     * input or already at `Version`; otherwise the predecessor, or each
     * input, is fed first.
     */
    method FeedForward(i: nat, v: int) returns (ok: bool)
      requires Wired(nodes) && i < |nodes|
      modifies this
      ensures Wired(nodes) && SameWiring(old(nodes), nodes)
      ensures ok <==> Feed(kernels, old(nodes), i, v).Success?
      ensures ok ==> nodes == Feed(kernels, old(nodes), i, v).value
      decreases i, 3
    {
      var nd := nodes[i];
      if v <= nd.feedVersion || nd.kind.InputLayer? {
        return true;
      }
      if Fan(nd.kind) {
        ok := FeedFanIn(i, v);
        return;
      }
      if nd.prev.Null? {
        return false;
      }
      ghost var ns := nodes;
      var p := nd.prev.index;
      ok := FeedForward(p, v);
      if !ok {
        return;
      }
      SameKinds(ns, nodes, i);
      WiredKept(ns, nodes);
      ghost var ms := nodes;
      ok := ChainOwnStep(i, p, v);
      if ok {
        assert SameWiring(ms, nodes);
        SameWiringTrans(ns, ms, nodes);
        WiredKept(ns, nodes);
      }
    }

    /**
     * A chain layer's own part once its predecessor `p` is fed: a dense or
     * an activation layer computes its buffer from the predecessor's output,
     * a recurrent layer copies that output and pushes it into its
     * recurrent input with `InputRaw`.
     */
    method ChainOwnStep(i: nat, p: nat, v: int) returns (ok: bool)
      requires i < |nodes| && p < |nodes| && Chain(nodes[i].kind)
      modifies this
      ensures ok <==> ChainStep(kernels, old(nodes), i, p, v).Success?
      ensures ok ==> nodes == ChainStep(kernels, old(nodes), i, p, v).value
      ensures !ok ==> nodes == old(nodes)
    {
      var inp := nodes[p].output;
      var me := nodes[i];
      match me.kind
      case NeuronLayer(_, _, _, _) =>
        var o := Dense.DenseForward(kernels, me, inp);
        if o.Failure? {
          return false;
        }
        nodes := nodes[i := me.(output := o.value, feedVersion := v)];
        ok := true;
      case ActivationLayer(_) =>
        var o := ActivationLayers.ActivationForward(kernels, me, inp);
        if o.Failure? {
          return false;
        }
        nodes := nodes[i := me.(output := o.value, feedVersion := v)];
        ok := true;
      case RecurrentLayer(ri) =>
        if !(ri.At? && ri.index < |nodes| && nodes[ri.index].kind.InputLayer?) {
          return false;
        }
        nodes := nodes[i := me.(output := inp, feedVersion := v)];
        InputRaw(ri.index, inp);
        ok := true;
    }

    /** One step of the input loop: input `q` is fed and its output read. */
    method FeedOne(ls: seq<Link>, i: nat, q: nat, v: int, ghost os: seq<Mat>) returns (ok: bool, o: Mat)
      requires Wired(nodes) && i < |nodes| && q < |ls|
      requires forall t | 0 <= t < |ls| :: ls[t].At? && ls[t].index < i
      modifies this
      ensures Wired(nodes) && SameWiring(old(nodes), nodes)
      ensures !ok ==> FeedInputs(kernels, old(nodes), ls, i, q, v, os).Failure?
      ensures ok ==> FeedInputs(kernels, old(nodes), ls, i, q, v, os) == FeedInputs(kernels, nodes, ls, i, q + 1, v, os + [o])
      decreases i, 0
    {
      var j := ls[q].index;
      o := Matrix(0, []);
      ok := FeedForward(j, v);
      if !ok {
        FeedInputsStop(kernels, old(nodes), ls, i, q, v, os);
        return;
      }
      FeedInputsNext(kernels, old(nodes), nodes, ls, i, q, v, os);
      o := nodes[j].output;
    }

    /**
     * A fan-in layer: its inputs are fed in order, then the layer combines
     * their outputs, by sum, entrywise product or stacking.
     */
    method FeedFanIn(i: nat, v: int) returns (ok: bool)
      requires Wired(nodes) && i < |nodes| && Fan(nodes[i].kind) && v > nodes[i].feedVersion
      modifies this
      ensures Wired(nodes) && SameWiring(old(nodes), nodes)
      ensures ok <==> Feed(kernels, old(nodes), i, v).Success?
      ensures ok ==> nodes == Feed(kernels, old(nodes), i, v).value
      decreases i, 2
    {
      ghost var ns := nodes;
      FeedFan(kernels, nodes, i, v);
      FanKeepsSelf(kernels, nodes, i, v);
      var nd := nodes[i];
      var os;
      ok, os := FeedInputLoop(nd.inputs, i, v);
      if !ok {
        return;
      }
      ghost var ms := nodes;
      var r;
      if nd.kind.NeuronAdder? {
        r := Utility.AddOutputs(os);
      } else if nd.kind.NeuronMultiplier? {
        r := Utility.MultiplyOutputs(os);
      } else {
        r := Combiners.CombineOutputs(nd.output, os);
      }
      if r.Failure? {
        return false;
      }
      nodes := nodes[i := nd.(output := r.value, feedVersion := v)];
      assert nodes == FanStep(ms, i, os, v).value;
      assert SameWiring(ms, nodes);
      SameWiringTrans(ns, ms, nodes);
      WiredKept(ns, nodes);
    }

    /** The loop over `InputLayers`: each input is fed, then its output read, in order. */
    method FeedInputLoop(ls: seq<Link>, i: nat, v: int) returns (ok: bool, os: seq<Mat>)
      requires Wired(nodes) && i < |nodes|
      requires forall t | 0 <= t < |ls| :: ls[t].At? && ls[t].index < i
      modifies this
      ensures Wired(nodes) && SameWiring(old(nodes), nodes)
      ensures ok <==> FeedInputs(kernels, old(nodes), ls, i, 0, v, []).Success?
      ensures ok ==> FeedInputs(kernels, old(nodes), ls, i, 0, v, []) == Success((nodes, os))
      decreases i, 1
    {
      ghost var ns := nodes;
      os := [];
      var q := 0;
      while q < |ls|
        invariant Wired(nodes) && SameWiring(ns, nodes) && q <= |ls|
        invariant FeedInputs(kernels, ns, ls, i, 0, v, []) == FeedInputs(kernels, nodes, ls, i, q, v, os)
        decreases |ls| - q
      {
        ghost var before := nodes;
        var o;
        ok, o := FeedOne(ls, i, q, v, os);
        if !ok {
          return;
        }
        os := os + [o];
        SameWiringTrans(ns, before, nodes);
        q := q + 1;
      }
      ok := true;
    }

    /**
     * `BackPropagate(Gradient)` on layer `i`: a dense layer sends its
     * message back first and then updates its own buffers from the
     * predecessor's output; the other layers only pass messages on.
     */
    method BackPropagate(i: nat, g: Mat) returns (ok: bool)
      requires Wired(nodes) && i < |nodes|
      modifies this
      ensures Retrained(old(nodes), nodes) && Wired(nodes)
      ensures ok <==> Back(kernels, old(nodes), i, g).Success?
      ensures ok ==> nodes == Back(kernels, old(nodes), i, g).value
      decreases i, 2
    {
      ghost var ns := nodes;
      var nd := nodes[i];
      match nd.kind
      case InputLayer =>
        ok := true;
      case NeuronLayer(_, _, _, _) =>
        var st := Dense.DenseBackward(kernels, nd, g);
        if st.Failure? || nd.prev.Null? {
          return false;
        }
        var p := nd.prev.index;
        ok := BackPropagate(p, st.value.message);
        if !ok {
          return;
        }
        RetrainedWiring(ns, nodes);
        ghost var ms := nodes;
        var me := nodes[i];
        var b := Dense.Update(kernels, me.kind.training, me.kind.hp, me.kind.buf, st.value.grad, nodes[p].output);
        if b.Failure? {
          return false;
        }
        nodes := nodes[i := me.(kind := me.kind.(buf := b.value))];
        assert Retrained(ms, nodes);
        RetrainedTrans(ns, ms, nodes);
        RetrainedWiring(ns, nodes);
        WiredKept(ns, nodes);
      case ActivationLayer(_) =>
        var m := ActivationLayers.ActivationBackward(kernels, nd, g);
        if m.Failure? || nd.prev.Null? {
          return false;
        }
        ok := BackPropagate(nd.prev.index, m.value);
      case RecurrentLayer(_) =>
        if nd.prev.Null? {
          return false;
        }
        ok := BackPropagate(nd.prev.index, g);
      case NeuronAdder =>
        ok := BackInputLoop(nd.inputs, i, seq(|nd.inputs|, _ => g));
      case NeuronMultiplier =>
        var msgs := MultiplierMessages(nodes, nd.inputs, i, g);
        if msgs.Failure? {
          return false;
        }
        ok := BackInputLoop(nd.inputs, i, msgs.value);
      case NeuronCombiner =>
        var msgs := CombinerMessages(nodes, nd.inputs, i, g);
        if msgs.Failure? {
          return false;
        }
        ok := BackInputLoop(nd.inputs, i, msgs.value);
    }

    /** The loop over `InputLayers` of a fan-in layer: input `t` is sent `msgs[t]`, in order. */
    method BackInputLoop(ls: seq<Link>, i: nat, msgs: seq<Mat>) returns (ok: bool)
      requires Wired(nodes) && i < |nodes| && |ls| == |msgs|
      requires forall t | 0 <= t < |ls| :: ls[t].At? && ls[t].index < i
      modifies this
      ensures Retrained(old(nodes), nodes) && Wired(nodes)
      ensures ok <==> BackInputs(kernels, old(nodes), ls, i, 0, msgs).Success?
      ensures ok ==> nodes == BackInputs(kernels, old(nodes), ls, i, 0, msgs).value
      decreases i, 1
    {
      ghost var ns := nodes;
      var q := 0;
      while q < |ls|
        invariant Wired(nodes) && Retrained(ns, nodes) && q <= |ls|
        invariant BackInputs(kernels, ns, ls, i, 0, msgs) == BackInputs(kernels, nodes, ls, i, q, msgs)
        decreases |ls| - q
      {
        ghost var before := nodes;
        ok := BackPropagate(ls[q].index, msgs[q]);
        RetrainedTrans(ns, before, nodes);
        if !ok {
          BackInputsStop(kernels, before, ls, i, q, msgs);
          return;
        }
        BackInputsNext(kernels, before, nodes, ls, i, q, msgs);
        q := q + 1;
      }
      ok := true;
    }

    /**
     * `SetLearnRate(a)` or `ResetMomentum()` on layer `i`: a dense layer
     * changes its own setting and passes the call to its predecessor; the
     * fan-in layers pass it to each input in order.
     */
    method Pass(op: Op, i: nat) returns (ok: bool)
      requires Wired(nodes) && i < |nodes|
      modifies this
      ensures Wired(nodes) && SameWiring(old(nodes), nodes)
      ensures ok <==> Delegate(op, old(nodes), i).Success?
      ensures ok ==> nodes == Delegate(op, old(nodes), i).value
      decreases i, 1
    {
      ghost var ns := nodes;
      var nd := nodes[i];
      if Chain(nd.kind) {
        if nd.prev.Null? {
          return false;
        }
        if nd.kind.NeuronLayer? {
          nodes := nodes[i := Touch(op, nd)];
        }
        assert SameWiring(ns, nodes);
        WiredKept(ns, nodes);
        ghost var ms := nodes;
        ok := Pass(op, nd.prev.index);
        SameWiringTrans(ns, ms, nodes);
      } else if Fan(nd.kind) {
        ok := PassInputs(op, nd.inputs, i);
      } else {
        ok := true;
      }
    }

    /** The pass over `InputLayers`, in order. */
    method PassInputs(op: Op, ls: seq<Link>, i: nat) returns (ok: bool)
      requires Wired(nodes) && i < |nodes|
      requires forall t | 0 <= t < |ls| :: ls[t].At? && ls[t].index < i
      modifies this
      ensures Wired(nodes) && SameWiring(old(nodes), nodes)
      ensures ok <==> DelegateInputs(op, old(nodes), ls, i, 0).Success?
      ensures ok ==> nodes == DelegateInputs(op, old(nodes), ls, i, 0).value
      decreases i, 0
    {
      ghost var ns := nodes;
      var q := 0;
      while q < |ls|
        invariant Wired(nodes) && SameWiring(ns, nodes) && q <= |ls|
        invariant DelegateInputs(op, ns, ls, i, 0) == DelegateInputs(op, nodes, ls, i, q)
        decreases |ls| - q
      {
        ghost var before := nodes;
        DelegateInputsStep(op, nodes, ls, i, q);
        ok := Pass(op, ls[q].index);
        SameWiringTrans(ns, before, nodes);
        if !ok {
          return;
        }
        q := q + 1;
      }
      ok := true;
    }

    /** `NetDNA::GetData`: a vector of `Size` zeros, each listed layer's weights copied in at its offset. */
    method GetData(d: NetDNA) returns (ret: seq<real>)
      requires Matches(nodes, d.layers) && Within(d.layers, d.size)
      ensures ret == Paint(nodes, d.layers, d.size)
      ensures Tiles(d) ==> ret == Snapshot(nodes, d.layers)
    {
      var ls := d.layers;
      ret := seq(d.size, _ => 0.0);
      for k := 0 to |ls|
        invariant Matches(nodes, ls[..k]) && Within(ls[..k], d.size)
        invariant ret == Paint(nodes, ls[..k], d.size)
      {
        var l := ls[k];
        LayoutPrefix(nodes, ls, k + 1, d.size);
        assert ls[..k + 1][..k] == ls[..k];
        ret := ret[..l.offset] + Flatten(nodes[l.layer].kind.buf.weights) + ret[l.offset + l.count..];
      }
      assert ls[..|ls|] == ls;
      if Tiles(d) {
        PaintTiles(nodes, d);
      }
    }

    /** `NetDNA::SetData(Data)`: each listed layer in turn reads its segment of `data` into its weights. */
    method SetData(d: NetDNA, data: seq<real>)
      requires Matches(nodes, d.layers) && Within(d.layers, |data|)
      modifies this
      ensures nodes == Restore(old(nodes), d.layers, data)
    {
      var ls := d.layers;
      ghost var ns := nodes;
      for k := 0 to |ls|
        invariant Matches(ns, ls[..k]) && Within(ls[..k], |data|)
        invariant nodes == Restore(ns, ls[..k], data)
      {
        var l := ls[k];
        LayoutPrefix(ns, ls, k + 1, |data|);
        assert ls[..k + 1][..k] == ls[..k];
        RestoreKeepsShape(ns, ls[..k], data, l.layer);
        SegmentSame(ns, nodes, l, data);
        nodes := nodes[l.layer := WithWeights(nodes[l.layer], Segment(nodes, l, data))];
      }
      assert ls[..|ls|] == ls;
    }
  }
}
