/**
 * `NetContainer` of `PVX_NeuralNets_NetContainer.cpp`: a network given by
 * its last layer that does its own output handling. It keeps a `Version`
 * counter, the `output` of its bound forward pass, and the batching state
 * of its training loop: all the training inputs and targets, a shuffled
 * `TrainOrder` of sample columns, a cursor into it and the current batch
 * `tmpOrder`.
 *
 * `Process`, `Train` and `Error` feed the graph directly, without the bound
 * forward pass, so `Train` and `Error` measure the `output` left by an
 * earlier `Iterate`. `TrainFresh` and `ErrorFresh` are the same calls with
 * the bound forward pass, as `Iterate` does it.
 */
module NetContainers {
  import opened Wrappers
  import opened Matrices
  import opened Graph
  import opened Network
  import opened Nets
  import opened Outputs
  import opened Containers
  import opened Training
  import opened Activations
  import Inputs

  // ---------------------------------------------------------------- DenseLayers

  /** The listed layers have nondecreasing `Id`s. */
  predicate SortedById(ns: seq<Node>, xs: seq<nat>)
    requires forall k | 0 <= k < |xs| :: xs[k] < |ns|
  {
    forall j, k | 0 <= j < k < |xs| :: ns[xs[j]].id <= ns[xs[k]].id
  }

  /** One layer put in its place among layers sorted by `Id`. */
  function InsertById(ns: seq<Node>, ys: seq<nat>, x: nat): (r: seq<nat>)
    requires x < |ns| && (forall k | 0 <= k < |ys| :: ys[k] < |ns|) && SortedById(ns, ys)
    ensures |r| == |ys| + 1 && multiset(r) == multiset(ys) + multiset{x}
    ensures forall k | 0 <= k < |r| :: r[k] < |ns| && (r[k] == x || r[k] in ys)
    ensures SortedById(ns, r)
    decreases |ys|
  {
    if ys == [] || ns[x].id <= ns[ys[0]].id then
      SortedCons(ns, x, ys);
      [x] + ys
    else
      var t := InsertById(ns, ys[1..], x);
      assert ys == [ys[0]] + ys[1..];
      HeadBelow(ns, ys, x, t);
      SortedCons(ns, ys[0], t);
      [ys[0]] + t
  }

  /** A layer whose `Id` is at most every `Id` of a sorted list can go in front of it. */
  lemma SortedCons(ns: seq<Node>, y: nat, t: seq<nat>)
    requires y < |ns| && (forall k | 0 <= k < |t| :: t[k] < |ns|) && SortedById(ns, t)
    requires forall k | 0 <= k < |t| :: ns[y].id <= ns[t[k]].id
    ensures (forall k | 0 <= k < |[y] + t| :: ([y] + t)[k] < |ns|) && SortedById(ns, [y] + t)
  {
    forall j, k | 0 <= j < k < |[y] + t| ensures ns[([y] + t)[j]].id <= ns[([y] + t)[k]].id {
      if j > 0 {
        assert ([y] + t)[j] == t[j - 1];
      }
      assert ([y] + t)[k] == t[k - 1];
    }
  }

  /** The head of a sorted list is at most `x` and every later entry, so at most every entry of the tail with `x` inserted. */
  lemma HeadBelow(ns: seq<Node>, ys: seq<nat>, x: nat, t: seq<nat>)
    requires x < |ns| && |ys| >= 1 && (forall k | 0 <= k < |ys| :: ys[k] < |ns|) && SortedById(ns, ys)
    requires ns[ys[0]].id <= ns[x].id
    requires forall k | 0 <= k < |t| :: t[k] < |ns| && (t[k] == x || t[k] in ys[1..])
    ensures forall k | 0 <= k < |t| :: ns[ys[0]].id <= ns[t[k]].id
  {
    forall k | 0 <= k < |t| ensures ns[ys[0]].id <= ns[t[k]].id {
      if t[k] != x {
        var j :| 0 <= j < |ys[1..]| && ys[1..][j] == t[k];
        assert ys[j + 1] == t[k];
      }
    }
  }

  /**
   * `std::sort(DenseLayers, Id < Id)`: the same layers, by nondecreasing
   * `Id`. The order among equal `Id`s is not specified.
   */
  function SortById(ns: seq<Node>, xs: seq<nat>): (r: seq<nat>)
    requires forall k | 0 <= k < |xs| :: xs[k] < |ns|
    ensures multiset(r) == multiset(xs)
    ensures (forall k | 0 <= k < |r| :: r[k] < |ns|) && SortedById(ns, r)
    decreases |xs|
  {
    if xs == [] then []
    else
      var n := |xs| - 1;
      assert xs == xs[..n] + [xs[n]];
      InsertById(ns, SortById(ns, xs[..n]), xs[n])
  }

  /** The loop over `Gather()` that keeps input layers in `Inputs` and dense layers in `DenseLayers`. */
  method Partition(ns: seq<Node>, all: seq<nat>) returns (ins: seq<nat>, dense: seq<nat>)
    requires Increasing(all) && forall k | 0 <= k < |all| :: all[k] < |ns|
    ensures InputsAt(ns, ins) && forall k | 0 <= k < |dense| :: dense[k] < |ns|
    ensures forall x :: x in ins <==> x in all && ns[x].kind.InputLayer?
    ensures forall x :: x in dense <==> x in all && ns[x].kind.NeuronLayer?
  {
    ins := [];
    dense := [];
    var i := 0;
    while i < |all|
      invariant 0 <= i <= |all| && InputsAt(ns, ins) && forall k | 0 <= k < |dense| :: dense[k] < |ns|
      invariant forall x :: x in ins <==> x in all[..i] && ns[x].kind.InputLayer?
      invariant forall x :: x in dense <==> x in all[..i] && ns[x].kind.NeuronLayer?
    {
      assert all[..i + 1] == all[..i] + [all[i]];
      if ns[all[i]].kind.InputLayer? {
        forall j | 0 <= j < |ins| ensures ins[j] < all[i] {
          BelowPrefix(all, i, ins[j]);
        }
        ins := ins + [all[i]];
      } else if ns[all[i]].kind.NeuronLayer? {
        dense := dense + [all[i]];
      }
      i := i + 1;
    }
    assert all[..|all|] == all;
  }

  // ---------------------------------------------------------------- Process, Train, Error

  /**
   * `Process`: the matrices presented to the input layers, then
   * `LastLayer->FeedForward(v)`; the graph afterwards.
   */
  function Fed(k: Kernels, ns: seq<Node>, ps: seq<nat>, last: nat, ds: seq<Mat>, raw: bool, v: int): (r: Result<seq<Node>>)
    requires Wired(ns) && last < |ns| && InputsAt(ns, ps)
    ensures r.Success? ==> |ds| <= |ps| && SameWiring(ns, r.value) && Wired(r.value)
  {
    match Presented(ns, ps, ds, raw)
    case Failure(e) => Failure(e)
    case Success(ms) =>
      PresentedWiring(ns, ps, ds, raw);
      var f := Feed(k, ms, last, v);
      if f.Success? then
        SameWiringTrans(ns, ms, f.value);
        WiredKept(ns, f.value);
        f
      else f
  }

  /** Once the inputs are set, `Process` is the graph fed from the last layer. */
  lemma FedBy(k: Kernels, ns: seq<Node>, ps: seq<nat>, last: nat, ds: seq<Mat>, raw: bool, v: int, ms: seq<Node>)
    requires Wired(ns) && last < |ns| && InputsAt(ns, ps) && Presented(ns, ps, ds, raw) == Success(ms)
    ensures Wired(ms) && last < |ms| && InputsAt(ms, ps)
    ensures Fed(k, ns, ps, last, ds, raw, v) == Feed(k, ms, last, v)
  {
    PresentedWiring(ns, ps, ds, raw);
  }

  /**
   * The container's `Process` returns the whole buffer of the last layer,
   * bias row included; the output layer's forward pass over the same graph
   * keeps the feature rows and applies the bound strategy to them.
   */
  lemma ProcessedFeatures(k: Kernels, ok: OutKernels, t: int, ns: seq<Node>, ps: seq<nat>, last: nat, ds: seq<Mat>, raw: bool, v: int)
    requires Wired(ns) && last < |ns| && InputsAt(ns, ps) && Bind(t).Some?
    ensures var f := Fed(k, ns, ps, last, ds, raw, v);
      Processed(k, ok, t, ns, ps, last, ds, raw, v).Success? <==> f.Success? && f.value[last].output.rows >= 1
    ensures var f := Fed(k, ns, ps, last, ds, raw, v);
      Processed(k, ok, t, ns, ps, last, ds, raw, v).Success? ==>
        Processed(k, ok, t, ns, ps, last, ds, raw, v).value == (f.value, Squash(ok, Bind(t).value.forward, OutPart(f.value[last].output)))
  {
    var p := Presented(ns, ps, ds, raw);
    if p.Success? {
      ProcessedBy(k, ok, t, ns, ps, last, ds, raw, v, p.value);
      FedBy(k, ns, ps, last, ds, raw, v, p.value);
    }
  }

  /**
   * `TrainFnc(target)`: the bound error of `target` against `out`, then the
   * graph after back-propagating `target - out` from the last layer.
   */
  function Stepped(k: Kernels, ok: OutKernels, t: int, ns: seq<Node>, last: nat, target: Mat, out: Mat): (r: Result<(seq<Node>, real)>)
    requires Wired(ns) && last < |ns|
    ensures r.Success? ==> ErrorOf(ok, Bind(t), target, out) == Success(r.value.1) && Retrained(ns, r.value.0)
  {
    match ErrorOf(ok, Bind(t), target, out)
    case Failure(e) => Failure(e)
    case Success(e) =>
      match Back(k, ns, last, Sub(target, out))
      case Failure(e') => Failure(e')
      case Success(b) => Success((b, e))
  }

  /** Training on a freshly processed graph is the training step against the fresh output. */
  lemma TrainedSteps(k: Kernels, ok: OutKernels, t: int, ns: seq<Node>, ps: seq<nat>, last: nat, ds: seq<Mat>, raw: bool, v: int, target: Mat)
    requires Wired(ns) && last < |ns| && InputsAt(ns, ps) && Processed(k, ok, t, ns, ps, last, ds, raw, v).Success?
    ensures var p := Processed(k, ok, t, ns, ps, last, ds, raw, v).value;
      last < |p.0| && Trained(k, ok, t, ns, ps, last, ds, raw, v, target) == Stepped(k, ok, t, p.0, last, target, p.1)
  {
  }

  /**
   * `Train` as written: `Process` without the bound forward pass, then the
   * training step against `out`, the `output` stored before the call.
   */
  function TrainedStale(k: Kernels, ok: OutKernels, t: int, ns: seq<Node>, ps: seq<nat>, last: nat, ds: seq<Mat>, raw: bool, v: int, target: Mat, out: Mat)
      : (r: Result<(seq<Node>, real)>)
    requires Wired(ns) && last < |ns| && InputsAt(ns, ps)
    ensures r.Success? ==> Fed(k, ns, ps, last, ds, raw, v).Success? && ErrorOf(ok, Bind(t), target, out) == Success(r.value.1)
    ensures r.Success? ==> Retrained(Fed(k, ns, ps, last, ds, raw, v).value, r.value.0)
  {
    match Fed(k, ns, ps, last, ds, raw, v)
    case Failure(e) => Failure(e)
    case Success(ms) => Stepped(k, ok, t, ms, last, target, out)
  }

  /** `Error` as written: `Process` without the bound forward pass, then the error against `out`. */
  function ErroredStale(k: Kernels, ok: OutKernels, t: int, ns: seq<Node>, ps: seq<nat>, last: nat, ds: seq<Mat>, raw: bool, v: int, target: Mat, out: Mat)
      : (r: Result<real>)
    requires Wired(ns) && last < |ns| && InputsAt(ns, ps)
    ensures r.Success? <==> Fed(k, ns, ps, last, ds, raw, v).Success? && ErrorOf(ok, Bind(t), target, out).Success?
    ensures r.Success? ==> r == ErrorOf(ok, Bind(t), target, out)
  {
    match Fed(k, ns, ps, last, ds, raw, v)
    case Failure(e) => Failure(e)
    case Success(_) => ErrorOf(ok, Bind(t), target, out)
  }

  /** No error can be measured against an output with no columns, whatever the output type. */
  lemma NoErrorOfEmpty(ok: OutKernels, t: int, target: Mat, out: Mat)
    requires Width(out) == 0
    ensures ErrorOf(ok, Bind(t), target, out).Failure?
  {
    match Bind(t)
    case None =>
    case Some(s) =>
      if s.loss == MeanSquare {
        assert !(SameShape(target, out) && Width(out) > 0);
      } else {
        assert !(SameShape(target, out) && Width(out) > 0);
      }
  }

  /**
   * As written, `Train` and `Error` on a container that has not run its
   * bound forward pass yet (its `output` is still empty) fail for every
   * input and target: they never look at the graph they just fed. (With a
   * 0x0 target the source's error is NaN rather than a failure, and it goes
   * on to back-propagate; the model stops there.)
   */
  lemma FreshTrainFails(k: Kernels, ok: OutKernels, t: int, ns: seq<Node>, ps: seq<nat>, last: nat, ds: seq<Mat>, raw: bool, v: int, target: Mat)
    requires Wired(ns) && last < |ns| && InputsAt(ns, ps)
    ensures TrainedStale(k, ok, t, ns, ps, last, ds, raw, v, target, Matrix(0, [])).Failure?
    ensures ErroredStale(k, ok, t, ns, ps, last, ds, raw, v, target, Matrix(0, [])).Failure?
  {
    NoErrorOfEmpty(ok, t, target, Matrix(0, []));
  }

  /** As written, the error `Train` reports is the same whatever inputs are presented. */
  lemma StaleTrainIgnoresInputs(k: Kernels, ok: OutKernels, t: int, ns: seq<Node>, ps: seq<nat>, last: nat,
                                ds1: seq<Mat>, ds2: seq<Mat>, raw: bool, v: int, target: Mat, out: Mat)
    requires Wired(ns) && last < |ns| && InputsAt(ns, ps)
    requires TrainedStale(k, ok, t, ns, ps, last, ds1, raw, v, target, out).Success?
    requires Fed(k, ns, ps, last, ds2, raw, v).Success?
    ensures TrainedStale(k, ok, t, ns, ps, last, ds2, raw, v, target, out).Success?
      <==> Back(k, Fed(k, ns, ps, last, ds2, raw, v).value, last, Sub(target, out)).Success?
    ensures TrainedStale(k, ok, t, ns, ps, last, ds2, raw, v, target, out).Success? ==>
      TrainedStale(k, ok, t, ns, ps, last, ds2, raw, v, target, out).value.1 == TrainedStale(k, ok, t, ns, ps, last, ds1, raw, v, target, out).value.1
  {
    var ms := Fed(k, ns, ps, last, ds2, raw, v).value;
    assert last < |ms|;
    assert TrainedStale(k, ok, t, ns, ps, last, ds2, raw, v, target, out) == Stepped(k, ok, t, ms, last, target, out);
  }

  // ---------------------------------------------------------------- Iterate

  /** The `n` entries of `order` from `cur` on, taken one at a time as `Iterate`'s loops do. */
  function Window(order: seq<nat>, cur: nat, n: nat): (w: seq<nat>)
    requires cur + n <= |order|
    ensures |w| == n
    decreases n
  {
    if n == 0 then [] else Window(order, cur, n - 1) + [order[cur + n - 1]]
  }

  /** A window is the slice of the order it reads. */
  lemma {:induction false} WindowIsSlice(order: seq<nat>, cur: nat, n: nat)
    requires cur + n <= |order|
    ensures Window(order, cur, n) == order[cur..cur + n]
    decreases n
  {
    if n > 0 {
      WindowIsSlice(order, cur, n - 1);
      assert order[cur..cur + n] == order[cur..cur + n - 1] + [order[cur + n - 1]];
    }
  }

  /**
   * `Iterate`'s refill of a batch of `n` entries, fewer than the order has:
   * the entries from the cursor on; when the order runs out before the
   * batch is full, the rest from the start of the reshuffled order.
   * Returns the batch, the order and the cursor.
   */
  function Refill(order: seq<nat>, cur: nat, n: nat, shuffled: seq<nat>): (r: (seq<nat>, seq<nat>, nat))
    requires cur <= |order| && n < |order| && |shuffled| == |order|
    ensures |r.0| == n && r.2 <= |r.1| && |r.1| == |order|
    ensures n <= |order| - cur ==> r.1 == order && r.2 == cur + n
    ensures n > |order| - cur ==> r.1 == shuffled && r.2 == n - (|order| - cur)
  {
    if n <= |order| - cur then (Window(order, cur, n), order, cur + n)
    else (Window(order, cur, |order| - cur) + Window(shuffled, 0, n - (|order| - cur)), shuffled, n - (|order| - cur))
  }

  /** The batch is the rest of the order from the cursor, then the start of the reshuffled order. */
  lemma RefillSlices(order: seq<nat>, cur: nat, n: nat, shuffled: seq<nat>)
    requires cur <= |order| && n < |order| && |shuffled| == |order|
    ensures n <= |order| - cur ==> Refill(order, cur, n, shuffled).0 == order[cur..cur + n]
    ensures n > |order| - cur ==> Refill(order, cur, n, shuffled).0 == order[cur..] + shuffled[..n - (|order| - cur)]
  {
    if n <= |order| - cur {
      WindowIsSlice(order, cur, n);
    } else {
      WindowIsSlice(order, cur, |order| - cur);
      WindowIsSlice(shuffled, 0, n - (|order| - cur));
    }
  }

  /** Every entry of a refilled batch names a sample of the order it leaves behind, which is still a permutation. */
  lemma RefillEntries(order: seq<nat>, cur: nat, n: nat, shuffled: seq<nat>)
    requires cur <= |order| && n < |order| && |shuffled| == |order|
    requires IsPermutation(order) && multiset(shuffled) == multiset(order)
    ensures var r := Refill(order, cur, n, shuffled);
      IsPermutation(r.1) && forall i | 0 <= i < n :: r.0[i] in r.1 && r.0[i] < |r.1|
  {
    var r := Refill(order, cur, n, shuffled);
    RefillSlices(order, cur, n, shuffled);
    assert IsPermutation(r.1);
    forall i | 0 <= i < n ensures r.0[i] in r.1 && r.0[i] < |r.1| {
      if n <= |order| - cur {
        assert r.0[i] == order[cur + i];
      } else if i < |order| - cur {
        assert r.0[i] == order[cur + i];
        assert r.0[i] in multiset(order);
        assert r.0[i] in multiset(shuffled);
      } else {
        assert r.0[i] == shuffled[i - (|order| - cur)];
      }
      PermutationBelow(r.1, r.0[i]);
    }
  }

  /** Across the wrap a batch may name the same sample twice. */
  lemma RefillCanRepeat()
    ensures Refill([0, 1, 2], 2, 2, [2, 0, 1]) == ([2, 2], [2, 0, 1], 1)
  {
    RefillSlices([0, 1, 2], 2, 2, [2, 0, 1]);
    assert [0, 1, 2][2..] == [2];
    assert [2, 0, 1][..1] == [2];
    assert [2] + [2] == [2, 2];
  }

  /** `Reorder2(m, tmpOrder)` for a batch, or all of `m` when training on the full data. */
  function BatchOf(m: Mat, b: Option<seq<nat>>): (r: Result<Mat>)
    ensures b.None? ==> r == Success(m)
    ensures b.Some? ==> r == Reordered(m, b.value, |b.value|)
  {
    match b
    case None => Success(m)
    case Some(o) => Reordered(m, o, |o|)
  }

  /** The batch of every input layer's data, input `i` from `AllInputData[i]`. */
  function BatchInputs(data: seq<Mat>, n: nat, b: Option<seq<nat>>): (r: Result<seq<Mat>>)
    ensures r.Success? <==> n <= |data| && forall i | 0 <= i < n :: BatchOf(data[i], b).Success?
    ensures r.Success? ==> |r.value| == n
  {
    if n <= |data| && forall i | 0 <= i < n :: BatchOf(data[i], b).Success? then
      Success(seq(n, i requires 0 <= i < n => BatchOf(data[i], b).value))
    else Failure(BadIndex)
  }

  /** Without a batch, every input layer gets its whole data. */
  lemma FullBatch(data: seq<Mat>, n: nat)
    requires n <= |data|
    ensures BatchInputs(data, n, None) == Success(data[..n])
  {
    assert forall i | 0 <= i < n :: BatchOf(data[i], None) == Success(data[i]);
    assert BatchInputs(data, n, None).value == data[..n];
  }

  /**
   * `Iterate` after the batch is chosen: the batch presented raw to the
   * input layers, the bound forward pass, and the training step against
   * the batch of the targets.
   */
  function Iterated(k: Kernels, ok: OutKernels, t: int, ns: seq<Node>, ps: seq<nat>, last: nat,
                    inData: seq<Mat>, trainData: Mat, b: Option<seq<nat>>, v: int): (r: Result<(seq<Node>, real)>)
    requires Wired(ns) && last < |ns| && InputsAt(ns, ps)
  {
    match BatchInputs(inData, |ps|, b)
    case Failure(e) => Failure(e)
    case Success(xs) =>
      match BatchOf(trainData, b)
      case Failure(e) => Failure(e)
      case Success(y) => Trained(k, ok, t, ns, ps, last, xs, true, v, y)
  }

  /** With the batch gathered, `Iterate` is `Train` on it. */
  lemma IteratedBy(k: Kernels, ok: OutKernels, t: int, ns: seq<Node>, ps: seq<nat>, last: nat,
                   inData: seq<Mat>, trainData: Mat, b: Option<seq<nat>>, v: int, xs: seq<Mat>, y: Mat)
    requires Wired(ns) && last < |ns| && InputsAt(ns, ps)
    requires BatchInputs(inData, |ps|, b) == Success(xs) && BatchOf(trainData, b) == Success(y)
    ensures Iterated(k, ok, t, ns, ps, last, inData, trainData, b, v) == Trained(k, ok, t, ns, ps, last, xs, true, v, y)
  {
  }

  /** Every input buffer and the targets have one column per entry of the order. */
  predicate AlignedSet(inData: seq<Mat>, trainData: Mat, order: seq<nat>) {
    Width(trainData) == |order| && Aligned(inData, order)
  }

  /**
   * With data aligned with a permutation order and a buffer for every input
   * layer, a batch drawn from the order never reads outside the data, nor
   * does training on the full data: one `Iterate` is one `Train` on the
   * gathered batch.
   */
  lemma BatchesFit(k: Kernels, ok: OutKernels, t: int, ns: seq<Node>, ps: seq<nat>, last: nat,
                   inData: seq<Mat>, trainData: Mat, order: seq<nat>, b: Option<seq<nat>>, v: int)
    requires Wired(ns) && last < |ns| && InputsAt(ns, ps)
    requires IsPermutation(order) && AlignedSet(inData, trainData, order) && |ps| <= |inData|
    requires b.Some? ==> forall i | 0 <= i < |b.value| :: b.value[i] in order
    ensures BatchInputs(inData, |ps|, b).Success? && BatchOf(trainData, b).Success?
    ensures Iterated(k, ok, t, ns, ps, last, inData, trainData, b, v)
      == Trained(k, ok, t, ns, ps, last, BatchInputs(inData, |ps|, b).value, true, v, BatchOf(trainData, b).value)
  {
    if b.Some? {
      var o := b.value;
      forall m: Mat | Width(m) == |order| ensures Reordered(m, o, |o|).Success? {
        forall i | 0 <= i < |o| ensures o[i] < Width(m) {
          PermutationBelow(order, o[i]);
        }
      }
      assert forall i | 0 <= i < |ps| :: Width(inData[i]) == |order|;
    }
  }

  // ---------------------------------------------------------------- AddTrainData

  /**
   * `AddTrainDataRaw(inp, outp)` on the data: the first call takes `inp`
   * and `outp` as they are; later ones append `inp[i]`'s columns to input
   * `i` and `outp`'s to the targets, whose row counts must agree.
   */
  function Added(inData: seq<Mat>, trainData: Mat, inp: seq<Mat>, outp: Mat): (r: Result<(seq<Mat>, Mat)>)
    ensures inData == [] ==> r == Success((inp, outp))
    ensures inData != [] ==> (r.Success? <==> Appended(inData, inp).Success? && Beside(trainData, outp).Success?)
    ensures inData != [] && r.Success? ==> r.value == (Appended(inData, inp).value, Beside(trainData, outp).value)
  {
    if inData == [] then Success((inp, outp))
    else
      match Appended(inData, inp)
      case Failure(e) => Failure(e)
      case Success(d) =>
        match Beside(trainData, outp)
        case Failure(e) => Failure(e)
        case Success(y) => Success((d, y))
  }

  /** `Inputs[i]->MakeRawInput(inp[i])` for every matrix: a bias row of ones below each. */
  function RawOf(inp: seq<Mat>): (r: seq<Mat>)
    ensures |r| == |inp| && forall i | 0 <= i < |inp| :: r[i] == Inputs.MakeRawInput(inp[i]) && Width(r[i]) == Width(inp[i])
  {
    seq(|inp|, i requires 0 <= i < |inp| => Inputs.MakeRawInput(inp[i]))
  }

  /**
   * Data aligned with the order stays aligned with the order extended by
   * the new samples, when every new input has as many columns as the new
   * targets (and a first call starts from an empty order).
   */
  lemma AddedAligned(inData: seq<Mat>, trainData: Mat, order: seq<nat>, inp: seq<Mat>, outp: Mat)
    requires Added(inData, trainData, inp, outp).Success?
    requires forall i | 0 <= i < |inp| :: Width(inp[i]) == Width(outp)
    requires inData == [] ==> order == []
    requires inData != [] ==> AlignedSet(inData, trainData, order) && |inp| == |inData|
    ensures AlignedSet(Added(inData, trainData, inp, outp).value.0, Added(inData, trainData, inp, outp).value.1, Extended(order, Width(outp)))
  {
    if inData != [] {
      AppendedAligned(inData, order, inp, Width(outp));
    }
  }

  /** The loop of `ForEach2` over the new inputs, on a copy of the input buffers. */
  method Concatenate(inData: seq<Mat>, items: seq<Mat>) returns (r: Result<seq<Mat>>)
    ensures r == Appended(inData, items)
  {
    var data := inData;
    var i := 0;
    while i < |items|
      invariant 0 <= i <= |items| && i <= |inData| && |data| == |inData|
      invariant forall j | 0 <= j < i :: inData[j].rows == items[j].rows
      invariant forall j | 0 <= j < |data| :: data[j] == if j < i then Beside(inData[j], items[j]).value else inData[j]
    {
      if i >= |data| {
        return Failure(BadShape);
      }
      var t := Beside(data[i], items[i]);
      if t.Failure? {
        return Failure(BadShape);
      }
      data := data[i := t.value];
      i := i + 1;
    }
    assert data == Appended(inData, items).value;
    r := Success(data);
  }

  /** The batch of each input's data, as the loop over `Inputs` gathers it. */
  method GatherBatch(data: seq<Mat>, n: nat, b: Option<seq<nat>>) returns (r: Result<seq<Mat>>)
    ensures r == BatchInputs(data, n, b)
  {
    var xs: seq<Mat> := [];
    var i := 0;
    while i < n
      invariant 0 <= i <= n && i <= |data| && |xs| == i
      invariant forall j | 0 <= j < i :: BatchOf(data[j], b).Success? && xs[j] == BatchOf(data[j], b).value
    {
      if i >= |data| {
        return Failure(BadIndex);
      }
      var x: Result<Mat>;
      if b.None? {
        x := Success(data[i]);
      } else {
        x := Reorder(data[i], b.value, |b.value|);
      }
      if x.Failure? {
        return Failure(BadIndex);
      }
      xs := xs + [x.value];
      i := i + 1;
    }
    assert xs == BatchInputs(data, n, b).value;
    r := Success(xs);
  }

  /** `SIZE_MAX` as Eigen's signed `Index`: `-1`. */
  function AsIndex(n: nat): (i: int)
    ensures n < 0x8000_0000_0000_0000 ==> i == n
    ensures n == SIZE_MAX ==> i == -1
  {
    if n >= 0x8000_0000_0000_0000 then n - 0x1_0000_0000_0000_0000 else n
  }

  // ---------------------------------------------------------------- passes over the graph

  /** The inputs set and the graph fed from the last layer: the graph half of `Process`. */
  method FeedNet(net: Net, ps: seq<nat>, last: nat, ds: seq<Mat>, raw: bool, v: int) returns (ok: bool)
    requires Wired(net.nodes) && last < |net.nodes| && InputsAt(net.nodes, ps)
    modifies net
    ensures Wired(net.nodes) && last < |net.nodes| && InputsAt(net.nodes, ps)
    ensures var f := Fed(net.kernels, old(net.nodes), ps, last, ds, raw, v);
      (ok <==> f.Success?) && (ok ==> net.nodes == f.value)
  {
    ok := PresentAll(net, ps, ds, raw);
    if !ok {
      return;
    }
    assert ds[..|ds|] == ds;
    FedBy(net.kernels, old(net.nodes), ps, last, ds, raw, v, net.nodes);
    ghost var ms := net.nodes;
    ok := net.FeedForward(last, v);
    InputsKept(ms, net.nodes, ps);
  }

  /** The bound `FeedForward` on the graph: fed from the last layer, the output squashed from its feature rows. */
  method ForwardNet(net: Net, ok: OutKernels, t: int, ps: seq<nat>, last: nat, v: int) returns (res: bool, out: Mat)
    requires Wired(net.nodes) && last < |net.nodes| && InputsAt(net.nodes, ps) && Bind(t).Some?
    modifies net
    ensures Wired(net.nodes) && last < |net.nodes| && InputsAt(net.nodes, ps)
    ensures var f := Containers.Forward(net.kernels, ok, t, old(net.nodes), last, v);
      (res <==> f.Success?) && (res ==> net.nodes == f.value.0 && out == f.value.1)
  {
    ghost var ns := net.nodes;
    res := net.FeedForward(last, v);
    InputsKept(ns, net.nodes, ps);
    out := Matrix(0, []);
    if !res {
      return;
    }
    if net.nodes[last].output.rows >= 1 {
      out := Squash(ok, Bind(t).value.forward, OutPart(net.nodes[last].output));
    } else {
      res := false;
    }
  }

  /** The inputs set, then the bound `FeedForward`: the graph half of the fresh `Train` and `Error`. */
  method ProcessNet(net: Net, ok: OutKernels, t: int, ps: seq<nat>, last: nat, ds: seq<Mat>, raw: bool, v: int) returns (res: bool, out: Mat)
    requires Wired(net.nodes) && last < |net.nodes| && InputsAt(net.nodes, ps) && Bind(t).Some?
    modifies net
    ensures Wired(net.nodes) && last < |net.nodes| && InputsAt(net.nodes, ps)
    ensures var p := Processed(net.kernels, ok, t, old(net.nodes), ps, last, ds, raw, v);
      (res <==> p.Success?) && (res ==> net.nodes == p.value.0 && out == p.value.1)
  {
    out := Matrix(0, []);
    res := PresentAll(net, ps, ds, raw);
    if !res {
      return;
    }
    assert ds[..|ds|] == ds;
    ProcessedBy(net.kernels, ok, t, old(net.nodes), ps, last, ds, raw, v, net.nodes);
    res, out := ForwardNet(net, ok, t, ps, last, v);
  }

  /** The graph half of `TrainFnc(target)`: the bound error against `out`, then `target - out` back-propagated from the last layer. */
  method StepNet(net: Net, ok: OutKernels, t: int, ps: seq<nat>, last: nat, target: Mat, out: Mat) returns (r: Result<real>)
    requires Wired(net.nodes) && last < |net.nodes| && InputsAt(net.nodes, ps)
    modifies net
    ensures Wired(net.nodes) && last < |net.nodes| && InputsAt(net.nodes, ps) && Retrained(old(net.nodes), net.nodes)
    ensures var s := Stepped(net.kernels, ok, t, old(net.nodes), last, target, out);
      (r.Success? <==> s.Success?) && (r.Success? ==> r.value == s.value.1 && net.nodes == s.value.0)
  {
    var e := ErrorOf(ok, Bind(t), target, out);
    if e.Failure? {
      return Failure(e.error);
    }
    ghost var ns := net.nodes;
    var done := net.BackPropagate(last, Sub(target, out));
    RetrainedWiring(ns, net.nodes);
    InputsKept(ns, net.nodes, ps);
    if !done {
      return Failure(BadShape);
    }
    r := Success(e.value);
  }

  /** The inputs set, the bound `FeedForward`, then `TrainFnc(target)` against the fresh output: the graph half of `Train` as `Iterate` does it. */
  method TrainNet(net: Net, ok: OutKernels, t: int, ps: seq<nat>, last: nat, ds: seq<Mat>, raw: bool, v: int, target: Mat)
      returns (r: Result<real>, out: Mat)
    requires Wired(net.nodes) && last < |net.nodes| && InputsAt(net.nodes, ps) && Bind(t).Some?
    modifies net
    ensures Wired(net.nodes) && last < |net.nodes| && InputsAt(net.nodes, ps)
    ensures var p := Trained(net.kernels, ok, t, old(net.nodes), ps, last, ds, raw, v, target);
      (r.Success? <==> p.Success?) && (r.Success? ==> r.value == p.value.1 && net.nodes == p.value.0)
    ensures r.Success? ==> out == Processed(net.kernels, ok, t, old(net.nodes), ps, last, ds, raw, v).value.1
  {
    var res;
    res, out := ProcessNet(net, ok, t, ps, last, ds, raw, v);
    if !res {
      return Failure(BadIndex), out;
    }
    TrainedSteps(net.kernels, ok, t, old(net.nodes), ps, last, ds, raw, v, target);
    r := StepNet(net, ok, t, ps, last, target, out);
  }

  /** The batch gathered from the data, then `TrainNet` on it raw: the graph half of `Iterate`. */
  method IterateNet(net: Net, ok: OutKernels, t: int, ps: seq<nat>, last: nat, inData: seq<Mat>, trainData: Mat, b: Option<seq<nat>>, v: int)
      returns (r: Result<real>, out: Mat)
    requires Wired(net.nodes) && last < |net.nodes| && InputsAt(net.nodes, ps) && Bind(t).Some?
    modifies net
    ensures Wired(net.nodes) && last < |net.nodes| && InputsAt(net.nodes, ps)
    ensures var p := Iterated(net.kernels, ok, t, old(net.nodes), ps, last, inData, trainData, b, v);
      (r.Success? <==> p.Success?) && (r.Success? ==> r.value == p.value.1 && net.nodes == p.value.0)
    ensures r.Success? ==> BatchInputs(inData, |ps|, b).Success?
    ensures r.Success? ==> out == Processed(net.kernels, ok, t, old(net.nodes), ps, last, BatchInputs(inData, |ps|, b).value, true, v).value.1
  {
    out := Matrix(0, []);
    var xs := GatherBatch(inData, |ps|, b);
    if xs.Failure? {
      return Failure(xs.error), out;
    }
    var y: Result<Mat>;
    if b.None? {
      y := Success(trainData);
    } else {
      y := Reorder(trainData, b.value, |b.value|);
    }
    if y.Failure? {
      return Failure(y.error), out;
    }
    IteratedBy(net.kernels, ok, t, net.nodes, ps, last, inData, trainData, b, v, xs.value, y.value);
    r, out := TrainNet(net, ok, t, ps, last, xs.value, true, v, y.value);
  }

  /**
   * The two loops of `Iterate` that fill the batch `tmp` from `order` at
   * the cursor `cur`, going over to the reshuffled order and starting over
   * when it runs out. Returns the batch, the order and the cursor.
   */
  method NextBatch(order: seq<nat>, cur: nat, tmp: seq<nat>, shuffled: seq<nat>) returns (batch: seq<nat>, order': seq<nat>, cur': nat)
    requires cur <= |order| && |tmp| < |order| && |shuffled| == |order|
    ensures (batch, order', cur') == Refill(order, cur, |tmp|, shuffled)
  {
    batch, order', cur' := tmp, order, cur;
    var n := |tmp|;
    var i := 0;
    while i < n && cur' < |order'|
      invariant 0 <= i <= n && cur' == cur + i <= |order'| && |batch| == n && order' == order
      invariant batch[..i] == Window(order, cur, i)
    {
      assert batch[i := order'[cur']][..i + 1] == batch[..i] + [order[cur + i]];
      batch := batch[i := order'[cur']];
      i := i + 1;
      cur' := cur' + 1;
    }
    ghost var k := i;
    if i < n {
      order' := shuffled;
      cur' := 0;
      while i < n && cur' < |order'|
        invariant k <= i <= n && cur' == i - k && |batch| == n && order' == shuffled
        invariant batch[..i] == Window(order, cur, k) + Window(shuffled, 0, i - k)
      {
        assert batch[i := order'[cur']][..i + 1] == batch[..i] + [shuffled[i - k]];
        batch := batch[i := order'[cur']];
        i := i + 1;
        cur' := cur' + 1;
      }
    }
    assert batch == batch[..n];
  }

  /**
   * `Iterate` on the graph and the batching state given as values: the next
   * batch when the batch is smaller than the order (the full data
   * otherwise), then `IterateNet` on it. Returns the batching state after.
   * The step's result is stated for the value `p` of its specification, so
   * that a caller meets `Iterated` only where it asks about it.
   */
  method IterateOn(net: Net, ok: OutKernels, t: int, ps: seq<nat>, last: nat, inData: seq<Mat>, trainData: Mat,
                   tmp: seq<nat>, order: seq<nat>, cur: nat, shuffled: seq<nat>, v: int)
      returns (r: Result<real>, out: Mat, tmp': seq<nat>, order': seq<nat>, cur': nat)
    requires Wired(net.nodes) && last < |net.nodes| && InputsAt(net.nodes, ps)
    requires cur <= |order| && |shuffled| == |order|
    modifies net
    ensures Wired(net.nodes) && last < |net.nodes| && InputsAt(net.nodes, ps)
    ensures |tmp| < |order| ==> (tmp', order', cur') == Refill(order, cur, |tmp|, shuffled)
    ensures |tmp| >= |order| ==> tmp' == tmp && order' == order && cur' == cur
    ensures IsPermutation(order) && multiset(shuffled) == multiset(order) ==> IsPermutation(order')
    ensures forall p | p == Iterated(net.kernels, ok, t, old(net.nodes), ps, last, inData, trainData,
                                     if |tmp| < |order| then Some(tmp') else None, v) :: Reports(r, p, net.nodes)
    ensures r.Success? ==> Bind(t).Some?
  {
    tmp', order', cur' := tmp, order, cur;
    var b: Option<seq<nat>> := None;
    if |tmp| < |order| {
      if IsPermutation(order) && multiset(shuffled) == multiset(order) {
        RefillEntries(order, cur, |tmp|, shuffled);
      }
      tmp', order', cur' := NextBatch(order, cur, tmp, shuffled);
      b := Some(tmp');
    }
    out := Matrix(0, []);
    if Bind(t).None? {
      return Failure(Unbound), out, tmp', order', cur';
    }
    r, out := IterateNet(net, ok, t, ps, last, inData, trainData, b, v);
  }

  /** A step's reported error and the graph it leaves are those of its specification `p`; it fails exactly when `p` does. */
  predicate Reports(r: Result<real>, p: Result<(seq<Node>, real)>, ns: seq<Node>) {
    (r.Success? <==> p.Success?) && (r.Success? ==> r.value == p.value.1 && ns == p.value.0)
  }

  // ---------------------------------------------------------------- the class

  class NetContainer {
    const net: Net
    /** `LastLayer`, as its position in the arena. */
    const last: nat
    /** `int(Type)`. */
    const kind: int
    const outKernels: OutKernels
    /** `Inputs`, as arena positions. */
    const inputs: seq<nat>
    /** `DenseLayers`, as arena positions. */
    const denseLayers: seq<nat>
    var output: Mat
    var version: int
    var error: real
    var allInputData: seq<Mat>
    var allTrainData: Mat
    var trainOrder: seq<nat>
    var curIteration: nat
    var tmpOrder: seq<nat>

    /** A live graph, its input layers, and a permutation order with the cursor inside it. */
    ghost predicate Valid()
      reads this, net
    {
      Wired(net.nodes) && last < |net.nodes| && InputsAt(net.nodes, inputs)
      && IsPermutation(trainOrder) && curIteration <= |trainOrder|
    }

    /** The batching state: data, targets, order, cursor and batch. */
    function Batching(): (seq<Mat>, Mat, seq<nat>, nat, seq<nat>)
      reads this
    {
      (allInputData, allTrainData, trainOrder, curIteration, tmpOrder)
    }

    /**
     * `NetContainer(Last, Type)`: the gathered input layers in `Inputs`, the
     * gathered dense layers in `DenseLayers` sorted by `Id`; no training
     * data, and the default batch `{1, 0}`.
     */
    constructor (n: Net, l: nat, t: int, k: OutKernels)
      requires Wired(n.nodes) && l < |n.nodes|
      ensures Valid() && net == n && last == l && kind == t && outKernels == k
      ensures forall x :: x in inputs <==> x in Order(n.nodes, l) && n.nodes[x].kind.InputLayer?
      ensures forall x :: x in denseLayers <==> x in Order(n.nodes, l) && n.nodes[x].kind.NeuronLayer?
      ensures (forall j | 0 <= j < |denseLayers| :: denseLayers[j] < |n.nodes|) && SortedById(n.nodes, denseLayers)
      ensures output == Matrix(0, []) && version == 0 && error == -1.0
      ensures Batching() == ([], Matrix(0, []), [], 0, [1, 0])
    {
      var ins, dense := Partition(n.nodes, Order(n.nodes, l));
      var sorted := SortById(n.nodes, dense);
      assert forall x :: x in sorted <==> x in dense by {
        forall x ensures x in sorted <==> x in dense {
          assert x in sorted <==> x in multiset(sorted);
          assert x in dense <==> x in multiset(dense);
        }
      }
      net := n;
      last := l;
      kind := t;
      outKernels := k;
      inputs := ins;
      denseLayers := sorted;
      output := Matrix(0, []);
      version := 0;
      error := -1.0;
      allInputData := [];
      allTrainData := Matrix(0, []);
      trainOrder := [];
      curIteration := 0;
      tmpOrder := [1, 0];
    }

    /** `SetBatchSize(sz)`: `tmpOrder.resize(sz)`, new entries zero. */
    method SetBatchSize(sz: nat)
      modifies this
      ensures |tmpOrder| == sz && forall i | 0 <= i < sz :: tmpOrder[i] == if i < |old(tmpOrder)| then old(tmpOrder)[i] else 0
      ensures allInputData == old(allInputData) && allTrainData == old(allTrainData)
      ensures trainOrder == old(trainOrder) && curIteration == old(curIteration)
      ensures output == old(output) && version == old(version) && error == old(error)
    {
      var t := tmpOrder;
      tmpOrder := seq(sz, i requires 0 <= i < sz => if i < |t| then t[i] else 0);
    }

    /**
     * `FromVector(Data)`: `Data` read as `nOutput()` rows, that `size_t`
     * taken as Eigen's signed index (so an empty last layer gives `-1`).
     */
    method FromVector(data: seq<real>) returns (m: Result<Mat>)
      requires Valid()
      ensures net.nodes[last].output.rows <= 0x8000_0000_0000_0000 ==> m == Reshape(net.nodes[last].output.rows - 1, data)
      ensures m.Success? ==> Flatten(m.value) == data && m.value.rows >= 1 && m.value.rows * Width(m.value) == |data|
    {
      m := Reshape(AsIndex(NOutput(net.nodes[last].output)), data);
    }

    /**
     * `Process(inp)` / `ProcessRaw(inp)`: the inputs set, `++Version`,
     * `LastLayer->FeedForward(Version)`, and the last layer's whole buffer.
     * The stored `output` is not touched.
     */
    method Process(ds: seq<Mat>, raw: bool) returns (r: Result<Mat>)
      requires Valid()
      modifies this, net
      ensures Valid() && Batching() == old(Batching()) && output == old(output) && error == old(error)
      ensures var f := Fed(net.kernels, old(net.nodes), inputs, last, ds, raw, old(version) + 1);
        (r.Success? <==> f.Success?) && (r.Success? ==> net.nodes == f.value && r.value == f.value[last].output)
      ensures r.Success? ==> version == old(version) + 1
    {
      version := version + 1;
      var ok := FeedNet(net, inputs, last, ds, raw, version);
      if !ok {
        return Failure(BadIndex);
      }
      r := Success(net.nodes[last].output);
    }

    /**
     * The bound `FeedForward`: `++Version`, the graph fed from the last
     * layer, and `output` set from `outPart` of its buffer by the output
     * type. Unbound, it throws before touching anything.
     */
    method FeedForwardBound() returns (ok: bool)
      requires Valid()
      modifies this, net
      ensures Valid() && Batching() == old(Batching()) && error == old(error)
      ensures var f := Containers.Forward(net.kernels, outKernels, kind, old(net.nodes), last, old(version) + 1);
        (ok <==> f.Success?) && (ok ==> net.nodes == f.value.0 && output == f.value.1)
      ensures ok ==> version == old(version) + 1
    {
      if Bind(kind).None? {
        return false;
      }
      version := version + 1;
      var out;
      ok, out := ForwardNet(net, outKernels, kind, inputs, last, version);
      if ok {
        output := out;
      }
    }

    /**
     * `TrainFnc(target)`: `Train_MeanSquare` records `error` and then
     * back-propagates `target - output` (the dense layers apply their
     * update as they go); `Train_SoftMax` computes its error into a local
     * and leaves `error` alone.
     */
    method TrainStep(target: Mat) returns (r: Result<real>)
      requires Valid()
      modifies this, net
      ensures Valid() && Batching() == old(Batching()) && output == old(output) && version == old(version)
      ensures Retrained(old(net.nodes), net.nodes)
      ensures var s := Stepped(net.kernels, outKernels, kind, old(net.nodes), last, target, output);
        (r.Success? <==> s.Success?) && (r.Success? ==> r.value == s.value.1 && net.nodes == s.value.0)
      ensures error == if r.Success? && Bind(kind).value.loss == MeanSquare then r.value else old(error)
    {
      r := StepNet(net, outKernels, kind, inputs, last, target, output);
      if r.Success? && Bind(kind).value.loss == MeanSquare {
        error := r.value;
      }
    }

    /**
     * `Train(inp, outp)` / `TrainRaw` as written: `Process` without the
     * bound forward pass, then `TrainFnc(outp)`, which measures and
     * back-propagates against the `output` stored before the call.
     */
    method Train(ds: seq<Mat>, raw: bool, target: Mat) returns (r: Result<real>)
      requires Valid()
      modifies this, net
      ensures Valid() && Batching() == old(Batching()) && output == old(output)
      ensures var s := TrainedStale(net.kernels, outKernels, kind, old(net.nodes), inputs, last, ds, raw, old(version) + 1, target, old(output));
        (r.Success? <==> s.Success?) && (r.Success? ==> r.value == s.value.1 && net.nodes == s.value.0)
      ensures r.Success? ==> version == old(version) + 1
      ensures r.Success? && Bind(kind).value.loss == MeanSquare ==> error == r.value
    {
      var f := Process(ds, raw);
      if f.Failure? {
        return Failure(f.error);
      }
      r := TrainStep(target);
    }

    /** `Error(inp, outp)` / `ErrorRaw` as written: `Process` without the bound forward pass, then the error against the stored `output`. */
    method Error(ds: seq<Mat>, raw: bool, target: Mat) returns (r: Result<real>)
      requires Valid()
      modifies this, net
      ensures Valid() && Batching() == old(Batching()) && output == old(output) && error == old(error)
      ensures var e := ErroredStale(net.kernels, outKernels, kind, old(net.nodes), inputs, last, ds, raw, old(version) + 1, target, old(output));
        (r.Success? <==> e.Success?) && (r.Success? ==> r == e)
    {
      var f := Process(ds, raw);
      if f.Failure? {
        return Failure(f.error);
      }
      r := ErrorOf(outKernels, Bind(kind), target, output);
    }

    /** The inputs set, then the bound `FeedForward`: the start of `TrainFresh` and `ErrorFresh`. */
    method Run(ds: seq<Mat>, raw: bool) returns (ok: bool)
      requires Valid()
      modifies this, net
      ensures Valid() && Batching() == old(Batching()) && error == old(error)
      ensures var p := Processed(net.kernels, outKernels, kind, old(net.nodes), inputs, last, ds, raw, old(version) + 1);
        (ok <==> p.Success?) && (ok ==> net.nodes == p.value.0 && output == p.value.1)
      ensures ok ==> version == old(version) + 1
    {
      if Bind(kind).None? {
        return false;
      }
      version := version + 1;
      var out;
      ok, out := ProcessNet(net, outKernels, kind, inputs, last, ds, raw, version);
      if ok {
        output := out;
      }
    }

    /**
     * `Train(inp, outp)` with the bound forward pass, as `Iterate` does it:
     * the error and the gradient are those of the fresh output.
     */
    method TrainFresh(ds: seq<Mat>, raw: bool, target: Mat) returns (r: Result<real>)
      requires Valid()
      modifies this, net
      ensures Valid() && Batching() == old(Batching())
      ensures var p := Trained(net.kernels, outKernels, kind, old(net.nodes), inputs, last, ds, raw, old(version) + 1, target);
        (r.Success? <==> p.Success?) && (r.Success? ==> r.value == p.value.1 && net.nodes == p.value.0)
      ensures r.Success? ==> version == old(version) + 1
      ensures r.Success? ==> output == Processed(net.kernels, outKernels, kind, old(net.nodes), inputs, last, ds, raw, old(version) + 1).value.1
      ensures r.Success? && Bind(kind).value.loss == MeanSquare ==> error == r.value
    {
      if Bind(kind).None? {
        return Failure(Unbound);
      }
      version := version + 1;
      var out;
      r, out := TrainNet(net, outKernels, kind, inputs, last, ds, raw, version, target);
      if r.Success? {
        output := out;
        if Bind(kind).value.loss == MeanSquare {
          error := r.value;
        }
      }
    }

    /** `Error(inp, outp)` with the bound forward pass: the error against the fresh output. */
    method ErrorFresh(ds: seq<Mat>, raw: bool, target: Mat) returns (r: Result<real>)
      requires Valid()
      modifies this, net
      ensures Valid() && Batching() == old(Batching()) && error == old(error)
      ensures var p := Errored(net.kernels, outKernels, kind, old(net.nodes), inputs, last, ds, raw, old(version) + 1, target);
        (r.Success? <==> p.Success?) && (r.Success? ==> r == p)
    {
      var ok := Run(ds, raw);
      if !ok {
        return Failure(BadIndex);
      }
      r := ErrorOf(outKernels, Bind(kind), target, output);
    }
    /**
     * `Iterate()`: with a batch smaller than the order, the next batch from
     * the cursor (`shuffled` is the order `std::shuffle` makes when the
     * order runs out); otherwise the full data, unreordered. Then the batch
     * is trained on. The error reported and the graph left are stated by
     * `IterateOn`, which this delegates to.
     */
    method Iterate(shuffled: seq<nat>) returns (r: Result<real>)
      requires Valid() && multiset(shuffled) == multiset(trainOrder) && |shuffled| == |trainOrder|
      modifies this, net
      ensures Valid() && allInputData == old(allInputData) && allTrainData == old(allTrainData)
      ensures |old(tmpOrder)| < |old(trainOrder)| ==>
        (tmpOrder, trainOrder, curIteration) == Refill(old(trainOrder), old(curIteration), |old(tmpOrder)|, shuffled)
      ensures |old(tmpOrder)| >= |old(trainOrder)| ==>
        tmpOrder == old(tmpOrder) && trainOrder == old(trainOrder) && curIteration == old(curIteration)
      ensures forall p | p == Iterated(net.kernels, outKernels, kind, old(net.nodes), inputs, last, allInputData, allTrainData,
                                       if |old(tmpOrder)| < |old(trainOrder)| then Some(tmpOrder) else None, old(version) + 1)
        :: Reports(r, p, net.nodes)
      ensures r.Success? ==> version == old(version) + 1
      ensures r.Success? && Bind(kind).Some? && Bind(kind).value.loss == MeanSquare ==> error == r.value
    {
      var out, batch, order, cur;
      r, out, batch, order, cur := IterateOn(net, outKernels, kind, inputs, last, allInputData, allTrainData,
                                             tmpOrder, trainOrder, curIteration, shuffled, version + 1);
      tmpOrder, trainOrder, curIteration := batch, order, cur;
      if r.Success? {
        version := version + 1;
        output := out;
        if Bind(kind).value.loss == MeanSquare {
          error := r.value;
        }
      }
    }

    /** The resize-and-number loop over the new entries of `TrainOrder`, then `std::shuffle`. */
    method GrowOrder(n: nat, shuffled: seq<nat>)
      requires Valid() && multiset(shuffled) == multiset(Extended(trainOrder, n))
      modifies this
      ensures Valid() && trainOrder == shuffled && |trainOrder| == |old(trainOrder)| + n
      ensures allInputData == old(allInputData) && allTrainData == old(allTrainData)
      ensures curIteration == old(curIteration) && tmpOrder == old(tmpOrder)
      ensures output == old(output) && version == old(version) && error == old(error)
    {
      var next := |trainOrder|;
      var order := trainOrder;
      while next < |trainOrder| + n
        invariant |trainOrder| <= next <= |trainOrder| + n
        invariant order == trainOrder + Range(|trainOrder|, next)
      {
        order := order + [next];
        next := next + 1;
      }
      assert order == Extended(trainOrder, n);
      ShuffledPermutation(trainOrder, n, shuffled);
      assert curIteration <= |shuffled|;
      trainOrder := shuffled;
    }

    /** The data half of `AddTrainDataRaw`/`AddTrainData`: the first call takes the items, later ones append. */
    method AddData(items: seq<Mat>, outp: Mat) returns (ok: bool)
      requires Valid()
      modifies this
      ensures Valid() && trainOrder == old(trainOrder) && tmpOrder == old(tmpOrder) && curIteration == 0
      ensures output == old(output) && version == old(version) && error == old(error)
      ensures var a := Added(old(allInputData), old(allTrainData), items, outp);
        (ok <==> a.Success?) && (ok ==> (allInputData, allTrainData) == a.value)
    {
      curIteration := 0;
      if allInputData == [] {
        allInputData := items;
        allTrainData := outp;
        return true;
      }
      var d := Concatenate(allInputData, items);
      if d.Failure? {
        return false;
      }
      var y := Beside(allTrainData, outp);
      if y.Failure? {
        return false;
      }
      allInputData := d.value;
      allTrainData := y.value;
      ok := true;
    }

    /**
     * `AddTrainDataRaw(inp, outp)`: the data added, then `TrainOrder` grown
     * by `outp.cols()` consecutive entries and shuffled into `shuffled`;
     * the cursor goes back to the start.
     */
    method AddTrainDataRaw(inp: seq<Mat>, outp: Mat, shuffled: seq<nat>) returns (ok: bool)
      requires Valid() && multiset(shuffled) == multiset(Extended(trainOrder, Width(outp)))
      modifies this
      ensures Valid() && curIteration == 0 && tmpOrder == old(tmpOrder)
      ensures output == old(output) && version == old(version) && error == old(error)
      ensures var a := Added(old(allInputData), old(allTrainData), inp, outp);
        (ok <==> a.Success?) && (ok ==> (allInputData, allTrainData) == a.value && trainOrder == shuffled)
      ensures ok ==> |trainOrder| == |old(trainOrder)| + Width(outp)
    {
      ok := AddData(inp, outp);
      if !ok {
        return;
      }
      GrowOrder(Width(outp), shuffled);
    }

    /**
     * `AddTrainData(inp, outp)`: as `AddTrainDataRaw` with each matrix
     * first given its bias row by its input layer's `MakeRawInput`; a
     * matrix without an input layer indexes past `Inputs`.
     */
    method AddTrainData(inp: seq<Mat>, outp: Mat, shuffled: seq<nat>) returns (ok: bool)
      requires Valid() && multiset(shuffled) == multiset(Extended(trainOrder, Width(outp)))
      modifies this
      ensures Valid() && tmpOrder == old(tmpOrder)
      ensures output == old(output) && version == old(version) && error == old(error)
      ensures var a := Added(old(allInputData), old(allTrainData), RawOf(inp), outp);
        (ok <==> |inp| <= |inputs| && a.Success?) && (ok ==> (allInputData, allTrainData) == a.value && trainOrder == shuffled)
      ensures ok ==> curIteration == 0 && |trainOrder| == |old(trainOrder)| + Width(outp)
    {
      if |inp| > |inputs| {
        return false;
      }
      ok := AddTrainDataRaw(RawOf(inp), outp, shuffled);
    }
  }
}
