/**
 * The weights of a network as one flat vector (`NetDNA`,
 * `src/PVX_NeuralNets.cpp` and `OutputLayer::GetDNA`): `DNA` collects the
 * dense layers a graph reaches, `GetDNA` lays their weight buffers one after
 * another, and `GetData` / `SetData` copy between the buffers and a vector.
 */
module Dna {
  import opened Wrappers
  import opened Matrices
  import opened Graph
  import opened Network

  /** `Weights.size()`: the number of weights of a dense layer, `rows * cols`. */
  function Count(nd: Node): (n: nat)
    requires nd.kind.NeuronLayer?
    ensures n == nd.kind.buf.weights.rows * Width(nd.kind.buf.weights)
  {
    |Flatten(nd.kind.buf.weights)|
  }

  // ---------------------------------------------------------------- DNA

  /**
   * `DNA(w)` on layer `i`: a dense layer registers itself with its weight
   * count unless it is already in `w`, then calls its predecessor; an
   * activation or recurrent layer calls its predecessor; a fan-in layer calls
   * each input in order; an input layer adds nothing.
   */
  function Register(ns: seq<Node>, i: nat, w: map<nat, nat>): (r: Result<map<nat, nat>>)
    requires Wired(ns) && i < |ns|
    decreases i, 1
  {
    var nd := ns[i];
    if Chain(nd.kind) then
      var w' := if nd.kind.NeuronLayer? && i !in w then w[i := Count(nd)] else w;
      if nd.prev.Null? then Failure(BadPointer) else Register(ns, nd.prev.index, w')
    else if Fan(nd.kind) then RegisterInputs(ns, nd.inputs, i, 0, w)
    else Success(w)
  }

  function RegisterInputs(ns: seq<Node>, ls: seq<Link>, i: nat, q: nat, w: map<nat, nat>): (r: Result<map<nat, nat>>)
    requires Wired(ns) && i < |ns| && q <= |ls|
    requires forall t | 0 <= t < |ls| :: ls[t].At? && ls[t].index < i
    decreases i, 0, |ls| - q
  {
    if q == |ls| then Success(w)
    else
      match Register(ns, ls[q].index, w)
      case Failure(e) => Failure(e)
      case Success(w') => RegisterInputs(ns, ls, i, q + 1, w')
  }

  /** The dense layers among `s`. */
  function DenseIn(ns: seq<Node>, s: set<nat>): set<nat> {
    set j | j in s && j < |ns| && ns[j].kind.NeuronLayer?
  }

  /** `w` with every dense layer of `s` not yet in it added with its weight count. */
  function Registered(ns: seq<Node>, s: set<nat>, w: map<nat, nat>): (r: map<nat, nat>)
    ensures r.Keys == w.Keys + DenseIn(ns, s)
  {
    map j | j in w.Keys + DenseIn(ns, s) :: if j in w then w[j] else Count(ns[j])
  }

  lemma RegisteredUnion(ns: seq<Node>, a: set<nat>, b: set<nat>, w: map<nat, nat>)
    ensures Registered(ns, b, Registered(ns, a, w)) == Registered(ns, a + b, w)
  {
    assert DenseIn(ns, a) + DenseIn(ns, b) == DenseIn(ns, a + b);
  }

  lemma RegisteredSelf(ns: seq<Node>, i: nat, w: map<nat, nat>)
    requires i < |ns|
    ensures Registered(ns, {i}, w) == if ns[i].kind.NeuronLayer? && i !in w then w[i := Count(ns[i])] else w
  {
    assert DenseIn(ns, {i}) == if ns[i].kind.NeuronLayer? then {i} else {};
  }

  /**
   * `DNA` registers exactly the dense layers the graph reaches from `i`,
   * each once however many paths lead to it, keeps what `w` already held,
   * and on a graph whose chain layers all have a predecessor it completes.
   */
  lemma {:induction false} RegisterVisits(ns: seq<Node>, i: nat, w: map<nat, nat>)
    requires Wired(ns) && i < |ns|
    ensures Linked(ns) ==> Register(ns, i, w).Success?
    ensures Register(ns, i, w).Success? ==> Register(ns, i, w).value == Registered(ns, Visited(ns, i), w)
    decreases i, 2
  {
    var nd := ns[i];
    RegisteredSelf(ns, i, w);
    if Chain(nd.kind) {
      if nd.prev.At? {
        RegisterChain(ns, i, w);
      }
    } else if Fan(nd.kind) {
      var vi := VisitedInputs(ns, nd.inputs, i, 0);
      assert Register(ns, i, w) == RegisterInputs(ns, nd.inputs, i, 0, w);
      assert Visited(ns, i) == {i} + vi;
      RegisterInputsVisit(ns, nd.inputs, i, 0, w);
      RegisteredUnion(ns, {i}, vi, w);
    } else {
      assert Visited(ns, i) == {i};
    }
  }

  /** The chain case: the layer itself, then everything its predecessor reaches. */
  lemma {:induction false} RegisterChain(ns: seq<Node>, i: nat, w: map<nat, nat>)
    requires Wired(ns) && i < |ns| && Chain(ns[i].kind) && ns[i].prev.At?
    ensures Linked(ns) ==> Register(ns, i, w).Success?
    ensures Register(ns, i, w).Success? ==> Register(ns, i, w).value == Registered(ns, Visited(ns, i), w)
    decreases i, 1
  {
    var nd := ns[i];
    var p := nd.prev.index;
    var w' := if nd.kind.NeuronLayer? && i !in w then w[i := Count(nd)] else w;
    var vp := Visited(ns, p);
    assert Register(ns, i, w) == Register(ns, p, w');
    assert Visited(ns, i) == {i} + vp;
    RegisteredSelf(ns, i, w);
    RegisterVisits(ns, p, w');
    RegisteredUnion(ns, {i}, vp, w);
  }

  lemma {:induction false} RegisterInputsVisit(ns: seq<Node>, ls: seq<Link>, i: nat, q: nat, w: map<nat, nat>)
    requires Wired(ns) && i < |ns| && q <= |ls|
    requires forall t | 0 <= t < |ls| :: ls[t].At? && ls[t].index < i
    ensures Linked(ns) ==> RegisterInputs(ns, ls, i, q, w).Success?
    ensures RegisterInputs(ns, ls, i, q, w).Success? ==>
      RegisterInputs(ns, ls, i, q, w).value == Registered(ns, VisitedInputs(ns, ls, i, q), w)
    decreases i, 0, |ls| - q
  {
    if q == |ls| {
      assert DenseIn(ns, {}) == {};
    } else {
      RegisterVisits(ns, ls[q].index, w);
      if Register(ns, ls[q].index, w).Success? {
        var w' := Register(ns, ls[q].index, w).value;
        RegisterInputsVisit(ns, ls, i, q + 1, w');
        RegisteredUnion(ns, Visited(ns, ls[q].index), VisitedInputs(ns, ls, i, q + 1), w);
      }
    }
  }

  // ---------------------------------------------------------------- GetDNA

  /** `WeightData`: a dense layer, its weight count and where its weights start in the vector. */
  datatype WeightData = WeightData(layer: nat, count: nat, offset: nat)

  /** `NetDNA`: the layers in layout order and the length of the vector. */
  datatype NetDNA = NetDNA(layers: seq<WeightData>, size: nat)

  /** Where the last segment ends. */
  function End(ls: seq<WeightData>): nat {
    if ls == [] then 0 else ls[|ls| - 1].offset + ls[|ls| - 1].count
  }

  /** Segment `k + 1` starts where segment `k` ends. */
  predicate Adjacent(ls: seq<WeightData>, k: nat)
    requires k + 1 < |ls|
  {
    ls[k + 1].offset == ls[k].offset + ls[k].count
  }

  /** The segments start at `0` and follow each other without gaps: the offsets are prefix sums of the counts. */
  predicate Tiled(ls: seq<WeightData>) {
    (ls != [] ==> ls[0].offset == 0) && forall k: nat | k + 1 < |ls| :: Adjacent(ls, k)
  }

  /** A layout whose segments tile `[0, size)`. */
  predicate Tiles(d: NetDNA) {
    Tiled(d.layers) && d.size == End(d.layers)
  }

  /** The layers are listed in increasing order, so none twice. */
  predicate Ascending(ls: seq<WeightData>) {
    forall k, k' | 0 <= k < k' < |ls| :: ls[k].layer < ls[k'].layer
  }

  lemma TiledPrefix(ls: seq<WeightData>, n: nat)
    requires Tiled(ls) && n <= |ls|
    ensures Tiled(ls[..n])
  {
    forall k: nat | k + 1 < n
      ensures Adjacent(ls[..n], k)
    {
      assert Adjacent(ls, k);
    }
  }

  /** Segment `k` ends no later than segment `k'` starts, for `k < k'`. */
  lemma {:induction false} SegmentsDisjoint(ls: seq<WeightData>, k: nat, k': nat)
    requires Tiled(ls) && k < k' < |ls|
    ensures ls[k].offset + ls[k].count <= ls[k'].offset
    decreases k' - k
  {
    assert Adjacent(ls, k' - 1);
    if k + 1 < k' {
      SegmentsDisjoint(ls, k, k' - 1);
    }
  }

  /** Every segment lies inside `[0, End)`. */
  lemma SegmentInside(ls: seq<WeightData>, k: nat)
    requires Tiled(ls) && k < |ls|
    ensures ls[k].offset + ls[k].count <= End(ls)
  {
    if k + 1 < |ls| {
      SegmentsDisjoint(ls, k, |ls| - 1);
    }
  }

  /** Every position of `[0, End)` lies in some segment. */
  lemma {:induction false} SegmentsCover(ls: seq<WeightData>, x: nat)
    requires Tiled(ls) && x < End(ls)
    ensures exists k | 0 <= k < |ls| :: ls[k].offset <= x < ls[k].offset + ls[k].count
    decreases |ls|
  {
    var n := |ls| - 1;
    if x < ls[n].offset {
      TiledPrefix(ls, n);
      assert Adjacent(ls, n - 1);
      SegmentsCover(ls[..n], x);
      var k :| 0 <= k < n && ls[..n][k].offset <= x < ls[..n][k].offset + ls[..n][k].count;
      assert ls[k] == ls[..n][k];
    } else {
      assert ls[n].offset <= x < ls[n].offset + ls[n].count;
    }
  }

  /** Some entry of `ls` is layer `l`. */
  predicate Listed(ls: seq<WeightData>, l: nat) {
    exists k | 0 <= k < |ls| :: ls[k].layer == l
  }

  /** Appending a layer at the running size keeps the layout tiled and ascending. */
  lemma LayoutStep(d: NetDNA, j: nat, c: nat)
    requires Tiles(d) && Ascending(d.layers) && forall k | 0 <= k < |d.layers| :: d.layers[k].layer < j
    ensures var e := NetDNA(d.layers + [WeightData(j, c, d.size)], d.size + c);
      Tiles(e) && Ascending(e.layers)
      && forall l | Listed(d.layers, l) :: Listed(e.layers, l)
  {
    var ls := d.layers;
    var es := ls + [WeightData(j, c, d.size)];
    forall k: nat | k + 1 < |es|
      ensures Adjacent(es, k)
    {
      if k + 1 < |ls| {
        assert Adjacent(ls, k);
      }
    }
    forall l | Listed(ls, l)
      ensures Listed(es, l)
    {
      var k :| 0 <= k < |ls| && ls[k].layer == l;
      assert es[k].layer == l;
    }
  }

  /**
   * `GetDNA`'s loop over the map: the layers in key order, each starting at
   * the running `Size`. The keys are arena positions below `n`, so visiting
   * positions `0 .. n - 1` and keeping those in the map visits the map in
   * its order.
   */
  method Layout(data: map<nat, nat>, n: nat) returns (d: NetDNA)
    requires forall l | l in data :: l < n
    ensures Tiles(d) && Ascending(d.layers)
    ensures forall k | 0 <= k < |d.layers| :: d.layers[k].layer in data && d.layers[k].count == data[d.layers[k].layer]
    ensures forall l | l in data :: Listed(d.layers, l)
  {
    d := NetDNA([], 0);
    for j := 0 to n
      invariant Tiles(d) && Ascending(d.layers)
      invariant forall k | 0 <= k < |d.layers| :: d.layers[k].layer < j
      invariant forall k | 0 <= k < |d.layers| :: d.layers[k].layer in data && d.layers[k].count == data[d.layers[k].layer]
      invariant forall l | l in data && l < j :: Listed(d.layers, l)
    {
      if j in data {
        LayoutStep(d, j, data[j]);
        var e := NetDNA(d.layers + [WeightData(j, data[j], d.size)], d.size + data[j]);
        assert e.layers[|d.layers|].layer == j;
        d := e;
      }
    }
  }

  // ---------------------------------------------------------------- GetData / SetData

  /** Each listed layer is a dense layer of the arena holding `count` weights. */
  predicate Matches(ns: seq<Node>, ls: seq<WeightData>) {
    forall k | 0 <= k < |ls| :: ls[k].layer < |ns| && ns[ls[k].layer].kind.NeuronLayer? && ls[k].count == Count(ns[ls[k].layer])
  }

  /** Every segment lies inside a vector of length `n`. */
  predicate Within(ls: seq<WeightData>, n: nat) {
    forall k | 0 <= k < |ls| :: ls[k].offset + ls[k].count <= n
  }

  /** The weights of a listed layer, as `Weights.data()` lays them out. */
  function WeightsOf(ns: seq<Node>, ls: seq<WeightData>, k: nat): (v: seq<real>)
    requires Matches(ns, ls) && k < |ls|
    ensures |v| == ls[k].count
  {
    Flatten(ns[ls[k].layer].kind.buf.weights)
  }

  /** The vector `GetData` returns: the listed layers' weights one after another. */
  function Snapshot(ns: seq<Node>, ls: seq<WeightData>): (v: seq<real>)
    requires Matches(ns, ls)
  {
    if ls == [] then [] else Snapshot(ns, ls[..|ls| - 1]) + WeightsOf(ns, ls, |ls| - 1)
  }

  /**
   * For a tiled layout the snapshot is `End` long and segment `k` of it,
   * at the offset the layout gives, is layer `k`'s weights: so it is what
   * `GetData`'s copies into a vector of `Size` zeros produce.
   */
  lemma MatchesPrefix(ns: seq<Node>, ls: seq<WeightData>, n: nat)
    requires Matches(ns, ls) && n <= |ls|
    ensures Matches(ns, ls[..n])
    ensures forall k | 0 <= k < n :: WeightsOf(ns, ls[..n], k) == WeightsOf(ns, ls, k)
  {
  }

  lemma {:induction false} SnapshotLength(ns: seq<Node>, ls: seq<WeightData>)
    requires Matches(ns, ls) && Tiled(ls)
    ensures |Snapshot(ns, ls)| == End(ls)
    decreases |ls|
  {
    if ls != [] {
      var n := |ls| - 1;
      var pre := ls[..n];
      MatchesPrefix(ns, ls, n);
      TiledPrefix(ls, n);
      SnapshotLength(ns, pre);
      if n > 0 {
        assert Adjacent(ls, n - 1);
        assert End(pre) == ls[n].offset;
      }
    }
  }

  lemma SliceLeft(a: seq<real>, b: seq<real>, i: nat, j: nat)
    requires i <= j <= |a|
    ensures (a + b)[i..j] == a[i..j]
  {
  }

  lemma SliceRight(a: seq<real>, b: seq<real>)
    ensures (a + b)[|a|..|a| + |b|] == b
  {
  }

  lemma {:induction false} SnapshotAt(ns: seq<Node>, ls: seq<WeightData>, k: nat)
    requires Matches(ns, ls) && Tiled(ls) && k < |ls|
    ensures |Snapshot(ns, ls)| == End(ls)
    ensures ls[k].offset + ls[k].count <= End(ls)
    ensures Snapshot(ns, ls)[ls[k].offset..ls[k].offset + ls[k].count] == WeightsOf(ns, ls, k)
    decreases |ls|
  {
    var n := |ls| - 1;
    var pre := ls[..n];
    MatchesPrefix(ns, ls, n);
    TiledPrefix(ls, n);
    SnapshotLength(ns, ls);
    SnapshotLength(ns, pre);
    if k < n {
      SnapshotEarlier(ns, ls, k);
    } else {
      if n > 0 {
        assert Adjacent(ls, n - 1);
      }
      SliceRight(Snapshot(ns, pre), WeightsOf(ns, ls, n));
    }
  }

  lemma {:induction false} SnapshotEarlier(ns: seq<Node>, ls: seq<WeightData>, k: nat)
    requires Matches(ns, ls) && Tiled(ls) && k + 1 < |ls|
    ensures ls[k].offset + ls[k].count <= |Snapshot(ns, ls)|
    ensures Snapshot(ns, ls)[ls[k].offset..ls[k].offset + ls[k].count] == WeightsOf(ns, ls, k)
    decreases |ls|, 0
  {
    var n := |ls| - 1;
    var pre := ls[..n];
    MatchesPrefix(ns, ls, n);
    TiledPrefix(ls, n);
    SnapshotAt(ns, pre, k);
    SnapshotLength(ns, ls);
    SliceLeft(Snapshot(ns, pre), WeightsOf(ns, ls, n), ls[k].offset, ls[k].offset + ls[k].count);
  }

  /**
   * The vector `GetData` builds: `size` zeros, over which each listed
   * layer's weights are copied at its offset, in layout order.
   */
  function Paint(ns: seq<Node>, ls: seq<WeightData>, size: nat): (v: seq<real>)
    requires Matches(ns, ls) && Within(ls, size)
    ensures |v| == size
  {
    if ls == [] then seq(size, _ => 0.0)
    else
      var l := ls[|ls| - 1];
      var v := Paint(ns, ls[..|ls| - 1], size);
      v[..l.offset] + WeightsOf(ns, ls, |ls| - 1) + v[l.offset + l.count..]
  }

  /** For a tiled layout the copies fill `[0, End)` with the snapshot and leave zeros after it. */
  lemma {:induction false} PaintPadded(ns: seq<Node>, ls: seq<WeightData>, size: nat)
    requires Matches(ns, ls) && Tiled(ls) && End(ls) <= size
    ensures Within(ls, size)
    ensures Paint(ns, ls, size) == Snapshot(ns, ls) + seq(size - End(ls), _ => 0.0)
    decreases |ls|
  {
    forall k | 0 <= k < |ls|
      ensures ls[k].offset + ls[k].count <= size
    {
      SegmentInside(ls, k);
    }
    if ls != [] {
      var n := |ls| - 1;
      var pre := ls[..n];
      MatchesPrefix(ns, ls, n);
      TiledPrefix(ls, n);
      if n > 0 {
        assert Adjacent(ls, n - 1);
      }
      assert End(pre) == ls[n].offset;
      PaintPadded(ns, pre, size);
      SnapshotLength(ns, pre);
      var v := Paint(ns, pre, size);
      var w := WeightsOf(ns, ls, n);
      assert v[..ls[n].offset] == Snapshot(ns, pre);
      assert v[ls[n].offset + ls[n].count..] == seq(size - End(ls), _ => 0.0);
    }
  }

  /** `GetData()` of a layout that tiles `[0, Size)` is the snapshot. */
  lemma PaintTiles(ns: seq<Node>, d: NetDNA)
    requires Matches(ns, d.layers) && Tiles(d)
    ensures Within(d.layers, d.size) && Paint(ns, d.layers, d.size) == Snapshot(ns, d.layers)
  {
    PaintPadded(ns, d.layers, d.size);
  }

  /** A layout valid for `ns` and `n` is valid for each of its prefixes. */
  lemma LayoutPrefix(ns: seq<Node>, ls: seq<WeightData>, n: nat, size: nat)
    requires Matches(ns, ls) && Within(ls, size) && n <= |ls|
    ensures Matches(ns, ls[..n]) && Within(ls[..n], size)
  {
  }

  /** The weight buffer of a dense layer replaced; any other layer kept. */
  function WithWeights(nd: Node, w: Mat): Node {
    if nd.kind.NeuronLayer? then nd.(kind := nd.kind.(buf := nd.kind.buf.(weights := w))) else nd
  }

  /** The segment of layer entry `l` read back with the shape layer `l.layer` has in `ns`. */
  function Segment(ns: seq<Node>, l: WeightData, data: seq<real>): (w: Mat)
    requires l.layer < |ns| && ns[l.layer].kind.NeuronLayer? && l.count == Count(ns[l.layer])
    requires l.offset + l.count <= |data|
    ensures SameShape(w, ns[l.layer].kind.buf.weights) && Flatten(w) == data[l.offset..l.offset + l.count]
  {
    var w := ns[l.layer].kind.buf.weights;
    FlattenUnflatten(data[l.offset..l.offset + l.count], w.rows, Width(w));
    Unflatten(data[l.offset..l.offset + l.count], w.rows, Width(w))
  }

  /** Two matrices of one shape with the same `data()` are equal. */
  lemma FlattenInjective(a: Mat, b: Mat)
    requires SameShape(a, b) && Flatten(a) == Flatten(b)
    ensures a == b
  {
    UnflattenFlatten(a);
    UnflattenFlatten(b);
  }

  /** The arena after `SetData(data)`: each listed layer in turn reads its segment into its weights. */
  function Restore(ns: seq<Node>, ls: seq<WeightData>, data: seq<real>): (r: seq<Node>)
    requires Matches(ns, ls) && Within(ls, |data|)
    ensures |r| == |ns|
  {
    if ls == [] then ns
    else
      var l := ls[|ls| - 1];
      var ms := Restore(ns, ls[..|ls| - 1], data);
      ms[l.layer := WithWeights(ms[l.layer], Segment(ns, l, data))]
  }

  /** `SetData` keeps which layers are dense and the shape of every weight matrix. */
  lemma {:induction false} RestoreKeepsShape(ns: seq<Node>, ls: seq<WeightData>, data: seq<real>, j: nat)
    requires Matches(ns, ls) && Within(ls, |data|) && j < |ns|
    ensures Restore(ns, ls, data)[j].kind.NeuronLayer? == ns[j].kind.NeuronLayer?
    ensures ns[j].kind.NeuronLayer? ==> SameShape(Restore(ns, ls, data)[j].kind.buf.weights, ns[j].kind.buf.weights)
    decreases |ls|
  {
    if ls != [] {
      LayoutPrefix(ns, ls, |ls| - 1, |data|);
      RestoreKeepsShape(ns, ls[..|ls| - 1], data, j);
    }
  }

  /** Reading a segment depends on the shape of the layer only. */
  lemma SegmentSame(a: seq<Node>, b: seq<Node>, l: WeightData, data: seq<real>)
    requires l.layer < |a| && a[l.layer].kind.NeuronLayer? && l.count == Count(a[l.layer])
    requires l.layer < |b| && b[l.layer].kind.NeuronLayer?
    requires SameShape(a[l.layer].kind.buf.weights, b[l.layer].kind.buf.weights)
    requires l.offset + l.count <= |data|
    ensures l.count == Count(b[l.layer]) && Segment(a, l, data) == Segment(b, l, data)
  {
    FlattenInjective(Segment(a, l, data), Segment(b, l, data));
  }

  /** `SetData` leaves every layer it does not list as it was. */
  lemma {:induction false} RestoreElsewhere(ns: seq<Node>, ls: seq<WeightData>, data: seq<real>, j: nat)
    requires Matches(ns, ls) && Within(ls, |data|)
    requires j < |ns| && forall t | 0 <= t < |ls| :: ls[t].layer != j
    ensures Restore(ns, ls, data)[j] == ns[j]
    decreases |ls|
  {
    if ls != [] {
      RestoreElsewhere(ns, ls[..|ls| - 1], data, j);
    }
  }

  /** After `SetData(data)`, listed layer `k` holds its segment of `data`, with its shape kept. */
  lemma {:induction false} RestoreAt(ns: seq<Node>, ls: seq<WeightData>, data: seq<real>, k: nat)
    requires Matches(ns, ls) && Within(ls, |data|) && Ascending(ls) && k < |ls|
    ensures Restore(ns, ls, data)[ls[k].layer] == WithWeights(ns[ls[k].layer], Segment(ns, ls[k], data))
    decreases |ls|
  {
    var n := |ls| - 1;
    var pre := ls[..n];
    PrefixFacts(ns, ls, data, n);
    var ms := Restore(ns, pre, data);
    assert Restore(ns, ls, data) == ms[ls[n].layer := WithWeights(ms[ls[n].layer], Segment(ns, ls[n], data))];
    if k < n {
      assert pre[k] == ls[k] && ls[k].layer < ls[n].layer;
      RestoreAt(ns, pre, data, k);
    } else {
      RestoreElsewhere(ns, pre, data, ls[k].layer);
    }
  }

  lemma PrefixFacts(ns: seq<Node>, ls: seq<WeightData>, data: seq<real>, n: nat)
    requires Matches(ns, ls) && Within(ls, |data|) && Ascending(ls) && n < |ls|
    ensures Matches(ns, ls[..n]) && Within(ls[..n], |data|) && Ascending(ls[..n])
    ensures forall t | 0 <= t < n :: ls[t].layer < ls[n].layer
  {
  }

  /** `SetData` changes the weights of dense layers only, and keeps every weight shape. */
  lemma RestoreRetrained(ns: seq<Node>, ls: seq<WeightData>, data: seq<real>)
    requires Matches(ns, ls) && Within(ls, |data|) && Ascending(ls)
    ensures Retrained(ns, Restore(ns, ls, data)) && Matches(Restore(ns, ls, data), ls)
  {
    var r := Restore(ns, ls, data);
    forall j | 0 <= j < |ns|
      ensures r[j] == ns[j]
        || (ns[j].kind.NeuronLayer? && r[j].kind.NeuronLayer? && r[j] == ns[j].(kind := ns[j].kind.(buf := r[j].kind.buf)))
    {
      if k :| 0 <= k < |ls| && ls[k].layer == j {
        RestoreAt(ns, ls, data, k);
      } else {
        RestoreElsewhere(ns, ls, data, j);
      }
    }
    forall k | 0 <= k < |ls|
      ensures r[ls[k].layer].kind.NeuronLayer? && ls[k].count == Count(r[ls[k].layer])
    {
      RestoreAt(ns, ls, data, k);
    }
  }

  /** `SetData(GetData())` changes nothing. */
  lemma RestoreSnapshot(ns: seq<Node>, d: NetDNA)
    requires Tiles(d) && Ascending(d.layers) && Matches(ns, d.layers)
    ensures Within(d.layers, |Snapshot(ns, d.layers)|)
    ensures Restore(ns, d.layers, Snapshot(ns, d.layers)) == ns
  {
    var ls := d.layers;
    var v := Snapshot(ns, ls);
    forall k | 0 <= k < |ls|
      ensures ls[k].offset + ls[k].count <= |v|
    {
      SnapshotAt(ns, ls, k);
    }
    var r := Restore(ns, ls, v);
    forall j | 0 <= j < |ns|
      ensures r[j] == ns[j]
    {
      if k :| 0 <= k < |ls| && ls[k].layer == j {
        SnapshotRestoresLayer(ns, ls, k);
      } else {
        RestoreElsewhere(ns, ls, v, j);
      }
    }
  }

  lemma SnapshotRestoresLayer(ns: seq<Node>, ls: seq<WeightData>, k: nat)
    requires Tiled(ls) && Ascending(ls) && Matches(ns, ls) && k < |ls|
    requires Within(ls, |Snapshot(ns, ls)|)
    ensures Restore(ns, ls, Snapshot(ns, ls))[ls[k].layer] == ns[ls[k].layer]
  {
    var v := Snapshot(ns, ls);
    RestoreAt(ns, ls, v, k);
    SnapshotAt(ns, ls, k);
    UnflattenFlatten(ns[ls[k].layer].kind.buf.weights);
  }

  /** `GetData()` after `SetData(data)` returns `data`. */
  lemma SnapshotRestore(ns: seq<Node>, d: NetDNA, data: seq<real>)
    requires Tiles(d) && Ascending(d.layers) && Matches(ns, d.layers) && |data| == d.size
    ensures Within(d.layers, |data|) && Matches(Restore(ns, d.layers, data), d.layers)
    ensures Snapshot(Restore(ns, d.layers, data), d.layers) == data
  {
    var ls := d.layers;
    forall k | 0 <= k < |ls|
      ensures ls[k].offset + ls[k].count <= |data|
    {
      SegmentInside(ls, k);
    }
    RestoreRetrained(ns, ls, data);
    var r := Restore(ns, ls, data);
    var v := Snapshot(r, ls);
    if ls != [] {
      SnapshotAt(r, ls, 0);
    }
    forall x | 0 <= x < |data|
      ensures v[x] == data[x]
    {
      SegmentsCover(ls, x);
      var k :| 0 <= k < |ls| && ls[k].offset <= x < ls[k].offset + ls[k].count;
      SegmentValue(ns, ls, data, k, x);
    }
  }

  /** Position `x`, in segment `k`, of `GetData()` after `SetData(data)` is `data[x]`. */
  lemma SegmentValue(ns: seq<Node>, ls: seq<WeightData>, data: seq<real>, k: nat, x: nat)
    requires Tiled(ls) && Ascending(ls) && Matches(ns, ls) && Within(ls, |data|) && k < |ls|
    requires Matches(Restore(ns, ls, data), ls)
    requires ls[k].offset <= x < ls[k].offset + ls[k].count
    ensures x < |Snapshot(Restore(ns, ls, data), ls)|
    ensures Snapshot(Restore(ns, ls, data), ls)[x] == data[x]
  {
    var r := Restore(ns, ls, data);
    var l := ls[k];
    SnapshotIndex(r, ls, k, x);
    RestoredWeights(ns, ls, data, k);
    SliceIndex(data, l.offset, l.offset + l.count, x);
  }

  /** Position `x` of `GetData()`, inside segment `k`, is read from that layer's weights. */
  lemma SnapshotIndex(r: seq<Node>, ls: seq<WeightData>, k: nat, x: nat)
    requires Tiled(ls) && Matches(r, ls) && k < |ls|
    requires ls[k].offset <= x < ls[k].offset + ls[k].count
    ensures x < |Snapshot(r, ls)| && x - ls[k].offset < |WeightsOf(r, ls, k)|
    ensures Snapshot(r, ls)[x] == WeightsOf(r, ls, k)[x - ls[k].offset]
  {
    var l := ls[k];
    SnapshotAt(r, ls, k);
    SliceIndex(Snapshot(r, ls), l.offset, l.offset + l.count, x);
  }

  /** After `SetData(data)`, listed layer `k` holds exactly its segment of `data`. */
  lemma RestoredWeights(ns: seq<Node>, ls: seq<WeightData>, data: seq<real>, k: nat)
    requires Matches(ns, ls) && Within(ls, |data|) && Ascending(ls) && k < |ls|
    ensures Restore(ns, ls, data)[ls[k].layer].kind.NeuronLayer?
    ensures Flatten(Restore(ns, ls, data)[ls[k].layer].kind.buf.weights) == data[ls[k].offset..ls[k].offset + ls[k].count]
  {
    RestoreAt(ns, ls, data, k);
  }

  lemma SliceIndex(s: seq<real>, a: nat, b: nat, x: nat)
    requires a <= x < b <= |s|
    ensures s[x] == s[a..b][x - a]
  {
  }

  /**
   * A checkpoint taken on `ns` and restored on `ms`, an arena whose listed
   * layers have been trained since without changing shape: each listed
   * layer gets back the weights it had in `ns`, and keeps the rest of its
   * state from `ms`.
   */
  lemma CheckpointRestores(ns: seq<Node>, ms: seq<Node>, d: NetDNA, k: nat)
    requires Tiles(d) && Ascending(d.layers) && Matches(ns, d.layers) && Matches(ms, d.layers)
    requires k < |d.layers|
    requires var l := d.layers[k].layer; SameShape(ms[l].kind.buf.weights, ns[l].kind.buf.weights)
    ensures Within(d.layers, |Snapshot(ns, d.layers)|)
    ensures var l := d.layers[k].layer;
      Restore(ms, d.layers, Snapshot(ns, d.layers))[l] == WithWeights(ms[l], ns[l].kind.buf.weights)
  {
    SnapshotWithin(ns, d.layers);
    RestoreAt(ms, d.layers, Snapshot(ns, d.layers), k);
    SegmentOfSnapshot(ns, ms, d.layers, k);
  }

  /** Every segment listed lies inside `GetData()`. */
  lemma SnapshotWithin(ns: seq<Node>, ls: seq<WeightData>)
    requires Tiled(ls) && Matches(ns, ls)
    ensures Within(ls, |Snapshot(ns, ls)|)
  {
    forall t | 0 <= t < |ls|
      ensures ls[t].offset + ls[t].count <= |Snapshot(ns, ls)|
    {
      SnapshotAt(ns, ls, t);
    }
  }

  /** Segment `k` of a snapshot of `ns`, read with the shape of `ms`, is the weight matrix of `ns`. */
  lemma SegmentOfSnapshot(ns: seq<Node>, ms: seq<Node>, ls: seq<WeightData>, k: nat)
    requires Tiled(ls) && Matches(ns, ls) && Matches(ms, ls) && k < |ls|
    requires SameShape(ms[ls[k].layer].kind.buf.weights, ns[ls[k].layer].kind.buf.weights)
    requires Within(ls, |Snapshot(ns, ls)|)
    ensures Segment(ms, ls[k], Snapshot(ns, ls)) == ns[ls[k].layer].kind.buf.weights
  {
    var l := ls[k];
    var v := Snapshot(ns, ls);
    var wn := ns[l.layer].kind.buf.weights;
    SnapshotAt(ns, ls, k);
    assert v[l.offset..l.offset + l.count] == Flatten(wn);
    var s := Segment(ms, l, v);
    assert SameShape(s, wn) && Flatten(s) == Flatten(wn);
    FlattenInjective(s, wn);
  }
}
