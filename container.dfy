/**
 * `NeuralNetContainer` of `PVX_NeuralNets_Container.cpp`: a network given by
 * its output layer, saved to and loaded from the `LYRS`/`OUTP` chunks of a
 * `NWRK` file, and driven through its input layers.
 *
 * Saving numbers the gathered layers `1..n` in the order `Gather()` lists
 * them (ascending arena position, standing for ascending address) and writes
 * one chunk per layer; every link is written as the number of the layer it
 * points to. Loading appends a layer for every chunk it has a handler for,
 * then resolves each number `p` to the `p`-th loaded layer.
 */
module Containers {
  import opened Wrappers
  import opened Bytes
  import opened Matrices
  import opened Graph
  import opened BinFormat
  import opened Names
  import opened Inputs
  import opened ActivationLayers
  import opened Dense
  import opened Utility
  import opened Combiners
  import opened Recurrents
  import opened Network
  import opened Nets
  import opened Outputs
  import opened Activations
  import opened Dna

  // ---------------------------------------------------------------- numbering

  predicate Increasing(xs: seq<nat>) {
    forall j, k | 0 <= j < k < |xs| :: xs[j] < xs[k]
  }

  /** The members of `s` below `n`, in ascending order. */
  function Enumerate(s: set<nat>, n: nat): (all: seq<nat>)
    ensures Increasing(all)
    ensures forall k | 0 <= k < |all| :: all[k] < n && all[k] in s
    ensures forall x: nat | x < n && x in s :: x in all
  {
    if n == 0 then [] else Enumerate(s, n - 1) + (if n - 1 in s then [n - 1] else [])
  }

  /** The layers `Gather()` lists from the last layer, in the order it lists them. */
  function Order(ns: seq<Node>, last: nat): (all: seq<nat>)
    requires Wired(ns) && last < |ns|
    ensures Increasing(all) && last in all
    ensures forall x: nat :: x in all <==> x < |ns| && Reaches(ns, last, x)
  {
    GatherExactly(ns, last);
    Enumerate(Gather(ns, last, {}), |ns|)
  }

  /** `g[l] = i++` over the listed layers: each layer's 1-based number. */
  function {:induction false} Numbering(all: seq<nat>): (g: map<nat, nat>)
    requires Increasing(all)
    ensures forall x :: x in g <==> x in all
    ensures forall k | 0 <= k < |all| :: all[k] in g && g[all[k]] == k + 1
  {
    if all == [] then map[]
    else
      var n := |all|;
      var g := Numbering(all[..n - 1]);
      assert forall k | 0 <= k < n - 1 :: all[..n - 1][k] == all[k];
      g[all[n - 1] := n]
  }

  /** Every numbered layer has a number in `1..n`, and it is the number of its position. */
  lemma NumberingInverse(all: seq<nat>, x: nat)
    requires Increasing(all) && x in all
    ensures 1 <= Numbering(all)[x] <= |all| && all[Numbering(all)[x] - 1] == x
  {
    var k :| 0 <= k < |all| && all[k] == x;
    assert Numbering(all)[all[k]] == k + 1;
  }

  /** Numbers follow arena order: a layer below another is numbered before it. */
  lemma NumberingMonotone(all: seq<nat>, x: nat, y: nat)
    requires Increasing(all) && x in all && y in all && x < y
    ensures Numbering(all)[x] < Numbering(all)[y]
  {
    NumberingInverse(all, x);
    NumberingInverse(all, y);
  }

  /** Reachability composes. */
  lemma {:induction false} ReachesTrans(ns: seq<Node>, a: nat, b: nat, c: nat)
    requires Wired(ns) && a < |ns| && b < |ns| && Reaches(ns, a, b) && Reaches(ns, b, c)
    ensures Reaches(ns, a, c)
    decreases a
  {
    if a != b {
      if ns[a].prev.At? && Reaches(ns, ns[a].prev.index, b) {
        ReachesTrans(ns, ns[a].prev.index, b, c);
      } else {
        var k :| 0 <= k < |ns[a].inputs| && Reaches(ns, ns[a].inputs[k].index, b);
        ReachesTrans(ns, ns[a].inputs[k].index, b, c);
      }
    }
  }

  /** The predecessor and the inputs of a gathered layer are gathered too. */
  lemma OrderClosed(ns: seq<Node>, last: nat, x: nat)
    requires Wired(ns) && last < |ns| && x in Order(ns, last)
    ensures ns[x].prev.At? ==> ns[x].prev.index in Order(ns, last)
    ensures forall k | 0 <= k < |ns[x].inputs| :: ns[x].inputs[k].index in Order(ns, last)
  {
    if ns[x].prev.At? {
      var y := ns[x].prev.index;
      assert Reaches(ns, y, y);
      assert Reaches(ns, x, y);
      ReachesTrans(ns, last, x, y);
    }
    forall k | 0 <= k < |ns[x].inputs|
      ensures ns[x].inputs[k].index in Order(ns, last)
    {
      var y := ns[x].inputs[k].index;
      assert Reaches(ns, y, y);
      assert Reaches(ns, x, y);
      ReachesTrans(ns, last, x, y);
    }
  }

  // ---------------------------------------------------------------- Save

  /** `l->Save(bin, g)`, dispatched on the class of the layer. */
  function NodeChunk(fc: Codec<real>, nd: Node, g: map<nat, nat>): Result<seq<byte>> {
    match nd.kind
    case InputLayer => Success(InputChunk(nd))
    case NeuronLayer(_, _, _, _) => DenseSave(fc, nd, g)
    case ActivationLayer(_) => ActivationSave(nd, g)
    case NeuronAdder => AdderSave(nd, g)
    case NeuronMultiplier => MultiplierSave(nd, g)
    case NeuronCombiner => CombinerSave(nd, g)
    case RecurrentLayer(_) => RecurrentSave(nd, g)
  }

  /** The loop over `all` inside `LYRS`: the chunks of the listed layers, one after another. */
  function {:induction false} LayerChunks(fc: Codec<real>, ns: seq<Node>, all: seq<nat>, g: map<nat, nat>): (r: Result<seq<byte>>)
    requires forall k | 0 <= k < |all| :: all[k] < |ns|
    ensures r.Success? <==> forall k | 0 <= k < |all| :: NodeChunk(fc, ns[all[k]], g).Success?
  {
    if all == [] then Success([])
    else
      var n := |all|;
      assert forall k | 0 <= k < n - 1 :: all[..n - 1][k] == all[k];
      match (LayerChunks(fc, ns, all[..n - 1], g), NodeChunk(fc, ns[all[n - 1]], g))
      case (Success(p), Success(c)) => Success(p + c)
      case (Failure(e), _) => Failure(e)
      case (_, Failure(e)) => Failure(e)
  }

  /** `Save(Filename)` after the `NWRK` header: the `LYRS` scope, then the `OUTP` scope. */
  function SaveFile(fc: Codec<real>, ns: seq<Node>, last: nat, t: int): (r: Result<seq<byte>>)
    requires Wired(ns) && last < |ns|
    ensures var all := Order(ns, last);
      r.Success? <==> LayerChunks(fc, ns, all, Numbering(all)).Success?
    ensures var all := Order(ns, last);
      r.Success? ==> r.value == Chunk(LYRS, LayerChunks(fc, ns, all, Numbering(all)).value) + Chunk(OUTP, Encode(OutputFields(t, |all|)))
  {
    var all := Order(ns, last);
    var g := Numbering(all);
    LastNumbered(ns, last);
    match LayerChunks(fc, ns, all, g)
    case Failure(e) => Failure(e)
    case Success(p) => Success(Chunk(LYRS, p) + Chunk(OUTP, Encode(OutputFields(t, g[last]))))
  }

  // ---------------------------------------------------------------- Load

  /**
   * The handlers the `LYRS` handler registers: the layer a chunk loads into,
   * or `None` for a name that has no handler, whose chunk is skipped.
   */
  function LoadLayer(fc: Codec<real>, f: Field): (r: Option<Result<Node>>)
    requires fc.width > 0
    ensures r.Some? <==> f.name == Names.ACTV || f.name == INPT || f.name == DENS || f.name == ADDR
  {
    if f.name == Names.ACTV then Some(ActivationLoad(f.payload))
    else if f.name == INPT then Some(InputLoad(f.payload))
    else if f.name == DENS then Some(DenseLoad(fc, f.payload))
    else if f.name == ADDR then Some(AdderLoad(f.payload))
    else None
  }

  /**
   * Each handler builds a layer of its own class, and none of its links is
   * resolved yet: that is left to the `FixInputs` pass.
   */
  lemma LoadLayerBuilds(fc: Codec<real>, f: Field)
    requires fc.width > 0 && LoadLayer(fc, f).Some? && LoadLayer(fc, f).value.Success?
    ensures var m := LoadLayer(fc, f).value.value;
      !m.prev.At? && (forall k | 0 <= k < |m.inputs| :: !m.inputs[k].At?)
      && (f.name == Names.ACTV ==> m.kind.ActivationLayer?) && (f.name == INPT ==> m.kind.InputLayer?)
      && (f.name == DENS ==> m.kind.NeuronLayer?) && (f.name == ADDR ==> m.kind.NeuronAdder?)
  {
  }

  /**
   * The handlers' results folded in file order: a chunk without a handler is
   * skipped, and the first handler that throws ends the load.
   */
  function {:induction false} Folded(hs: seq<Option<Result<Node>>>): (r: Result<seq<Node>>)
    ensures (forall k | 0 <= k < |hs| :: hs[k].Some? && hs[k].value.Success?) ==>
      r.Success? && |r.value| == |hs| && forall k | 0 <= k < |hs| :: r.value[k] == hs[k].value.value
  {
    if hs == [] then Success([])
    else
      assert forall k | 0 <= k < |hs| - 1 :: hs[1..][k] == hs[k + 1];
      match (hs[0], Folded(hs[1..]))
      case (None, rest) => rest
      case (Some(Failure(e)), _) => Failure(e)
      case (_, Failure(e)) => Failure(e)
      case (Some(Success(nd)), Success(rest)) => Success([nd] + rest)
  }

  /** `Execute` of the `LYRS` scope: each chunk given to its handler, in file order. */
  function LoadLayers(fc: Codec<real>, fs: seq<Field>): Result<seq<Node>>
    requires fc.width > 0
  {
    Folded(seq(|fs|, k requires 0 <= k < |fs| => LoadLayer(fc, fs[k])))
  }

  /** A successful fold yields at most one layer per chunk. */
  lemma {:induction false} FoldedAtMost(hs: seq<Option<Result<Node>>>)
    requires Folded(hs).Success?
    ensures |Folded(hs).value| <= |hs|
  {
    if hs != [] {
      FoldedAtMost(hs[1..]);
    }
  }

  /** A chunk without a handler adds no layer, so a successful fold yields fewer layers than chunks. */
  lemma {:induction false} FoldedSkips(hs: seq<Option<Result<Node>>>, k: nat)
    requires k < |hs| && hs[k].None? && Folded(hs).Success?
    ensures |Folded(hs).value| < |hs|
  {
    if k == 0 {
      FoldedAtMost(hs[1..]);
    } else {
      assert hs[1..][k - 1] == hs[k];
      FoldedSkips(hs[1..], k - 1);
    }
  }

  /**
   * The `LYRS` handlers cover `ACTV`, `INPT`, `DENS` and `ADDR` only, while
   * multipliers, combiners and recurrent layers save `MULP`, `CMBN` and
   * `RCNN` chunks. Such a chunk is skipped, the scope loads into fewer
   * layers than it has chunks, and the 1-based numbers written for the
   * layers after it no longer name the layers they were written for.
   */
  lemma LoadSkipsUnhandled(fc: Codec<real>, fs: seq<Field>, k: nat)
    requires fc.width > 0 && k < |fs| && (fs[k].name == MULP || fs[k].name == CMBN || fs[k].name == RCNN)
    requires LoadLayers(fc, fs).Success?
    ensures |LoadLayers(fc, fs).value| < |fs|
  {
    var hs := seq(|fs|, j requires 0 <= j < |fs| => LoadLayer(fc, fs[j]));
    assert hs[k].None?;
    FoldedSkips(hs, k);
  }

  /**
   * The `OUTP` handler: `TYPE` and `LAST` are uninitialised `int`s, and the
   * output layer is `Layers.at(size_t(last) - 1)`, which throws unless
   * `1 <= last <= n`. The result is the position of the last layer and the
   * output type.
   */
  function OutputOf(fs: seq<Field>, n: nat): (r: Result<(nat, int)>)
    ensures r.Success? ==> r.value.0 < n
  {
    match (ReadScalar(Int32, fs, TYPE, None), ReadScalar(Int32, fs, LAST, None))
    case (Success(tp), Success(last)) => if 1 <= last <= n then Success((last - 1, tp)) else Failure(BadIndex)
    case (Failure(e), _) => Failure(e)
    case (_, Failure(e)) => Failure(e)
  }

  /** What `Execute` of the file scope has built so far: the layers, and the output layer once set. */
  datatype Scope = Scope(layers: seq<Node>, out: Option<(nat, int)>)

  /** `bin.Execute()`: the chunks in file order; a chunk of another name is skipped. */
  function {:induction false} Execute(fc: Codec<real>, fs: seq<Field>, st: Scope): (r: Result<Scope>)
    requires fc.width > 0
    ensures r.Success? && (st.out.Some? ==> st.out.value.0 < |st.layers|) ==>
      r.value.out.Some? ==> r.value.out.value.0 < |r.value.layers|
  {
    if fs == [] then Success(st)
    else if fs[0].name == LYRS then
      match ParseChunks(fs[0].payload)
      case None => Failure(Truncated)
      case Some(sub) =>
        match LoadLayers(fc, sub)
        case Failure(e) => Failure(e)
        case Success(ls) => Execute(fc, fs[1..], st.(layers := st.layers + ls))
    else if fs[0].name == OUTP then
      match ParseChunks(fs[0].payload)
      case None => Failure(Truncated)
      case Some(sub) =>
        match OutputOf(sub, |st.layers|)
        case Failure(e) => Failure(e)
        case Success(o) => Execute(fc, fs[1..], st.(out := Some(o)))
    else Execute(fc, fs[1..], st)
  }

  /** The loop `l->FixInputs(Layers)` over every loaded layer. */
  function {:induction false} FixAll(ls: seq<Node>, n: nat): (r: Result<seq<Node>>)
    ensures r.Success? <==> forall k | 0 <= k < |ls| :: FixInputs(ls[k], n).Success?
    ensures r.Success? ==> |r.value| == |ls| && forall k | 0 <= k < |ls| :: r.value[k] == FixInputs(ls[k], n).value
  {
    if ls == [] then Success([])
    else
      var m := |ls|;
      assert forall k | 0 <= k < m - 1 :: ls[..m - 1][k] == ls[k];
      match (FixAll(ls[..m - 1], n), FixInputs(ls[m - 1], n))
      case (Success(a), Success(b)) => Success(a + [b])
      case (Failure(e), _) => Failure(e)
      case (_, Failure(e)) => Failure(e)
  }

  /** The positions of the input layers, in order: the container's `Inputs`. */
  function InputPositions(ls: seq<Node>): (ps: seq<nat>)
    ensures Increasing(ps)
    ensures forall k: nat :: k in ps <==> k < |ls| && ls[k].kind.InputLayer?
  {
    Enumerate(set k: nat | k < |ls| && ls[k].kind.InputLayer?, |ls|)
  }

  /** A loaded network: its layers, the position of the last one, the output type and the inputs. */
  datatype Loaded = Loaded(layers: seq<Node>, last: nat, kind: int, inputs: seq<nat>)

  /**
   * `NeuralNetContainer(Filename)` on the chunks after the `NWRK` header:
   * `Execute`, then the `FixInputs` loop. A file with no `OUTP` scope never
   * sets `Output`.
   */
  function LoadFile(fc: Codec<real>, file: seq<byte>): (r: Result<Loaded>)
    requires fc.width > 0
    ensures r.Success? ==> r.value.last < |r.value.layers| && r.value.inputs == InputPositions(r.value.layers)
  {
    match ParseChunks(file)
    case None => Failure(Truncated)
    case Some(fs) =>
      match Execute(fc, fs, Scope([], None))
      case Failure(e) => Failure(e)
      case Success(st) =>
        if st.out.None? then Failure(Indeterminate)
        else
          match FixAll(st.layers, |st.layers|)
          case Failure(e) => Failure(e)
          case Success(ls) => Success(Loaded(ls, st.out.value.0, st.out.value.1, InputPositions(ls)))
  }

  // ---------------------------------------------------------------- Save, then load

  /** Every link of the layer leads to a numbered layer. */
  predicate Numbered(nd: Node, g: map<nat, nat>) {
    (nd.prev.At? ==> nd.prev.index in g)
    && forall q | 0 <= q < |nd.inputs| :: nd.inputs[q].At? && nd.inputs[q].index in g
  }

  /** One of the four classes the loader has a handler for, linked the way its constructor links it. */
  predicate Shaped(nd: Node) {
    match nd.kind
    case InputLayer => nd.prev == Null && nd.inputs == []
    case NeuronLayer(_, _, _, _) => nd.prev.At? && nd.inputs == []
    case ActivationLayer(_) => nd.prev.At? && nd.inputs == []
    case NeuronAdder => nd.prev == Null
    case _ => false
  }

  /** The chunk such a layer is saved as, seen as a field of the `LYRS` scope. */
  function NodeField(fc: Codec<real>, nd: Node, g: map<nat, nat>): (f: Field)
    requires Shaped(nd) && Numbered(nd, g)
    ensures NodeChunk(fc, nd, g) == Success(Chunk(f.name, f.payload))
  {
    if nd.kind.InputLayer? then Field(INPT, Encode(InputFields(nd)))
    else if nd.kind.NeuronLayer? then Field(DENS, Encode(DenseFields(fc, nd, g[nd.prev.index])))
    else if nd.kind.ActivationLayer? then Field(Names.ACTV, Encode(ActivationFields(nd, g[nd.prev.index])))
    else Field(ADDR, Encode(AdderFields(nd, InputIndices(g, nd.inputs).value)))
  }

  /** A layer whose values the file carries exactly: sizes and indices fit an `int`, floats fit the codec. */
  ghost predicate StorableNode(fc: Codec<real>, nd: Node) {
    Shaped(nd)
    && match nd.kind
      case InputLayer => 1 <= nd.output.rows <= 0x8000_0000 && |nd.name| < TWO32
      case NeuronLayer(_, _, _, _) => forall idx: nat | IsInt(idx) :: Saveable(fc, nd, idx)
      case ActivationLayer(a) =>
        1 <= nd.output.rows && IsInt(nd.output.rows - 1) && ActCanonical(a) && IsInt(ActCode(a))
      case NeuronAdder => 1 <= nd.output.rows && IsInt(nd.output.rows - 1) && |nd.inputs| * 4 < TWO32
      case _ => false
  }

  /** A network whose every gathered layer is storable and whose `LYRS` scope fits its 32-bit size. */
  ghost predicate Storable(fc: Codec<real>, ns: seq<Node>, last: nat)
    requires Wired(ns) && last < |ns|
  {
    var all := Order(ns, last);
    fc.width == 4 && |ns| < 0x8000_0000
    && (forall k | 0 <= k < |all| :: StorableNode(fc, ns[all[k]]))
    && var p := LayerChunks(fc, ns, all, Numbering(all));
    p.Success? && |p.value| < TWO32
  }

  /** A numbered link after loading: the layer numbered `p` is loaded at position `p - 1`. */
  function Renumber(g: map<nat, nat>, l: Link): Link {
    if l.At? && l.index in g && g[l.index] >= 1 then At(g[l.index] - 1) else l
  }

  /** A link of the loaded arena read in the saved one: position `p` holds the layer `all[p]`. */
  function Lift(all: seq<nat>, l: Link): Link {
    if l.At? && l.index < |all| then At(all[l.index]) else l
  }

  /** What the file keeps of a layer of each class. */
  predicate Kept(a: Node, b: Node) {
    Graph.Tag(b.kind) == Graph.Tag(a.kind)
    && match a.kind
      case InputLayer => b.name == a.name && b.output == Ones(a.output.rows, 1)
      case NeuronLayer(buf, act, train, h) =>
        b.kind.NeuronLayer? && b.name == a.name && b.kind.buf.weights == buf.weights
        && b.kind.activation == act && b.kind.training == train
        && h.dropout != 0.0 && b.kind.hp == Hyper(h.learnRate, h.momentum, 1.0 - h.momentum, h.rmsProp, 1.0 - h.rmsProp,
                              h.dropout, 1.0 / h.dropout)
      case ActivationLayer(_) => b.kind == a.kind && b.output == Ones(a.output.rows, 1)
      case NeuronAdder => b.output == Zeros(a.output.rows, 1)
      case _ => true
  }

  /** `b` is the layer `a` loaded back: what the file keeps, and the same links under `all`. */
  predicate Reloaded(all: seq<nat>, a: Node, b: Node) {
    Kept(a, b) && Lift(all, b.prev) == a.prev
    && |b.inputs| == |a.inputs| && forall q | 0 <= q < |a.inputs| :: Lift(all, b.inputs[q]) == a.inputs[q]
  }

  /**
   * One saved layer, loaded and fixed up: the loader has a handler for its
   * chunk, and every link comes back as the position of the layer it was
   * numbered with.
   */
  ghost predicate ComesBack(fc: Codec<real>, nd: Node, g: map<nat, nat>, n: nat)
    requires fc.width > 0 && Shaped(nd) && Numbered(nd, g)
  {
    var f := NodeField(fc, nd, g);
    LoadLayer(fc, f).Some? && LoadLayer(fc, f).value.Success?
    && var m := LoadLayer(fc, f).value.value;
    FixInputs(m, n).Success?
    && var b := FixInputs(m, n).value;
    Kept(nd, b) && b.prev == Renumber(g, nd.prev)
    && |b.inputs| == |nd.inputs| && forall q | 0 <= q < |nd.inputs| :: b.inputs[q] == Renumber(g, nd.inputs[q])
  }

  /** The numbers of a save lie in `1..n` and fit an `int`. */
  predicate InRange(g: map<nat, nat>, n: nat) {
    forall x | x in g :: 1 <= g[x] <= n && IsInt(g[x])
  }

  /** `ComesBack`, from the field, the loaded layer and the fixed layer. */
  lemma ComesBackBy(fc: Codec<real>, nd: Node, g: map<nat, nat>, n: nat, f: Field, m: Node, b: Node)
    requires fc.width > 0 && Shaped(nd) && Numbered(nd, g)
    requires f == NodeField(fc, nd, g) && LoadLayer(fc, f) == Some(Success(m)) && FixInputs(m, n) == Success(b)
    requires Kept(nd, b) && b.prev == Renumber(g, nd.prev) && |b.inputs| == |nd.inputs|
    requires forall q | 0 <= q < |nd.inputs| :: b.inputs[q] == Renumber(g, nd.inputs[q])
    ensures ComesBack(fc, nd, g, n)
  {
  }

  /** Each of the four chunk names goes to its own handler. */
  lemma DispatchInput(fc: Codec<real>, p: seq<byte>)
    requires fc.width > 0
    ensures LoadLayer(fc, Field(INPT, p)) == Some(InputLoad(p))
  {
  }

  lemma DispatchDense(fc: Codec<real>, p: seq<byte>)
    requires fc.width > 0
    ensures LoadLayer(fc, Field(DENS, p)) == Some(DenseLoad(fc, p))
  {
  }

  lemma DispatchActivation(fc: Codec<real>, p: seq<byte>)
    requires fc.width > 0
    ensures LoadLayer(fc, Field(Names.ACTV, p)) == Some(ActivationLoad(p))
  {
  }

  lemma DispatchAdder(fc: Codec<real>, p: seq<byte>)
    requires fc.width > 0
    ensures LoadLayer(fc, Field(ADDR, p)) == Some(AdderLoad(p))
  {
  }

  /** A placeholder predecessor `p` in range resolves to position `p - 1`, and nothing else changes. */
  lemma ChainFixed(m: Node, idx: nat, n: nat)
    requires m.prev == Mark(idx) && 1 <= idx <= n
    ensures FixInputs(m, n) == Success(m.(prev := At(idx - 1)))
  {
  }

  /** The field of a dense layer, and of an activation layer, holds its predecessor's number. */
  lemma FieldOfChain(fc: Codec<real>, nd: Node, g: map<nat, nat>)
    requires Shaped(nd) && Numbered(nd, g) && (nd.kind.NeuronLayer? || nd.kind.ActivationLayer?)
    ensures nd.kind.NeuronLayer? ==> NodeField(fc, nd, g) == Field(DENS, Encode(DenseFields(fc, nd, g[nd.prev.index])))
    ensures nd.kind.ActivationLayer? ==>
      NodeField(fc, nd, g) == Field(Names.ACTV, Encode(ActivationFields(nd, g[nd.prev.index])))
  {
  }

  lemma InputComesBack(fc: Codec<real>, nd: Node, g: map<nat, nat>, n: nat)
    requires fc.width == 4 && StorableNode(fc, nd) && nd.kind.InputLayer? && Numbered(nd, g)
    ensures ComesBack(fc, nd, g, n)
  {
    InputRoundTrip(nd);
    var p := Encode(InputFields(nd));
    DispatchInput(fc, p);
    var m := InputLoad(p).value;
    assert FixInputs(m, n) == Success(m);
    ComesBackBy(fc, nd, g, n, Field(INPT, p), m, m);
  }

  /** What a reloaded dense layer is, once its predecessor number is resolved. */
  lemma DenseFixed(nd: Node, m: Node, idx: nat, n: nat)
    requires nd.kind.NeuronLayer? && m.kind.NeuronLayer? && 1 <= idx <= n
    requires m.prev == Mark(idx) && m.inputs == [] && m.name == nd.name
    requires m.kind.buf.weights == nd.kind.buf.weights && nd.kind.hp.dropout != 0.0
    requires m.kind.activation == nd.kind.activation && m.kind.training == nd.kind.training
    requires var h := nd.kind.hp;
      m.kind.hp == Hyper(h.learnRate, h.momentum, 1.0 - h.momentum, h.rmsProp, 1.0 - h.rmsProp, h.dropout, 1.0 / h.dropout)
    ensures FixInputs(m, n) == Success(m.(prev := At(idx - 1)))
    ensures Kept(nd, m.(prev := At(idx - 1)))
  {
  }

  /** A dense layer's chunk and the layer it loads into, before `FixInputs`. */
  lemma DenseLoaded(fc: Codec<real>, nd: Node, g: map<nat, nat>) returns (p: seq<byte>, m: Node)
    requires fc.width == 4 && Shaped(nd) && nd.kind.NeuronLayer? && Numbered(nd, g)
    requires Saveable(fc, nd, g[nd.prev.index])
    ensures NodeField(fc, nd, g) == Field(DENS, p) && LoadLayer(fc, Field(DENS, p)) == Some(Success(m))
    ensures m.kind.NeuronLayer? && m.prev == Cast(g[nd.prev.index]) && m.inputs == [] && m.name == nd.name
    ensures m.kind.buf.weights == nd.kind.buf.weights && nd.kind.hp.dropout != 0.0
    ensures m.kind.activation == nd.kind.activation && m.kind.training == nd.kind.training
    ensures var h := nd.kind.hp;
      m.kind.hp == Hyper(h.learnRate, h.momentum, 1.0 - h.momentum, h.rmsProp, 1.0 - h.rmsProp, h.dropout, 1.0 / h.dropout)
  {
    var idx := g[nd.prev.index];
    p := Encode(DenseFields(fc, nd, idx));
    FieldOfChain(fc, nd, g);
    DispatchDense(fc, p);
    DenseRoundTrip(fc, nd, g);
    m := DenseLoad(fc, p).value;
  }

  lemma DenseComesBack(fc: Codec<real>, nd: Node, g: map<nat, nat>, n: nat)
    requires fc.width == 4 && Shaped(nd) && nd.kind.NeuronLayer? && Numbered(nd, g) && InRange(g, n)
    requires Saveable(fc, nd, g[nd.prev.index])
    ensures ComesBack(fc, nd, g, n)
  {
    var idx := g[nd.prev.index];
    var p, m := DenseLoaded(fc, nd, g);
    DenseFixed(nd, m, idx, n);
    ComesBackBy(fc, nd, g, n, Field(DENS, p), m, m.(prev := At(idx - 1)));
  }

  lemma ActivationComesBack(fc: Codec<real>, nd: Node, g: map<nat, nat>, n: nat)
    requires fc.width == 4 && StorableNode(fc, nd) && nd.kind.ActivationLayer? && Numbered(nd, g) && InRange(g, n)
    ensures ComesBack(fc, nd, g, n)
  {
    var idx := g[nd.prev.index];
    var p := Encode(ActivationFields(nd, idx));
    FieldOfChain(fc, nd, g);
    DispatchActivation(fc, p);
    ActivationRoundTrip(nd, g);
    var m := Node([], 0, Ones(nd.output.rows, 1), -1, Mark(idx), [], nd.kind);
    ChainFixed(m, idx, n);
    ComesBackBy(fc, nd, g, n, Field(Names.ACTV, p), m, m.(prev := At(idx - 1)));
  }

  /** What a reloaded adder is, once its input numbers are resolved. */
  lemma AdderFixed(nd: Node, m: Node, g: map<nat, nat>, n: nat)
    requires nd.kind.NeuronAdder? && m.kind == NeuronAdder && m.prev == Null && InRange(g, n)
    requires m.output == Zeros(nd.output.rows, 1) && |m.inputs| == |nd.inputs|
    requires forall q | 0 <= q < |nd.inputs| :: nd.inputs[q].At? && nd.inputs[q].index in g
    requires forall q | 0 <= q < |nd.inputs| :: m.inputs[q] == Mark(g[nd.inputs[q].index])
    ensures FixInputs(m, n).Success?
    ensures var b := FixInputs(m, n).value;
      Kept(nd, b) && b.prev == Null && |b.inputs| == |nd.inputs|
      && forall q | 0 <= q < |nd.inputs| :: b.inputs[q] == Renumber(g, nd.inputs[q])
  {
    FixInputsResolves(m, n);
  }

  lemma AdderComesBack(fc: Codec<real>, nd: Node, g: map<nat, nat>, n: nat)
    requires fc.width == 4 && StorableNode(fc, nd) && nd.kind.NeuronAdder? && Numbered(nd, g) && InRange(g, n)
    ensures ComesBack(fc, nd, g, n)
  {
    AdderRoundTrip(nd, g);
    var p := Encode(AdderFields(nd, InputIndices(g, nd.inputs).value));
    DispatchAdder(fc, p);
    var m := AdderLoad(p).value;
    AdderFixed(nd, m, g, n);
    ComesBackBy(fc, nd, g, n, Field(ADDR, p), m, FixInputs(m, n).value);
  }

  lemma NodeRoundTrip(fc: Codec<real>, nd: Node, g: map<nat, nat>, n: nat)
    requires fc.width == 4 && StorableNode(fc, nd) && Numbered(nd, g) && InRange(g, n)
    ensures ComesBack(fc, nd, g, n)
  {
    match nd.kind
    case InputLayer => InputComesBack(fc, nd, g, n);
    case NeuronLayer(_, _, _, _) =>
      assert Saveable(fc, nd, g[nd.prev.index]);
      DenseComesBack(fc, nd, g, n);
    case ActivationLayer(_) => ActivationComesBack(fc, nd, g, n);
    case NeuronAdder => AdderComesBack(fc, nd, g, n);
  }

  /** An increasing sequence of numbers below `n` has at most `n` entries. */
  lemma {:induction false} IncreasingBound(xs: seq<nat>, n: nat)
    requires Increasing(xs) && forall k | 0 <= k < |xs| :: xs[k] < n
    ensures |xs| <= n
  {
    if xs != [] {
      var m := |xs| - 1;
      assert Increasing(xs[..m]) by {
        assert forall k | 0 <= k < m :: xs[..m][k] == xs[k];
      }
      IncreasingBound(xs[..m], xs[m]);
    }
  }

  /** The `LYRS` payload is the encoding of the layers' fields, in saving order. */
  lemma {:induction false} LayerChunksEncode(fc: Codec<real>, ns: seq<Node>, all: seq<nat>, g: map<nat, nat>, fs: seq<Field>)
    requires forall k | 0 <= k < |all| :: all[k] < |ns|
    requires |fs| == |all|
    requires forall k | 0 <= k < |all| :: SavedAt(fc, ns, all, g, k, fs[k])
    ensures LayerChunks(fc, ns, all, g) == Success(Encode(fs))
  {
    if all != [] {
      var m := |all| - 1;
      assert forall k | 0 <= k < m :: all[..m][k] == all[k] && fs[..m][k] == fs[k];
      assert forall k | 0 <= k < m :: SavedAt(fc, ns, all[..m], g, k, fs[..m][k]);
      LayerChunksEncode(fc, ns, all[..m], g, fs[..m]);
      var c := Chunk(fs[m].name, fs[m].payload);
      assert NodeChunk(fc, ns[all[m]], g) == Success(c);
      LayerChunksSnoc(fc, ns, all, g, Encode(fs[..m]), c);
      EncodeSnoc(fs);
    }
  }

  /** The chunks of the saving order are those of all but the last layer, then the last one's. */
  lemma LayerChunksSnoc(fc: Codec<real>, ns: seq<Node>, all: seq<nat>, g: map<nat, nat>, p: seq<byte>, c: seq<byte>)
    requires all != [] && forall k | 0 <= k < |all| :: all[k] < |ns|
    requires LayerChunks(fc, ns, all[..|all| - 1], g) == Success(p) && NodeChunk(fc, ns[all[|all| - 1]], g) == Success(c)
    ensures LayerChunks(fc, ns, all, g) == Success(p + c)
  {
  }

  lemma LastSplit<T>(s: seq<T>)
    requires s != []
    ensures s[..|s| - 1] + [s[|s| - 1]] == s
  {
  }

  /** The encoding of fields is that of all but the last, then the last chunk. */
  lemma {:induction false} EncodeSnoc(fs: seq<Field>)
    requires fs != []
    ensures var m := |fs| - 1; Encode(fs) == Encode(fs[..m]) + Chunk(fs[m].name, fs[m].payload)
  {
    var m := |fs| - 1;
    EncodeAppend(fs[..m], [fs[m]]);
    LastSplit(fs);
    assert Encode([fs[m]]) == Chunk(fs[m].name, fs[m].payload) + Encode([]);
  }

  /** Each payload is shorter than the encoding it is part of. */
  lemma {:induction false} EncodeBound(fs: seq<Field>, k: nat)
    requires k < |fs|
    ensures |fs[k].payload| + 8 <= |Encode(fs)|
  {
    if k > 0 {
      EncodeBound(fs[1..], k - 1);
    }
  }

  /**
   * A link of a gathered layer, renumbered for the file and read back in the
   * saved arena, is the link it was, and it leads below the layer's position.
   */
  lemma LinkBack(all: seq<nat>, x: nat, l: Link)
    requires Increasing(all) && x in all
    requires l.Null? || (l.At? && l.index in all && l.index < x)
    ensures Lift(all, Renumber(Numbering(all), l)) == l
    ensures Below(Renumber(Numbering(all), l), Numbering(all)[x] - 1)
  {
    var g := Numbering(all);
    if l.At? {
      var y := l.index;
      NumberingInverse(all, y);
      NumberingMonotone(all, y, x);
      assert Renumber(g, l) == At(g[y] - 1);
      assert l == At(all[g[y] - 1]);
    }
  }

  /** A layer of the same class as one of the four loadable ones has no recurrent input. */
  lemma ShapedNotRecurrent(a: Node, b: Node)
    requires Shaped(a) && Graph.Tag(b.kind) == Graph.Tag(a.kind)
    ensures RecOf(b.kind).Null?
  {
    assert Graph.Tag(a.kind) <= 3;
  }

  /** Where a loaded layer's links lead, read in the saved arena, and that they lead below it. */
  lemma PositionBack(all: seq<nat>, k: nat, nd: Node, b: Node)
    requires Increasing(all) && k < |all|
    requires LinksBelow(nd, all[k])
    requires Shaped(nd) && Numbered(nd, Numbering(all)) && Kept(nd, b) && b.prev == Renumber(Numbering(all), nd.prev)
    requires |b.inputs| == |nd.inputs| && forall q | 0 <= q < |nd.inputs| :: b.inputs[q] == Renumber(Numbering(all), nd.inputs[q])
    ensures Reloaded(all, nd, b)
    ensures Below(b.prev, k) && RecOf(b.kind).Null?
    ensures forall q | 0 <= q < |b.inputs| :: b.inputs[q].At? && b.inputs[q].index < k
  {
    var g := Numbering(all);
    var x := all[k];
    assert g[x] == k + 1;
    LinkBack(all, x, nd.prev);
    forall q | 0 <= q < |nd.inputs|
      ensures Lift(all, b.inputs[q]) == nd.inputs[q] && b.inputs[q].At? && b.inputs[q].index < k
    {
      LinkBack(all, x, nd.inputs[q]);
    }
    ShapedNotRecurrent(nd, b);
  }

  /** The arena after a save and a load, against the saved one. */
  ghost predicate Faithful(ns: seq<Node>, last: nat, t: int, l: Loaded)
    requires Wired(ns) && last < |ns|
  {
    var all := Order(ns, last);
    |l.layers| == |all| && Wired(l.layers) && l.last < |all| && all[l.last] == last && l.kind == t
    && forall k | 0 <= k < |all| :: Reloaded(all, ns[all[k]], l.layers[k])
  }

  /** The two top-level scopes of a saved file parse back. */
  lemma TopParse(p: seq<byte>, q: seq<byte>)
    requires |p| < TWO32 && |q| < TWO32
    ensures ParseChunks(Chunk(LYRS, p) + Chunk(OUTP, q)) == Some([Field(LYRS, p), Field(OUTP, q)])
  {
    var top := [Field(LYRS, p), Field(OUTP, q)];
    assert Encode(top) == Chunk(LYRS, p) + Chunk(OUTP, q) by {
      assert top[1..] == [Field(OUTP, q)];
      assert Encode(top[1..]) == Chunk(OUTP, q) + Encode([]);
    }
    ParseEncode(top);
  }

  /** `Execute` of the `LYRS` scope appends every layer its fields load into. */
  lemma ExecuteLayers(fc: Codec<real>, p: seq<byte>, raw: seq<Node>, rest: seq<Field>)
    requires fc.width > 0 && ParseChunks(p).Some? && LoadLayers(fc, ParseChunks(p).value) == Success(raw)
    ensures Execute(fc, [Field(LYRS, p)] + rest, Scope([], None)) == Execute(fc, rest, Scope(raw, None))
  {
    var top := [Field(LYRS, p)] + rest;
    assert top[1..] == rest;
    assert [] + raw == raw;
  }

  /** `Execute` of the `OUTP` scope sets the output layer. */
  lemma ExecuteOutput(fc: Codec<real>, q: seq<byte>, ls: seq<Node>, o: (nat, int))
    requires fc.width > 0 && ParseChunks(q).Some? && OutputOf(ParseChunks(q).value, |ls|) == Success(o)
    ensures Execute(fc, [Field(OUTP, q)], Scope(ls, None)) == Success(Scope(ls, Some(o)))
  {
    assert [Field(OUTP, q)][1..] == [];
  }

  /** The `OUTP` scope is two 4-byte fields, each behind an 8-byte header. */
  lemma OutputSize(t: int, i: nat)
    ensures |Encode(OutputFields(t, i))| == 24
  {
    var fs := OutputFields(t, i);
    assert fs[1..][1..] == [];
    assert Encode(fs) == Chunk(TYPE, EncodeInt(t)) + (Chunk(LAST, EncodeInt(ToInt32(i))) + Encode([]));
  }

  /** The `OUTP` scope of a save parses back to layer `i` (1-based) and type `t`. */
  lemma OutputBack(t: int, i: nat, n: nat)
    requires IsInt(t) && IsInt(i) && 1 <= i <= n
    ensures var q := Encode(OutputFields(t, i));
      |q| < TWO32 && ParseChunks(q).Some? && OutputOf(ParseChunks(q).value, n) == Success((i - 1, t))
  {
    OutputSize(t, i);
    OutputFieldsRead(t, i);
  }

  /** `LoadFile` of a two-scope file from the results of its stages. */
  lemma LoadFileBy(fc: Codec<real>, p: seq<byte>, q: seq<byte>, raw: seq<Node>, last: nat, t: int, ls: seq<Node>)
    requires fc.width > 0 && |p| < TWO32 && |q| < TWO32
    requires Execute(fc, [Field(LYRS, p), Field(OUTP, q)], Scope([], None)) == Success(Scope(raw, Some((last, t))))
    requires FixAll(raw, |raw|) == Success(ls)
    ensures LoadFile(fc, Chunk(LYRS, p) + Chunk(OUTP, q)) == Success(Loaded(ls, last, t, InputPositions(ls)))
  {
    TopParse(p, q);
  }

  /**
   * The file-level half of a load: a `LYRS` scope of fields that all load,
   * then an `OUTP` scope naming the last layer and the output type, and a
   * fix-up that succeeds.
   */
  lemma LoadOfFile(fc: Codec<real>, p: seq<byte>, q: seq<byte>, raw: seq<Node>, last: nat, t: int, ls: seq<Node>)
    requires fc.width > 0 && |p| < TWO32 && |q| < TWO32
    requires ParseChunks(p).Some? && LoadLayers(fc, ParseChunks(p).value) == Success(raw)
    requires ParseChunks(q).Some? && OutputOf(ParseChunks(q).value, |raw|) == Success((last, t))
    requires FixAll(raw, |raw|) == Success(ls)
    ensures LoadFile(fc, Chunk(LYRS, p) + Chunk(OUTP, q)) == Success(Loaded(ls, last, t, InputPositions(ls)))
  {
    ExecuteLayers(fc, p, raw, [Field(OUTP, q)]);
    ExecuteOutput(fc, q, raw, (last, t));
    assert [Field(LYRS, p)] + [Field(OUTP, q)] == [Field(LYRS, p), Field(OUTP, q)];
    LoadFileBy(fc, p, q, raw, last, t, ls);
  }

  /** The links of a layer at arena position `x` lead below it. */
  predicate LinksBelow(nd: Node, x: nat) {
    Below(nd.prev, x) && forall q | 0 <= q < |nd.inputs| :: nd.inputs[q].At? && nd.inputs[q].index < x
  }

  /** Layer `k` of the saving order is saved as the chunk `f`. */
  ghost predicate SavedAt(fc: Codec<real>, ns: seq<Node>, all: seq<nat>, g: map<nat, nat>, k: nat, f: Field) {
    k < |all| && all[k] < |ns| && Shaped(ns[all[k]]) && Numbered(ns[all[k]], g)
    && f == NodeField(fc, ns[all[k]], g)
  }

  /** The chunk `f` loads into `m`, which `FixInputs` turns into `b`. */
  ghost predicate LoadsAt(fc: Codec<real>, n: nat, f: Field, m: Node, b: Node)
    requires fc.width > 0
  {
    LoadLayer(fc, f) == Some(Success(m)) && FixInputs(m, n) == Success(b)
  }

  /** `b` is layer `k` of the saving order back: with what the file keeps of it, linked below its position. */
  ghost predicate BackAt(ns: seq<Node>, all: seq<nat>, k: nat, b: Node) {
    k < |all| && all[k] < |ns| && Reloaded(all, ns[all[k]], b) && LinksBelow(b, k) && RecOf(b.kind).Null?
  }

  /** The save numbering lies in `1..n` and fits an `int`. */
  lemma SaveNumbers(ns: seq<Node>, last: nat)
    requires Wired(ns) && last < |ns| && |ns| < 0x8000_0000
    ensures InRange(Numbering(Order(ns, last)), |Order(ns, last)|)
  {
    var all := Order(ns, last);
    IncreasingBound(all, |ns|);
    forall x | x in Numbering(all) ensures 1 <= Numbering(all)[x] <= |all| && IsInt(Numbering(all)[x]) {
      NumberingInverse(all, x);
    }
  }

  /** What the save needs of layer `k` of the saving order: it is storable and links below itself to numbered layers. */
  ghost predicate Ready(fc: Codec<real>, ns: seq<Node>, all: seq<nat>, k: nat)
    requires Increasing(all)
  {
    k < |all| && all[k] < |ns| && StorableNode(fc, ns[all[k]]) && Numbered(ns[all[k]], Numbering(all))
    && LinksBelow(ns[all[k]], all[k])
  }

  /** Every gathered layer of a storable network is ready to be saved. */
  lemma AllReady(fc: Codec<real>, ns: seq<Node>, last: nat)
    requires Wired(ns) && last < |ns| && Storable(fc, ns, last)
    ensures forall k | 0 <= k < |Order(ns, last)| :: Ready(fc, ns, Order(ns, last), k)
  {
    var all := Order(ns, last);
    forall k | 0 <= k < |all| ensures Ready(fc, ns, all, k) {
      OrderClosed(ns, last, all[k]);
    }
  }

  /** One gathered layer, saved, loaded and fixed up. */
  lemma LayerBack(fc: Codec<real>, ns: seq<Node>, all: seq<nat>, k: nat) returns (f: Field, m: Node, b: Node)
    requires fc.width == 4 && Increasing(all) && InRange(Numbering(all), |all|) && Ready(fc, ns, all, k)
    ensures SavedAt(fc, ns, all, Numbering(all), k, f) && LoadsAt(fc, |all|, f, m, b) && BackAt(ns, all, k, b)
  {
    var g := Numbering(all);
    var nd := ns[all[k]];
    NodeRoundTrip(fc, nd, g, |all|);
    f := NodeField(fc, nd, g);
    m := LoadLayer(fc, f).value.value;
    b := FixInputs(m, |all|).value;
    PositionBack(all, k, nd, b);
  }

  /** The first `j` layers of the saving order, each saved, loaded and fixed up. */
  lemma Collect(fc: Codec<real>, ns: seq<Node>, all: seq<nat>, j: nat) returns (fs: seq<Field>, ms: seq<Node>, bs: seq<Node>)
    requires fc.width == 4 && Increasing(all) && InRange(Numbering(all), |all|) && j <= |all|
    requires forall k | 0 <= k < |all| :: Ready(fc, ns, all, k)
    ensures |fs| == j && |ms| == j && |bs| == j
    ensures forall k | 0 <= k < j :: SavedAt(fc, ns, all, Numbering(all), k, fs[k])
    ensures forall k | 0 <= k < j :: LoadsAt(fc, |all|, fs[k], ms[k], bs[k])
    ensures forall k | 0 <= k < j :: BackAt(ns, all, k, bs[k])
  {
    if j == 0 {
      fs, ms, bs := [], [], [];
    } else {
      var fs0, ms0, bs0 := Collect(fc, ns, all, j - 1);
      var f, m, b := LayerBack(fc, ns, all, j - 1);
      SavedSnoc(fc, ns, all, Numbering(all), fs0, f);
      LoadedSnoc(fc, |all|, fs0, ms0, bs0, f, m, b);
      BackSnoc(ns, all, bs0, b);
      fs, ms, bs := fs0 + [f], ms0 + [m], bs0 + [b];
    }
  }

  /** One more saved chunk, after the ones before it. */
  lemma SavedSnoc(fc: Codec<real>, ns: seq<Node>, all: seq<nat>, g: map<nat, nat>, fs: seq<Field>, f: Field)
    requires forall k | 0 <= k < |fs| :: SavedAt(fc, ns, all, g, k, fs[k])
    requires SavedAt(fc, ns, all, g, |fs|, f)
    ensures forall k | 0 <= k < |fs| + 1 :: SavedAt(fc, ns, all, g, k, (fs + [f])[k])
  {
    assert forall k | 0 <= k < |fs| :: (fs + [f])[k] == fs[k];
  }

  /** One more loaded layer, after the ones before it. */
  lemma LoadedSnoc(fc: Codec<real>, n: nat, fs: seq<Field>, ms: seq<Node>, bs: seq<Node>, f: Field, m: Node, b: Node)
    requires fc.width > 0 && |ms| == |fs| && |bs| == |fs|
    requires forall k | 0 <= k < |fs| :: LoadsAt(fc, n, fs[k], ms[k], bs[k])
    requires LoadsAt(fc, n, f, m, b)
    ensures forall k | 0 <= k < |fs| + 1 :: LoadsAt(fc, n, (fs + [f])[k], (ms + [m])[k], (bs + [b])[k])
  {
    assert forall k | 0 <= k < |fs| :: (fs + [f])[k] == fs[k] && (ms + [m])[k] == ms[k] && (bs + [b])[k] == bs[k];
  }

  /** One more layer back, after the ones before it. */
  lemma BackSnoc(ns: seq<Node>, all: seq<nat>, bs: seq<Node>, b: Node)
    requires forall k | 0 <= k < |bs| :: BackAt(ns, all, k, bs[k])
    requires BackAt(ns, all, |bs|, b)
    ensures forall k | 0 <= k < |bs| + 1 :: BackAt(ns, all, k, (bs + [b])[k])
  {
    assert forall k | 0 <= k < |bs| :: (bs + [b])[k] == bs[k];
  }

  /** The loader's loop over the fields, from what each field loads into. */
  lemma LoadAll(fc: Codec<real>, fs: seq<Field>, ms: seq<Node>)
    requires fc.width > 0 && |fs| == |ms| && forall k | 0 <= k < |fs| :: LoadLayer(fc, fs[k]) == Some(Success(ms[k]))
    ensures LoadLayers(fc, fs) == Success(ms)
  {
    var hs := seq(|fs|, k requires 0 <= k < |fs| => LoadLayer(fc, fs[k]));
    assert forall k | 0 <= k < |hs| :: hs[k] == Some(Success(ms[k]));
    var r := Folded(hs);
    assert r.Success? && |r.value| == |ms|;
    assert r.value == ms;
  }

  /** The `FixInputs` loop, from what each layer fixes up to. */
  lemma FixAllOf(ms: seq<Node>, n: nat, bs: seq<Node>)
    requires |ms| == |bs| && forall k | 0 <= k < |ms| :: FixInputs(ms[k], n) == Success(bs[k])
    ensures FixAll(ms, n) == Success(bs)
  {
    var r := FixAll(ms, n);
    assert r.Success?;
    assert r.value == bs;
  }

  /** An arena whose every layer links below itself and has no recurrent input is wired. */
  lemma WiredOf(bs: seq<Node>)
    requires forall k | 0 <= k < |bs| :: LinksBelow(bs[k], k) && RecOf(bs[k].kind).Null?
    ensures Wired(bs)
  {
  }

  /** `SaveFile` from the `LYRS` payload. */
  lemma SaveFileBy(fc: Codec<real>, ns: seq<Node>, last: nat, t: int, p: seq<byte>)
    requires Wired(ns) && last < |ns| && LayerChunks(fc, ns, Order(ns, last), Numbering(Order(ns, last))) == Success(p)
    ensures SaveFile(fc, ns, last, t) == Success(Chunk(LYRS, p) + Chunk(OUTP, Encode(OutputFields(t, Numbering(Order(ns, last))[last]))))
  {
  }

  /** The fields of the `LYRS` scope fit, and their encoding is what the save writes. */
  lemma SavedFields(fc: Codec<real>, ns: seq<Node>, all: seq<nat>, fs: seq<Field>)
    requires Increasing(all) && (forall k | 0 <= k < |all| :: all[k] < |ns|) && |fs| == |all|
    requires LayerChunks(fc, ns, all, Numbering(all)).Success? && |LayerChunks(fc, ns, all, Numbering(all)).value| < TWO32
    requires forall k | 0 <= k < |fs| :: SavedAt(fc, ns, all, Numbering(all), k, fs[k])
    ensures Fits(fs) && |Encode(fs)| < TWO32
    ensures LayerChunks(fc, ns, all, Numbering(all)) == Success(Encode(fs))
  {
    LayerChunksEncode(fc, ns, all, Numbering(all), fs);
    forall k | 0 <= k < |fs| ensures |fs[k].payload| < TWO32 {
      EncodeBound(fs, k);
    }
  }

  /**
   * The save half: what `SaveFile` writes, from the chunks of the gathered
   * layers, and the `OUTP` payload `q` that names the last layer.
   */
  lemma SaveHalf(fc: Codec<real>, ns: seq<Node>, last: nat, t: int, fs: seq<Field>) returns (q: seq<byte>)
    requires Wired(ns) && last < |ns| && IsInt(t) && Storable(fc, ns, last) && |fs| == |Order(ns, last)|
    requires InRange(Numbering(Order(ns, last)), |Order(ns, last)|) && last in Numbering(Order(ns, last))
    requires forall k | 0 <= k < |fs| :: SavedAt(fc, ns, Order(ns, last), Numbering(Order(ns, last)), k, fs[k])
    ensures Fits(fs) && |Encode(fs)| < TWO32 && |q| < TWO32 && ParseChunks(q).Some?
    ensures OutputOf(ParseChunks(q).value, |fs|) == Success((Numbering(Order(ns, last))[last] - 1, t))
    ensures SaveFile(fc, ns, last, t) == Success(Chunk(LYRS, Encode(fs)) + Chunk(OUTP, q))
  {
    SavedFields(fc, ns, Order(ns, last), fs);
    SaveFileBy(fc, ns, last, t, Encode(fs));
    var i := Numbering(Order(ns, last))[last];
    OutputBack(t, i, |fs|);
    q := Encode(OutputFields(t, i));
  }

  /** The loader's loop and the fix-up loop, over chunks that each load and fix up. */
  lemma LoadsAll(fc: Codec<real>, n: nat, fs: seq<Field>, ms: seq<Node>, bs: seq<Node>)
    requires fc.width > 0 && |fs| == n && |ms| == n && |bs| == n
    requires forall k | 0 <= k < n :: LoadsAt(fc, n, fs[k], ms[k], bs[k])
    ensures LoadLayers(fc, fs) == Success(ms) && FixAll(ms, |ms|) == Success(bs)
  {
    forall k | 0 <= k < n
      ensures LoadLayer(fc, fs[k]) == Some(Success(ms[k])) && FixInputs(ms[k], n) == Success(bs[k])
    {
      assert LoadsAt(fc, n, fs[k], ms[k], bs[k]);
    }
    LoadAll(fc, fs, ms);
    FixAllOf(ms, n, bs);
  }

  /** The fixed-up layers, against the gathered ones they came from. */
  lemma FaithfulOf(fc: Codec<real>, ns: seq<Node>, last: nat, t: int, fs: seq<Field>, ms: seq<Node>, bs: seq<Node>, i: nat)
    requires Wired(ns) && last < |ns| && fc.width > 0
    requires |fs| == |Order(ns, last)| && |ms| == |fs| && |bs| == |fs| && 1 <= i <= |fs| && Order(ns, last)[i - 1] == last
    requires forall k | 0 <= k < |fs| :: BackAt(ns, Order(ns, last), k, bs[k])
    ensures Faithful(ns, last, t, Loaded(bs, i - 1, t, InputPositions(bs)))
  {
    WiredOf(bs);
  }

  /**
   * Saving a network of the four loadable classes and loading the file
   * gives back its gathered layers in saving order, each with what the file
   * keeps of it and with the same links, and the same last layer and output
   * type.
   */
  lemma SaveLoad(fc: Codec<real>, ns: seq<Node>, last: nat, t: int)
    requires Wired(ns) && last < |ns| && IsInt(t) && Storable(fc, ns, last)
    ensures SaveFile(fc, ns, last, t).Success?
    ensures var r := LoadFile(fc, SaveFile(fc, ns, last, t).value); r.Success? && Faithful(ns, last, t, r.value)
  {
    var all := Order(ns, last);
    var g := Numbering(all);
    SaveNumbers(ns, last);
    AllReady(fc, ns, last);
    var fs, ms, bs := Collect(fc, ns, all, |all|);
    NumberingInverse(all, last);
    var q := SaveHalf(fc, ns, last, t, fs);
    LoadsAll(fc, |all|, fs, ms, bs);
    ParseEncode(fs);
    LoadOfFile(fc, Encode(fs), q, ms, g[last] - 1, t, bs);
    FaithfulOf(fc, ns, last, t, fs, ms, bs, g[last]);
  }

  // ---------------------------------------------------------------- edges after a round trip

  /** Layer `i` links to layer `j`: as its predecessor or as one of its inputs. */
  predicate Edge(ns: seq<Node>, i: nat, j: nat)
    requires i < |ns|
  {
    ns[i].prev == At(j) || exists q | 0 <= q < |ns[i].inputs| :: ns[i].inputs[q] == At(j)
  }

  /** Reading a link of the loaded arena in the saved one keeps and reflects where it leads. */
  lemma LiftAt(all: seq<nat>, l: Link, j: nat)
    requires Increasing(all) && j < |all| && (l.Null? || (l.At? && l.index < |all|))
    ensures l == At(j) <==> Lift(all, l) == At(all[j])
  {
  }

  /** After a save and a load, layer `i` links to layer `j` exactly when their saved layers did. */
  lemma EdgeBack(ns: seq<Node>, last: nat, t: int, l: Loaded, i: nat, j: nat)
    requires Wired(ns) && last < |ns| && Faithful(ns, last, t, l) && i < |l.layers| && j < |l.layers|
    ensures Order(ns, last)[i] < |ns| && Order(ns, last)[j] < |ns|
    ensures Edge(l.layers, i, j) <==> Edge(ns, Order(ns, last)[i], Order(ns, last)[j])
  {
    var all := Order(ns, last);
    var a := ns[all[i]];
    var b := l.layers[i];
    assert Reloaded(all, a, b);
    LiftAt(all, b.prev, j);
    forall q | 0 <= q < |b.inputs|
      ensures b.inputs[q] == At(j) <==> a.inputs[q] == At(all[j])
    {
      LiftAt(all, b.inputs[q], j);
    }
    if Edge(ns, all[i], all[j]) && a.prev != At(all[j]) {
      var q :| 0 <= q < |a.inputs| && a.inputs[q] == At(all[j]);
      assert b.inputs[q] == At(j);
    }
  }

  /** A kept layer is an input layer exactly when the layer it was saved from is. */
  lemma KeptInput(a: Node, b: Node)
    requires Kept(a, b)
    ensures a.kind.InputLayer? <==> b.kind.InputLayer?
  {
    assert Graph.Tag(b.kind) == Graph.Tag(a.kind);
  }

  /** After a save and a load, the container's inputs are the positions of the saved input layers. */
  lemma InputsBack(ns: seq<Node>, last: nat, t: int, l: Loaded, k: nat)
    requires Wired(ns) && last < |ns| && Faithful(ns, last, t, l) && l.inputs == InputPositions(l.layers)
    ensures k in l.inputs <==> k < |Order(ns, last)| && ns[Order(ns, last)[k]].kind.InputLayer?
  {
    var all := Order(ns, last);
    if k < |all| {
      assert Reloaded(all, ns[all[k]], l.layers[k]);
      KeptInput(ns[all[k]], l.layers[k]);
    }
  }

  /**
   * Round trip of a container: saving a network of the four loadable
   * classes and loading the file gives an arena with one layer per gathered
   * layer, in saving order, where layer `i` links to layer `j` exactly when
   * the saved layers did, whose inputs are the saved input layers, and
   * whose output layer is the saved last layer with the same type.
   */
  lemma SaveLoadEdges(fc: Codec<real>, ns: seq<Node>, last: nat, t: int)
    requires Wired(ns) && last < |ns| && IsInt(t) && Storable(fc, ns, last)
    ensures SaveFile(fc, ns, last, t).Success?
    ensures var r := LoadFile(fc, SaveFile(fc, ns, last, t).value); var all := Order(ns, last);
      r.Success? && |r.value.layers| == |all| && Wired(r.value.layers)
      && r.value.last < |all| && all[r.value.last] == last && r.value.kind == t
      && (forall i, j | 0 <= i < |all| && 0 <= j < |all| :: Edge(r.value.layers, i, j) <==> Edge(ns, all[i], all[j]))
      && forall k: nat :: k in r.value.inputs <==> k < |all| && ns[all[k]].kind.InputLayer?
  {
    SaveLoad(fc, ns, last, t);
    var l := LoadFile(fc, SaveFile(fc, ns, last, t).value).value;
    forall i, j | 0 <= i < |l.layers| && 0 <= j < |l.layers|
      ensures Edge(l.layers, i, j) <==> Edge(ns, Order(ns, last)[i], Order(ns, last)[j])
    {
      EdgeBack(ns, last, t, l, i, j);
    }
    forall k: nat
      ensures k in l.inputs <==> k < |Order(ns, last)| && ns[Order(ns, last)[k]].kind.InputLayer?
    {
      InputsBack(ns, last, t, l, k);
    }
  }

  // ---------------------------------------------------------------- the copy constructor

  /** Links lead to earlier layers, so whatever a layer reaches sits at or below it. */
  lemma {:induction false} ReachesBelow(ns: seq<Node>, a: nat, b: nat)
    requires Wired(ns) && a < |ns| && Reaches(ns, a, b)
    ensures b <= a
    decreases a
  {
    if a != b {
      if ns[a].prev.At? && Reaches(ns, ns[a].prev.index, b) {
        ReachesBelow(ns, ns[a].prev.index, b);
      } else {
        var k :| 0 <= k < |ns[a].inputs| && Reaches(ns, ns[a].inputs[k].index, b);
        ReachesBelow(ns, ns[a].inputs[k].index, b);
      }
    }
  }

  /** The last layer is the last one `Gather()` lists, so it gets the highest number, `n`. */
  lemma LastNumbered(ns: seq<Node>, last: nat)
    requires Wired(ns) && last < |ns|
    ensures var all := Order(ns, last);
      |all| >= 1 && all[|all| - 1] == last && Numbering(all)[last] == |all|
  {
    var all := Order(ns, last);
    var k :| 0 <= k < |all| && all[k] == last;
    if k < |all| - 1 {
      ReachesBelow(ns, last, all[|all| - 1]);
    }
  }

  /**
   * The output layer of a copy as written: `Layers[IndexOf.at(LastLayer)]`
   * with the 1-based number of the last layer, where `Layers` holds the `n`
   * copies at positions `0..n-1`. Reading past the end is undefined
   * behaviour.
   */
  function CopyOutAsWritten(ns: seq<Node>, last: nat): (r: Result<nat>)
    requires Wired(ns) && last < |ns|
    ensures r.Success? ==> r.value < |Order(ns, last)|
  {
    var all := Order(ns, last);
    var i := Numbering(all)[last];
    if i < |all| then Success(i) else Failure(BadIndex)
  }

  /**
   * As written, the copy reads one past the end of its layers whenever the
   * last layer gets the highest number, which in an arena, where position
   * stands for address, it always does. With real addresses `IndexOf` can
   * number another layer last; the copy then picks the layer after the last
   * one instead of the last one itself.
   */
  lemma CopyOutOfRange(ns: seq<Node>, last: nat)
    requires Wired(ns) && last < |ns|
    ensures CopyOutAsWritten(ns, last) == Failure(BadIndex)
  {
    LastNumbered(ns, last);
  }

  /** The output layer of a copy as the loader picks it, `Layers[IndexOf.at(LastLayer) - 1]`. */
  function CopyOut(ns: seq<Node>, last: nat): (r: nat)
    requires Wired(ns) && last < |ns|
    ensures r < |Order(ns, last)| && Order(ns, last)[r] == last
  {
    LastNumbered(ns, last);
    Numbering(Order(ns, last))[last] - 1
  }

  // ---------------------------------------------------------------- helpers of the class

  /** Every member of an ascending sequence is at most its last. */
  lemma IncreasingLast(a: seq<nat>, x: nat)
    requires Increasing(a) && x in a
    ensures x <= a[|a| - 1]
  {
    var i :| 0 <= i < |a| && a[i] == x;
    assert i <= |a| - 1;
  }

  /** In an ascending sequence, the members before the last are those other than the last. */
  lemma IncreasingInit(a: seq<nat>, x: nat)
    requires Increasing(a) && a != []
    ensures x in a[..|a| - 1] <==> x in a && x != a[|a| - 1]
  {
    var m := |a| - 1;
    if x in a[..m] {
      var i :| 0 <= i < m && a[..m][i] == x;
      assert a[i] == x;
    }
    if x in a && x != a[m] {
      var j :| 0 <= j < |a| && a[j] == x;
      assert a[..m][j] == x;
    }
  }

  ghost predicate SameMembers(a: seq<nat>, b: seq<nat>) {
    forall x :: x in a <==> x in b
  }

  /** Two ascending sequences with the same members end alike, and their other members agree. */
  lemma SameMembersInit(a: seq<nat>, b: seq<nat>)
    requires Increasing(a) && Increasing(b) && a != [] && b != [] && forall x :: x in a <==> x in b
    ensures a[|a| - 1] == b[|b| - 1]
    ensures Increasing(a[..|a| - 1]) && Increasing(b[..|b| - 1])
    ensures SameMembers(a[..|a| - 1], b[..|b| - 1])
  {
    var m, n := |a| - 1, |b| - 1;
    assert a[m] in a && b[n] in b;
    IncreasingLast(a, b[n]);
    IncreasingLast(b, a[m]);
    forall x
      ensures x in a[..m] <==> x in b[..n]
    {
      IncreasingInit(a, x);
      IncreasingInit(b, x);
    }
  }

  /** Two ascending sequences with the same members are equal. */
  lemma {:induction false} IncreasingUnique(a: seq<nat>, b: seq<nat>)
    requires Increasing(a) && Increasing(b) && forall x :: x in a <==> x in b
    ensures a == b
    decreases |a|
  {
    NonEmptyBoth(a, b);
    NonEmptyBoth(b, a);
    if a != [] {
      var m, n := |a| - 1, |b| - 1;
      SameMembersInit(a, b);
      IncreasingUnique(a[..m], b[..n]);
      assert a == a[..m] + [a[m]] && b == b[..n] + [b[n]];
    }
  }

  /** A sequence with the same members as a non-empty one is non-empty. */
  lemma NonEmptyBoth(a: seq<nat>, b: seq<nat>)
    requires forall x :: x in a <==> x in b
    ensures a != [] ==> b != []
  {
    if a != [] {
      assert a[0] in b;
    }
  }

  /**
   * `FromVector(Data)` with `r = nOutput()` rows: `Data.size() / r` columns,
   * then `Data.size()` floats copied in. A zero row count divides by zero, a
   * negative one is a shape Eigen refuses, and a size that is not a multiple
   * of `r` writes past the end of the matrix.
   */
  function Reshape(r: int, data: seq<real>): (m: Result<Mat>)
    ensures r == 0 <==> m == Failure(DivideByZero)
    ensures m.Success? <==> r >= 1 && |data| % r == 0
    ensures m.Success? ==> HasShape(m.value, r, |data| / r) && Flatten(m.value) == data
  {
    if r == 0 then Failure(DivideByZero)
    else if r < 0 then Failure(BadShape)
    else if |data| % r != 0 then Failure(BadIndex)
    else
      var c := |data| / r;
      assert |data| == r * c;
      FlattenUnflatten(data, r, c);
      Success(Unflatten(data, r, c))
  }

  lemma ExactDivision(a: nat, n: nat, c: nat)
    requires n > 0 && a == n * c
    ensures a / n == c && a % n == 0
  {
    DivExact(a, n, c);
  }

  /** A matrix with `r` rows comes back from its `data()`. */
  lemma ReshapeFlatten(m: Mat)
    requires m.rows >= 1
    ensures Reshape(m.rows, Flatten(m)) == Success(m)
  {
    var r := m.rows;
    var c := Width(m);
    var f := Flatten(m);
    ExactDivision(|f|, r, c);
    UnflattenFlatten(m);
    assert Reshape(r, f) == Success(Unflatten(f, r, c));
  }

  // ---------------------------------------------------------------- driving the network

  /** `Inputs`: ascending positions of input layers of the arena. */
  predicate InputsAt(ns: seq<Node>, ps: seq<nat>) {
    Increasing(ps) && forall k | 0 <= k < |ps| :: ps[k] < |ns| && ns[ps[k]].kind.InputLayer?
  }

  /** Input layers stay input layers while only buffers change. */
  lemma InputsKept(a: seq<Node>, b: seq<Node>, ps: seq<nat>)
    requires InputsAt(a, ps) && SameWiring(a, b)
    ensures InputsAt(b, ps)
  {
    forall k | 0 <= k < |ps| ensures b[ps[k]].kind.InputLayer? {
      assert Graph.Tag(a[ps[k]].kind) == Graph.Tag(b[ps[k]].kind);
    }
  }

  /** `Inputs[i]->Input(d)` sets the feature block; `InputRaw(d)` replaces the whole buffer. */
  function Present(ns: seq<Node>, p: nat, d: Mat, raw: bool): seq<Node>
    requires p < |ns|
  {
    ns[p := ns[p].(output := if raw then d else InputData(ns[p].output, d).1)]
  }

  /**
   * The loop `Inputs[i]->Input(inp[i])` (or `InputRaw`) over the given
   * matrices, in order; more matrices than inputs indexes past the end.
   */
  function {:induction false} Presented(ns: seq<Node>, ps: seq<nat>, ds: seq<Mat>, raw: bool): (r: Result<seq<Node>>)
    requires forall k | 0 <= k < |ps| :: ps[k] < |ns|
    ensures r.Success? <==> |ds| <= |ps|
    ensures r.Success? ==> |r.value| == |ns| && forall x | 0 <= x < |ns| :: r.value[x] == ns[x].(output := r.value[x].output)
    decreases |ds|
  {
    if ds == [] then Success(ns)
    else
      var n := |ds| - 1;
      match Presented(ns, ps, ds[..n], raw)
      case Failure(e) => Failure(e)
      case Success(ms) => if n < |ps| then Success(Present(ms, ps[n], ds[n], raw)) else Failure(BadIndex)
  }

  /** The arena keeps its wiring while inputs are presented. */
  lemma PresentedWiring(ns: seq<Node>, ps: seq<nat>, ds: seq<Mat>, raw: bool)
    requires (forall k | 0 <= k < |ps| :: ps[k] < |ns|) && Presented(ns, ps, ds, raw).Success?
    ensures SameWiring(ns, Presented(ns, ps, ds, raw).value)
    ensures Wired(ns) ==> Wired(Presented(ns, ps, ds, raw).value)
    ensures InputsAt(ns, ps) ==> InputsAt(Presented(ns, ps, ds, raw).value, ps)
  {
    var ms := Presented(ns, ps, ds, raw).value;
    assert SameWiring(ns, ms) by {
      forall x | 0 <= x < |ns| ensures ms[x].prev == ns[x].prev && ms[x].inputs == ns[x].inputs && ms[x].kind == ns[x].kind {
        assert ms[x] == ns[x].(output := ms[x].output);
      }
    }
    if Wired(ns) {
      WiredKept(ns, ms);
    }
    if InputsAt(ns, ps) {
      InputsKept(ns, ms, ps);
    }
  }

  /**
   * With distinct input layers, matrix `i` lands in input `i` (its feature
   * block for `Input`, the whole buffer for `InputRaw`) and every other
   * layer is untouched.
   */
  lemma {:induction false} PresentedSets(ns: seq<Node>, ps: seq<nat>, ds: seq<Mat>, raw: bool)
    requires InputsAt(ns, ps) && |ds| <= |ps|
    ensures var ms := Presented(ns, ps, ds, raw).value;
      (forall i | 0 <= i < |ds| :: ms[ps[i]].output == if raw then ds[i] else InputData(ns[ps[i]].output, ds[i]).1)
      && forall x | 0 <= x < |ns| && x !in ps[..|ds|] :: ms[x] == ns[x]
    decreases |ds|
  {
    if ds != [] {
      var n := |ds| - 1;
      PresentedSets(ns, ps, ds[..n], raw);
      var ms0 := Presented(ns, ps, ds[..n], raw).value;
      var ms := Presented(ns, ps, ds, raw).value;
      assert ms == Present(ms0, ps[n], ds[n], raw);
      assert ps[n] !in ps[..n];
      assert ms0[ps[n]] == ns[ps[n]];
      forall i | 0 <= i < |ds|
        ensures ms[ps[i]].output == if raw then ds[i] else InputData(ns[ps[i]].output, ds[i]).1
      {
        if i < n {
          assert ps[i] != ps[n];
          assert ds[..n][i] == ds[i];
        }
      }
      forall x | 0 <= x < |ns| && x !in ps[..|ds|]
        ensures ms[x] == ns[x]
      {
        assert ps[..|ds|][n] == ps[n];
        assert x != ps[n];
      }
    }
  }

  /**
   * The output layer's `FeedForward()`, bound by its type: the graph fed
   * from the last layer at version `v`, and `output` from `outPart` of the
   * last layer's buffer.
   */
  function Forward(k: Kernels, ok: OutKernels, t: int, ns: seq<Node>, last: nat, v: int): (r: Result<(seq<Node>, Mat)>)
    requires Wired(ns) && last < |ns|
    ensures r.Success? ==> Bind(t).Some? && SameWiring(ns, r.value.0) && r.value.0[last].output.rows >= 1
  {
    match Bind(t)
    case None => Failure(Unbound)
    case Some(s) =>
      match Feed(k, ns, last, v)
      case Failure(e) => Failure(e)
      case Success(ms) =>
        if ms[last].output.rows >= 1 then Success((ms, Squash(ok, s.forward, OutPart(ms[last].output))))
        else Failure(BadShape)
  }

  /** An ascending list of the positions below `n` that satisfy a property reads as the same elements. */
  lemma BelowPrefix(all: seq<nat>, i: nat, x: nat)
    requires Increasing(all) && i < |all| && x in all[..i]
    ensures x < all[i]
  {
    var j :| 0 <= j < i && all[..i][j] == x;
  }

  lemma LoadFileSteps(fc: Codec<real>, file: seq<byte>, fs: seq<Field>, st: Scope, ls: seq<Node>)
    requires fc.width > 0 && ParseChunks(file) == Some(fs) && Execute(fc, fs, Scope([], None)) == Success(st)
    requires st.out.Some? && FixAll(st.layers, |st.layers|) == Success(ls)
    ensures LoadFile(fc, file) == Success(Loaded(ls, st.out.value.0, st.out.value.1, InputPositions(ls)))
  {
  }

  /** A chunk opened by `Begin` after `b0` and filled with `p`, read back by `End`. */
  lemma Framed(b0: seq<byte>, name: Name, p: seq<byte>)
    ensures var b := b0 + name + [0, 0, 0, 0] + p; var q := |b0| + 4;
      q + 4 <= |b| && b[..q - 4] == b0 && b[q - 4..q] == name && b[q + 4..] == p
  {
    var b := b0 + name + [0, 0, 0, 0] + p;
    var q := |b0| + 4;
    assert b[..q - 4] == b0;
    assert b[q - 4..q] == name;
    assert b[q + 4..] == p;
  }

  /** The loop `g[l] = i++` over the listed layers. */
  method Number(all: seq<nat>) returns (g: map<nat, nat>)
    requires Increasing(all)
    ensures g == Numbering(all)
  {
    g := map[];
    var i := 0;
    while i < |all|
      invariant 0 <= i <= |all| && Increasing(all[..i]) && g == Numbering(all[..i])
    {
      NumberingSnoc(all, i);
      g := g[all[i] := i + 1];
      i := i + 1;
    }
    assert all[..|all|] == all;
  }

  /** Numbering one more layer of a prefix gives it the next number. */
  lemma NumberingSnoc(all: seq<nat>, i: nat)
    requires Increasing(all) && i < |all|
    ensures Increasing(all[..i + 1]) && Increasing(all[..i])
    ensures Numbering(all[..i + 1]) == Numbering(all[..i])[all[i] := i + 1]
  {
    var p := all[..i + 1];
    assert p[..i] == all[..i];
    assert Increasing(p) by {
      forall j, k | 0 <= j < k < |p|
        ensures p[j] < p[k]
      {
        assert p[j] == all[j] && p[k] == all[k];
      }
    }
  }

  /** A layer whose chunk cannot be written makes the whole `LYRS` scope fail. */
  lemma LayerChunksFails(fc: Codec<real>, ns: seq<Node>, all: seq<nat>, g: map<nat, nat>, k: nat)
    requires (forall j | 0 <= j < |all| :: all[j] < |ns|) && k < |all| && NodeChunk(fc, ns[all[k]], g).Failure?
    ensures LayerChunks(fc, ns, all, g).Failure?
  {
  }

  lemma PrefixSnoc<T>(s: seq<T>, k: nat)
    requires k < |s|
    ensures s[..k + 1][..k] == s[..k] && s[..k + 1][k] == s[k] && |s[..k + 1]| == k + 1
  {
  }

  /** `l->Save(bin, g)` for the layer at `all[k]`, after the chunks of `all[..k]`. */
  method WriteNode(fc: Codec<real>, ns: seq<Node>, all: seq<nat>, g: map<nat, nat>, k: nat, ghost acc: seq<byte>, bin: BinSaver)
      returns (ok: bool, ghost acc': seq<byte>)
    requires bin.Valid() && k < |all| && forall j | 0 <= j < |all| :: all[j] < |ns|
    requires LayerChunks(fc, ns, all[..k], g) == Success(acc)
    modifies bin
    ensures bin.Valid() && bin.sizePos == old(bin.sizePos)
    ensures ok <==> NodeChunk(fc, ns[all[k]], g).Success?
    ensures ok ==> LayerChunks(fc, ns, all[..k + 1], g) == Success(acc') && bin.bytes == old(bin.bytes) + NodeChunk(fc, ns[all[k]], g).value
    ensures ok ==> acc' == acc + NodeChunk(fc, ns[all[k]], g).value
  {
    acc' := acc;
    var c := NodeChunk(fc, ns[all[k]], g);
    if c.Failure? {
      return false, acc';
    }
    PrefixSnoc(all, k);
    LayerChunksSnoc(fc, ns, all[..k + 1], g, acc, c.value);
    bin.Write(c.value);
    return true, acc + c.value;
  }

  /** The loop over the listed layers inside the open `LYRS` scope. */
  method WriteBodies(fc: Codec<real>, ns: seq<Node>, all: seq<nat>, g: map<nat, nat>, bin: BinSaver) returns (ok: bool)
    requires bin.Valid() && forall j | 0 <= j < |all| :: all[j] < |ns|
    modifies bin
    ensures bin.Valid() && bin.sizePos == old(bin.sizePos)
    ensures ok <==> LayerChunks(fc, ns, all, g).Success?
    ensures ok ==> bin.bytes == old(bin.bytes) + LayerChunks(fc, ns, all, g).value
  {
    ghost var start := bin.bytes;
    ghost var acc: seq<byte> := [];
    var k := 0;
    assert all[..0] == [];
    while k < |all|
      invariant 0 <= k <= |all| && bin.Valid() && bin.sizePos == old(bin.sizePos)
      invariant LayerChunks(fc, ns, all[..k], g) == Success(acc)
      invariant bin.bytes == start + acc
    {
      ghost var before := bin.bytes;
      ok, acc := WriteNode(fc, ns, all, g, k, acc, bin);
      if !ok {
        LayerChunksFails(fc, ns, all, g, k);
        return;
      }
      AppendAssoc(start, before[|start|..], NodeChunk(fc, ns[all[k]], g).value);
      k := k + 1;
    }
    assert all[..|all|] == all;
    ok := true;
  }

  /** The `LYRS` scope of `Save`: `Begin`, `l->Save(bin, g)` for every listed layer, `End`. */
  method WriteLayers(fc: Codec<real>, ns: seq<Node>, all: seq<nat>, g: map<nat, nat>, bin: BinSaver) returns (ok: bool)
    requires bin.Valid() && forall j | 0 <= j < |all| :: all[j] < |ns|
    modifies bin
    ensures bin.Valid()
    ensures ok <==> LayerChunks(fc, ns, all, g).Success?
    ensures ok ==> bin.bytes == old(bin.bytes) + Chunk(LYRS, LayerChunks(fc, ns, all, g).value)
    ensures ok ==> bin.sizePos == old(bin.sizePos)
  {
    ghost var b0 := bin.bytes;
    bin.Begin(LYRS);
    ok := WriteBodies(fc, ns, all, g, bin);
    if !ok {
      return;
    }
    Framed(b0, LYRS, LayerChunks(fc, ns, all, g).value);
    bin.End();
  }

  /** One more matrix presented after the first `i`. */
  lemma PresentedSnoc(ns: seq<Node>, ps: seq<nat>, ds: seq<Mat>, raw: bool, i: nat, ms: seq<Node>)
    requires (forall k | 0 <= k < |ps| :: ps[k] < |ns|) && i < |ds| && i < |ps|
    requires Presented(ns, ps, ds[..i], raw) == Success(ms)
    ensures ps[i] < |ms| && Presented(ns, ps, ds[..i + 1], raw) == Success(Present(ms, ps[i], ds[i], raw))
  {
    assert ds[..i + 1][..i] == ds[..i] && ds[..i + 1][i] == ds[i];
  }

  /**
   * `Process`: the matrices presented to the input layers, then the output
   * layer's `FeedForward()` at version `v`; the graph afterwards and the
   * output read back.
   */
  function Processed(k: Kernels, ok: OutKernels, t: int, ns: seq<Node>, ps: seq<nat>, last: nat, ds: seq<Mat>, raw: bool, v: int)
      : (r: Result<(seq<Node>, Mat)>)
    requires Wired(ns) && last < |ns| && InputsAt(ns, ps)
    ensures r.Success? ==> |ds| <= |ps| && Bind(t).Some? && SameWiring(ns, r.value.0) && Wired(r.value.0)
  {
    match Presented(ns, ps, ds, raw)
    case Failure(e) => Failure(e)
    case Success(ms) =>
      PresentedWiring(ns, ps, ds, raw);
      var f := Forward(k, ok, t, ms, last, v);
      if f.Success? then
        SameWiringTrans(ns, ms, f.value.0);
        WiredKept(ns, f.value.0);
        f
      else f
  }

  /** `Process` once the inputs are set is the output layer's `FeedForward()` on the result. */
  lemma ProcessedBy(k: Kernels, ok: OutKernels, t: int, ns: seq<Node>, ps: seq<nat>, last: nat, ds: seq<Mat>, raw: bool, v: int, ms: seq<Node>)
    requires Wired(ns) && last < |ns| && InputsAt(ns, ps) && Presented(ns, ps, ds, raw) == Success(ms)
    ensures Wired(ms) && last < |ms|
    ensures Processed(k, ok, t, ns, ps, last, ds, raw, v) == Forward(k, ok, t, ms, last, v)
  {
    PresentedWiring(ns, ps, ds, raw);
  }

  /**
   * `Train`: after `Process`, the bound step's error against the fresh
   * output, and the graph after back-propagating `target - output` from the
   * last layer. Only dense layers' buffers change in the backward pass.
   */
  function Trained(k: Kernels, ok: OutKernels, t: int, ns: seq<Node>, ps: seq<nat>, last: nat, ds: seq<Mat>, raw: bool, v: int, target: Mat)
      : (r: Result<(seq<Node>, real)>)
    requires Wired(ns) && last < |ns| && InputsAt(ns, ps)
    ensures r.Success? ==> Processed(k, ok, t, ns, ps, last, ds, raw, v).Success?
    ensures r.Success? ==> var p := Processed(k, ok, t, ns, ps, last, ds, raw, v).value;
      ErrorOf(ok, Bind(t), target, p.1) == Success(r.value.1) && Retrained(p.0, r.value.0)
    ensures r.Success? ==> SameWiring(ns, r.value.0) && Wired(r.value.0)
  {
    match Processed(k, ok, t, ns, ps, last, ds, raw, v)
    case Failure(e) => Failure(e)
    case Success(p) =>
      match ErrorOf(ok, Bind(t), target, p.1)
      case Failure(e) => Failure(e)
      case Success(e) =>
        var b := Back(k, p.0, last, Sub(target, p.1));
        if b.Success? then
          RetrainedWiring(p.0, b.value);
          SameWiringTrans(ns, p.0, b.value);
          WiredKept(ns, b.value);
          Success((b.value, e))
        else Failure(b.error)
  }

  /** With the mean-square output, training reports no error exactly when the target is the fresh output. */
  lemma TrainedMeanSquare(k: Kernels, ok: OutKernels, t: int, ns: seq<Node>, ps: seq<nat>, last: nat, ds: seq<Mat>, raw: bool, v: int, target: Mat)
    requires Wired(ns) && last < |ns| && InputsAt(ns, ps) && Bind(t) == Some(Strategy(Plain, MeanSquare))
    requires Trained(k, ok, t, ns, ps, last, ds, raw, v, target).Success?
    ensures var e := Trained(k, ok, t, ns, ps, last, ds, raw, v, target).value.1;
      e >= 0.0 && (e == 0.0 <==> target == Processed(k, ok, t, ns, ps, last, ds, raw, v).value.1)
  {
    MeanSquareZero(target, Processed(k, ok, t, ns, ps, last, ds, raw, v).value.1);
  }

  /** `Error`: after `Process`, the bound error against the fresh output; the graph is not trained. */
  function Errored(k: Kernels, ok: OutKernels, t: int, ns: seq<Node>, ps: seq<nat>, last: nat, ds: seq<Mat>, raw: bool, v: int, target: Mat)
      : (r: Result<real>)
    requires Wired(ns) && last < |ns| && InputsAt(ns, ps)
    ensures r.Success? ==> Processed(k, ok, t, ns, ps, last, ds, raw, v).Success?
    ensures r.Success? ==> ErrorOf(ok, Bind(t), target, Processed(k, ok, t, ns, ps, last, ds, raw, v).value.1) == r
  {
    match Processed(k, ok, t, ns, ps, last, ds, raw, v)
    case Failure(e) => Failure(e)
    case Success(p) => ErrorOf(ok, Bind(t), target, p.1)
  }

  /** `Error` reports the error `Train` returns for the same inputs and target. */
  lemma ErroredIsTrained(k: Kernels, ok: OutKernels, t: int, ns: seq<Node>, ps: seq<nat>, last: nat, ds: seq<Mat>, raw: bool, v: int, target: Mat)
    requires Wired(ns) && last < |ns| && InputsAt(ns, ps)
    requires Trained(k, ok, t, ns, ps, last, ds, raw, v, target).Success?
    ensures Errored(k, ok, t, ns, ps, last, ds, raw, v, target) == Success(Trained(k, ok, t, ns, ps, last, ds, raw, v, target).value.1)
  {
  }

  /** `Inputs[i]->Input(inp[i])` (or `InputRaw`) after the first `i` are set. */
  method PresentOne(net: Net, ps: seq<nat>, ghost ns: seq<Node>, ds: seq<Mat>, raw: bool, i: nat)
    requires i < |ds| && i < |ps| && Wired(ns) && InputsAt(ns, ps)
    requires Presented(ns, ps, ds[..i], raw) == Success(net.nodes)
    modifies net
    ensures Presented(ns, ps, ds[..i + 1], raw) == Success(net.nodes)
    ensures Wired(net.nodes) && InputsAt(net.nodes, ps) && SameWiring(ns, net.nodes)
  {
    PresentedWiring(ns, ps, ds[..i], raw);
    PresentedSnoc(ns, ps, ds, raw, i, net.nodes);
    if raw {
      net.InputRaw(ps[i], ds[i]);
    } else {
      var _ := net.Input(ps[i], ds[i]);
    }
    PresentedWiring(ns, ps, ds[..i + 1], raw);
  }

  /**
   * The loop `Inputs[i]->Input(inp[i])` (or `InputRaw`) over the input
   * layers `ps`: with more matrices than input layers the loop indexes past
   * `Inputs` once the existing ones are set.
   */
  method PresentAll(net: Net, ps: seq<nat>, ds: seq<Mat>, raw: bool) returns (ok: bool)
    requires Wired(net.nodes) && InputsAt(net.nodes, ps)
    modifies net
    ensures Wired(net.nodes) && InputsAt(net.nodes, ps) && SameWiring(old(net.nodes), net.nodes)
    ensures ok <==> |ds| <= |ps|
    ensures var n := if |ds| <= |ps| then |ds| else |ps|;
      Presented(old(net.nodes), ps, ds[..n], raw) == Success(net.nodes)
  {
    ghost var ns := net.nodes;
    var i := 0;
    assert ds[..0] == [];
    assert SameWiring(ns, ns);
    while i < |ds|
      invariant 0 <= i <= |ds| && i <= |ps|
      invariant Wired(net.nodes) && InputsAt(net.nodes, ps) && SameWiring(ns, net.nodes)
      invariant Presented(ns, ps, ds[..i], raw) == Success(net.nodes)
    {
      if i >= |ps| {
        return false;
      }
      PresentOne(net, ps, ns, ds, raw, i);
      i := i + 1;
    }
    assert ds[..|ds|] == ds;
    ok := true;
  }

  /** The `OUTP` scope of `Save`: `Begin`, `Output->Save(bin, g)`, `End`. */
  method WriteOutput(o: OutputLayer, g: map<nat, nat>, bin: BinSaver) returns (ok: bool)
    requires bin.Valid()
    modifies bin
    ensures bin.Valid()
    ensures ok <==> o.last in g
    ensures ok ==> bin.bytes == old(bin.bytes) + Chunk(OUTP, Encode(OutputFields(o.kind, g[o.last]))) && bin.sizePos == old(bin.sizePos)
  {
    if o.last !in g {
      return false;
    }
    ghost var b0 := bin.bytes;
    bin.Begin(OUTP);
    ok := o.Save(bin, g);
    Framed(b0, OUTP, Encode(OutputFields(o.kind, g[o.last])));
    bin.End();
  }

  // ---------------------------------------------------------------- the class

  class NeuralNetContainer {
    /** `Output`. */
    const output: OutputLayer
    /** `Layers`: the layers the container owns, as arena positions. */
    const layers: seq<nat>
    /** `Inputs`, as arena positions. */
    const inputs: seq<nat>

    ghost predicate Valid()
      reads this, output, output.net
    {
      output.Valid() && InputsAt(output.net.nodes, inputs)
    }

    /** The loop over `Gather()` that keeps the input layers, in order. */
    static method InputsOf(ns: seq<Node>, all: seq<nat>) returns (ins: seq<nat>)
      requires Increasing(all) && forall k | 0 <= k < |all| :: all[k] < |ns|
      ensures InputsAt(ns, ins)
      ensures forall x :: x in ins <==> x in all && ns[x].kind.InputLayer?
    {
      ins := [];
      var i := 0;
      while i < |all|
        invariant 0 <= i <= |all| && InputsAt(ns, ins)
        invariant forall x :: x in ins <==> x in all[..i] && ns[x].kind.InputLayer?
      {
        assert all[..i + 1] == all[..i] + [all[i]];
        if ns[all[i]].kind.InputLayer? {
          forall j | 0 <= j < |ins| ensures ins[j] < all[i] {
            BelowPrefix(all, i, ins[j]);
          }
          ins := ins + [all[i]];
        }
        i := i + 1;
      }
      assert all[..|all|] == all;
    }

    /**
     * `NeuralNetContainer(OutLayer)`: the input layers among the gathered
     * ones, in the order `Gather()` lists them; the container owns nothing.
     */
    constructor (o: OutputLayer)
      requires o.Valid()
      ensures Valid() && output == o && layers == []
      ensures forall x :: x in inputs <==> x in Order(o.net.nodes, o.last) && o.net.nodes[x].kind.InputLayer?
    {
      var ns := o.net.nodes;
      var ins := InputsOf(ns, Order(ns, o.last));
      output := o;
      layers := [];
      inputs := ins;
    }

    /** The container a load builds: it owns the layers at `ls`. */
    constructor Adopt(o: OutputLayer, ls: seq<nat>, ins: seq<nat>)
      requires o.Valid() && InputsAt(o.net.nodes, ins)
      ensures Valid() && output == o && layers == ls && inputs == ins
    {
      output := o;
      layers := ls;
      inputs := ins;
    }

    /** The loop of the load that calls `FixInputs(Layers)` on every layer and collects the input layers. */
    static method FixUp(raw: seq<Node>) returns (r: Result<(seq<Node>, seq<nat>)>)
      ensures r.Success? <==> FixAll(raw, |raw|).Success?
      ensures r.Success? ==> r.value.0 == FixAll(raw, |raw|).value && r.value.1 == InputPositions(r.value.0)
    {
      var ls: seq<Node> := [];
      var ins: seq<nat> := [];
      var i := 0;
      while i < |raw|
        invariant 0 <= i <= |raw| && FixAll(raw[..i], |raw|) == Success(ls) && |ls| == i
        invariant Increasing(ins) && (forall j | 0 <= j < |ins| :: ins[j] < i)
        invariant forall x: nat :: x in ins <==> x < i && ls[x].kind.InputLayer?
      {
        var b := FixInputs(raw[i], |raw|);
        if b.Failure? {
          return Failure(b.error);
        }
        assert raw[..i + 1][..i] == raw[..i] && raw[..i + 1][i] == raw[i];
        ls := ls + [b.value];
        if b.value.kind.InputLayer? {
          ins := ins + [i];
        }
        i := i + 1;
      }
      assert raw[..|raw|] == raw;
      IncreasingUnique(ins, InputPositions(ls));
      r := Success((ls, ins));
    }

    /**
     * `NeuralNetContainer(Filename)`: `Execute` of the file's chunks, then
     * the loop that fixes up every loaded layer and collects the input
     * layers. The arena holds only graphs whose links lead to earlier
     * layers, so a file with any other link is refused.
     */
    static method Load(fc: Codec<real>, k: Kernels, ok: OutKernels, file: seq<byte>) returns (r: Result<NeuralNetContainer>)
      requires fc.width > 0
      ensures r.Success? <==> LoadFile(fc, file).Success? && Wired(LoadFile(fc, file).value.layers)
      ensures r.Success? ==> var l := LoadFile(fc, file).value; var c := r.value;
        fresh(c) && fresh(c.output) && fresh(c.output.net) && c.Valid()
        && c.output.net.nodes == l.layers && c.output.net.kernels == k && c.output.last == l.last
        && c.output.kind == l.kind && c.output.outKernels == ok && c.inputs == l.inputs
        && |c.layers| == |l.layers| && forall j | 0 <= j < |c.layers| :: c.layers[j] == j
    {
      var fs := ParseChunks(file);
      if fs.None? {
        return Failure(Truncated);
      }
      var st := Execute(fc, fs.value, Scope([], None));
      if st.Failure? {
        return Failure(st.error);
      }
      if st.value.out.None? {
        return Failure(Indeterminate);
      }
      var raw := st.value.layers;
      var fixed := FixUp(raw);
      if fixed.Failure? {
        return Failure(fixed.error);
      }
      var ls, ins := fixed.value.0, fixed.value.1;
      LoadFileSteps(fc, file, fs.value, st.value, ls);
      if !Wired(ls) {
        return Failure(BadPointer);
      }
      var n := new Net(k, ls);
      var o := new OutputLayer(n, st.value.out.value.0, st.value.out.value.1, ok);
      var c := new NeuralNetContainer.Adopt(o, seq(|ls|, j => j), ins);
      r := Success(c);
    }

    /**
     * `Save(Filename)` after the `NWRK` header: the gathered layers numbered
     * `1..n` in the order `Gather()` lists them, the `LYRS` scope with the
     * chunk of each layer in that order, then the `OUTP` scope.
     */
    method Save(fc: Codec<real>, bin: BinSaver) returns (ok: bool)
      requires Valid() && bin.Valid()
      modifies bin
      ensures bin.Valid()
      ensures ok <==> SaveFile(fc, output.net.nodes, output.last, output.kind).Success?
      ensures ok ==> bin.bytes == old(bin.bytes) + SaveFile(fc, output.net.nodes, output.last, output.kind).value
      ensures ok ==> bin.sizePos == old(bin.sizePos)
    {
      var ns := output.net.nodes;
      var last := output.last;
      var all := Order(ns, last);
      var g := Number(all);
      ghost var b0 := bin.bytes;
      ok := WriteLayers(fc, ns, all, g, bin);
      if !ok {
        return;
      }
      var p := LayerChunks(fc, ns, all, g).value;
      ghost var b1 := bin.bytes;
      LastNumbered(ns, last);
      ok := WriteOutput(output, g, bin);
      SaveFileBy(fc, ns, last, output.kind, p);
      AppendAssoc(b0, Chunk(LYRS, p), Chunk(OUTP, Encode(OutputFields(output.kind, g[last]))));
    }

    /** `~NeuralNetContainer()`: `Output` and the layers are deleted only when `Layers` is not empty. */
    method Release() returns (ownsOutput: bool, freed: seq<nat>)
      ensures ownsOutput <==> |layers| > 0
      ensures forall x :: x in freed <==> x in layers
    {
      ownsOutput := |layers| > 0;
      freed := if ownsOutput then layers else [];
    }

    /** `SaveCheckpoint()`, delegated to the output layer; the graph is not touched. */
    method SaveCheckpoint() returns (ok: bool)
      requires Valid() && Matches(output.net.nodes, output.checkpoint.layers)
      modifies output
      ensures Valid() && output.net.nodes == old(output.net.nodes)
      ensures old(output.checkpoint.layers) != [] ==> ok && output.checkpoint == old(output.checkpoint)
      ensures old(output.checkpoint.layers) == [] && Linked(output.net.nodes) ==> ok
      ensures ok ==> Matches(output.net.nodes, output.checkpoint.layers)
      ensures ok ==> output.checkpointDNA == Snapshot(output.net.nodes, output.checkpoint.layers)
      ensures ok ==> output.checkpointError == output.error
    {
      ok := output.SaveCheckpoint();
    }

    /** `LoadCheckpoint()`, delegated to the output layer: the saved weights and error come back. */
    method LoadCheckpoint() returns (e: real)
      requires Valid() && Matches(output.net.nodes, output.checkpoint.layers)
      modifies output, output.net
      ensures Valid()
      ensures e == old(output.checkpointError) && output.error == e
      ensures output.checkpoint == old(output.checkpoint) && output.checkpointDNA == old(output.checkpointDNA)
      ensures output.net.nodes == Restore(old(output.net.nodes), output.checkpoint.layers, output.checkpointDNA)
      ensures Retrained(old(output.net.nodes), output.net.nodes)
    {
      e := output.LoadCheckpoint();
      RetrainedWiring(old(output.net.nodes), output.net.nodes);
      InputsKept(old(output.net.nodes), output.net.nodes, inputs);
    }

    /** `ResetMomentum()`, delegated to the output layer. */
    method ResetMomentum() returns (ok: bool)
      requires Valid()
      modifies output.net
      ensures Valid()
      ensures ok <==> Delegate(Reset, old(output.net.nodes), output.last).Success?
      ensures ok ==> output.net.nodes == Delegate(Reset, old(output.net.nodes), output.last).value
    {
      ok := output.ResetMomentum();
      InputsKept(old(output.net.nodes), output.net.nodes, inputs);
    }

    /** `MakeRawInput(Data)` of `Inputs[0]`: none to ask when there is no input layer. */
    method MakeRawInput(d: Mat) returns (r: Result<Mat>)
      requires Valid()
      ensures inputs == [] <==> r == Failure(BadIndex)
      ensures r.Success? ==> HasShape(r.value, d.rows + 1, Width(d)) && OutPart(r.value) == d
      ensures r.Success? ==> forall j | 0 <= j < Width(d) :: r.value.cols[j][d.rows] == 1.0
    {
      if |inputs| == 0 {
        return Failure(BadIndex);
      }
      r := Success(Inputs.MakeRawInput(d));
    }

    /** `MakeRawInput(vector)` of `Inputs[0]`: one column for every `nInput()` values. */
    method MakeRawInputVec(v: seq<real>) returns (r: Result<Mat>)
      requires Valid()
      ensures inputs == [] ==> r == Failure(BadIndex)
      ensures inputs != [] ==> r == Inputs.MakeRawInputVec(output.net.nodes[inputs[0]].output, v)
    {
      if |inputs| == 0 {
        return Failure(BadIndex);
      }
      r := Inputs.MakeRawInputVec(output.net.nodes[inputs[0]].output, v);
    }

    /** `MakeRawInput(vector<netData>)`: matrix `i` for input `i`, for every input layer. */
    method MakeRawInputs(ds: seq<Mat>) returns (r: Result<seq<Mat>>)
      requires Valid()
      ensures r.Success? <==> |inputs| <= |ds|
      ensures r.Success? ==> |r.value| == |inputs| && forall i | 0 <= i < |inputs| :: r.value[i] == Inputs.MakeRawInput(ds[i])
    {
      var ret: seq<Mat> := [];
      var i := 0;
      while i < |inputs|
        invariant 0 <= i <= |inputs| && i <= |ds| && |ret| == i
        invariant forall j | 0 <= j < i :: ret[j] == Inputs.MakeRawInput(ds[j])
      {
        if i >= |ds| {
          return Failure(BadIndex);
        }
        ret := ret + [Inputs.MakeRawInput(ds[i])];
        i := i + 1;
      }
      r := Success(ret);
    }

    /** `FromVector(Data)`: `Data` read as `nOutput()` rows. */
    method FromVector(data: seq<real>) returns (m: Result<Mat>)
      requires Valid()
      ensures m == Reshape(output.NOutputs(), data)
      ensures m.Success? ==> HasShape(m.value, output.NOutputs(), |data| / output.NOutputs()) && Flatten(m.value) == data
    {
      m := Reshape(output.NOutputs(), data);
    }

    /**
     * The loop `Inputs[i]->Input(inp[i])` (or `InputRaw`): with more
     * matrices than input layers the loop indexes past `Inputs` once the
     * existing ones are set.
     */
    method Present(ds: seq<Mat>, raw: bool) returns (ok: bool)
      requires Valid()
      modifies output.net
      ensures Valid()
      ensures ok <==> |ds| <= |inputs|
      ensures var n := if |ds| <= |inputs| then |ds| else |inputs|;
        Presented(old(output.net.nodes), inputs, ds[..n], raw) == Success(output.net.nodes)
    {
      ok := PresentAll(output.net, inputs, ds, raw);
    }

    /** The inputs set, then the output layer's `FeedForward()`: the start of every `Process`, `Train` and `Error`. */
    method Run(ds: seq<Mat>, raw: bool) returns (ok: bool)
      requires Valid()
      modifies output, output.net
      ensures var p := Processed(output.net.kernels, output.outKernels, output.kind, old(output.net.nodes), inputs, output.last, ds, raw, old(output.version) + 1);
        (ok <==> p.Success?) && (ok ==> output.net.nodes == p.value.0 && output.output == p.value.1)
      ensures ok ==> output.version == old(output.version) + 1
      ensures output.checkpoint == old(output.checkpoint) && output.checkpointDNA == old(output.checkpointDNA)
      ensures output.error == old(output.error) && output.checkpointError == old(output.checkpointError)
      ensures Valid()
    {
      ghost var ns := output.net.nodes;
      ok := Present(ds, raw);
      if !ok {
        assert Processed(output.net.kernels, output.outKernels, output.kind, ns, inputs, output.last, ds, raw, output.version + 1).Failure?;
        return;
      }
      assert ds[..|ds|] == ds;
      assert Presented(ns, inputs, ds, raw) == Success(output.net.nodes);
      ok := FeedPresented(ns, ds, raw);
    }

    /** `Output->FeedForward()` once the inputs are set. */
    method FeedPresented(ghost ns: seq<Node>, ds: seq<Mat>, raw: bool) returns (ok: bool)
      requires Valid() && Wired(ns) && InputsAt(ns, inputs) && output.last < |ns|
      requires Presented(ns, inputs, ds, raw) == Success(output.net.nodes)
      modifies output, output.net
      ensures Valid()
      ensures var p := Processed(output.net.kernels, output.outKernels, output.kind, ns, inputs, output.last, ds, raw, old(output.version) + 1);
        (ok <==> p.Success?) && (ok ==> output.net.nodes == p.value.0 && output.output == p.value.1)
      ensures ok ==> output.version == old(output.version) + 1
      ensures output.checkpoint == old(output.checkpoint) && output.checkpointDNA == old(output.checkpointDNA)
      ensures output.error == old(output.error) && output.checkpointError == old(output.checkpointError)
    {
      ghost var ms := output.net.nodes;
      ProcessedBy(output.net.kernels, output.outKernels, output.kind, ns, inputs, output.last, ds, raw, output.version + 1, ms);
      ok := output.FeedForward();
      InputsKept(ms, output.net.nodes, inputs);
    }

    /** `Process(inp)` / `ProcessRaw(inp)`: the inputs set, then `Output->Result()`. */
    method Process(ds: seq<Mat>, raw: bool) returns (r: Result<Mat>)
      requires Valid()
      modifies output, output.net
      ensures Valid()
      ensures var p := Processed(output.net.kernels, output.outKernels, output.kind, old(output.net.nodes), inputs, output.last, ds, raw, old(output.version) + 1);
        (r.Success? <==> p.Success?) && (r.Success? ==> r.value == p.value.1 && output.net.nodes == p.value.0)
      ensures r.Success? ==> output.version == old(output.version) + 1
    {
      var ok := Run(ds, raw);
      if !ok {
        return Failure(BadIndex);
      }
      r := Success(output.output);
    }

    /** `ProcessVec(Inp)`: `Inputs[0]->MakeRawInput(Inp)` processed raw, and the result's floats. */
    method ProcessVec(v: seq<real>) returns (r: Result<seq<real>>)
      requires Valid()
      modifies output, output.net
      ensures Valid()
      ensures r.Success? ==> inputs != [] && Inputs.MakeRawInputVec(old(output.net.nodes)[inputs[0]].output, v).Success?
      ensures r.Success? ==>
        var d := Inputs.MakeRawInputVec(old(output.net.nodes)[inputs[0]].output, v).value;
        var p := Processed(output.net.kernels, output.outKernels, output.kind, old(output.net.nodes), inputs, output.last, [d], true, old(output.version) + 1);
        p.Success? && r.value == Flatten(p.value.1)
    {
      var d := MakeRawInputVec(v);
      if d.Failure? {
        return Failure(d.error);
      }
      var m := Process([d.value], true);
      if m.Failure? {
        return Failure(m.error);
      }
      r := Success(Flatten(m.value));
    }

    /** `Train(inp, outp)` / `TrainRaw`: the inputs set, `Output->FeedForward()`, then `Output->Train(outp)`. */
    method Train(ds: seq<Mat>, raw: bool, target: Mat) returns (r: Result<real>)
      requires Valid()
      modifies output, output.net
      ensures Valid()
      ensures var p := Trained(output.net.kernels, output.outKernels, output.kind, old(output.net.nodes), inputs, output.last, ds, raw, old(output.version) + 1, target);
        (r.Success? <==> p.Success?) && (r.Success? ==> r.value == p.value.1 && output.net.nodes == p.value.0)
      ensures r.Success? && Bind(output.kind).value.loss == MeanSquare ==> output.error == r.value
    {
      var ok := Run(ds, raw);
      if !ok {
        return Failure(BadIndex);
      }
      ghost var fs := output.net.nodes;
      var e;
      ok, e := output.Train(target);
      RetrainedWiring(fs, output.net.nodes);
      InputsKept(fs, output.net.nodes, inputs);
      if !ok {
        return Failure(BadShape);
      }
      r := Success(e);
    }

    /** `Error(inp, outp)` / `ErrorRaw`: the inputs set, `Output->FeedForward()`, then `Output->GetError(outp)`. */
    method Error(ds: seq<Mat>, raw: bool, target: Mat) returns (r: Result<real>)
      requires Valid()
      modifies output, output.net
      ensures Valid()
      ensures var p := Errored(output.net.kernels, output.outKernels, output.kind, old(output.net.nodes), inputs, output.last, ds, raw, old(output.version) + 1, target);
        (r.Success? <==> p.Success?) && (r.Success? ==> r.value == p.value)
      ensures output.error == old(output.error)
    {
      var ok := Run(ds, raw);
      if !ok {
        return Failure(BadIndex);
      }
      r := output.GetError(target);
    }
  }
}
