/**
 * The layer graph of `PVX_NeuralNets.cpp` as an arena: the layers of one
 * network live in a sequence, a `NeuralLayer_Base*` is a `Link` holding a
 * position in that sequence, and the concrete layer class is the `Kind` of a
 * node. The arena order stands for the order of the layers' addresses, which
 * is the order in which a `std::set<NeuralLayer_Base*>` lists them.
 */
module Graph {
  import opened Wrappers
  import opened Matrices
  import opened Bytes

  /**
   * A layer pointer. `Null` is `nullptr`, `At(k)` the layer at position `k`,
   * and `Mark(p)` a pointer whose bytes hold the 1-based index `p` written by
   * a load or a copy, waiting for `FixInputs`.
   */
  datatype Link = Null | At(index: nat) | Mark(p: int)

  /**
   * A saved index cast to a layer pointer by a load: `0` is `nullptr`, and
   * any other value is a placeholder holding it.
   */
  function Cast(p: int): Link {
    if p == 0 then Null else Mark(p)
  }

  /** `LayerActivation`; `OtherAct` is a value outside the enumeration. */
  datatype Act = Tanh | TanhBias | ReLU | Sigmoid | Linear | OtherAct(code: int)

  /** `TrainScheme`; `OtherScheme` is a value outside the enumeration. */
  datatype Scheme = Adam | RMSprop | Momentum | AdaGrad | Sgd | OtherScheme(code: int)

  function ActCode(a: Act): int {
    match a
    case Tanh => 0
    case TanhBias => 1
    case ReLU => 2
    case Sigmoid => 3
    case Linear => 4
    case OtherAct(c) => c
  }

  /** `LayerActivation(c)`, the cast from the integer stored in a file. */
  function ActOf(c: int): (a: Act)
    ensures ActCode(a) == c
  {
    if c == 0 then Tanh
    else if c == 1 then TanhBias
    else if c == 2 then ReLU
    else if c == 3 then Sigmoid
    else if c == 4 then Linear
    else OtherAct(c)
  }

  /** An enumerator, or a value that no enumerator has. */
  predicate ActCanonical(a: Act) {
    a.OtherAct? ==> !(0 <= a.code <= 4)
  }

  lemma ActRoundTrip(a: Act)
    requires ActCanonical(a)
    ensures ActOf(ActCode(a)) == a
  {
  }

  function SchemeCode(s: Scheme): int {
    match s
    case Adam => 0
    case RMSprop => 1
    case Momentum => 2
    case AdaGrad => 3
    case Sgd => 4
    case OtherScheme(c) => c
  }

  /** `TrainScheme(c)`. */
  function SchemeOf(c: int): (s: Scheme)
    ensures SchemeCode(s) == c
  {
    if c == 0 then Adam
    else if c == 1 then RMSprop
    else if c == 2 then Momentum
    else if c == 3 then AdaGrad
    else if c == 4 then Sgd
    else OtherScheme(c)
  }

  predicate SchemeCanonical(s: Scheme) {
    s.OtherScheme? ==> !(0 <= s.code <= 4)
  }

  lemma SchemeRoundTrip(s: Scheme)
    requires SchemeCanonical(s)
    ensures SchemeOf(SchemeCode(s)) == s
  {
  }

  /** The per-layer copies of the training hyperparameters (`_LearnRate`, ...). */
  datatype Hyper = Hyper(learnRate: real, momentum: real, iMomentum: real,
                         rmsProp: real, iRmsProp: real, dropout: real, iDropout: real)

  /** Each complement is `1 - beta` and `iDropout` is the reciprocal of `dropout`. */
  predicate Complementary(h: Hyper) {
    h.iMomentum == 1.0 - h.momentum && h.iRmsProp == 1.0 - h.rmsProp && h.dropout * h.iDropout == 1.0
  }

  /** The three buffers a dense layer trains. */
  datatype Buffers = Buffers(weights: Mat, delta: Mat, rms: Mat)

  /** The concrete class of a layer, with the fields only that class has. */
  datatype Kind =
    | InputLayer
    | NeuronLayer(buf: Buffers, activation: Act, training: Scheme, hp: Hyper)
    | ActivationLayer(activation: Act)
    | NeuronAdder
    | NeuronMultiplier
    | NeuronCombiner
    | RecurrentLayer(recurrentInput: Link)

  /** The fields every layer has (`NeuralLayer_Base`). */
  datatype Node = Node(name: seq<byte>, id: int, output: Mat, feedVersion: int,
                       prev: Link, inputs: seq<Link>, kind: Kind)

  // ---------------------------------------------------------------- shapes

  /** The largest `size_t`, which `rows() - 1` wraps to when there are no rows. */
  const SIZE_MAX: nat := 0xFFFF_FFFF_FFFF_FFFF

  /** `nOutput()`: the feature rows of the output, the bias row excluded. */
  function NOutput(m: Matrix<real>): (n: nat)
    ensures m.rows >= 1 ==> n + 1 == m.rows
    ensures m.rows == 0 ==> n == SIZE_MAX
  {
    if m.rows == 0 then SIZE_MAX else m.rows - 1
  }

  /** `BatchSize()`: one column per sample. */
  function BatchSize(m: Matrix<real>): (n: nat)
    ensures n == Width(m)
  {
    |m.cols|
  }

  // ---------------------------------------------------------------- wiring

  /** A link to a layer earlier in the arena, or no link. */
  predicate Below(l: Link, i: nat) {
    l.Null? || (l.At? && l.index < i)
  }

  function RecOf(k: Kind): Link {
    if k.RecurrentLayer? then k.recurrentInput else Null
  }

  /** Which class a layer is. */
  function Tag(k: Kind): nat {
    match k
    case InputLayer => 0
    case NeuronLayer(_, _, _, _) => 1
    case ActivationLayer(_) => 2
    case NeuronAdder => 3
    case NeuronMultiplier => 4
    case NeuronCombiner => 5
    case RecurrentLayer(_) => 6
  }

  /**
   * A live graph: every predecessor and every input lies earlier in the arena
   * (so the recursive passes terminate), and a recurrent input is some layer.
   */
  predicate Wired(ns: seq<Node>) {
    forall i | 0 <= i < |ns| ::
      Below(ns[i].prev, i)
      && (forall k | 0 <= k < |ns[i].inputs| :: ns[i].inputs[k].At? && ns[i].inputs[k].index < i)
      && (RecOf(ns[i].kind).Null? || (RecOf(ns[i].kind).At? && RecOf(ns[i].kind).index < |ns|))
  }

  /** The two arenas have the same layers, classes and links; only buffers differ. */
  predicate SameWiring(a: seq<Node>, b: seq<Node>) {
    |a| == |b|
    && forall i | 0 <= i < |a| ::
      a[i].prev == b[i].prev && a[i].inputs == b[i].inputs
      && Tag(a[i].kind) == Tag(b[i].kind) && RecOf(a[i].kind) == RecOf(b[i].kind)
  }

  lemma WiredKept(a: seq<Node>, b: seq<Node>)
    requires Wired(a) && SameWiring(a, b)
    ensures Wired(b)
  {
    forall i | 0 <= i < |b|
      ensures Below(b[i].prev, i)
      ensures forall k | 0 <= k < |b[i].inputs| :: b[i].inputs[k].At? && b[i].inputs[k].index < i
      ensures RecOf(b[i].kind).Null? || (RecOf(b[i].kind).At? && RecOf(b[i].kind).index < |b|)
    {
      assert a[i].prev == b[i].prev && a[i].inputs == b[i].inputs && RecOf(a[i].kind) == RecOf(b[i].kind);
    }
  }

  // ---------------------------------------------------------------- Gather

  /**
   * `b` is reachable from `a` by following predecessor and input links
   * (`a` itself included).
   */
  ghost predicate Reaches(ns: seq<Node>, a: nat, b: nat)
    requires Wired(ns) && a < |ns|
    decreases a
  {
    a == b
    || (ns[a].prev.At? && Reaches(ns, ns[a].prev.index, b))
    || (exists k | 0 <= k < |ns[a].inputs| :: Reaches(ns, ns[a].inputs[k].index, b))
  }

  /** `Gather(g)`: inserts this layer, then gathers from the predecessor, then from each input. */
  function Gather(ns: seq<Node>, i: nat, g: set<nat>): set<nat>
    requires Wired(ns) && i < |ns|
    decreases i, 1
  {
    var g1 := g + {i};
    var g2 := if ns[i].prev.At? then Gather(ns, ns[i].prev.index, g1) else g1;
    GatherInputs(ns, i, 0, g2)
  }

  /** The loop over `InputLayers`, from input `k` on. */
  function GatherInputs(ns: seq<Node>, i: nat, k: nat, g: set<nat>): set<nat>
    requires Wired(ns) && i < |ns| && k <= |ns[i].inputs|
    decreases i, 0, |ns[i].inputs| - k
  {
    if k == |ns[i].inputs| then g
    else GatherInputs(ns, i, k + 1, Gather(ns, ns[i].inputs[k].index, g))
  }

  /** `Gather` adds exactly the layers reachable from `i` to `g`. */
  lemma {:induction false} GatherReaches(ns: seq<Node>, i: nat, g: set<nat>, b: nat)
    requires Wired(ns) && i < |ns|
    ensures b in Gather(ns, i, g) <==> b in g || Reaches(ns, i, b)
    decreases i, 1
  {
    var g1 := g + {i};
    var g2 := if ns[i].prev.At? then Gather(ns, ns[i].prev.index, g1) else g1;
    if ns[i].prev.At? {
      GatherReaches(ns, ns[i].prev.index, g1, b);
    }
    GatherInputsReaches(ns, i, 0, g2, b);
  }

  lemma {:induction false} GatherInputsReaches(ns: seq<Node>, i: nat, k: nat, g: set<nat>, b: nat)
    requires Wired(ns) && i < |ns| && k <= |ns[i].inputs|
    ensures b in GatherInputs(ns, i, k, g) <==>
            b in g || exists k' | k <= k' < |ns[i].inputs| :: Reaches(ns, ns[i].inputs[k'].index, b)
    decreases i, 0, |ns[i].inputs| - k
  {
    if k < |ns[i].inputs| {
      var j := ns[i].inputs[k].index;
      GatherReaches(ns, j, g, b);
      GatherInputsReaches(ns, i, k + 1, Gather(ns, j, g), b);
      if Reaches(ns, j, b) {
        assert exists k' | k <= k' < |ns[i].inputs| :: Reaches(ns, ns[i].inputs[k'].index, b);
      }
      if exists k' | k <= k' < |ns[i].inputs| :: Reaches(ns, ns[i].inputs[k'].index, b) {
        var k' :| k <= k' < |ns[i].inputs| && Reaches(ns, ns[i].inputs[k'].index, b);
        if k' > k {
          assert exists k'' | k + 1 <= k'' < |ns[i].inputs| :: Reaches(ns, ns[i].inputs[k''].index, b);
        }
      }
    }
  }

  /** `Gather` from an empty set collects exactly the nodes reachable from `i`, and only nodes of the arena. */
  lemma GatherExactly(ns: seq<Node>, i: nat)
    requires Wired(ns) && i < |ns|
    ensures forall b :: b in Gather(ns, i, {}) <==> Reaches(ns, i, b)
    ensures forall b | b in Gather(ns, i, {}) :: b < |ns|
  {
    forall b ensures b in Gather(ns, i, {}) <==> Reaches(ns, i, b) {
      GatherReaches(ns, i, {}, b);
    }
    forall b | b in Gather(ns, i, {}) ensures b < |ns| {
      GatherReaches(ns, i, {}, b);
      ReachesBelow(ns, i, b);
    }
  }

  /** A reachable node sits at or below the start, so it is in the arena. */
  lemma {:induction false} ReachesBelow(ns: seq<Node>, a: nat, b: nat)
    requires Wired(ns) && a < |ns| && Reaches(ns, a, b)
    ensures b <= a
    decreases a
  {
    if a != b {
      if ns[a].prev.At? && Reaches(ns, ns[a].prev.index, b) {
        ReachesBelow(ns, ns[a].prev.index, b);
      } else {
        var k :| 0 <= k < |ns[a].inputs| && Reaches(ns, ns[a].inputs[k].index, b);
        ReachesBelow(ns, ns[a].inputs[k].index, b);
      }
    }
  }

  // ---------------------------------------------------------------- FixInputs

  /**
   * `ids[(*(int*)&l) - 1]` for a table of `n` loaded layers, where `ids[k]`
   * is the layer at position `k`. An index outside the table is undefined
   * behaviour; a link that does not hold an index in its bytes is a pointer
   * read as an integer.
   */
  function FixLink(l: Link, n: nat): (r: Result<Link>)
    ensures r.Success? <==> l.Mark? && 1 <= l.p <= n
    ensures r.Success? ==> r.value == At(l.p - 1)
  {
    match l
    case Mark(p) => if 1 <= p <= n then Success(At(p - 1)) else Failure(BadIndex)
    case Null => Failure(BadIndex)
    case At(_) => Failure(BadPointer)
  }

  /** The loop over `InputLayers`. */
  function FixLinks(ls: seq<Link>, n: nat): (r: Result<seq<Link>>)
    ensures r.Success? <==> forall k | 0 <= k < |ls| :: FixLink(ls[k], n).Success?
    ensures r.Success? ==> |r.value| == |ls| && forall k | 0 <= k < |ls| :: r.value[k] == FixLink(ls[k], n).value
  {
    if ls == [] then Success([])
    else match (FixLink(ls[0], n), FixLinks(ls[1..], n))
      case (Success(h), Success(t)) => Success([h] + t)
      case (Failure(e), _) => Failure(e)
      case (_, Failure(e)) => Failure(e)
  }

  /**
   * `FixInputs(ids)` as written: a non-null predecessor is resolved; otherwise
   * every input is. The recurrent input of a `RecurrentLayer` is left as it
   * was.
   */
  function FixInputs(nd: Node, n: nat): Result<Node> {
    if !nd.prev.Null? then
      match FixLink(nd.prev, n)
      case Success(p) => Success(nd.(prev := p))
      case Failure(e) => Failure(e)
    else
      match FixLinks(nd.inputs, n)
      case Success(ls) => Success(nd.(inputs := ls))
      case Failure(e) => Failure(e)
  }

  /** The resolution `FixInputs` is meant to perform: it also resolves the recurrent input. */
  function FixInputsFull(nd: Node, n: nat): Result<Node> {
    match FixInputs(nd, n)
    case Failure(e) => Failure(e)
    case Success(m) =>
      if m.kind.RecurrentLayer? then
        match FixLink(m.kind.recurrentInput, n)
        case Success(r) => Success(m.(kind := RecurrentLayer(r)))
        case Failure(e) => Failure(e)
      else Success(m)
  }

  /**
   * A non-null placeholder predecessor `p` becomes the layer at `p - 1`, and
   * nothing else changes; otherwise each input placeholder `l` becomes the
   * layer at `l - 1`.
   */
  lemma FixInputsResolves(nd: Node, n: nat)
    requires FixInputs(nd, n).Success?
    ensures var m := FixInputs(nd, n).value;
      m.kind == nd.kind && m.output == nd.output && m.name == nd.name && m.id == nd.id
      && (!nd.prev.Null? ==> nd.prev.Mark? && 1 <= nd.prev.p <= n && m.prev == At(nd.prev.p - 1) && m.inputs == nd.inputs)
      && (nd.prev.Null? ==>
            m.prev == Null && |m.inputs| == |nd.inputs|
            && forall k | 0 <= k < |nd.inputs| ::
                 nd.inputs[k].Mark? && 1 <= nd.inputs[k].p <= n && m.inputs[k] == At(nd.inputs[k].p - 1))
  {
  }

  /** As written, a recurrent layer keeps its placeholder recurrent input after `FixInputs`. */
  lemma RecurrentInputUnresolved(nd: Node, n: nat, p: int)
    requires nd.kind == RecurrentLayer(Mark(p)) && FixInputs(nd, n).Success?
    ensures FixInputs(nd, n).value.kind.recurrentInput == Mark(p)
  {
  }

  /** The full resolution leaves no placeholder in a recurrent layer. */
  lemma FixInputsFullResolves(nd: Node, n: nat)
    requires nd.kind.RecurrentLayer? && FixInputsFull(nd, n).Success?
    ensures nd.kind.recurrentInput.Mark? && 1 <= nd.kind.recurrentInput.p <= n
    ensures FixInputsFull(nd, n).value.kind == RecurrentLayer(At(nd.kind.recurrentInput.p - 1))
  {
  }

  /**
   * `IndexOf.at(l)` while saving: the 1-based number the save gave the layer;
   * a pointer not in the map (`nullptr` included) throws `std::out_of_range`.
   */
  function IndexOfLink(indexOf: map<nat, nat>, l: Link): (r: Result<nat>)
    ensures r.Success? <==> l.At? && l.index in indexOf
    ensures r.Success? ==> r.value == indexOf[l.index]
  {
    if l.At? && l.index in indexOf then Success(indexOf[l.index]) else Failure(BadIndex)
  }

  // ---------------------------------------------------------------- Input / Inputs

  /**
   * `Input(inp)` on layer `i`: its predecessor becomes `l` and nothing else
   * changes. A live graph stays live exactly when `l` is null or an earlier
   * layer.
   */
  function SetInput(ns: seq<Node>, i: nat, l: Link): (r: seq<Node>)
    requires i < |ns|
    ensures |r| == |ns| && r[i].prev == l && r[i].(prev := ns[i].prev) == ns[i]
    ensures forall j | 0 <= j < |ns| && j != i :: r[j] == ns[j]
  {
    ns[i := ns[i].(prev := l)]
  }

  lemma SetInputWired(ns: seq<Node>, i: nat, l: Link)
    requires Wired(ns) && i < |ns|
    ensures Wired(SetInput(ns, i, l)) <==> Below(l, i)
  {
    var r := SetInput(ns, i, l);
    if Below(l, i) {
      forall j | 0 <= j < |r|
        ensures Below(r[j].prev, j)
        ensures forall k | 0 <= k < |r[j].inputs| :: r[j].inputs[k].At? && r[j].inputs[k].index < j
        ensures RecOf(r[j].kind).Null? || (RecOf(r[j].kind).At? && RecOf(r[j].kind).index < |r|)
      {
        assert r[j].inputs == ns[j].inputs && r[j].kind == ns[j].kind;
      }
    }
  }

  /**
   * `Inputs(inp)` on layer `i`: its input list becomes `ls` and nothing else
   * changes. A live graph stays live exactly when every listed input is an
   * earlier layer.
   */
  function SetInputs(ns: seq<Node>, i: nat, ls: seq<Link>): (r: seq<Node>)
    requires i < |ns|
    ensures |r| == |ns| && r[i].inputs == ls && r[i].(inputs := ns[i].inputs) == ns[i]
    ensures forall j | 0 <= j < |ns| && j != i :: r[j] == ns[j]
  {
    ns[i := ns[i].(inputs := ls)]
  }

  lemma SetInputsWired(ns: seq<Node>, i: nat, ls: seq<Link>)
    requires Wired(ns) && i < |ns|
    ensures Wired(SetInputs(ns, i, ls)) <==> forall k | 0 <= k < |ls| :: ls[k].At? && ls[k].index < i
  {
    var r := SetInputs(ns, i, ls);
    if forall k | 0 <= k < |ls| :: ls[k].At? && ls[k].index < i {
      forall j | 0 <= j < |r|
        ensures Below(r[j].prev, j)
        ensures forall k | 0 <= k < |r[j].inputs| :: r[j].inputs[k].At? && r[j].inputs[k].index < j
        ensures RecOf(r[j].kind).Null? || (RecOf(r[j].kind).At? && RecOf(r[j].kind).index < |r|)
      {
        assert r[j].prev == ns[j].prev && r[j].kind == ns[j].kind;
      }
    } else {
      var k :| 0 <= k < |ls| && !(ls[k].At? && ls[k].index < i);
      assert r[i].inputs[k] == ls[k];
    }
  }

  // ---------------------------------------------------------------- global hyperparameters

  /** The static initialisers of `NeuralLayer_Base::__LearnRate` ... `__iDropout`, as written. */
  function InitialHyper(): Hyper {
    Hyper(0.0001, 0.999, 0.001, 0.999, 0.1, 0.8, 1.25)
  }

  /** As written, `__iRMSprop = 0.1` is not `1 - __RMSprop`. */
  lemma InitialNotComplementary()
    ensures !Complementary(InitialHyper())
    ensures InitialHyper().iRmsProp != 1.0 - InitialHyper().rmsProp
  {
  }

  /** The defaults with `__iRMSprop = 0.001`, the complement every setter keeps. */
  function CorrectedInitialHyper(): (h: Hyper)
    ensures Complementary(h)
    ensures h == InitialHyper().(iRmsProp := 1.0 - InitialHyper().rmsProp)
  {
    Hyper(0.0001, 0.999, 0.001, 0.999, 0.001, 0.8, 1.25)
  }

  /** The static hyperparameters every new dense layer copies. */
  class Defaults {
    var hp: Hyper
    var l2: real

    constructor ()
      ensures hp == CorrectedInitialHyper() && l2 == 0.0
    {
      hp := CorrectedInitialHyper();
      l2 := 0.0;
    }

    /** `LearnRate(alpha)`. */
    method SetLearnRate(a: real)
      modifies this
      ensures hp == old(hp).(learnRate := a) && l2 == old(l2)
      ensures Complementary(old(hp)) ==> Complementary(hp)
    {
      hp := hp.(learnRate := a);
    }

    /** `Momentum(beta)`: the complement follows. */
    method SetMomentum(b: real)
      modifies this
      ensures hp == old(hp).(momentum := b, iMomentum := 1.0 - b) && l2 == old(l2)
      ensures Complementary(old(hp)) ==> Complementary(hp)
    {
      hp := hp.(momentum := b, iMomentum := 1.0 - b);
    }

    /** `RMSprop(beta)`: the complement follows. */
    method SetRMSprop(b: real)
      modifies this
      ensures hp == old(hp).(rmsProp := b, iRmsProp := 1.0 - b) && l2 == old(l2)
      ensures Complementary(old(hp)) ==> Complementary(hp)
    {
      hp := hp.(rmsProp := b, iRmsProp := 1.0 - b);
    }

    /** `Dropout(beta)`: the reciprocal follows. */
    method SetDropout(b: real)
      requires b != 0.0
      modifies this
      ensures hp == old(hp).(dropout := b, iDropout := 1.0 / b) && l2 == old(l2)
      ensures Complementary(old(hp)) ==> Complementary(hp)
    {
      hp := hp.(dropout := b, iDropout := 1.0 / b);
    }

    /** `L2Regularization(lambda)`. */
    method SetL2(lambda: real)
      modifies this
      ensures hp == old(hp) && l2 == lambda
    {
      l2 := lambda;
    }
  }
}
