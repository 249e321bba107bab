/**
 * `RecurrentLayer` (`src/PVX_NeuralNets_Recurrent.cpp`): passes its
 * predecessor's output through and, on every forward pass, writes that
 * output into a designated input layer, the recurrent input, so the next
 * pass sees it. Here are the construction, `nInput`, the save format and the
 * two ways a recurrent layer is rebuilt from indices (`Load2` and
 * `newCopy`); the forward pass and the delegations are in module `Network`.
 */
module Recurrents {
  import opened Wrappers
  import opened Matrices
  import opened Bytes
  import opened BinFormat
  import opened Names
  import opened Graph

  /**
   * `RecurrentLayer(Input, RecurrentInput)`: the constructor reads
   * `Input->Output()`, so the predecessor must be a live layer; the output
   * starts as a copy of the predecessor's.
   */
  function NewRecurrent(ns: seq<Node>, input: Link, ri: Link): (r: Result<Node>)
    ensures r.Success? <==> input.At? && input.index < |ns|
    ensures r.Success? ==>
      r.value.output == ns[input.index].output && r.value.prev == input
      && r.value.kind == RecurrentLayer(ri) && r.value.inputs == [] && r.value.feedVersion == -1
  {
    if input.At? && input.index < |ns| then Success(Node([], 0, ns[input.index].output, -1, input, [], RecurrentLayer(ri)))
    else Failure(BadPointer)
  }

  /** `nInput()`: the recurrent input's `nInput()`, its feature rows. */
  function RecurrentNInput(ns: seq<Node>, nd: Node): (r: Result<nat>)
    requires nd.kind.RecurrentLayer?
    ensures r.Success? <==> nd.kind.recurrentInput.At? && nd.kind.recurrentInput.index < |ns|
    ensures r.Success? && ns[nd.kind.recurrentInput.index].output.rows >= 1 ==>
      r.value + 1 == ns[nd.kind.recurrentInput.index].output.rows
  {
    var ri := nd.kind.recurrentInput;
    if ri.At? && ri.index < |ns| then Success(NOutput(ns[ri.index].output)) else Failure(BadPointer)
  }

  // ---------------------------------------------------------------- Save

  /** The fields of an `RCNN` chunk: `NDID = int(Id)` and the two raw `int` indices inside `LYRS`. */
  function RecurrentFields(nd: Node, p: int, q: int): seq<Field> {
    [Field(NDID, EncodeInt(ToInt32(nd.id))), Field(LYRS, EncodeAll(Int32, [ToInt32(p), ToInt32(q)]))]
  }

  /**
   * `RecurrentLayer::Save`: `IndexOf.at` of the predecessor and of the
   * recurrent input, each of which must have been numbered.
   */
  function RecurrentSave(nd: Node, indexOf: map<nat, nat>): (r: Result<seq<byte>>)
    requires nd.kind.RecurrentLayer?
    ensures r.Success? <==> IndexOfLink(indexOf, nd.prev).Success? && IndexOfLink(indexOf, nd.kind.recurrentInput).Success?
    ensures r.Success? ==> r.value == Chunk(RCNN, Encode(RecurrentFields(nd,
      indexOf[nd.prev.index], indexOf[nd.kind.recurrentInput.index])))
  {
    match (IndexOfLink(indexOf, nd.prev), IndexOfLink(indexOf, nd.kind.recurrentInput))
    case (Success(p), Success(q)) => Success(Chunk(RCNN, Encode(RecurrentFields(nd, p, q))))
    case (Failure(e), _) => Failure(e)
    case (_, Failure(e)) => Failure(e)
  }

  // ---------------------------------------------------------------- Load2

  /**
   * The `NDID` handler, `Id = bin2.read<int>()`, once per `NDID` chunk: each
   * reads the first four bytes of its chunk, so the last chunk wins.
   */
  function ReadId(ps: seq<seq<byte>>, id: int): (r: Result<int>)
    ensures r.Success? <==> forall k | 0 <= k < |ps| :: |ps[k]| >= 4
    ensures r.Success? && ps == [] ==> r.value == id
    ensures r.Success? && ps != [] ==> r.value == DecodeInt(ps[|ps| - 1][..4])
  {
    if ps == [] then Success(id)
    else if |ps[0]| < 4 then Failure(Truncated)
    else ReadId(ps[1..], DecodeInt(ps[0][..4]))
  }

  /** The parts of an `RCNN` payload `Load2` reads: the `Id` (`-1` if absent) and the two indices. */
  function LoadParts(payload: seq<byte>): (r: Result<(int, int, int)>)
  {
    match ParseChunks(payload)
    case None => Failure(Truncated)
    case Some(fs) =>
      match (ReadVector(Int32, fs, LYRS, []), ReadId(Lookup(fs, NDID), -1))
      case (Success(layers), Success(id)) =>
        if |layers| < 2 then Failure(BadIndex) else Success((id, layers[0], layers[1]))
      case (Failure(e), _) => Failure(e)
      case (_, Failure(e)) => Failure(e)
  }

  /**
   * `Load2` as written: the indices are cast to pointers and handed to the
   * constructor, which dereferences the predecessor placeholder.
   */
  function LoadAsWritten(ns: seq<Node>, payload: seq<byte>): (r: Result<Node>)
    ensures r.Success? ==> LoadParts(payload).Success?
    ensures r.Success? ==>
      r.value.prev == Mark(LoadParts(payload).value.1) && r.value.kind == RecurrentLayer(Mark(LoadParts(payload).value.2))
  {
    match LoadParts(payload)
    case Failure(e) => Failure(e)
    case Success((id, p, q)) =>
      match NewRecurrent(ns, Mark(p), Mark(q))
      case Failure(e) => Failure(e)
      case Success(nd) => Success(if id >= 0 then nd.(id := id) else nd)
  }

  /** As written, `Load2` never yields a layer, whatever the file and the layers already loaded. */
  lemma LoadAsWrittenFails(ns: seq<Node>, payload: seq<byte>)
    ensures LoadAsWritten(ns, payload).Failure?
  {
  }

  /**
   * A recurrent layer whose two links are still placeholders: the output is
   * copied only once the predecessor is resolved, so it is empty here.
   */
  function Placeholder(p: int, q: int, id: int): (nd: Node)
    ensures nd.prev == Mark(p) && nd.kind == RecurrentLayer(Mark(q)) && nd.id == id
    ensures nd.inputs == [] && nd.feedVersion == -1 && nd.output.rows == 0
  {
    Node([], id, Matrix(0, []), -1, Mark(p), [], RecurrentLayer(Mark(q)))
  }

  /**
   * `Load2` as intended: the placeholders are stored without being followed,
   * and `Id` is kept at its default `0` unless the file holds a
   * non-negative one.
   */
  function RecurrentLoad(payload: seq<byte>): (r: Result<Node>)
    ensures r.Success? <==> LoadParts(payload).Success?
    ensures r.Success? ==> var (id, p, q) := LoadParts(payload).value;
      r.value == Placeholder(p, q, if id >= 0 then id else 0)
  {
    match LoadParts(payload)
    case Failure(e) => Failure(e)
    case Success((id, p, q)) => Success(Placeholder(p, q, if id >= 0 then id else 0))
  }

  lemma FieldsRead(nd: Node, p: int, q: int)
    requires IsInt(nd.id) && IsInt(p) && IsInt(q)
    ensures var fs := RecurrentFields(nd, p, q);
      Fits(fs) && ReadVector(Int32, fs, LYRS, []) == Success([p, q])
      && Lookup(fs, NDID) == [EncodeInt(nd.id)]
  {
    var fs := RecurrentFields(nd, p, q);
    IntExact(nd.id);
    IntExact(p);
    IntExact(q);
    assert AllExact(Int32, [p, q]);
    EncodeAllLength(Int32, [p, q]);
    LookupUnique(fs, 0);
    LookupUnique(fs, 1);
    ReadVectorWritten(Int32, fs, LYRS, [p, q], []);
  }

  /**
   * Save then the intended `Load2`: the two saved indices come back as
   * placeholders in their places, and a non-negative `Id` that fits an
   * `int` comes back unchanged.
   */
  lemma RecurrentRoundTrip(nd: Node, indexOf: map<nat, nat>)
    requires nd.kind.RecurrentLayer? && RecurrentSave(nd, indexOf).Success?
    requires 0 <= nd.id < 0x8000_0000
    requires IsInt(indexOf[nd.prev.index]) && IsInt(indexOf[nd.kind.recurrentInput.index])
    ensures var p := indexOf[nd.prev.index];
      var q := indexOf[nd.kind.recurrentInput.index];
      RecurrentLoad(Encode(RecurrentFields(nd, p, q))) == Success(Placeholder(p, q, nd.id))
  {
    var p := indexOf[nd.prev.index];
    var q := indexOf[nd.kind.recurrentInput.index];
    var fs := RecurrentFields(nd, p, q);
    FieldsRead(nd, p, q);
    ParseEncode(fs);
    IdRead(nd.id);
  }

  lemma IdRead(id: int)
    requires IsInt(id)
    ensures ReadId([EncodeInt(id)], -1) == Success(id)
  {
    IntExact(id);
    assert EncodeInt(id)[..4] == EncodeInt(id);
    assert [EncodeInt(id)][1..] == [];
  }

  /** Without an `NDID` chunk the loaded layer keeps the default `Id`. */
  lemma LoadWithoutId(payload: seq<byte>, fs: seq<Field>)
    requires ParseChunks(payload) == Some(fs) && Lookup(fs, NDID) == []
    requires RecurrentLoad(payload).Success?
    ensures RecurrentLoad(payload).value.id == 0
  {
  }

  // ---------------------------------------------------------------- newCopy

  /**
   * `newCopy(IndexOf)` as written: the numbers of both links are cast to
   * pointers and handed to the constructor, which dereferences the first.
   */
  function CopyAsWritten(ns: seq<Node>, nd: Node, indexOf: map<nat, nat>): (r: Result<Node>)
    requires nd.kind.RecurrentLayer?
    ensures r.Success? ==>
      r.value.id == nd.id && r.value.prev.Mark? && r.value.kind.RecurrentLayer? && r.value.kind.recurrentInput.Mark?
  {
    match (IndexOfLink(indexOf, nd.prev), IndexOfLink(indexOf, nd.kind.recurrentInput))
    case (Success(p), Success(q)) =>
      (match NewRecurrent(ns, Mark(p), Mark(q))
       case Success(c) => Success(c.(id := nd.id))
       case Failure(e) => Failure(e))
    case (Failure(e), _) => Failure(e)
    case (_, Failure(e)) => Failure(e)
  }

  /** As written, copying a recurrent layer always fails. */
  lemma CopyAsWrittenFails(ns: seq<Node>, nd: Node, indexOf: map<nat, nat>)
    requires nd.kind.RecurrentLayer?
    ensures CopyAsWritten(ns, nd, indexOf).Failure?
  {
  }

  /** `newCopy` as intended: the same `Id`, both links as placeholders holding their numbers. */
  function RecurrentCopy(nd: Node, indexOf: map<nat, nat>): (r: Result<Node>)
    requires nd.kind.RecurrentLayer?
    ensures r.Success? <==> IndexOfLink(indexOf, nd.prev).Success? && IndexOfLink(indexOf, nd.kind.recurrentInput).Success?
    ensures r.Success? ==>
      r.value == Placeholder(indexOf[nd.prev.index], indexOf[nd.kind.recurrentInput.index], nd.id)
  {
    match (IndexOfLink(indexOf, nd.prev), IndexOfLink(indexOf, nd.kind.recurrentInput))
    case (Success(p), Success(q)) => Success(Placeholder(p, q, nd.id))
    case (Failure(e), _) => Failure(e)
    case (_, Failure(e)) => Failure(e)
  }
}
