/**
 * The training-data helpers of `PVX_Training.cpp`: `Reorder`, which gathers
 * columns by a list of indices, and the older revision of
 * `NeuralNetContainer::AddTrainData`, which appends input columns and grows
 * the shuffled `TrainOrder`.
 *
 * `std::shuffle` is nondeterministic; every shuffle is a parameter: any
 * rearrangement of the sequence being shuffled.
 */
module Training {
  import opened Wrappers
  import opened Matrices

  // ---------------------------------------------------------------- orders

  /** `lo, lo + 1, ..., hi - 1`. */
  function Range(lo: nat, hi: nat): (r: seq<nat>)
    requires lo <= hi
    ensures |r| == hi - lo && forall i | 0 <= i < |r| :: r[i] == lo + i
  {
    seq(hi - lo, i requires 0 <= i < hi - lo => lo + i)
  }

  /** `s` lists each of `0..|s|-1` exactly once. */
  predicate IsPermutation(s: seq<nat>) {
    multiset(s) == multiset(Range(0, |s|))
  }

  /** `TrainOrder.resize(next + n)` followed by `TrainOrder[next] = next` for the new entries. */
  function Extended(t: seq<nat>, n: nat): (r: seq<nat>)
    ensures |r| == |t| + n && r[..|t|] == t
    ensures forall i | |t| <= i < |r| :: r[i] == i
  {
    t + Range(|t|, |t| + n)
  }

  /** A permutation of `0..n-1` extended by `n, ..., n + k - 1` is a permutation of `0..n+k-1`. */
  lemma ExtendedPermutation(t: seq<nat>, n: nat)
    requires IsPermutation(t)
    ensures multiset(Extended(t, n)) == multiset(Range(0, |t| + n))
  {
    assert Range(0, |t| + n) == Range(0, |t|) + Range(|t|, |t| + n);
  }

  /** Any shuffle of the extended order is again a permutation. */
  lemma ShuffledPermutation(t: seq<nat>, n: nat, shuffled: seq<nat>)
    requires IsPermutation(t) && multiset(shuffled) == multiset(Extended(t, n))
    ensures IsPermutation(shuffled) && |shuffled| == |t| + n
  {
    ExtendedPermutation(t, n);
    calc {
      |shuffled|;
      |multiset(shuffled)|;
      |multiset(Range(0, |t| + n))|;
      |t| + n;
    }
  }

  /** Every entry of a permutation is below its length. */
  lemma PermutationBelow(s: seq<nat>, x: nat)
    requires IsPermutation(s) && x in s
    ensures x < |s|
  {
    assert x in multiset(s);
    assert x in multiset(Range(0, |s|));
    assert x in Range(0, |s|);
  }

  /** ... and every index below its length is an entry. */
  lemma PermutationHas(s: seq<nat>, x: nat)
    requires IsPermutation(s) && x < |s|
    ensures x in s
  {
    assert Range(0, |s|)[x] == x;
    assert x in multiset(Range(0, |s|));
    assert x in multiset(s);
  }

  // ---------------------------------------------------------------- Reorder

  /**
   * `Reorder(data, Order, count)`: `count` columns, column `i` being column
   * `Order[i]` of `data`. An index outside the columns, or an `Order` with
   * fewer than `count` entries, reads outside the buffers.
   */
  function Reordered(data: Mat, order: seq<int>, count: nat): (r: Result<Mat>)
    ensures r.Success? <==> count <= |order| && forall i | 0 <= i < count :: 0 <= order[i] < Width(data)
    ensures r.Success? ==> HasShape(r.value, data.rows, count)
  {
    if count <= |order| && forall i | 0 <= i < count :: 0 <= order[i] < Width(data) then
      Success(Matrix(data.rows, seq(count, i requires 0 <= i < count => data.cols[order[i]])))
    else Failure(BadIndex)
  }

  /** The column loop of `Reorder`. */
  method Reorder(data: Mat, order: seq<int>, count: nat) returns (r: Result<Mat>)
    ensures r == Reordered(data, order, count)
    ensures r.Success? ==> forall i | 0 <= i < count :: r.value.cols[i] == data.cols[order[i]]
  {
    var cols: seq<seq<real>> := [];
    var i := 0;
    while i < count
      invariant 0 <= i <= count && i <= |order| && |cols| == i
      invariant forall j | 0 <= j < i :: 0 <= order[j] < Width(data) && cols[j] == data.cols[order[j]]
    {
      if i >= |order| || order[i] < 0 || order[i] >= Width(data) {
        return Failure(BadIndex);
      }
      cols := cols + [data.cols[order[i]]];
      i := i + 1;
    }
    assert cols == seq(count, j requires 0 <= j < count => data.cols[order[j]]);
    r := Success(Matrix(data.rows, cols));
  }

  /** Gathering every column in its own place gives the data back. */
  lemma ReorderedIdentity(data: Mat)
    ensures Reordered(data, Range(0, Width(data)), Width(data)) == Success(data)
  {
    var n := Width(data);
    var r := Reordered(data, Range(0, n), n);
    assert r.value.cols == data.cols;
  }

  /** Gathering by a permutation of all the columns never reads outside the data. */
  lemma ReorderedByPermutation(data: Mat, order: seq<nat>)
    requires IsPermutation(order) && |order| == Width(data)
    ensures Reordered(data, order, |order|).Success?
  {
    forall i | 0 <= i < |order| ensures order[i] < Width(data) {
      PermutationBelow(order, order[i]);
    }
  }

  // ---------------------------------------------------------------- AddTrainData

  /** `netData(t.rows(), t.cols() + item.cols()) << t, item`: `item`'s columns after `t`'s; the row counts must agree. */
  function Beside(t: Mat, item: Mat): (r: Result<Mat>)
    ensures r.Success? <==> t.rows == item.rows
    ensures r.Success? ==> HasShape(r.value, t.rows, Width(t) + Width(item))
    ensures r.Success? ==> forall j | 0 <= j < Width(t) :: r.value.cols[j] == t.cols[j]
    ensures r.Success? ==> forall j | 0 <= j < Width(item) :: r.value.cols[Width(t) + j] == item.cols[j]
  {
    if t.rows == item.rows then Success(Matrix(t.rows, t.cols + item.cols)) else Failure(BadShape)
  }

  /**
   * The loop over the new inputs: input `i` gains `items[i]`'s columns, for
   * each `i` in order. An item without an input buffer indexes past the end.
   */
  function Appended(data: seq<Mat>, items: seq<Mat>): (r: Result<seq<Mat>>)
    ensures r.Success? <==> |items| <= |data| && forall i | 0 <= i < |items| :: data[i].rows == items[i].rows
    ensures r.Success? ==> |r.value| == |data|
  {
    if |items| <= |data| && forall i | 0 <= i < |items| :: data[i].rows == items[i].rows then
      Success(seq(|data|, i requires 0 <= i < |data| => if i < |items| then Beside(data[i], items[i]).value else data[i]))
    else Failure(BadShape)
  }

  /** Inputs aligned with an order stay aligned with it extended by `w` when each gains `w` columns. */
  lemma AppendedAligned(data: seq<Mat>, order: seq<nat>, items: seq<Mat>, w: nat)
    requires Appended(data, items).Success? && Aligned(data, order) && |items| == |data|
    requires forall i | 0 <= i < |items| :: Width(items[i]) == w
    ensures Aligned(Appended(data, items).value, Extended(order, w))
  {
    var r := Appended(data, items).value;
    forall i | 0 <= i < |r| ensures Width(r[i]) == |order| + w {
      assert r[i] == Beside(data[i], items[i]).value;
    }
  }

  /** Every input buffer has one column per entry of the order. */
  predicate Aligned(data: seq<Mat>, order: seq<nat>) {
    forall i | 0 <= i < |data| :: Width(data[i]) == |order|
  }

  /**
   * The older `NeuralNetContainer` revision's batching state: `InputData`
   * and `TrainOrder` are the only things its `AddTrainData` touches.
   */
  class TrainingSet {
    var inputData: seq<Mat>
    var trainOrder: seq<nat>

    ghost predicate Valid()
      reads this
    {
      IsPermutation(trainOrder)
    }

    constructor (ins: seq<Mat>)
      ensures Valid() && inputData == ins && trainOrder == []
    {
      inputData := ins;
      trainOrder := [];
    }

    /**
     * The `ForEach` over `inp`: `InputData[i]` gets `item`'s columns appended.
     * An `inp` longer than `InputData` indexes past its end.
     */
    method AppendInputs(inp: seq<Mat>) returns (ok: bool)
      modifies this
      ensures trainOrder == old(trainOrder)
      ensures ok <==> Appended(old(inputData), inp).Success?
      ensures ok ==> inputData == Appended(old(inputData), inp).value
    {
      var i := 0;
      while i < |inp|
        invariant 0 <= i <= |inp| && trainOrder == old(trainOrder)
        invariant i <= |old(inputData)| && |inputData| == |old(inputData)|
        invariant forall j | 0 <= j < i :: old(inputData)[j].rows == inp[j].rows
        invariant forall j | 0 <= j < |inputData| ::
          inputData[j] == if j < i then Beside(old(inputData)[j], inp[j]).value else old(inputData)[j]
      {
        if i >= |inputData| {
          return false;
        }
        var t := Beside(inputData[i], inp[i]);
        if t.Failure? {
          return false;
        }
        inputData := inputData[i := t.value];
        i := i + 1;
      }
      assert inputData == Appended(old(inputData), inp).value;
      ok := true;
    }

    /**
     * `AddTrainData(inp, outp)` as written: the inputs get their new
     * columns, then `TrainOrder` grows by `outp.size()` entries, that is
     * rows times columns, before it is shuffled. The targets themselves
     * are only counted, never stored.
     */
    method AddTrainData(inp: seq<Mat>, outp: Mat, shuffled: seq<nat>) returns (ok: bool)
      requires Valid() && multiset(shuffled) == multiset(Extended(trainOrder, outp.rows * Width(outp)))
      modifies this
      ensures Valid()
      ensures ok <==> Appended(old(inputData), inp).Success?
      ensures ok ==> inputData == Appended(old(inputData), inp).value
      ensures ok ==> trainOrder == shuffled && |trainOrder| == |old(trainOrder)| + outp.rows * Width(outp)
      ensures !ok ==> trainOrder == old(trainOrder)
    {
      ok := AppendInputs(inp);
      if !ok {
        return;
      }
      GrowOrder(outp.rows * Width(outp), shuffled);
    }

    /**
     * `AddTrainData(inp, outp)` with `TrainOrder` grown by the number of
     * new samples, `outp.cols()`: inputs that were aligned with the order
     * stay aligned when every input gains as many columns as the targets.
     */
    method AddTrainDataByColumns(inp: seq<Mat>, outp: Mat, shuffled: seq<nat>) returns (ok: bool)
      requires Valid() && multiset(shuffled) == multiset(Extended(trainOrder, Width(outp)))
      modifies this
      ensures Valid()
      ensures ok <==> Appended(old(inputData), inp).Success?
      ensures ok ==> inputData == Appended(old(inputData), inp).value
      ensures ok ==> trainOrder == shuffled && |trainOrder| == |old(trainOrder)| + Width(outp)
      ensures (ok && Aligned(old(inputData), old(trainOrder)) && |inp| == |old(inputData)|
        && (forall i | 0 <= i < |inp| :: Width(inp[i]) == Width(outp))) ==> Aligned(inputData, trainOrder)
    {
      ghost var data := inputData;
      ghost var order := trainOrder;
      ok := AppendInputs(inp);
      if !ok {
        return;
      }
      GrowOrder(Width(outp), shuffled);
      if Aligned(data, order) && |inp| == |data| && forall i | 0 <= i < |inp| :: Width(inp[i]) == Width(outp) {
        AppendedAligned(data, order, inp, Width(outp));
      }
    }

    /** The resize-and-number loop over the new entries of `TrainOrder`, then `std::shuffle`. */
    method GrowOrder(n: nat, shuffled: seq<nat>)
      requires Valid() && multiset(shuffled) == multiset(Extended(trainOrder, n))
      modifies this
      ensures Valid() && inputData == old(inputData)
      ensures trainOrder == shuffled && |trainOrder| == |old(trainOrder)| + n
    {
      var next := |trainOrder|;
      var order := trainOrder;
      while next < |trainOrder| + n
        invariant |trainOrder| <= next <= |trainOrder| + n
        invariant order == trainOrder + Range(|trainOrder|, next)
      {
        order := order + [next];
        next := next + 1;
      }
      assert order == Extended(trainOrder, n);
      ShuffledPermutation(trainOrder, n, shuffled);
      trainOrder := shuffled;
    }
  }

  /**
   * With targets of two or more rows, the order `AddTrainData` builds names
   * a sample the aligned inputs do not have, so gathering a batch by it
   * reads outside the inputs.
   */
  lemma OrderOutrunsInputs(t: seq<nat>, outp: Mat, shuffled: seq<nat>, x: Mat)
    requires IsPermutation(t) && outp.rows >= 2 && Width(outp) >= 1
    requires multiset(shuffled) == multiset(Extended(t, outp.rows * Width(outp)))
    requires Width(x) == |t| + Width(outp)
    ensures Width(x) in shuffled
    ensures Reordered(x, shuffled, |shuffled|).Failure?
  {
    var w := Width(outp);
    ShuffledPermutation(t, outp.rows * w, shuffled);
    BelowMultiple(w, outp.rows);
    PermutationHas(shuffled, Width(x));
    var k :| 0 <= k < |shuffled| && shuffled[k] == Width(x);
  }

  /** A positive width is below any multiple of it by two or more. */
  lemma BelowMultiple(w: nat, k: nat)
    requires w >= 1 && k >= 2
    ensures w < k * w
  {
    assert k * w == w + (k - 1) * w;
    assert (k - 1) * w >= 1 * w;
  }

  /** With targets grown by their columns, every aligned input can be gathered by the whole order. */
  lemma OrderFitsInputs(data: seq<Mat>, order: seq<nat>)
    requires IsPermutation(order) && Aligned(data, order)
    ensures forall i | 0 <= i < |data| :: Reordered(data[i], order, |order|).Success?
  {
    forall i | 0 <= i < |data| ensures Reordered(data[i], order, |order|).Success? {
      ReorderedByPermutation(data[i], order);
    }
  }
}
