/**
 * The activation functions and their derivatives, which
 * `PVX_NeuralNets_DenseLayer.cpp` and `PVX_NeuralNets_Activation.cpp` both
 * define (identically) as static helpers on whole matrices. `tanh`, the
 * logistic sigmoid and the square-root normalisation of the adaptive update
 * rules are floating-point kernels and come in as parameters; ReLU and the
 * linear activation are concrete.
 */
module Activations {
  import opened Wrappers
  import opened Matrices
  import opened Graph

  /**
   * The floating-point kernels: `tanh`, `1 / (1 + exp(-x))`, and
   * `normalise(g, r) = g / (sqrt(r) + 1e-8)`.
   */
  datatype Kernels = Kernels(tanh: real -> real, sigmoid: real -> real, normalise: (real, real) -> real)

  /** `Relu`: `x * (x > 0)`. */
  function Relu(x: real): real {
    if x > 0.0 then x else 0.0
  }

  /** `ReluDer`: `1` on positive entries, `0.0001` elsewhere. */
  function ReluDer(x: real): real {
    if x > 0.0 then 1.0 else 0.0001
  }

  /** The function an activation applies to each entry, or `None` when none is bound. */
  function EntryFn(k: Kernels, a: Act): Option<real -> real> {
    match a
    case Tanh => Some(k.tanh)
    case TanhBias => Some((x: real) => k.tanh(x) * 0.5 + 0.5)
    case ReLU => Some(Relu)
    case Sigmoid => Some(k.sigmoid)
    case Linear => Some((x: real) => x)
    case OtherAct(_) => None
  }

  /** The derivative each activation applies to each entry. */
  function DerFn(k: Kernels, a: Act): Option<real -> real> {
    match a
    case Tanh => Some((x: real) => 1.0 - k.tanh(x) * k.tanh(x))
    case TanhBias => Some((x: real) => 0.5 * (1.0 - k.tanh(x) * k.tanh(x)))
    case ReLU => Some(ReluDer)
    case Sigmoid => Some((x: real) => k.sigmoid(x) * (1.0 - k.sigmoid(x)))
    case Linear => Some((x: real) => 1.0)
    case OtherAct(_) => None
  }

  /**
   * `Activate(x)`: entrywise, same shape. A layer built with a value outside
   * `LayerActivation` never binds its `Activate` pointer, so calling it is
   * undefined.
   */
  function Activate(k: Kernels, a: Act, m: Mat): (r: Result<Mat>)
    ensures r.Success? <==> !a.OtherAct?
    ensures r.Success? ==> HasShape(r.value, m.rows, Width(m))
    ensures r.Success? ==> forall j, i | 0 <= j < Width(m) && 0 <= i < m.rows ::
      r.value.cols[j][i] == EntryFn(k, a).value(m.cols[j][i])
  {
    match EntryFn(k, a)
    case None => Failure(Unbound)
    case Some(f) => Success(MapEntries(m, f))
  }

  /** `Derivative(x)`, entrywise, same shape. */
  function Derivative(k: Kernels, a: Act, m: Mat): (r: Result<Mat>)
    ensures r.Success? <==> !a.OtherAct?
    ensures r.Success? ==> HasShape(r.value, m.rows, Width(m))
    ensures r.Success? ==> forall j, i | 0 <= j < Width(m) && 0 <= i < m.rows ::
      r.value.cols[j][i] == DerFn(k, a).value(m.cols[j][i])
  {
    match DerFn(k, a)
    case None => Failure(Unbound)
    case Some(f) => Success(MapEntries(m, f))
  }

  /** The linear activation is the identity and its derivative is all ones. */
  lemma LinearIdentity(k: Kernels, m: Mat)
    ensures Activate(k, Linear, m) == Success(m)
    ensures Derivative(k, Linear, m) == Success(Ones(m.rows, Width(m)))
  {
    var r := Activate(k, Linear, m).value;
    Ext(r, m);
    var d := Derivative(k, Linear, m).value;
    Ext(d, Ones(m.rows, Width(m)));
  }
}
