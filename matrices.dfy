/**
 * Dense matrices as the layers see them: a row count and a sequence of
 * columns, which is Eigen's column-major storage (`data()` is the columns one
 * after the other). Entries are `real` wherever the layers only copy or do
 * linear arithmetic; the element type is a parameter where only copying
 * matters.
 */
module Matrices {

  datatype Matrix<T> = Matrix(rows: nat, cols: seq<seq<T>>)

  /** Every column holds exactly `rows` entries. */
  predicate Wf<T>(m: Matrix<T>) {
    forall j | 0 <= j < |m.cols| :: |m.cols[j]| == m.rows
  }

  /** A real matrix whose columns all have `rows` entries, as every Eigen matrix does. */
  type Mat = m: Matrix<real> | Wf(m) witness Matrix(0, [])

  /** The column count (Eigen's `cols()`), which is the batch size of a layer output. */
  function Width<T>(m: Matrix<T>): nat {
    |m.cols|
  }

  predicate HasShape<T>(m: Matrix<T>, r: nat, c: nat) {
    Wf(m) && m.rows == r && |m.cols| == c
  }

  predicate SameShape<T, U>(a: Matrix<T>, b: Matrix<U>) {
    Wf(a) && Wf(b) && a.rows == b.rows && |a.cols| == |b.cols|
  }

  /** `Constant(r, c, x)`: every entry is `x`. */
  function Fill<T>(r: nat, c: nat, x: T): (m: Matrix<T>)
    ensures HasShape(m, r, c)
    ensures forall j, i | 0 <= j < c && 0 <= i < r :: m.cols[j][i] == x
  {
    Matrix(r, seq(c, _ => seq(r, _ => x)))
  }

  function Ones(r: nat, c: nat): Matrix<real> {
    Fill(r, c, 1.0)
  }

  function Zeros(r: nat, c: nat): Matrix<real> {
    Fill(r, c, 0.0)
  }

  /** Equal shapes and equal entries make equal matrices. */
  lemma Ext<T>(a: Matrix<T>, b: Matrix<T>)
    requires SameShape(a, b)
    requires forall j, i | 0 <= j < |a.cols| && 0 <= i < a.rows :: a.cols[j][i] == b.cols[j][i]
    ensures a == b
  {
    forall j | 0 <= j < |a.cols|
      ensures a.cols[j] == b.cols[j]
    {
    }
  }

  /** `outPart(m)`: every row but the last (the feature rows of an augmented buffer). */
  function OutPart<T>(m: Matrix<T>): (p: Matrix<T>)
    requires Wf(m) && m.rows >= 1
    ensures HasShape(p, m.rows - 1, Width(m))
    ensures forall j, i | 0 <= j < Width(m) && 0 <= i < m.rows - 1 :: p.cols[j][i] == m.cols[j][i]
  {
    Matrix(m.rows - 1, seq(|m.cols|, j requires 0 <= j < |m.cols| => m.cols[j][..m.rows - 1]))
  }

  /** The last row (the bias row of an augmented buffer). */
  function LastRow<T>(m: Matrix<T>): (r: seq<T>)
    requires Wf(m) && m.rows >= 1
    ensures |r| == Width(m)
  {
    seq(|m.cols|, j requires 0 <= j < |m.cols| => m.cols[j][m.rows - 1])
  }

  /** `outPart(m) = d`: the feature rows are overwritten, the last row is kept. */
  function SetOutPart<T>(m: Matrix<T>, d: Matrix<T>): (r: Matrix<T>)
    requires Wf(m) && Wf(d) && m.rows == d.rows + 1 && Width(d) == Width(m)
    ensures HasShape(r, m.rows, Width(m))
    ensures OutPart(r) == d && LastRow(r) == LastRow(m)
  {
    var r := Matrix(m.rows, seq(|m.cols|, j requires 0 <= j < |m.cols| => d.cols[j] + [m.cols[j][m.rows - 1]]));
    Ext(OutPart(r), d);
    r
  }

  /** `m.row(rows - 1) = x`: the last row is overwritten with `x`. */
  function SetLastRow<T>(m: Matrix<T>, x: T): (r: Matrix<T>)
    requires Wf(m) && m.rows >= 1
    ensures HasShape(r, m.rows, Width(m))
    ensures OutPart(r) == OutPart(m)
    ensures forall j | 0 <= j < Width(m) :: r.cols[j][m.rows - 1] == x
  {
    var r := Matrix(m.rows, seq(|m.cols|, j requires 0 <= j < |m.cols| => m.cols[j][..m.rows - 1] + [x]));
    Ext(OutPart(r), OutPart(m));
    r
  }

  /** Elementwise combination of two equally shaped matrices. */
  function Zip<T>(a: Matrix<T>, b: Matrix<T>, f: (T, T) -> T): (r: Matrix<T>)
    requires SameShape(a, b)
    ensures HasShape(r, a.rows, Width(a))
    ensures forall j, i | 0 <= j < Width(a) && 0 <= i < a.rows :: r.cols[j][i] == f(a.cols[j][i], b.cols[j][i])
  {
    Matrix(a.rows, seq(|a.cols|, j requires 0 <= j < |a.cols| =>
      seq(a.rows, i requires 0 <= i < a.rows => f(a.cols[j][i], b.cols[j][i]))))
  }

  /** Entry-by-entry transformation (Eigen's unary array expressions). */
  function MapEntries<T>(a: Matrix<T>, f: T -> T): (r: Matrix<T>)
    requires Wf(a)
    ensures HasShape(r, a.rows, Width(a))
    ensures forall j, i | 0 <= j < Width(a) && 0 <= i < a.rows :: r.cols[j][i] == f(a.cols[j][i])
  {
    Matrix(a.rows, seq(|a.cols|, j requires 0 <= j < |a.cols| =>
      seq(a.rows, i requires 0 <= i < a.rows => f(a.cols[j][i]))))
  }

  function Add(a: Matrix<real>, b: Matrix<real>): Matrix<real>
    requires SameShape(a, b)
  {
    Zip(a, b, (x: real, y: real) => x + y)
  }

  function Sub(a: Matrix<real>, b: Matrix<real>): Matrix<real>
    requires SameShape(a, b)
  {
    Zip(a, b, (x: real, y: real) => x - y)
  }

  /** The elementwise (array) product. */
  function Hadamard(a: Matrix<real>, b: Matrix<real>): Matrix<real>
    requires SameShape(a, b)
  {
    Zip(a, b, (x: real, y: real) => x * y)
  }

  function Scale(s: real, a: Matrix<real>): Matrix<real>
    requires Wf(a)
  {
    MapEntries(a, (x: real) => s * x)
  }

  function Row<T>(m: Matrix<T>, i: nat): (r: seq<T>)
    requires Wf(m) && i < m.rows
    ensures |r| == Width(m)
  {
    seq(|m.cols|, j requires 0 <= j < |m.cols| => m.cols[j][i])
  }

  function Dot(u: seq<real>, v: seq<real>): real
    requires |u| == |v|
  {
    if u == [] then 0.0 else u[0] * v[0] + Dot(u[1..], v[1..])
  }

  /** The matrix product `a * b`. */
  function MatMul(a: Matrix<real>, b: Matrix<real>): (r: Matrix<real>)
    requires Wf(a) && Wf(b) && Width(a) == b.rows
    ensures HasShape(r, a.rows, Width(b))
    ensures forall j, i | 0 <= j < Width(b) && 0 <= i < a.rows :: r.cols[j][i] == Dot(Row(a, i), b.cols[j])
  {
    Matrix(a.rows, seq(|b.cols|, j requires 0 <= j < |b.cols| =>
      seq(a.rows, i requires 0 <= i < a.rows => Dot(Row(a, i), b.cols[j]))))
  }

  function Transpose<T>(m: Matrix<T>): (r: Matrix<T>)
    requires Wf(m)
    ensures HasShape(r, Width(m), m.rows)
    ensures forall j, i | 0 <= j < m.rows && 0 <= i < Width(m) :: r.cols[j][i] == m.cols[i][j]
    ensures forall j | 0 <= j < m.rows :: r.cols[j] == Row(m, j)
    ensures forall i | 0 <= i < Width(m) :: Row(r, i) == m.cols[i]
  {
    Matrix(|m.cols|, seq(m.rows, i requires 0 <= i < m.rows => Row(m, i)))
  }

  /** Rows `[start, start + len)` of every column (Eigen's `block(start, 0, len, cols())`). */
  function RowBlock<T>(m: Matrix<T>, start: nat, len: nat): (r: Matrix<T>)
    requires Wf(m) && start + len <= m.rows
    ensures HasShape(r, len, Width(m))
    ensures forall j, i | 0 <= j < Width(m) && 0 <= i < len :: r.cols[j][i] == m.cols[j][start + i]
  {
    Matrix(len, seq(|m.cols|, j requires 0 <= j < |m.cols| => m.cols[j][start..start + len]))
  }

  /**
   * `m.block(start, 0, b.rows(), b.cols()) = b`: the rows `[start, start + b.rows)`
   * of the first `Width(b)` columns are overwritten, everything else is kept.
   */
  function SetBlock<T>(m: Matrix<T>, start: nat, b: Matrix<T>): (r: Matrix<T>)
    requires Wf(m) && Wf(b) && start + b.rows <= m.rows && Width(b) <= Width(m)
    ensures HasShape(r, m.rows, Width(m))
  {
    Matrix(m.rows, seq(|m.cols|, j requires 0 <= j < |m.cols| =>
      if j < |b.cols| then m.cols[j][..start] + b.cols[j] + m.cols[j][start + b.rows..] else m.cols[j]))
  }

  /** Row `i` of block `b` after it was written at row `start`. */
  lemma SetBlockAt<T>(m: Matrix<T>, start: nat, b: Matrix<T>, j: nat, i: nat)
    requires Wf(m) && Wf(b) && start + b.rows <= m.rows && Width(b) <= Width(m)
    requires j < Width(b) && i < b.rows
    ensures SetBlock(m, start, b).cols[j][start + i] == b.cols[j][i]
  {
  }

  /** Rows outside the block are kept. */
  lemma SetBlockOutside<T>(m: Matrix<T>, start: nat, b: Matrix<T>, j: nat, i: nat)
    requires Wf(m) && Wf(b) && start + b.rows <= m.rows && Width(b) <= Width(m)
    requires j < Width(m) && i < m.rows && (i < start || start + b.rows <= i)
    ensures SetBlock(m, start, b).cols[j][i] == m.cols[j][i]
  {
  }

  /**
   * `conservativeResize(NoChange, c)`: the first `min(c, Width(m))` columns are
   * kept; new columns are filled with `pad` (Eigen leaves them uninitialised).
   */
  function ResizeColumns<T>(m: Matrix<T>, c: nat, pad: T): (r: Matrix<T>)
    requires Wf(m)
    ensures HasShape(r, m.rows, c)
    ensures forall j | 0 <= j < c && j < Width(m) :: r.cols[j] == m.cols[j]
  {
    Matrix(m.rows, seq(c, j requires 0 <= j < c => if j < |m.cols| then m.cols[j] else seq(m.rows, _ => pad)))
  }

  /** Column `k` of `m` (Eigen's `col(k)`). */
  function Col<T>(m: Matrix<T>, k: nat): seq<T>
    requires k < Width(m)
  {
    m.cols[k]
  }

  /** Eigen's `data()` view: the columns one after another. */
  function Flatten<T>(m: Matrix<T>): (s: seq<T>)
    ensures Wf(m) ==> |s| == m.rows * Width(m)
    decreases |m.cols|
  {
    if m.cols == [] then []
    else
      var rest := Flatten(Matrix(m.rows, m.cols[1..]));
      m.cols[0] + rest
  }

  /** Column `j` of a `rows`-by-`cols` buffer ends inside the buffer. */
  lemma ColumnEnd(j: nat, rows: nat, cols: nat)
    requires j < cols
    ensures j * rows + rows <= rows * cols
  {
    assert j * rows + rows == (j + 1) * rows;
    assert (j + 1) * rows <= cols * rows by {
      MulMono(j + 1, cols, rows);
    }
  }

  lemma MulMono(a: nat, b: nat, c: nat)
    requires a <= b
    ensures a * c <= b * c
  {
  }

  /** Column `j` of a flat `rows`-by-`cols` buffer. */
  function Slice<T>(s: seq<T>, rows: nat, cols: nat, j: nat): (c: seq<T>)
    requires |s| == rows * cols && j < cols
    ensures |c| == rows
  {
    ColumnEnd(j, rows, cols);
    s[j * rows..j * rows + rows]
  }

  /** `Map(data, rows, cols)`: reads a flat buffer in column-major order. */
  function Unflatten<T>(s: seq<T>, rows: nat, cols: nat): (m: Matrix<T>)
    requires |s| == rows * cols
    ensures HasShape(m, rows, cols)
  {
    Matrix(rows, seq(cols, j requires 0 <= j < cols => Slice(s, rows, cols, j)))
  }

  /** `Unflatten` reads entry `(i, j)` from position `j * rows + i`. */
  lemma UnflattenAt<T>(s: seq<T>, rows: nat, cols: nat, j: nat, i: nat)
    requires |s| == rows * cols && j < cols && i < rows
    ensures j * rows + i < |s| && Unflatten(s, rows, cols).cols[j][i] == s[j * rows + i]
  {
    ColumnEnd(j, rows, cols);
  }

  /** `Flatten` lays entry `(i, j)` at position `j * rows + i`. */
  lemma {:induction false} FlattenAt<T>(m: Matrix<T>, j: nat, i: nat)
    requires Wf(m) && j < Width(m) && i < m.rows
    ensures j * m.rows + i < |Flatten(m)| && Flatten(m)[j * m.rows + i] == m.cols[j][i]
    decreases j
  {
    var rest := Matrix(m.rows, m.cols[1..]);
    assert Flatten(m) == m.cols[0] + Flatten(rest);
    if j > 0 {
      FlattenAt(rest, j - 1, i);
      assert j * m.rows + i == m.rows + ((j - 1) * m.rows + i);
    }
  }

  /** Reading back a flattened matrix with its own shape recovers it. */
  lemma UnflattenFlatten<T>(m: Matrix<T>)
    requires Wf(m)
    ensures Unflatten(Flatten(m), m.rows, Width(m)) == m
  {
    var u := Unflatten(Flatten(m), m.rows, Width(m));
    forall j, i | 0 <= j < Width(m) && 0 <= i < m.rows
      ensures u.cols[j][i] == m.cols[j][i]
    {
      FlattenAt(m, j, i);
      UnflattenAt(Flatten(m), m.rows, Width(m), j, i);
    }
    Ext(u, m);
  }

  lemma DivMod(k: nat, rows: nat, cols: nat)
    requires k < rows * cols
    ensures rows > 0 && k / rows < cols && k % rows < rows && k == (k / rows) * rows + k % rows
  {
    if k / rows >= cols {
      MulMono(cols, k / rows, rows);
    }
  }

  /** Flattening a matrix read from a flat buffer gives the buffer back. */
  lemma FlattenUnflatten<T>(s: seq<T>, rows: nat, cols: nat)
    requires |s| == rows * cols
    ensures Flatten(Unflatten(s, rows, cols)) == s
  {
    var m := Unflatten(s, rows, cols);
    var f := Flatten(m);
    forall k | 0 <= k < |s|
      ensures f[k] == s[k]
    {
      var j := k / rows;
      var i := k % rows;
      DivMod(k, rows, cols);
      FlattenAt(m, j, i);
      UnflattenAt(s, rows, cols, j, i);
    }
  }
}
