/**
  Dense real matrices as sequences of rows, the shape-checked numpy arrays
  that the transform engine works on. A matrix of shape (r, c) is a sequence
  of r rows of c entries each; products are the usual sums of products, and
  the lemmas below are the algebra that the transform engine relies on.
*/
module Matrices {

  type Vector = seq<real>
  type Matrix = seq<seq<real>>

  /** numpy's `m.shape == (rows, cols)`. */
  predicate IsShape(m: Matrix, rows: nat, cols: nat) {
    |m| == rows && forall i :: 0 <= i < rows ==> |m[i]| == cols
  }

  /** The number of entries in the first row (0 for a matrix without rows). */
  function Width(m: Matrix): nat {
    if |m| == 0 then 0 else |m[0]|
  }

  /** Every row has the same length. */
  predicate IsRect(m: Matrix) {
    IsShape(m, |m|, Width(m))
  }

  function Dot(u: Vector, v: Vector): real
    requires |u| == |v|
    decreases |u|
  {
    if |u| == 0 then 0.0 else u[0] * v[0] + Dot(u[1..], v[1..])
  }

  function Column(m: Matrix, j: nat): (c: Vector)
    requires forall i :: 0 <= i < |m| ==> j < |m[i]|
    ensures |c| == |m|
    ensures forall i :: 0 <= i < |m| ==> c[i] == m[i][j]
  {
    seq(|m|, i requires 0 <= i < |m| => m[i][j])
  }

  /** The matrix-vector product `m @ v`. */
  function MatVec(m: Matrix, v: Vector): (r: Vector)
    requires forall i :: 0 <= i < |m| ==> |m[i]| == |v|
    ensures |r| == |m|
    ensures forall i :: 0 <= i < |m| ==> r[i] == Dot(m[i], v)
  {
    seq(|m|, i requires 0 <= i < |m| => Dot(m[i], v))
  }

  /** The matrix product `a @ b`. */
  function MatMul(a: Matrix, b: Matrix): (c: Matrix)
    requires IsRect(b)
    requires forall i :: 0 <= i < |a| ==> |a[i]| == |b|
    ensures IsShape(c, |a|, Width(b))
    ensures forall i, j :: 0 <= i < |a| && 0 <= j < Width(b) ==> c[i][j] == Dot(a[i], Column(b, j))
  {
    seq(|a|, i requires 0 <= i < |a| =>
      seq(Width(b), j requires 0 <= j < Width(b) => Dot(a[i], Column(b, j))))
  }

  /** numpy.identity(n). */
  function Identity(n: nat): (m: Matrix)
    ensures IsShape(m, n, n)
    ensures forall i, j :: 0 <= i < n && 0 <= j < n ==> m[i][j] == if i == j then 1.0 else 0.0
  {
    seq(n, i requires 0 <= i < n => seq(n, j requires 0 <= j < n => if i == j then 1.0 else 0.0))
  }

  /** `v * c`, every entry scaled. */
  function Scale(v: Vector, c: real): (r: Vector)
    ensures |r| == |v|
    ensures forall i :: 0 <= i < |v| ==> r[i] == c * v[i]
  {
    seq(|v|, i requires 0 <= i < |v| => c * v[i])
  }

  /** Two matrices of one shape with equal entries are equal. */
  lemma EqualEntries(a: Matrix, b: Matrix, rows: nat, cols: nat)
    requires IsShape(a, rows, cols) && IsShape(b, rows, cols)
    requires forall i, j :: 0 <= i < rows && 0 <= j < cols ==> a[i][j] == b[i][j]
    ensures a == b
  {
    forall i | 0 <= i < rows
      ensures a[i] == b[i]
    {
      assert |a[i]| == cols == |b[i]|;
    }
  }

  /** Unrolled dot product of two 3-vectors. */
  lemma Dot3(u: Vector, v: Vector)
    requires |u| == 3 && |v| == 3
    ensures Dot(u, v) == u[0] * v[0] + u[1] * v[1] + u[2] * v[2]
  {
    assert Dot(u[2..], v[2..]) == u[2] * v[2] + Dot(u[3..], v[3..]);
    assert Dot(u[1..], v[1..]) == u[1] * v[1] + Dot(u[1..][1..], v[1..][1..]);
    assert u[1..][1..] == u[2..] && v[1..][1..] == v[2..];
  }

  /** Unrolled dot product of two 4-vectors. */
  lemma Dot4(u: Vector, v: Vector)
    requires |u| == 4 && |v| == 4
    ensures Dot(u, v) == u[0] * v[0] + u[1] * v[1] + u[2] * v[2] + u[3] * v[3]
  {
    Dot3(u[1..], v[1..]);
  }

  /** Dotting with the k-th unit vector (on the left) selects entry k. */
  lemma {:induction false} DotUnitLeft(u: Vector, v: Vector, k: int)
    requires |u| == |v|
    requires forall j :: 0 <= j < |u| ==> u[j] == if j == k then 1.0 else 0.0
    ensures Dot(u, v) == if 0 <= k < |u| then v[k] else 0.0
  {
    if |u| > 0 {
      forall j | 0 <= j < |u| - 1
        ensures u[1..][j] == if j == k - 1 then 1.0 else 0.0
      {
        assert u[1..][j] == u[j + 1];
      }
      DotUnitLeft(u[1..], v[1..], k - 1);
    }
  }

  lemma {:induction false} DotCommutes(u: Vector, v: Vector)
    requires |u| == |v|
    ensures Dot(u, v) == Dot(v, u)
  {
    if |u| > 0 {
      DotCommutes(u[1..], v[1..]);
    }
  }

  /** Dotting with the k-th unit vector (on the right) selects entry k. */
  lemma DotUnitRight(u: Vector, v: Vector, k: int)
    requires |u| == |v|
    requires forall j :: 0 <= j < |v| ==> v[j] == if j == k then 1.0 else 0.0
    ensures Dot(u, v) == if 0 <= k < |u| then u[k] else 0.0
  {
    DotCommutes(u, v);
    DotUnitLeft(v, u, k);
  }

  /** The dot product is additive in its left argument. */
  lemma {:induction false} DotAdd(p: Vector, q: Vector, r: Vector, v: Vector)
    requires |p| == |q| == |r| == |v|
    requires forall j :: 0 <= j < |r| ==> r[j] == p[j] + q[j]
    ensures Dot(r, v) == Dot(p, v) + Dot(q, v)
  {
    if |r| > 0 {
      forall j | 0 <= j < |r| - 1
        ensures r[1..][j] == p[1..][j] + q[1..][j]
      {
        assert r[1..][j] == r[j + 1];
      }
      DotAdd(p[1..], q[1..], r[1..], v[1..]);
    }
  }

  /** The dot product is homogeneous in its left argument. */
  lemma {:induction false} DotScale(p: Vector, r: Vector, c: real, v: Vector)
    requires |p| == |r| == |v|
    requires forall j :: 0 <= j < |r| ==> r[j] == c * p[j]
    ensures Dot(r, v) == c * Dot(p, v)
  {
    if |r| > 0 {
      forall j | 0 <= j < |r| - 1
        ensures r[1..][j] == c * p[1..][j]
      {
        assert r[1..][j] == r[j + 1];
      }
      DotScale(p[1..], r[1..], c, v[1..]);
      assert r[0] * v[0] == c * (p[0] * v[0]);
    }
  }

  /** Splitting the first row off `b` splits the first entry off each column. */
  lemma ColumnStep(x: Vector, b: Matrix, j: nat)
    requires |x| > 0 && |b| == |x|
    requires forall i :: 0 <= i < |b| ==> j < |b[i]|
    ensures Dot(x, Column(b, j)) == x[0] * b[0][j] + Dot(x[1..], Column(b[1..], j))
  {
    assert Column(b, j)[1..] == Column(b[1..], j);
  }

  /** Splitting the first row off `b` splits the first entry off `b @ v`. */
  lemma MatVecStep(b: Matrix, v: Vector)
    requires |b| > 0
    requires forall i :: 0 <= i < |b| ==> |b[i]| == |v|
    ensures MatVec(b, v)[1..] == MatVec(b[1..], v)
  {
  }

  /** A vector whose entries are all zero dots to zero. */
  lemma DotZeroLeft(w: Vector, v: Vector)
    requires |w| == |v|
    requires forall j :: 0 <= j < |w| ==> w[j] == 0.0
    ensures Dot(w, v) == 0.0
  {
    DotScale(w, w, 0.0, v);
  }

  /** A sum of a scaled row and another row, dotted with `v`. */
  lemma DotSplit(w: Vector, s: Vector, w': Vector, p: Vector, c: real, v: Vector)
    requires |w| == |s| == |w'| == |p| == |v|
    requires forall j :: 0 <= j < |s| ==> s[j] == c * p[j]
    requires forall j :: 0 <= j < |w| ==> w[j] == s[j] + w'[j]
    ensures Dot(w, v) == c * Dot(p, v) + Dot(w', v)
  {
    DotAdd(s, w', w, v);
    DotScale(p, s, c, v);
  }

  /**
    The double sum behind associativity: a row `w` of `x @ b`, dotted with
    `v`, equals `x` dotted with `b @ v`.
  */
  lemma {:induction false} DotExchange(x: Vector, b: Matrix, w: Vector, v: Vector)
    requires IsShape(b, |x|, |v|)
    requires |w| == |v|
    requires forall j :: 0 <= j < |w| ==> w[j] == Dot(x, Column(b, j))
    ensures Dot(w, v) == Dot(x, MatVec(b, v))
    decreases |x|
  {
    if |x| == 0 {
      DotZeroLeft(w, v);
    } else {
      var w' := seq(|v|, j requires 0 <= j < |v| => Dot(x[1..], Column(b[1..], j)));
      forall j | 0 <= j < |w|
        ensures w[j] == x[0] * b[0][j] + w'[j]
      {
        ColumnStep(x, b, j);
      }
      DotExchange(x[1..], b[1..], w', v);
      ExchangeStep(x, b, w, w', v);
    }
  }

  /** The step of `DotExchange`: the first entry of `x` and row of `b`, then the rest. */
  lemma {:induction false} ExchangeStep(x: Vector, b: Matrix, w: Vector, w': Vector, v: Vector)
    requires |x| > 0 && IsShape(b, |x|, |v|)
    requires |w| == |w'| == |v|
    requires forall j :: 0 <= j < |w| ==> w[j] == x[0] * b[0][j] + w'[j]
    requires Dot(w', v) == Dot(x[1..], MatVec(b[1..], v))
    ensures Dot(w, v) == Dot(x, MatVec(b, v))
  {
    DotSplit(w, Scale(b[0], x[0]), w', b[0], x[0], v);
    var m := MatVec(b, v);
    MatVecStep(b, v);
    assert Dot(x, m) == x[0] * m[0] + Dot(x[1..], m[1..]);
  }

  /** Associativity for a vector: `(a @ b) @ v == a @ (b @ v)`. */
  lemma MatVecOfProduct(a: Matrix, b: Matrix, v: Vector)
    requires IsRect(b) && |v| == Width(b)
    requires forall i :: 0 <= i < |a| ==> |a[i]| == |b|
    ensures MatVec(MatMul(a, b), v) == MatVec(a, MatVec(b, v))
  {
    var ab := MatMul(a, b);
    forall i | 0 <= i < |a|
      ensures MatVec(ab, v)[i] == MatVec(a, MatVec(b, v))[i]
    {
      DotExchange(a[i], b, ab[i], v);
    }
  }

  /** `identity(n) @ v == v`. */
  lemma MatVecIdentity(v: Vector)
    ensures MatVec(Identity(|v|), v) == v
  {
    var id := Identity(|v|);
    forall i | 0 <= i < |v|
      ensures MatVec(id, v)[i] == v[i]
    {
      DotUnitLeft(id[i], v, i);
    }
  }

  /** `identity(n) @ m == m`. */
  lemma MatMulIdentityLeft(m: Matrix)
    requires IsRect(m)
    ensures MatMul(Identity(|m|), m) == m
  {
    var id := Identity(|m|);
    var p := MatMul(id, m);
    forall i, j | 0 <= i < |m| && 0 <= j < Width(m)
      ensures p[i][j] == m[i][j]
    {
      DotUnitLeft(id[i], Column(m, j), i);
    }
    EqualEntries(p, m, |m|, Width(m));
  }

  /** `m @ identity(c) == m` for an m with c columns. */
  lemma MatMulIdentityRight(m: Matrix)
    requires IsRect(m)
    ensures MatMul(m, Identity(Width(m))) == m
  {
    var w := Width(m);
    var id := Identity(w);
    assert Width(id) == w;
    var p := MatMul(m, id);
    forall i, j | 0 <= i < |m| && 0 <= j < w
      ensures p[i][j] == m[i][j]
    {
      DotUnitRight(m[i], Column(id, j), j);
    }
    EqualEntries(p, m, |m|, w);
  }

  /** The transpose of a rectangular matrix: row j is column j. */
  function Transpose(m: Matrix): (r: Matrix)
    requires IsRect(m)
    ensures IsShape(r, Width(m), |m|)
    ensures forall i, j :: 0 <= i < Width(m) && 0 <= j < |m| ==> r[i][j] == m[j][i]
  {
    seq(Width(m), j requires 0 <= j < Width(m) => Column(m, j))
  }

  /** The determinant of a 3x3 matrix, by cofactors along the first row. */
  function Det3(m: Matrix): real
    requires IsShape(m, 3, 3)
  {
    m[0][0] * (m[1][1] * m[2][2] - m[1][2] * m[2][1])
    - m[0][1] * (m[1][0] * m[2][2] - m[1][2] * m[2][0])
    + m[0][2] * (m[1][0] * m[2][1] - m[1][1] * m[2][0])
  }

  /** A 3-vector by its coordinates, for the algebra of 3x3 rotations. */
  datatype V3 = V3(x: real, y: real, z: real)

  function Inner(a: V3, b: V3): real {
    a.x * b.x + a.y * b.y + a.z * b.z
  }

  /** `c * a + s * b`. */
  function Combine(c: real, a: V3, s: real, b: V3): V3 {
    V3(c * a.x + s * b.x, c * a.y + s * b.y, c * a.z + s * b.z)
  }

  function Cross(a: V3, b: V3): V3 {
    V3(a.y * b.z - a.z * b.y, a.z * b.x - a.x * b.z, a.x * b.y - a.y * b.x)
  }

  /** Column j of a 3x3 matrix as a 3-vector. */
  function Col3(m: Matrix, j: nat): V3
    requires IsShape(m, 3, 3) && j < 3
  {
    V3(m[0][j], m[1][j], m[2][j])
  }

  /** Three vectors of unit length, pairwise orthogonal. */
  predicate Orthonormal(a: V3, b: V3, c: V3) {
    && Inner(a, a) == 1.0 && Inner(b, b) == 1.0 && Inner(c, c) == 1.0
    && Inner(a, b) == 0.0 && Inner(a, c) == 0.0 && Inner(b, c) == 0.0
  }

  lemma InnerSymmetric(a: V3, b: V3)
    ensures Inner(a, b) == Inner(b, a)
  {
  }

  /** The inner product is linear in its left argument. */
  lemma InnerCombine(c: real, a: V3, s: real, b: V3, w: V3)
    ensures Inner(Combine(c, a, s, b), w) == c * Inner(a, w) + s * Inner(b, w)
  {
    assert (c * a.x + s * b.x) * w.x == c * (a.x * w.x) + s * (b.x * w.x);
    assert (c * a.y + s * b.y) * w.y == c * (a.y * w.y) + s * (b.y * w.y);
    assert (c * a.z + s * b.z) * w.z == c * (a.z * w.z) + s * (b.z * w.z);
  }

  /**
    Turning two orthonormal vectors by an angle whose cosine and sine are `c`
    and `s` keeps the three vectors orthonormal.
  */
  lemma TurnKeepsOrthonormal(u: V3, v: V3, w: V3, c: real, s: real)
    requires Orthonormal(u, v, w)
    requires c * c + s * s == 1.0
    ensures Orthonormal(Combine(c, u, s, v), Combine(-s, u, c, v), w)
  {
    var p, q := Combine(c, u, s, v), Combine(-s, u, c, v);
    InnerSymmetric(u, v);
    InnerCombine(c, u, s, v, u);
    InnerCombine(c, u, s, v, v);
    InnerCombine(-s, u, c, v, u);
    InnerCombine(-s, u, c, v, v);
    InnerSymmetric(p, u);
    InnerSymmetric(p, v);
    InnerSymmetric(q, u);
    InnerSymmetric(q, v);
    InnerCombine(c, u, s, v, p);
    InnerCombine(-s, u, c, v, q);
    InnerCombine(c, u, s, v, q);
    InnerCombine(c, u, s, v, w);
    InnerCombine(-s, u, c, v, w);
    InnerSymmetric(u, w);
    InnerSymmetric(v, w);
    assert Inner(p, p) == c * c + s * s;
    assert Inner(q, q) == s * s + c * c;
    assert Inner(p, q) == c * (-s) + s * c;
  }

  /** Turning two vectors in their plane leaves their cross product unchanged. */
  lemma TurnKeepsCross(u: V3, v: V3, c: real, s: real)
    requires c * c + s * s == 1.0
    ensures Cross(Combine(c, u, s, v), Combine(-s, u, c, v)) == Cross(u, v)
  {
    var p, q := Combine(c, u, s, v), Combine(-s, u, c, v);
    CrossComponent(c, s, u.y, v.y, u.z, v.z, p.y, q.y, p.z, q.z);
    CrossComponent(c, s, u.z, v.z, u.x, v.x, p.z, q.z, p.x, q.x);
    CrossComponent(c, s, u.x, v.x, u.y, v.y, p.x, q.x, p.y, q.y);
  }

  /**
    One coordinate of `TurnKeepsCross`: `p1 q2 - p2 q1` for the turned pairs
    `(p1, q1)` and `(p2, q2)`, expanded term by term.
  */
  lemma CrossComponent(c: real, s: real, a1: real, b1: real, a2: real, b2: real,
                       p1: real, q1: real, p2: real, q2: real)
    requires c * c + s * s == 1.0
    requires p1 == c * a1 + s * b1 && q1 == (-s) * a1 + c * b1
    requires p2 == c * a2 + s * b2 && q2 == (-s) * a2 + c * b2
    ensures p1 * q2 - p2 * q1 == a1 * b2 - a2 * b1
  {
    var k := a1 * b2 - a2 * b1;
    assert p1 * q2 == -(c * s) * (a1 * a2) + (c * c) * (a1 * b2) - (s * s) * (b1 * a2) + (s * c) * (b1 * b2);
    assert p2 * q1 == -(c * s) * (a2 * a1) + (c * c) * (a2 * b1) - (s * s) * (b2 * a1) + (s * c) * (b2 * b1);
    assert (c * c) * (a1 * b2) - (c * c) * (a2 * b1) == (c * c) * k;
    assert (s * s) * (a1 * b2) - (s * s) * (b1 * a2) == (s * s) * k;
    assert (c * c) * k + (s * s) * k == (c * c + s * s) * k;
  }

  /** `mᵀ m` of a 3x3 matrix holds the inner products of its columns. */
  lemma ColumnGram(m: Matrix)
    requires IsShape(m, 3, 3)
    ensures Width(m) == 3
    ensures var g := MatMul(Transpose(m), m);
            && IsShape(g, 3, 3)
            && forall i, j :: 0 <= i < 3 && 0 <= j < 3 ==> g[i][j] == Inner(Col3(m, i), Col3(m, j))
  {
    var mt := Transpose(m);
    forall i, j | 0 <= i < 3 && 0 <= j < 3
      ensures MatMul(mt, m)[i][j] == Inner(Col3(m, i), Col3(m, j))
    {
      Dot3(mt[i], Column(m, j));
    }
  }

  /** A 3x3 matrix with orthonormal columns satisfies `mᵀ m == I`. */
  lemma OrthonormalColumns(m: Matrix)
    requires IsShape(m, 3, 3)
    requires Orthonormal(Col3(m, 0), Col3(m, 1), Col3(m, 2))
    ensures Width(m) == 3 && MatMul(Transpose(m), m) == Identity(3)
  {
    ColumnGram(m);
    var g := MatMul(Transpose(m), m);
    forall i, j | 0 <= i < 3 && 0 <= j < 3
      ensures g[i][j] == Identity(3)[i][j]
    {
      InnerSymmetric(Col3(m, i), Col3(m, j));
    }
    EqualEntries(g, Identity(3), 3, 3);
  }

  /** The determinant is the triple product of the columns. */
  lemma DetIsTripleProduct(m: Matrix)
    requires IsShape(m, 3, 3)
    ensures Det3(m) == Inner(Cross(Col3(m, 0), Col3(m, 1)), Col3(m, 2))
  {
  }
}
