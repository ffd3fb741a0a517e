/**
  The floating-point library calls the transform engine makes, kept abstract.
  numpy's sin, cos, arccos, pi and linalg.inv are not modelled numerically:
  callers hand them in, and the laws below are all the model relies on.
*/
module Numerics {
  import opened Wrappers
  import opened Matrices

  /** numpy.pi, numpy.sin, numpy.cos and numpy.arccos. */
  datatype Trig = Trig(pi: real, sin: real -> real, cos: real -> real, arccos: real -> real)

  /**
    Exact values at the angles the source and its tests use (0, plus or minus
    pi/2, pi) and the range of arccos on [-1, 1].
  */
  ghost predicate ExactTrig(t: Trig) {
    && 3.0 < t.pi < 4.0
    && t.sin(0.0) == 0.0 && t.cos(0.0) == 1.0
    && t.sin(t.pi / 2.0) == 1.0 && t.cos(t.pi / 2.0) == 0.0
    && t.sin(-t.pi / 2.0) == -1.0 && t.cos(-t.pi / 2.0) == 0.0
    && t.sin(t.pi) == 0.0 && t.cos(t.pi) == -1.0
    && t.arccos(1.0) == 0.0
    && forall c :: -1.0 <= c <= 1.0 ==> 0.0 <= t.arccos(c) <= t.pi
  }

  /** `sin² + cos² = 1` at every angle, the identity rotation matrices rest on. */
  ghost predicate PythagoreanLaw(t: Trig) {
    forall a :: t.sin(a) * t.sin(a) + t.cos(a) * t.cos(a) == 1.0
  }

  /**
    numpy.linalg.inv: `None` where numpy raises LinAlgError (a singular
    matrix), otherwise a matrix of the same shape.
  */
  type Inverse = Matrix -> Option<Matrix>

  /** `n` is the two-sided inverse of the square matrix `m`. */
  ghost predicate IsInverse(n: Matrix, m: Matrix) {
    && IsShape(m, |m|, |m|)
    && IsShape(n, |m|, |m|)
    && MatMul(n, m) == Identity(|m|)
    && MatMul(m, n) == Identity(|m|)
  }

  /** Whatever numpy.linalg.inv returns for a square matrix is its inverse. */
  ghost predicate InverseLaw(inv: Inverse) {
    forall m :: IsShape(m, |m|, |m|) && inv(m).Some? ==> IsInverse(inv(m).value, m)
  }
}
