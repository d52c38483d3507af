/** Numerical primitives the filter calls and this model leaves uninterpreted: trigonometry,
    square root, Cholesky factor, matrix inverse and the value given to a division by zero. */
module Primitives {
  import opened Linalg

  /** cholesky(M, r, c) and inverse(M, r, c) give entry (r, c) of the Cholesky
      factor and of the inverse of M; nonFinite is one fixed but unspecified real that
      stands in for the infinity or NaN of a floating-point division by zero. Being a
      real, it does not propagate the way an infinity or NaN does. */
  datatype Library = Library(sin: real -> real, cos: real -> real, sqrt: real -> real,
                             atan2: (real, real) -> real,
                             cholesky: (Matrix, nat, nat) -> real,
                             inverse: (Matrix, nat, nat) -> real,
                             nonFinite: real)

  /** The lower-triangular factor L of an n x n matrix (llt().matrixL()):
      entries above the diagonal are zero. */
  function CholeskyFactor(lib: Library, M: Matrix, n: nat): (L: Matrix)
    ensures IsMat(L, n, n)
    ensures forall r, c :: 0 <= r < c < n ==> L[r][c] == 0.0
  {
    seq(n, r requires 0 <= r < n => seq(n, c requires 0 <= c < n => if c <= r then lib.cholesky(M, r, c) else 0.0))
  }

  function Inverse(lib: Library, M: Matrix, n: nat): (R: Matrix)
    ensures IsMat(R, n, n)
  {
    seq(n, r requires 0 <= r < n => seq(n, c requires 0 <= c < n => lib.inverse(M, r, c)))
  }

  /** a / b; a zero divisor gives the library's stand-in value nonFinite. */
  function Quotient(lib: Library, a: real, b: real): (q: real)
    ensures b != 0.0 ==> q * b == a
    ensures b == 0.0 ==> q == lib.nonFinite
  {
    if b != 0.0 then a / b else lib.nonFinite
  }
}
