/** Dense real vectors and matrices, as the filter uses them.
    A Vector is a sequence of reals; a Matrix is a sequence of rows.
    A set of sigma points is a sequence of column vectors. */
module Linalg {

  type Vector = seq<real>
  type Matrix = seq<seq<real>>

  /** M has rows rows of cols entries each. */
  predicate IsMat(M: Matrix, rows: nat, cols: nat) {
    |M| == rows && forall r :: 0 <= r < rows ==> |M[r]| == cols
  }

  /** Every vector of vs has n entries. */
  predicate AllLen(vs: seq<Vector>, n: nat) {
    forall i :: 0 <= i < |vs| ==> |vs[i]| == n
  }

  predicate Symmetric(M: Matrix)
    requires IsMat(M, |M|, |M|)
  {
    forall r, c :: 0 <= r < |M| && 0 <= c < |M| ==> M[r][c] == M[c][r]
  }

  /** Sum of the entries, accumulated from the front. */
  function Sum(s: seq<real>): real {
    if s == [] then 0.0 else Sum(s[..|s| - 1]) + s[|s| - 1]
  }

  function Dot(u: Vector, v: Vector): real
    requires |u| == |v|
  {
    Sum(seq(|u|, i requires 0 <= i < |u| => u[i] * v[i]))
  }

  function Zeros(n: nat): (r: Vector)
    ensures |r| == n && forall i :: 0 <= i < n ==> r[i] == 0.0
  {
    seq(n, i => 0.0)
  }

  function Add(u: Vector, v: Vector): (r: Vector)
    requires |u| == |v|
    ensures |r| == |u|
  {
    seq(|u|, i requires 0 <= i < |u| => u[i] + v[i])
  }

  function Sub(u: Vector, v: Vector): (r: Vector)
    requires |u| == |v|
    ensures |r| == |u|
  {
    seq(|u|, i requires 0 <= i < |u| => u[i] - v[i])
  }

  function Scale(k: real, u: Vector): (r: Vector)
    ensures |r| == |u|
  {
    seq(|u|, i requires 0 <= i < |u| => k * u[i])
  }

  /** Column c of M. */
  function Column(M: Matrix, c: nat): (r: Vector)
    requires forall k :: 0 <= k < |M| ==> c < |M[k]|
    ensures |r| == |M|
  {
    seq(|M|, k requires 0 <= k < |M| => M[k][c])
  }

  /** Row j of the matrix whose columns are cols. */
  function Component(cols: seq<Vector>, j: nat): (r: Vector)
    requires forall i :: 0 <= i < |cols| ==> j < |cols[i]|
    ensures |r| == |cols|
  {
    seq(|cols|, i requires 0 <= i < |cols| => cols[i][j])
  }

  function ZeroMat(rows: nat, cols: nat): (M: Matrix)
    ensures IsMat(M, rows, cols)
    ensures forall r, c :: 0 <= r < rows && 0 <= c < cols ==> M[r][c] == 0.0
  {
    seq(rows, r => Zeros(cols))
  }

  function Identity(n: nat): (M: Matrix)
    ensures IsMat(M, n, n)
  {
    seq(n, r => seq(n, c => if r == c then 1.0 else 0.0))
  }

  lemma IdentitySymmetric(n: nat)
    ensures Symmetric(Identity(n))
  {
  }

  function Outer(u: Vector, v: Vector): (M: Matrix)
    ensures IsMat(M, |u|, |v|)
  {
    seq(|u|, r requires 0 <= r < |u| => seq(|v|, c requires 0 <= c < |v| => u[r] * v[c]))
  }

  function MatAdd(A: Matrix, B: Matrix, rows: nat, cols: nat): (M: Matrix)
    requires IsMat(A, rows, cols) && IsMat(B, rows, cols)
    ensures IsMat(M, rows, cols)
  {
    seq(rows, r requires 0 <= r < rows =>
      seq(cols, c requires 0 <= c < cols => A[r][c] + B[r][c]))
  }

  function MatSub(A: Matrix, B: Matrix, rows: nat, cols: nat): (M: Matrix)
    requires IsMat(A, rows, cols) && IsMat(B, rows, cols)
    ensures IsMat(M, rows, cols)
  {
    seq(rows, r requires 0 <= r < rows =>
      seq(cols, c requires 0 <= c < cols => A[r][c] - B[r][c]))
  }

  function MatScale(k: real, A: Matrix, rows: nat, cols: nat): (M: Matrix)
    requires IsMat(A, rows, cols)
    ensures IsMat(M, rows, cols)
  {
    seq(rows, r requires 0 <= r < rows =>
      seq(cols, c requires 0 <= c < cols => k * A[r][c]))
  }

  /** A (rows x inner) times B (inner x cols). */
  function MatMul(A: Matrix, B: Matrix, rows: nat, inner: nat, cols: nat): (M: Matrix)
    requires IsMat(A, rows, inner) && IsMat(B, inner, cols)
    ensures IsMat(M, rows, cols)
  {
    seq(rows, r requires 0 <= r < rows =>
      seq(cols, c requires 0 <= c < cols => Dot(A[r], Column(B, c))))
  }

  function Transpose(A: Matrix, rows: nat, cols: nat): (M: Matrix)
    requires IsMat(A, rows, cols)
    ensures IsMat(M, cols, rows)
  {
    seq(cols, c requires 0 <= c < cols => Column(A, c))
  }

  /** A (rows x cols) times the column vector v. */
  function MatVec(A: Matrix, v: Vector, rows: nat): (r: Vector)
    requires IsMat(A, rows, |v|)
    ensures |r| == rows
  {
    seq(rows, k requires 0 <= k < rows => Dot(A[k], v))
  }

  /** The row vector u times A (|u| x cols). */
  function VecMat(u: Vector, A: Matrix, cols: nat): (r: Vector)
    requires IsMat(A, |u|, cols)
    ensures |r| == cols
  {
    seq(cols, c requires 0 <= c < cols => Dot(u, Column(A, c)))
  }

  /** The matrix whose columns are cols, times the weight vector w:
      entry j is the w-weighted sum of the j-th components. */
  function WeightedMean(cols: seq<Vector>, w: seq<real>, n: nat): (m: Vector)
    requires |w| == |cols| && AllLen(cols, n)
    ensures |m| == n
  {
    seq(n, j requires 0 <= j < n => Dot(Component(cols, j), w))
  }

  /** The sum over the first k indices i of w[i] * us[i] * vs[i]^T, an m x n matrix. */
  function OuterSum(w: seq<real>, us: seq<Vector>, vs: seq<Vector>, m: nat, n: nat, k: nat): (M: Matrix)
    requires k <= |w| && k <= |us| && k <= |vs| && AllLen(us, m) && AllLen(vs, n)
    ensures IsMat(M, m, n)
  {
    if k == 0 then ZeroMat(m, n)
    else MatAdd(OuterSum(w, us, vs, m, n, k - 1), MatScale(w[k - 1], Outer(us[k - 1], vs[k - 1]), m, n), m, n)
  }

  // ---------------------------------------------------------------------------
  // Sums

  lemma {:induction false} SumConcat(a: seq<real>, b: seq<real>)
    ensures Sum(a + b) == Sum(a) + Sum(b)
  {
    if b != [] {
      assert (a + b)[..|a + b| - 1] == a + b[..|b| - 1];
      SumConcat(a, b[..|b| - 1]);
    } else {
      assert a + b == a;
    }
  }

  /** A sequence of n copies of c sums to n * c. */
  lemma {:induction false} SumConstant(s: seq<real>, c: real)
    requires forall i :: 0 <= i < |s| ==> s[i] == c
    ensures Sum(s) == (|s| as real) * c
  {
    if s != [] {
      SumConstant(s[..|s| - 1], c);
    }
  }

  /** Summing p + e[i] and p - e[i] over the same n indices gives 2n copies of p. */
  lemma {:induction false} SumPaired(p: real, e: seq<real>, plus: seq<real>, minus: seq<real>, count: real)
    requires |plus| == |e| && |minus| == |e| && count == |e| as real
    requires forall i :: 0 <= i < |e| ==> plus[i] == p + e[i] && minus[i] == p - e[i]
    ensures Sum(plus) + Sum(minus) == 2.0 * count * p
  {
    if e != [] {
      var n := |e|;
      SumPaired(p, e[..n - 1], plus[..n - 1], minus[..n - 1], count - 1.0);
    }
  }

  /** The (r, c) entry of OuterSum is the weighted sum of the products us[i][r] * vs[i][c]. */
  lemma {:induction false} OuterSumEntry(w: seq<real>, us: seq<Vector>, vs: seq<Vector>, m: nat, n: nat, k: nat,
                                         r: nat, c: nat, terms: seq<real>)
    requires k <= |w| && k <= |us| && k <= |vs| && AllLen(us, m) && AllLen(vs, n)
    requires r < m && c < n
    requires |terms| == k && forall i :: 0 <= i < k ==> terms[i] == w[i] * (us[i][r] * vs[i][c])
    ensures OuterSum(w, us, vs, m, n, k)[r][c] == Sum(terms)
  {
    if k > 0 {
      OuterSumEntry(w, us, vs, m, n, k - 1, r, c, terms[..k - 1]);
      OuterSumLast(w, us, vs, m, n, k, r, c);
    }
  }

  /** The k weighted products w[i] us[i][r] vs[i][c] whose sum is entry (r, c) of a k-term sum. */
  function EntryTerms(w: seq<real>, us: seq<Vector>, vs: seq<Vector>, m: nat, n: nat, k: nat, r: nat, c: nat): (t: seq<real>)
    requires k <= |w| && k <= |us| && k <= |vs| && AllLen(us, m) && AllLen(vs, n)
    requires r < m && c < n
    ensures |t| == k && forall i :: 0 <= i < k ==> t[i] == w[i] * (us[i][r] * vs[i][c])
  {
    seq(k, i requires 0 <= i < k => w[i] * (us[i][r] * vs[i][c]))
  }

  /** Entry (r, c) of a k-term sum equals whatever its k weighted products sum to. */
  lemma OuterSumEntryValue(w: seq<real>, us: seq<Vector>, vs: seq<Vector>, m: nat, n: nat, k: nat, r: nat, c: nat, v: real)
    requires k <= |w| && k <= |us| && k <= |vs| && AllLen(us, m) && AllLen(vs, n)
    requires r < m && c < n && Sum(EntryTerms(w, us, vs, m, n, k, r, c)) == v
    ensures OuterSum(w, us, vs, m, n, k)[r][c] == v
  {
    OuterSumEntry(w, us, vs, m, n, k, r, c, EntryTerms(w, us, vs, m, n, k, r, c));
  }

  /** Entry (r, s) of two weighted sums of outer products is the same when their
      deviations agree on components r and s, whatever their other components. */
  lemma OuterSumEntriesAgree(w: seq<real>, D: seq<Vector>, E: seq<Vector>, m: nat, n: nat, r: nat, s: nat)
    requires |w| == |D| == |E| && AllLen(D, m) && AllLen(E, n)
    requires r < m && s < m && r < n && s < n
    requires forall i :: 0 <= i < |D| ==> D[i][r] == E[i][r] && D[i][s] == E[i][s]
    ensures OuterSum(w, D, D, m, m, |w|)[r][s] == OuterSum(w, E, E, n, n, |w|)[r][s]
  {
    var t := EntryTerms(w, E, E, n, n, |w|, r, s);
    forall i | 0 <= i < |w|
      ensures EntryTerms(w, D, D, m, m, |w|, r, s)[i] == t[i]
    {
      assert D[i][r] == E[i][r] && D[i][s] == E[i][s];
    }
    assert EntryTerms(w, D, D, m, m, |w|, r, s) == t;
    OuterSumEntryValue(w, D, D, m, m, |w|, r, s, Sum(t));
    OuterSumEntryValue(w, E, E, n, n, |w|, r, s, Sum(t));
  }

  /** A weighted sum of outer products over n-component deviations D equals M when D agrees
      with wider deviations E on those n components and the sum over E agrees with M there. */
  lemma OuterSumRestricted(w: seq<real>, D: seq<Vector>, E: seq<Vector>, n: nat, m: nat, M: Matrix)
    requires |w| == |D| == |E| && AllLen(D, n) && AllLen(E, m) && n <= m && IsMat(M, n, n)
    requires forall i, j :: 0 <= i < |D| && 0 <= j < n ==> D[i][j] == E[i][j]
    requires forall r, s :: 0 <= r < n && 0 <= s < n ==> OuterSum(w, E, E, m, m, |w|)[r][s] == M[r][s]
    ensures OuterSum(w, D, D, n, n, |w|) == M
  {
    forall r, s | 0 <= r < n && 0 <= s < n
      ensures OuterSum(w, D, D, n, n, |w|)[r][s] == M[r][s]
    {
      OuterSumEntriesAgree(w, D, E, n, m, r, s);
    }
    MatEqual(OuterSum(w, D, D, n, n, |w|), M, n, n);
  }

  /** Entry (r, c) of a k-term sum is the (k-1)-term entry plus the last weighted product. */
  lemma OuterSumLast(w: seq<real>, us: seq<Vector>, vs: seq<Vector>, m: nat, n: nat, k: nat, r: nat, c: nat)
    requires 0 < k <= |w| && k <= |us| && k <= |vs| && AllLen(us, m) && AllLen(vs, n)
    requires r < m && c < n
    ensures OuterSum(w, us, vs, m, n, k)[r][c]
            == OuterSum(w, us, vs, m, n, k - 1)[r][c] + w[k - 1] * (us[k - 1][r] * vs[k - 1][c])
  {
    var B := MatScale(w[k - 1], Outer(us[k - 1], vs[k - 1]), m, n);
    assert B[r][c] == w[k - 1] * (us[k - 1][r] * vs[k - 1][c]);
  }

  /** A weighted sum of outer products of vectors with themselves is symmetric. */
  lemma {:induction false} OuterSumSymmetric(w: seq<real>, ds: seq<Vector>, n: nat, k: nat)
    requires k <= |w| && k <= |ds| && AllLen(ds, n)
    ensures Symmetric(OuterSum(w, ds, ds, n, n, k))
  {
    if k > 0 {
      OuterSumSymmetric(w, ds, n, k - 1);
      var A := OuterSum(w, ds, ds, n, n, k - 1);
      var d := ds[k - 1];
      var M := OuterSum(w, ds, ds, n, n, k);
      forall r, c | 0 <= r < n && 0 <= c < n
        ensures M[r][c] == M[c][r]
      {
        OuterSumLast(w, ds, ds, n, n, k, r, c);
        OuterSumLast(w, ds, ds, n, n, k, c, r);
        assert d[r] * d[c] == d[c] * d[r];
      }
    }
  }

  // ---------------------------------------------------------------------------
  // Dot products and the symmetry of K * S * K^T

  lemma DotLast(u: Vector, v: Vector)
    requires |u| == |v| > 0
    ensures Dot(u, v) == Dot(u[..|u| - 1], v[..|v| - 1]) + u[|u| - 1] * v[|v| - 1]
  {
    var n := |u|;
    var s := seq(n, i requires 0 <= i < n => u[i] * v[i]);
    var t := seq(n - 1, i requires 0 <= i < n - 1 => u[..n - 1][i] * v[..n - 1][i]);
    forall i | 0 <= i < n - 1
      ensures s[..n - 1][i] == t[i]
    {
    }
    assert s[..n - 1] == t;
  }

  lemma DotComm(u: Vector, v: Vector)
    requires |u| == |v|
    ensures Dot(u, v) == Dot(v, u)
  {
    assert seq(|u|, i requires 0 <= i < |u| => u[i] * v[i]) == seq(|v|, i requires 0 <= i < |v| => v[i] * u[i]);
  }

  lemma {:induction false} DotZeros(u: Vector)
    ensures Dot(u, Zeros(|u|)) == 0.0
  {
    var s := seq(|u|, i requires 0 <= i < |u| => u[i] * Zeros(|u|)[i]);
    forall i | 0 <= i < |s|
      ensures s[i] == 0.0
    {
      assert Zeros(|u|)[i] == 0.0;
    }
    SumConstant(s, 0.0);
  }

  /** Entry (r, s) of A A^T is the dot product of rows r and s of A. */
  lemma MatMulTransposeEntry(A: Matrix, n: nat, m: nat, r: nat, s: nat)
    requires IsMat(A, n, m) && r < n && s < n
    ensures MatMul(A, Transpose(A, n, m), n, m, n)[r][s] == Dot(A[r], A[s])
  {
    var AT := Transpose(A, n, m);
    forall k | 0 <= k < m
      ensures Column(AT, s)[k] == A[s][k]
    {
      assert AT[k] == Column(A, k);
    }
    assert Column(AT, s) == A[s];
  }

  /** Matrices of the same shape that agree entry by entry are equal. */
  lemma MatEqual(M: Matrix, R: Matrix, rows: nat, cols: nat)
    requires IsMat(M, rows, cols) && IsMat(R, rows, cols)
    requires forall r, c :: 0 <= r < rows && 0 <= c < cols ==> M[r][c] == R[r][c]
    ensures M == R
  {
    forall r | 0 <= r < rows
      ensures M[r] == R[r]
    {
    }
  }

  lemma MatScaleOne(A: Matrix, rows: nat, cols: nat)
    requires IsMat(A, rows, cols)
    ensures MatScale(1.0, A, rows, cols) == A
  {
    var B := MatScale(1.0, A, rows, cols);
    forall r | 0 <= r < rows
      ensures B[r] == A[r]
    {
    }
  }

  /** Scaling every term scales the sum. */
  lemma {:induction false} SumScale(x: seq<real>, y: seq<real>, k: real)
    requires |x| == |y| && forall i :: 0 <= i < |x| ==> x[i] == k * y[i]
    ensures Sum(x) == k * Sum(y)
  {
    if x != [] {
      var n := |x|;
      SumScale(x[..n - 1], y[..n - 1], k);
    }
  }

  /** Sum is linear: termwise z = x + k y gives Sum(z) = Sum(x) + k Sum(y). */
  lemma {:induction false} SumLinear(x: seq<real>, y: seq<real>, z: seq<real>, k: real)
    requires |x| == |z| && |y| == |z|
    requires forall i :: 0 <= i < |z| ==> z[i] == x[i] + k * y[i]
    ensures Sum(z) == Sum(x) + k * Sum(y)
  {
    if z != [] {
      var n := |z|;
      SumLinear(x[..n - 1], y[..n - 1], z[..n - 1], k);
      assert z[n - 1] == x[n - 1] + k * y[n - 1];
    }
  }

  /** Dot is linear in its first argument. */
  lemma DotAddScale(a: Vector, s: Vector, v: Vector, k: real)
    requires |a| == |s| == |v|
    ensures Dot(Add(a, Scale(k, s)), v) == Dot(a, v) + k * Dot(s, v)
  {
    var n := |a|;
    var b := Add(a, Scale(k, s));
    var x := seq(n, i requires 0 <= i < n => a[i] * v[i]);
    var y := seq(n, i requires 0 <= i < n => s[i] * v[i]);
    var z := seq(n, i requires 0 <= i < n => b[i] * v[i]);
    forall i | 0 <= i < n
      ensures z[i] == x[i] + k * y[i]
    {
      assert b[i] == a[i] + k * s[i];
      assert (a[i] + k * s[i]) * v[i] == a[i] * v[i] + k * (s[i] * v[i]);
    }
    SumLinear(x, y, z, k);
  }

  /** Exchanging the order of a double sum: (u A) . v == u . (A v). */
  lemma {:induction false} VecMatDot(u: Vector, A: Matrix, v: Vector)
    requires IsMat(A, |u|, |v|)
    ensures Dot(VecMat(u, A, |v|), v) == Dot(u, MatVec(A, v, |u|))
  {
    var p, q := |u|, |v|;
    if p == 0 {
      assert VecMat(u, A, q) == Zeros(q);
      DotComm(VecMat(u, A, q), v);
      DotZeros(v);
    } else {
      var uFront, AFront := u[..p - 1], A[..p - 1];
      VecMatDot(uFront, AFront, v);
      VecMatLast(u, A, q);
      DotAddScale(VecMat(uFront, AFront, q), A[p - 1], v, u[p - 1]);
      DotLast(u, MatVec(A, v, p));
      assert MatVec(A, v, p)[..p - 1] == MatVec(AFront, v, p - 1);
    }
  }

  /** Peeling the last row off A: u A is (u without its last entry) (A without its last
      row) plus the last entry of u times the last row. */
  lemma VecMatLast(u: Vector, A: Matrix, q: nat)
    requires |u| > 0 && IsMat(A, |u|, q)
    ensures VecMat(u, A, q) == Add(VecMat(u[..|u| - 1], A[..|u| - 1], q), Scale(u[|u| - 1], A[|u| - 1]))
  {
    var p := |u|;
    var uFront, AFront := u[..p - 1], A[..p - 1];
    var r, w := VecMat(u, A, q), Add(VecMat(uFront, AFront, q), Scale(u[p - 1], A[p - 1]));
    forall c | 0 <= c < q
      ensures r[c] == w[c]
    {
      DotLast(u, Column(A, c));
      assert Column(A, c)[..p - 1] == Column(AFront, c);
    }
    assert r == w;
  }

  /** K * S * K^T is symmetric when S is. */
  lemma SandwichSymmetric(K: Matrix, S: Matrix, m: nat, p: nat)
    requires IsMat(K, m, p) && IsMat(S, p, p)
    ensures Symmetric(S) ==> Symmetric(MatMul(MatMul(K, S, m, p, p), Transpose(K, m, p), m, p, m))
  {
    if !Symmetric(S) {
      return;
    }
    var KS := MatMul(K, S, m, p, p);
    var KT := Transpose(K, m, p);
    var M := MatMul(KS, KT, m, p, m);
    forall r, c | 0 <= r < m && 0 <= c < m
      ensures M[r][c] == M[c][r]
    {
      SandwichEntry(K, S, m, p, r, c);
      assert KS[c] == VecMat(K[c], S, p);
      assert Column(KT, r) == K[r];
      DotComm(VecMat(K[c], S, p), K[r]);
    }
  }

  /** Entry (r, c) of K * S * K^T is the bilinear form K[r] S K[c]. */
  lemma SandwichEntry(K: Matrix, S: Matrix, m: nat, p: nat, r: nat, c: nat)
    requires IsMat(K, m, p) && IsMat(S, p, p) && Symmetric(S) && r < m && c < m
    ensures MatMul(MatMul(K, S, m, p, p), Transpose(K, m, p), m, p, m)[r][c]
            == Dot(K[r], VecMat(K[c], S, p))
  {
    var KS := MatMul(K, S, m, p, p);
    var KT := Transpose(K, m, p);
    assert Column(KT, c) == K[c];
    assert KS[r] == VecMat(K[r], S, p);
    VecMatDot(K[r], S, K[c]);
    forall b | 0 <= b < p
      ensures MatVec(S, K[c], p)[b] == VecMat(K[c], S, p)[b]
    {
      assert Column(S, b) == S[b];
      DotComm(S[b], K[c]);
    }
    assert MatVec(S, K[c], p) == VecMat(K[c], S, p);
  }

  lemma SymmetricSum(A: Matrix, B: Matrix, n: nat)
    requires IsMat(A, n, n) && IsMat(B, n, n) && Symmetric(A) && Symmetric(B)
    ensures Symmetric(MatAdd(A, B, n, n)) && Symmetric(MatSub(A, B, n, n))
  {
  }
}
