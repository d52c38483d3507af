/** Sigma-point machinery: weights, augmented mean and covariance, the 2 * n_aug + 1 sigma points,
    and weighted covariance sums over residuals whose angular component is normalised. */
module Sigma {
  import opened Linalg
  import opened Angles

  /** State dimension. */
  const NX: nat := 5
  /** Augmented dimension: the state plus the two process-noise terms. */
  const NAug: nat := 7
  /** Number of sigma points. */
  const NSigma: nat := 2 * NAug + 1
  /** The yaw component of the state, the angle the prediction normalises. */
  const Yaw: nat := 3

  /** Which component of a residual is an angle, if any. */
  datatype AngleIndex = NoAngle | AngleAt(k: nat)

  predicate AngleFits(angle: AngleIndex, n: nat) {
    angle.AngleAt? ==> angle.k < n
  }

  /** The spreading parameter, lambda = 3 - n_aug. */
  function Lambda(nAug: nat): real {
    3.0 - nAug as real
  }

  function Weight(nAug: nat, i: nat): real {
    if i == 0 then Lambda(nAug) / (Lambda(nAug) + nAug as real)
    else 0.5 / (nAug as real + Lambda(nAug))
  }

  function Weights(nAug: nat): (w: seq<real>)
    ensures |w| == 2 * nAug + 1
  {
    seq(2 * nAug + 1, i requires 0 <= i < 2 * nAug + 1 => Weight(nAug, i))
  }

  /** The weight loop of the constructor. */
  method ComputeWeights(nAug: nat) returns (w: seq<real>)
    ensures w == Weights(nAug)
    ensures w[0] == (3.0 - nAug as real) / 3.0
    ensures forall i :: 1 <= i < |w| ==> w[i] == 1.0 / 6.0
  {
    var lambda := 3.0 - nAug as real;
    w := [lambda / (lambda + nAug as real)];
    assert w[0] == Weight(nAug, 0);
    var i := 1;
    while i != 2 * nAug + 1
      invariant 1 <= i <= 2 * nAug + 1
      invariant w == Weights(nAug)[..i]
    {
      var wi := 0.5 / (nAug as real + lambda);
      assert wi == Weight(nAug, i);
      w := w + [wi];
      i := i + 1;
    }
    WeightsSumToOne(nAug);
  }

  /** The central weight is lambda / 3, every other weight is 1/6, and all of them sum to one. */
  lemma WeightsSumToOne(nAug: nat)
    ensures Weights(nAug)[0] == (3.0 - nAug as real) / 3.0
    ensures forall i :: 1 <= i < 2 * nAug + 1 ==> Weights(nAug)[i] == 1.0 / 6.0
    ensures Sum(Weights(nAug)) == 1.0
  {
    var w := Weights(nAug);
    var rest := w[1..];
    assert w == [w[0]] + rest;
    SumConcat([w[0]], rest);
    assert [w[0]][..0] == [];
    SumConstant(rest, 1.0 / 6.0);
  }

  /** For n_aug = 7 as in the filter: lambda = -4, weight 0 is -4/3, every weight i with 1 <= i < 15 is 1/6,
      and the weights sum to one. */
  lemma FilterWeights()
    ensures |Weights(NAug)| == NSigma == 15
    ensures Lambda(NAug) == -4.0
    ensures Weights(NAug)[0] == -4.0 / 3.0
    ensures forall i :: 1 <= i < NSigma ==> Weights(NAug)[i] == 1.0 / 6.0
    ensures Sum(Weights(NAug)) == 1.0
  {
    WeightsSumToOne(NAug);
  }

  // ---------------------------------------------------------------------------
  // Augmentation

  function AugmentedMean(x: Vector): (xAug: Vector)
    ensures |xAug| == |x| + 2 && xAug[..|x|] == x && xAug[|x|] == 0.0 && xAug[|x| + 1] == 0.0
  {
    x + [0.0, 0.0]
  }

  /** The augmented mean: the state followed by zeros for the noise terms. */
  method AugmentMean(x: Vector) returns (xAug: Vector)
    requires |x| == NX
    ensures xAug == AugmentedMean(x)
    ensures |xAug| == NAug && xAug[..NX] == x && xAug[5] == 0.0 && xAug[6] == 0.0
  {
    xAug := x;
    var i := NX;
    while i != NAug
      invariant NX <= i <= NAug
      invariant xAug == x + Zeros(i - NX)
    {
      xAug := xAug + [0.0];
      i := i + 1;
    }
  }

  /** The augmented covariance, built as rows: P padded with two zero columns, then
      the two noise rows. */
  function AugmentedCovariance(P: Matrix, stdA: real, stdYawdd: real): (Pa: Matrix)
    requires IsMat(P, NX, NX)
    ensures IsMat(Pa, NAug, NAug)
    ensures forall r, c :: 0 <= r < NX && 0 <= c < NX ==> Pa[r][c] == P[r][c]
    ensures Pa[5][5] == stdA * stdA && Pa[6][6] == stdYawdd * stdYawdd
    ensures forall r, c :: 0 <= r < NAug && 0 <= c < NAug && (r >= NX || c >= NX) && r != c ==> Pa[r][c] == 0.0
  {
    seq(NX, r requires 0 <= r < NX => P[r] + [0.0, 0.0])
      + [Zeros(NX) + [stdA * stdA, 0.0], Zeros(NX) + [0.0, stdYawdd * stdYawdd]]
  }

  lemma AugmentedCovarianceSymmetric(P: Matrix, stdA: real, stdYawdd: real)
    requires IsMat(P, NX, NX) && Symmetric(P)
    ensures Symmetric(AugmentedCovariance(P, stdA, stdYawdd))
  {
  }

  // ---------------------------------------------------------------------------
  // Sigma points

  /** Column 0 is the mean; columns 1..n are mean + c * A_i; columns n+1..2n are mean - c * A_i. */
  function SigmaPoints(xAug: Vector, A: Matrix, c: real): (X: seq<Vector>)
    requires IsMat(A, |xAug|, |xAug|)
    ensures |X| == 2 * |xAug| + 1 && AllLen(X, |xAug|)
  {
    var n := |xAug|;
    [xAug]
      + seq(n, i requires 0 <= i < n => Add(xAug, Scale(c, Column(A, i))))
      + seq(n, i requires 0 <= i < n => Sub(xAug, Scale(c, Column(A, i))))
  }

  /** Writes the sigma points column by column, two columns per step. */
  method GenerateSigmaPoints(xAug: Vector, A: Matrix, c: real) returns (X: seq<Vector>)
    requires IsMat(A, |xAug|, |xAug|)
    ensures X == SigmaPoints(xAug, A, c)
    ensures |X| == 2 * |xAug| + 1 && X[0] == xAug
    ensures forall i :: 0 <= i < |xAug| ==>
              X[i + 1] == Add(xAug, Scale(c, Column(A, i)))
              && X[i + |xAug| + 1] == Sub(xAug, Scale(c, Column(A, i)))
  {
    var n := |xAug|;
    X := seq(2 * n + 1, j => xAug);
    var i := 0;
    while i != n
      invariant 0 <= i <= n
      invariant |X| == 2 * n + 1 && X[0] == xAug
      invariant forall k :: 0 <= k < i ==> X[k + 1] == Add(xAug, Scale(c, Column(A, k)))
      invariant forall k :: 0 <= k < i ==> X[k + n + 1] == Sub(xAug, Scale(c, Column(A, k)))
    {
      X := X[i + 1 := Add(xAug, Scale(c, Column(A, i)))][i + n + 1 := Sub(xAug, Scale(c, Column(A, i)))];
      i := i + 1;
    }
    var S := SigmaPoints(xAug, A, c);
    forall j | 0 <= j < 2 * n + 1
      ensures X[j] == S[j]
    {
      if 1 <= j <= n {
        assert X[(j - 1) + 1] == S[j];
      } else if j > n {
        assert X[(j - n - 1) + n + 1] == S[j];
      }
    }
  }

  /** Mean recovery: the weighted mean of the sigma points, with the weights for
      n_aug = |xAug|, is the mean they were built from, whatever the factor A and
      the spread c. */
  lemma SigmaMeanRecovery(xAug: Vector, A: Matrix, c: real)
    requires IsMat(A, |xAug|, |xAug|)
    ensures WeightedMean(SigmaPoints(xAug, A, c), Weights(|xAug|), |xAug|) == xAug
  {
    var n := |xAug|;
    var X := SigmaPoints(xAug, A, c);
    var w := Weights(n);
    WeightsSumToOne(n);
    forall j | 0 <= j < n
      ensures Dot(Component(X, j), w) == xAug[j]
    {
      SigmaComponentMean(xAug, A, c, j);
    }
  }

  /** Row j of the sigma points: m, then m + c * A[j][i], then m - c * A[j][i]. */
  lemma SigmaComponent(xAug: Vector, A: Matrix, c: real, j: nat, i: nat)
    requires IsMat(A, |xAug|, |xAug|) && j < |xAug| && i < |xAug|
    ensures Component(SigmaPoints(xAug, A, c), j)[0] == xAug[j]
    ensures Component(SigmaPoints(xAug, A, c), j)[i + 1] == xAug[j] + c * A[j][i]
    ensures Component(SigmaPoints(xAug, A, c), j)[i + |xAug| + 1] == xAug[j] - c * A[j][i]
  {
    var n := |xAug|;
    var X := SigmaPoints(xAug, A, c);
    assert X[i + 1] == Add(xAug, Scale(c, Column(A, i)));
    assert X[i + n + 1] == Sub(xAug, Scale(c, Column(A, i)));
  }

  /** Every component row of the sigma points: the mean, then the mean plus and minus
      the scaled entries of row j of the factor. */
  lemma SigmaComponentRow(xAug: Vector, A: Matrix, c: real, j: nat, d: seq<real>)
    requires IsMat(A, |xAug|, |xAug|) && j < |xAug|
    requires |d| == |xAug| && forall i :: 0 <= i < |xAug| ==> d[i] == c * A[j][i]
    ensures Component(SigmaPoints(xAug, A, c), j)[0] == xAug[j]
    ensures forall i :: 0 <= i < |d| ==>
              Component(SigmaPoints(xAug, A, c), j)[i + 1] == xAug[j] + d[i] &&
              Component(SigmaPoints(xAug, A, c), j)[i + |d| + 1] == xAug[j] - d[i]
  {
    var n := |xAug|;
    var C := Component(SigmaPoints(xAug, A, c), j);
    forall i | 0 <= i < n
      ensures C[i + 1] == xAug[j] + d[i] && C[i + n + 1] == xAug[j] - d[i]
    {
      SigmaComponent(xAug, A, c, j, i);
    }
    if n > 0 {
      SigmaComponent(xAug, A, c, j, 0);
    }
  }

  /** The deviations of the sigma points from the mean they were built from. */
  function SigmaDeviations(xAug: Vector, A: Matrix, c: real): (D: seq<Vector>)
    requires IsMat(A, |xAug|, |xAug|)
    ensures |D| == 2 * |xAug| + 1 && AllLen(D, |xAug|)
  {
    Residuals(SigmaPoints(xAug, A, c), xAug, NoAngle)
  }

  /** Covariance recovery: the weighted sum of the outer products of the sigma points'
      deviations from their mean is (c^2 / 3) A A^T, whatever the factor A and the spread c.
      For the filter's spread c = sqrt(lambda + n_aug), c^2 = 3 and this is A A^T. */
  lemma SigmaCovarianceRecovery(xAug: Vector, A: Matrix, c: real)
    requires IsMat(A, |xAug|, |xAug|)
    ensures OuterSum(Weights(|xAug|), SigmaDeviations(xAug, A, c),
                     SigmaDeviations(xAug, A, c), |xAug|, |xAug|, 2 * |xAug| + 1)
            == MatScale(c * c / 3.0, MatMul(A, Transpose(A, |xAug|, |xAug|), |xAug|, |xAug|, |xAug|), |xAug|, |xAug|)
  {
    var n := |xAug|;
    assert forall i :: 1 <= i < |Weights(n)| ==> Weights(n)[i] == 1.0 / 6.0 by {
      WeightsSumToOne(n);
    }
    forall r | 0 <= r < n
      ensures PairedComponent(SigmaDeviations(xAug, A, c), c, r, A[r])
    {
      SigmaResidualRow(xAug, A, c, r);
    }
    PairedGram(Weights(n), SigmaDeviations(xAug, A, c), c, A, n);
  }

  /** With the filter's spread, c * c = lambda + n_aug = 3, the sigma points recover A A^T. */
  lemma SigmaCovarianceAtFilterSpread(xAug: Vector, A: Matrix, c: real)
    requires IsMat(A, |xAug|, |xAug|) && |xAug| == NAug && c * c == Lambda(NAug) + NAug as real
    ensures OuterSum(Weights(NAug), SigmaDeviations(xAug, A, c),
                     SigmaDeviations(xAug, A, c), NAug, NAug, NSigma)
            == MatMul(A, Transpose(A, NAug, NAug), NAug, NAug, NAug)
  {
    SigmaCovarianceRecovery(xAug, A, c);
    MatScaleOne(MatMul(A, Transpose(A, NAug, NAug), NAug, NAug, NAug), NAug, NAug);
  }

  /** Deviations paired along every row of A, with every pair weighted 1/6, have the weighted
      outer-product sum (c^2 / 3) A A^T. */
  lemma PairedGram(w: seq<real>, D: seq<Vector>, c: real, A: Matrix, n: nat)
    requires IsMat(A, n, n) && |w| == |D| == 2 * n + 1 && AllLen(D, n)
    requires forall r :: 0 <= r < n ==> PairedComponent(D, c, r, A[r])
    requires forall i :: 1 <= i < |w| ==> w[i] == 1.0 / 6.0
    ensures OuterSum(w, D, D, n, n, 2 * n + 1) == MatScale(c * c / 3.0, MatMul(A, Transpose(A, n, n), n, n, n), n, n)
  {
    var M := OuterSum(w, D, D, n, n, 2 * n + 1);
    var R := MatScale(c * c / 3.0, MatMul(A, Transpose(A, n, n), n, n, n), n, n);
    forall r, s | 0 <= r < n && 0 <= s < n
      ensures M[r][s] == R[r][s]
    {
      PairedGramEntry(w, D, c, A, r, s);
    }
    MatEqual(M, R, n, n);
  }

  /** When the deviations are paired along rows r and s of A, entry (r, s) of their
      weighted outer-product sum is entry (r, s) of (c^2 / 3) A A^T. */
  lemma PairedGramEntry(w: seq<real>, D: seq<Vector>, c: real, A: Matrix, r: nat, s: nat)
    requires IsMat(A, |A|, |A|) && r < |A| && s < |A|
    requires PairedComponent(D, c, r, A[r]) && PairedComponent(D, c, s, A[s])
    requires |w| == |D| && forall i :: 1 <= i < |w| ==> w[i] == 1.0 / 6.0
    ensures OuterSum(w, D, D, |A|, |A|, 2 * |A| + 1)[r][s]
            == MatScale(c * c / 3.0, MatMul(A, Transpose(A, |A|, |A|), |A|, |A|, |A|), |A|, |A|)[r][s]
  {
    MatMulTransposeEntry(A, |A|, |A|, r, s);
    PairedOuterEntry(w, D, c, |A|, r, s, A[r], A[s], MatMul(A, Transpose(A, |A|, |A|), |A|, |A|, |A|));
  }

  /** A weighted outer-product sum over deviations paired in components r and s, each pair
      weighted 1/6, has entry (r, s) equal to (c^2 / 3) a . b: entry (r, s) of (c^2 / 3) G
      for any matrix G holding a . b there. */
  lemma PairedOuterEntry(w: seq<real>, D: seq<Vector>, c: real, n: nat, r: nat, s: nat, a: Vector, b: Vector, G: Matrix)
    requires PairedComponent(D, c, r, a) && PairedComponent(D, c, s, b) && |a| == n
    requires |w| == |D| && forall i :: 1 <= i < |w| ==> w[i] == 1.0 / 6.0
    requires IsMat(G, n, n) && G[r][s] == Dot(a, b)
    ensures OuterSum(w, D, D, n, n, 2 * n + 1)[r][s] == MatScale(c * c / 3.0, G, n, n)[r][s]
  {
    PairedSum(w, D, c, n, r, s, a, b, G);
    OuterSumEntryValue(w, D, D, n, n, 2 * n + 1, r, s, MatScale(c * c / 3.0, G, n, n)[r][s]);
  }

  /** The weighted products behind such an entry sum to (c^2 / 3) a . b. */
  lemma PairedSum(w: seq<real>, D: seq<Vector>, c: real, n: nat, r: nat, s: nat, a: Vector, b: Vector, G: Matrix)
    requires PairedComponent(D, c, r, a) && PairedComponent(D, c, s, b) && |a| == n
    requires |w| == |D| && forall i :: 1 <= i < |w| ==> w[i] == 1.0 / 6.0
    requires IsMat(G, n, n) && G[r][s] == Dot(a, b)
    ensures Sum(EntryTerms(w, D, D, n, n, 2 * n + 1, r, s)) == (c * c / 3.0) * Dot(a, b) == MatScale(c * c / 3.0, G, n, n)[r][s]
  {
    var k := c * c / 6.0;
    PairedTerms(w, D, c, k, r, s, a, b);
    PairedProducts(EntryTerms(w, D, D, n, n, 2 * n + 1, r, s), k, a, b);
    TwoSixths(k, c * c, Dot(a, b));
  }

  /** Component r of the deviations D is 0 for the central point and +-c a[i] for the pair
      built from column i. */
  predicate PairedComponent(D: seq<Vector>, c: real, r: nat, a: Vector)
  {
    |D| == 2 * |a| + 1 && AllLen(D, |a|) && r < |a| && D[0][r] == 0.0
    && forall i {:trigger a[i]} :: 0 <= i < |a| ==> D[i + 1][r] == c * a[i] && D[i + |a| + 1][r] == (-c) * a[i]
  }

  /** A zero central term and, for each i, two terms k a[i] b[i]. */
  predicate PairedProductTerms(terms: seq<real>, k: real, a: Vector, b: Vector)
  {
    |b| == |a| && |terms| == 2 * |a| + 1 && terms[0] == 0.0
    && forall i {:trigger a[i]} :: 0 <= i < |a| ==> terms[i + 1] == k * (a[i] * b[i]) && terms[i + |a| + 1] == k * (a[i] * b[i])
  }

  /** Weighting deviations paired in components r and s with 1/6 gives terms (c^2 / 6) a[i] b[i]. */
  lemma PairedTerms(w: seq<real>, D: seq<Vector>, c: real, k: real, r: nat, s: nat, a: Vector, b: Vector)
    requires PairedComponent(D, c, r, a) && PairedComponent(D, c, s, b)
    requires |w| == |D| && k == c * c / 6.0 && forall i :: 1 <= i < |w| ==> w[i] == 1.0 / 6.0
    ensures PairedProductTerms(EntryTerms(w, D, D, |a|, |a|, |D|, r, s), k, a, b)
  {
    var n := |a|;
    var terms := EntryTerms(w, D, D, n, n, |D|, r, s);
    assert terms[0] == w[0] * (D[0][r] * D[0][s]);
    forall i | 0 <= i < n
      ensures terms[i + 1] == k * (a[i] * b[i]) && terms[i + n + 1] == k * (a[i] * b[i])
    {
      PairTerm(w[i + 1], D[i + 1][r], D[i + 1][s], c, a[i], b[i]);
      PairTerm(w[i + n + 1], D[i + n + 1][r], D[i + n + 1][s], -c, a[i], b[i]);
    }
  }

  /** A zero central term and n pairs of equal terms k a[i] b[i] sum to 2 k (a . b). */
  lemma PairedProducts(terms: seq<real>, k: real, a: Vector, b: Vector)
    requires PairedProductTerms(terms, k, a, b)
    ensures Sum(terms) == 2.0 * k * Dot(a, b)
  {
    var n := |a|;
    var plus, minus := terms[1..n + 1], terms[n + 1..];
    assert Sum(plus) == k * Dot(a, b) by {
      forall i | 0 <= i < n
        ensures plus[i] == k * (a[i] * b[i])
      {
        assert plus[i] == terms[i + 1];
      }
      ScaledDot(plus, a, b, k);
    }
    assert Sum(minus) == k * Dot(a, b) by {
      forall i | 0 <= i < n
        ensures minus[i] == k * (a[i] * b[i])
      {
        assert minus[i] == terms[i + n + 1];
      }
      ScaledDot(minus, a, b, k);
    }
    SumThreeParts(terms, n);
  }

  /** Terms k a[i] b[i] sum to k (a . b). */
  lemma ScaledDot(x: seq<real>, a: Vector, b: Vector, k: real)
    requires |x| == |a| == |b| && forall i :: 0 <= i < |x| ==> x[i] == k * (a[i] * b[i])
    ensures Sum(x) == k * Dot(a, b)
  {
    var p := seq(|a|, i requires 0 <= i < |a| => a[i] * b[i]);
    forall i | 0 <= i < |x|
      ensures x[i] == k * p[i]
    {
    }
    SumScale(x, p, k);
    assert Dot(a, b) == Sum(p);
  }

  /** One weighted product of a pair: (1/6) (c x) (c y) = (c^2 / 6) x y. */
  lemma PairTerm(wi: real, dr: real, ds: real, c: real, x: real, y: real)
    requires wi == 1.0 / 6.0 && dr == c * x && ds == c * y
    ensures wi * (dr * ds) == ((-c) * (-c) / 6.0) * (x * y) == (c * c / 6.0) * (x * y)
  {
  }

  /** Two terms of weight q / 6 make one of weight q / 3. */
  lemma TwoSixths(k: real, q: real, t: real)
    requires k == q / 6.0
    ensures 2.0 * k * t == (q / 3.0) * t
  {
  }

  /** Component r of every deviation of the sigma points from their mean. */
  lemma SigmaResidualRow(xAug: Vector, A: Matrix, c: real, r: nat)
    requires IsMat(A, |xAug|, |xAug|) && r < |xAug|
    ensures PairedComponent(SigmaDeviations(xAug, A, c), c, r, A[r])
  {
    SigmaResidual(xAug, A, c, r, 0);
    forall i | 0 <= i < |xAug|
      ensures SigmaDeviations(xAug, A, c)[i + 1][r] == c * A[r][i]
      ensures SigmaDeviations(xAug, A, c)[i + |xAug| + 1][r] == (-c) * A[r][i]
    {
      SigmaResidual(xAug, A, c, r, i);
    }
  }

  /** Deviations of the sigma points from their mean, in component r: 0 for the central
      point, then c * A[r][i] and -c * A[r][i] for the pair built from column i. */
  lemma SigmaResidual(xAug: Vector, A: Matrix, c: real, r: nat, i: nat)
    requires IsMat(A, |xAug|, |xAug|) && r < |xAug| && i < |xAug|
    ensures SigmaDeviations(xAug, A, c)[0][r] == 0.0
    ensures SigmaDeviations(xAug, A, c)[i + 1][r] == c * A[r][i]
    ensures SigmaDeviations(xAug, A, c)[i + |xAug| + 1][r] == (-c) * A[r][i]
  {
    var X := SigmaPoints(xAug, A, c);
    assert X[i + 1] == Add(xAug, Scale(c, Column(A, i)));
    assert X[i + |xAug| + 1] == Sub(xAug, Scale(c, Column(A, i)));
  }

  lemma SigmaComponentMean(xAug: Vector, A: Matrix, c: real, j: nat)
    requires IsMat(A, |xAug|, |xAug|) && j < |xAug|
    ensures Dot(Component(SigmaPoints(xAug, A, c), j), Weights(|xAug|)) == xAug[j]
  {
    var d := seq(|xAug|, i requires 0 <= i < |xAug| => c * A[j][i]);
    SigmaComponentRow(xAug, A, c, j, d);
    WeightsSumToOne(|xAug|);
    WeightedPairs(Component(SigmaPoints(xAug, A, c), j), Weights(|xAug|), xAug[j], d);
  }

  /** A row of the form m, m + d[i], m - d[i], weighted by (3 - n)/3 and then 1/6
      throughout, averages to m. */
  lemma WeightedPairs(C: seq<real>, w: seq<real>, m: real, d: seq<real>)
    requires |C| == |w| == 2 * |d| + 1
    requires C[0] == m && w[0] == (3.0 - |d| as real) / 3.0
    requires forall i :: 0 <= i < |d| ==> C[i + 1] == m + d[i] && C[i + |d| + 1] == m - d[i]
    requires forall i :: 1 <= i < |w| ==> w[i] == 1.0 / 6.0
    ensures Dot(C, w) == m
  {
    PairedDot(C, w, m, d);
    CentralPlusPairs(m, |d| as real);
  }

  /** The weighted row as the central term plus the sum over the pairs. */
  lemma PairedDot(C: seq<real>, w: seq<real>, m: real, d: seq<real>)
    requires |C| == |w| == 2 * |d| + 1
    requires C[0] == m && w[0] == (3.0 - |d| as real) / 3.0
    requires forall i :: 0 <= i < |d| ==> C[i + 1] == m + d[i] && C[i + |d| + 1] == m - d[i]
    requires forall i :: 1 <= i < |w| ==> w[i] == 1.0 / 6.0
    ensures Dot(C, w) == m * ((3.0 - |d| as real) / 3.0) + 2.0 * (|d| as real) * (m * (1.0 / 6.0))
  {
    var prod := seq(|C|, i requires 0 <= i < |C| => C[i] * w[i]);
    assert Dot(C, w) == Sum(prod);
    SumThreeParts(prod, |d|);
    WeightedTerms(C, w, m, d, prod);
    PairsSum(prod, m, d);
  }

  lemma WeightedTerms(C: seq<real>, w: seq<real>, m: real, d: seq<real>, prod: seq<real>)
    requires |C| == |w| == |prod| == 2 * |d| + 1
    requires C[0] == m && w[0] == (3.0 - |d| as real) / 3.0
    requires forall i :: 0 <= i < |d| ==> C[i + 1] == m + d[i] && C[i + |d| + 1] == m - d[i]
    requires forall i :: 1 <= i < |w| ==> w[i] == 1.0 / 6.0
    requires forall i :: 0 <= i < |C| ==> prod[i] == C[i] * w[i]
    ensures prod[0] == m * ((3.0 - |d| as real) / 3.0)
    ensures forall i :: 0 <= i < |d| ==>
              prod[i + 1] == (m + d[i]) * (1.0 / 6.0) && prod[i + |d| + 1] == (m - d[i]) * (1.0 / 6.0)
  {
    var n := |d|;
    forall i | 0 <= i < n
      ensures prod[i + 1] == (m + d[i]) * (1.0 / 6.0) && prod[i + n + 1] == (m - d[i]) * (1.0 / 6.0)
    {
      assert w[i + 1] == 1.0 / 6.0 && w[i + n + 1] == 1.0 / 6.0;
    }
  }

  lemma PairsSum(prod: seq<real>, m: real, d: seq<real>)
    requires |prod| == 2 * |d| + 1
    requires forall i :: 0 <= i < |d| ==>
               prod[i + 1] == (m + d[i]) * (1.0 / 6.0) && prod[i + |d| + 1] == (m - d[i]) * (1.0 / 6.0)
    ensures Sum(prod[1..|d| + 1]) + Sum(prod[|d| + 1..]) == 2.0 * (|d| as real) * (m * (1.0 / 6.0))
  {
    var e := seq(|d|, i requires 0 <= i < |d| => d[i] * (1.0 / 6.0));
    var plus := prod[1..|d| + 1];
    var minus := prod[|d| + 1..];
    forall i | 0 <= i < |d|
      ensures plus[i] == m * (1.0 / 6.0) + e[i] && minus[i] == m * (1.0 / 6.0) - e[i]
    {
      assert plus[i] == (m + d[i]) * (1.0 / 6.0);
    }
    SumPaired(m * (1.0 / 6.0), e, plus, minus, |d| as real);
  }

  lemma SumThreeParts(s: seq<real>, n: nat)
    requires |s| == 2 * n + 1
    ensures Sum(s) == s[0] + Sum(s[1..n + 1]) + Sum(s[n + 1..])
  {
    assert s == [s[0]] + s[1..n + 1] + s[n + 1..];
    SumConcat([s[0]] + s[1..n + 1], s[n + 1..]);
    SumConcat([s[0]], s[1..n + 1]);
    assert [s[0]][..0] == [];
  }

  lemma CentralPlusPairs(m: real, n: real)
    ensures m * ((3.0 - n) / 3.0) + 2.0 * n * (m * (1.0 / 6.0)) == m
  {
  }

  // ---------------------------------------------------------------------------
  // Residuals and weighted covariance sums

  /** v - mean, with the angular component (if any) normalised. */
  function Residual(v: Vector, mean: Vector, angle: AngleIndex): (d: Vector)
    requires |v| == |mean| && AngleFits(angle, |v|)
    ensures |d| == |v|
  {
    var diff := Sub(v, mean);
    if angle.AngleAt? then diff[angle.k := Wrap(diff[angle.k])] else diff
  }

  function Residuals(X: seq<Vector>, mean: Vector, angle: AngleIndex): (D: seq<Vector>)
    requires AllLen(X, |mean|) && AngleFits(angle, |mean|)
    ensures |D| == |X| && AllLen(D, |mean|)
  {
    seq(|X|, i requires 0 <= i < |X| => Residual(X[i], mean, angle))
  }

  /** Computes v - mean and normalises the angular component in place. */
  method ComputeResidual(v: Vector, mean: Vector, angle: AngleIndex) returns (d: Vector)
    requires |v| == |mean| && AngleFits(angle, |v|)
    ensures d == Residual(v, mean, angle)
    ensures forall i :: 0 <= i < |v| && !(angle.AngleAt? && i == angle.k) ==> d[i] == v[i] - mean[i]
    ensures angle.AngleAt? ==> -Pi <= d[angle.k] <= Pi && SameAngle(v[angle.k] - mean[angle.k], d[angle.k])
  {
    d := Sub(v, mean);
    if angle.AngleAt? {
      var a := NormalizeAngle(d[angle.k]);
      d := d[angle.k := a];
    }
  }

  /** Residuals over a sigma-point set keep every non-angular difference and bring
      the angular one into [-pi, pi]. */
  lemma ResidualsNormalised(X: seq<Vector>, mean: Vector, angle: AngleIndex)
    requires AllLen(X, |mean|) && AngleFits(angle, |mean|)
    ensures forall i :: 0 <= i < |X| && angle.AngleAt? ==> -Pi <= Residuals(X, mean, angle)[i][angle.k] <= Pi
    ensures forall i, j :: 0 <= i < |X| && 0 <= j < |mean| && !(angle.AngleAt? && j == angle.k) ==>
              Residuals(X, mean, angle)[i][j] == X[i][j] - mean[j]
  {
    forall i | 0 <= i < |X| && angle.AngleAt?
      ensures -Pi <= Residuals(X, mean, angle)[i][angle.k] <= Pi
    {
      WrapInRange(X[i][angle.k] - mean[angle.k]);
    }
  }

  /** The weighted sum of outer products of the residuals with themselves (the
      P of the prediction and S of the update before R is added). */
  method Covariance(w: seq<real>, X: seq<Vector>, mean: Vector, angle: AngleIndex) returns (M: Matrix)
    requires |w| == |X| && AllLen(X, |mean|) && AngleFits(angle, |mean|)
    ensures M == OuterSum(w, Residuals(X, mean, angle), Residuals(X, mean, angle), |mean|, |mean|, |X|)
    ensures Symmetric(M)
  {
    var n := |mean|;
    ghost var D := Residuals(X, mean, angle);
    M := ZeroMat(n, n);
    var i := 0;
    while i != |X|
      invariant 0 <= i <= |X|
      invariant M == OuterSum(w, D, D, n, n, i)
    {
      var d := ComputeResidual(X[i], mean, angle);
      assert d == D[i];
      M := MatAdd(M, MatScale(w[i], Outer(d, d), n, n), n, n);
      assert M == OuterSum(w, D, D, n, n, i + 1);
      i := i + 1;
    }
    OuterSumSymmetric(w, D, n, |X|);
  }

  /** The weighted sum of outer products of state residuals with measurement residuals (T). */
  method CrossCovariance(w: seq<real>, X: seq<Vector>, xMean: Vector, xAngle: AngleIndex,
                         Z: seq<Vector>, zMean: Vector, zAngle: AngleIndex) returns (T: Matrix)
    requires |w| == |X| && |Z| == |X|
    requires AllLen(X, |xMean|) && AngleFits(xAngle, |xMean|)
    requires AllLen(Z, |zMean|) && AngleFits(zAngle, |zMean|)
    ensures T == OuterSum(w, Residuals(X, xMean, xAngle), Residuals(Z, zMean, zAngle), |xMean|, |zMean|, |X|)
  {
    var n, m := |xMean|, |zMean|;
    ghost var DX := Residuals(X, xMean, xAngle);
    ghost var DZ := Residuals(Z, zMean, zAngle);
    T := ZeroMat(n, m);
    var i := 0;
    while i != |X|
      invariant 0 <= i <= |X|
      invariant T == OuterSum(w, DX, DZ, n, m, i)
    {
      var xd := ComputeResidual(X[i], xMean, xAngle);
      var zd := ComputeResidual(Z[i], zMean, zAngle);
      assert xd == DX[i] && zd == DZ[i];
      T := MatAdd(T, MatScale(w[i], Outer(xd, zd), n, m), n, m);
      assert T == OuterSum(w, DX, DZ, n, m, i + 1);
      i := i + 1;
    }
  }
}
