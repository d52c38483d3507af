/** The prediction step as a value: augmentation, sigma points, CTRV propagation,
    then the weighted mean and the weighted covariance of the propagated points
    with the yaw residual normalised. */
module Predictor {
  import opened Linalg
  import opened Primitives
  import opened Sigma
  import opened Motion
  import opened Angles

  /** Mean, covariance and predicted sigma points after a prediction. */
  datatype Prior = Prior(x: Vector, P: Matrix, XsigPred: seq<Vector>)

  /** sqrt(lambda + n_aug), the spread of the sigma points around the mean. */
  function Spread(lib: Library): real {
    lib.sqrt(Lambda(NAug) + NAug as real)
  }

  /** The Cholesky factor of the augmented covariance, the A the sigma points spread along. */
  function AugmentedFactor(lib: Library, P: Matrix, stdA: real, stdYawdd: real): (A: Matrix)
    requires IsMat(P, NX, NX)
    ensures IsMat(A, NAug, NAug)
  {
    CholeskyFactor(lib, AugmentedCovariance(P, stdA, stdYawdd), NAug)
  }

  /** The augmented sigma points built from x and P: the mean padded with zeros and
      the Cholesky factor of the augmented covariance. */
  function AugmentedSigmaPoints(lib: Library, x: Vector, P: Matrix, stdA: real, stdYawdd: real): (X: seq<Vector>)
    requires |x| == NX && IsMat(P, NX, NX)
    ensures |X| == NSigma && AllLen(X, NAug)
  {
    SigmaPoints(AugmentedMean(x), AugmentedFactor(lib, P, stdA, stdYawdd), Spread(lib))
  }

  /** The mean and the covariance of propagated sigma points: the weighted mean, then the
      weighted sum of the residual outer products with the yaw residual normalised. */
  function PriorOf(Xp: seq<Vector>): (pr: Prior)
    requires |Xp| == NSigma && AllLen(Xp, NX)
    ensures |pr.x| == NX && IsMat(pr.P, NX, NX) && pr.XsigPred == Xp
    ensures Symmetric(pr.P)
  {
    var xm := WeightedMean(Xp, Weights(NAug), NX);
    var D := Residuals(Xp, xm, AngleAt(Yaw));
    OuterSumSymmetric(Weights(NAug), D, NX, NSigma);
    Prior(xm, OuterSum(Weights(NAug), D, D, NX, NX, NSigma), Xp)
  }

  /** The prediction. The covariance it produces is symmetric whatever P was. */
  function Predict(lib: Library, stdA: real, stdYawdd: real, x: Vector, P: Matrix, dt: real): (pr: Prior)
    requires |x| == NX && IsMat(P, NX, NX)
    ensures |pr.x| == NX && IsMat(pr.P, NX, NX)
    ensures |pr.XsigPred| == NSigma && AllLen(pr.XsigPred, NX)
    ensures Symmetric(pr.P)
  {
    PriorOf(PropagateAll(lib, AugmentedSigmaPoints(lib, x, P, stdA, stdYawdd), dt))
  }

  /** The prediction as the filter performs it: augment, draw the sigma points,
      propagate each one, then accumulate the mean and the covariance. */
  method PredictPrior(lib: Library, w: seq<real>, stdA: real, stdYawdd: real, x: Vector, P: Matrix, dt: real)
    returns (pr: Prior)
    requires |x| == NX && IsMat(P, NX, NX) && w == Weights(NAug)
    ensures pr == Predict(lib, stdA, stdYawdd, x, P, dt)
  {
    var xAug := AugmentMean(x);
    var pAug := AugmentedCovariance(P, stdA, stdYawdd);
    var A := CholeskyFactor(lib, pAug, NAug);
    var xSigAug := GenerateSigmaPoints(xAug, A, lib.sqrt(Lambda(NAug) + NAug as real));
    var xSigPred := PredictSigmaPoints(lib, xSigAug, dt);
    var xPred := WeightedMean(xSigPred, w, NX);
    var pPred := Covariance(w, xSigPred, xPred, AngleAt(Yaw));
    pr := Prior(xPred, pPred, xSigPred);
  }

  /** With a zero time step the predicted mean is the mean the step started from:
      the propagation keeps every sigma point and the weights recover their mean. */
  lemma PredictZeroStepMean(lib: Library, stdA: real, stdYawdd: real, x: Vector, P: Matrix)
    requires |x| == NX && IsMat(P, NX, NX)
    ensures Predict(lib, stdA, stdYawdd, x, P, 0.0).x == x
  {
    ZeroStepPriorMean(lib, AugmentedSigmaPoints(lib, x, P, stdA, stdYawdd), AugmentedMean(x),
                      AugmentedFactor(lib, P, stdA, stdYawdd), Spread(lib));
  }

  /** Sigma points drawn around xAug along any factor and propagated over zero time
      average back to the state part of xAug. */
  lemma ZeroStepPriorMean(lib: Library, X: seq<Vector>, xAug: Vector, A: Matrix, c: real)
    requires |xAug| == NAug && IsMat(A, NAug, NAug) && X == SigmaPoints(xAug, A, c)
    ensures PriorOf(PropagateAll(lib, X, 0.0)).x == xAug[..NX]
  {
    var Xp := PropagateAll(lib, X, 0.0);
    var w := Weights(NAug);
    PropagateZeroStep(lib, X);
    SigmaMeanRecovery(xAug, A, c);
    forall j | 0 <= j < NX
      ensures WeightedMean(Xp, w, NX)[j] == xAug[j]
    {
      assert Component(Xp, j) == Component(X, j);
      assert WeightedMean(X, w, NAug)[j] == xAug[j];
    }
  }

  /** Every sigma-point yaw deviation c A[Yaw][k] lies in [-pi, pi], so the
      normalisation of the yaw residual leaves it alone. */
  predicate YawDeviationsWithinPi(A: Matrix, c: real)
    requires IsMat(A, NAug, NAug)
  {
    forall k :: 0 <= k < NAug ==> -Pi <= c * A[Yaw][k] <= Pi
  }

  /** A A^T agrees with P on the state block: A is a square root of the covariance it
      was factored from, as far as the state components go. */
  predicate SquareRootOnStateBlock(A: Matrix, P: Matrix)
    requires IsMat(A, NAug, NAug) && IsMat(P, NX, NX)
  {
    forall r, s :: 0 <= r < NX && 0 <= s < NX ==>
      MatMul(A, Transpose(A, NAug, NAug), NAug, NAug, NAug)[r][s] == P[r][s]
  }

  /** With a zero time step the predicted covariance is the covariance the step started
      from, provided the factor is a true square root of P on the state block, the spread
      squared is lambda + n_aug, and no yaw deviation of the sigma points leaves
      [-pi, pi], where the normalisation would fold it back. */
  lemma PredictZeroStepCovariance(lib: Library, stdA: real, stdYawdd: real, x: Vector, P: Matrix)
    requires |x| == NX && IsMat(P, NX, NX)
    requires Spread(lib) * Spread(lib) == Lambda(NAug) + NAug as real
    requires SquareRootOnStateBlock(AugmentedFactor(lib, P, stdA, stdYawdd), P)
    requires YawDeviationsWithinPi(AugmentedFactor(lib, P, stdA, stdYawdd), Spread(lib))
    ensures Predict(lib, stdA, stdYawdd, x, P, 0.0).P == P
  {
    ZeroStepDeviationSum(lib, AugmentedSigmaPoints(lib, x, P, stdA, stdYawdd), AugmentedMean(x), x,
                         AugmentedFactor(lib, P, stdA, stdYawdd), Spread(lib), P);
  }

  /** Sigma points drawn along a square root A of P at the filter's spread and propagated
      over zero time have P as the weighted sum of the outer products of their residuals
      about the state mean, when no yaw deviation needs folding back. */
  lemma ZeroStepDeviationSum(lib: Library, X: seq<Vector>, xAug: Vector, x: Vector, A: Matrix, c: real, P: Matrix)
    requires |xAug| == NAug && IsMat(A, NAug, NAug) && IsMat(P, NX, NX) && x == xAug[..NX]
    requires X == SigmaPoints(xAug, A, c)
    requires c * c == Lambda(NAug) + NAug as real && SquareRootOnStateBlock(A, P) && YawDeviationsWithinPi(A, c)
    ensures PriorOf(PropagateAll(lib, X, 0.0)).P == P
  {
    var Xp := PropagateAll(lib, X, 0.0);
    ZeroStepPriorMean(lib, X, xAug, A, c);
    PropagateZeroStep(lib, X);
    YawDeviationsInRange(xAug, A, c);
    assert SigmaDeviations(xAug, A, c) == Residuals(X, xAug, NoAngle);
    TruncatedResiduals(X, Xp, xAug, x);
    CovarianceFromFactor(Residuals(Xp, x, AngleAt(Yaw)), xAug, A, c, P);
  }

  /** Deviations D that agree on the state components with the sigma-point deviations of
      a factor A, at the filter's spread, have P as their weighted outer-product sum when
      A A^T agrees with P on the state block. */
  lemma CovarianceFromFactor(D: seq<Vector>, xAug: Vector, A: Matrix, c: real, P: Matrix)
    requires |xAug| == NAug && IsMat(A, NAug, NAug) && IsMat(P, NX, NX) && |D| == NSigma && AllLen(D, NX)
    requires c * c == Lambda(NAug) + NAug as real && SquareRootOnStateBlock(A, P)
    requires forall i, j :: 0 <= i < NSigma && 0 <= j < NX ==> D[i][j] == SigmaDeviations(xAug, A, c)[i][j]
    ensures OuterSum(Weights(NAug), D, D, NX, NX, NSigma) == P
  {
    SigmaCovarianceAtFilterSpread(xAug, A, c);
    OuterSumRestricted(Weights(NAug), D, SigmaDeviations(xAug, A, c), NX, NAug, P);
  }

  /** Dropping the noise components and then taking residuals about the state part of the
      mean, with the yaw folded back, changes no state component of the deviations when
      every yaw deviation already lies in [-pi, pi]. */
  lemma TruncatedResiduals(X: seq<Vector>, Xp: seq<Vector>, xAug: Vector, x: Vector)
    requires |xAug| == NAug && x == xAug[..NX] && AllLen(X, NAug) && |Xp| == |X| && AllLen(Xp, NX)
    requires forall i :: 0 <= i < |X| ==> Xp[i] == X[i][..NX]
    requires forall i :: 0 <= i < |X| ==> -Pi <= Residuals(X, xAug, NoAngle)[i][Yaw] <= Pi
    ensures forall i, j :: 0 <= i < |X| && 0 <= j < NX ==>
              Residuals(Xp, x, AngleAt(Yaw))[i][j] == Residuals(X, xAug, NoAngle)[i][j]
  {
    forall i, j | 0 <= i < |X| && 0 <= j < NX
      ensures Residuals(Xp, x, AngleAt(Yaw))[i][j] == Residuals(X, xAug, NoAngle)[i][j]
    {
      assert Xp[i][j] == X[i][j];
      if j == Yaw {
        WrapIdempotent(Residuals(X, xAug, NoAngle)[i][j]);
      }
    }
  }

  /** Every yaw deviation of the sigma points is 0 or plus or minus c A[Yaw][k], so all of
      them lie in [-pi, pi] when every c A[Yaw][k] does. */
  lemma YawDeviationsInRange(xAug: Vector, A: Matrix, c: real)
    requires IsMat(A, |xAug|, |xAug|) && |xAug| == NAug && YawDeviationsWithinPi(A, c)
    ensures forall i :: 0 <= i < NSigma ==> -Pi <= SigmaDeviations(xAug, A, c)[i][Yaw] <= Pi
  {
    forall i | 0 <= i < NSigma
      ensures -Pi <= SigmaDeviations(xAug, A, c)[i][Yaw] <= Pi
    {
      if i == 0 {
        SigmaResidual(xAug, A, c, Yaw, 0);
      } else if i <= NAug {
        SigmaResidual(xAug, A, c, Yaw, i - 1);
      } else {
        SigmaResidual(xAug, A, c, Yaw, i - NAug - 1);
        assert (-c) * A[Yaw][i - NAug - 1] == -(c * A[Yaw][i - NAug - 1]);
      }
    }
  }
}
