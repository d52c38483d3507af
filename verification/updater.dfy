/** The measurement update shared by lidar and radar: predicted measurement, innovation covariance S,
    cross-correlation T, gain K = T * S^-1, and the corrected mean and covariance. */
module Updater {
  import opened Linalg
  import opened Primitives
  import opened Angles
  import opened Sigma

  /** Corrected mean and covariance. */
  datatype Posterior = Posterior(x: Vector, P: Matrix)

  /** S: weighted covariance of the measurement residuals, plus R. */
  function InnovationCovariance(w: seq<real>, Zsig: seq<Vector>, zPred: Vector, zAngle: AngleIndex, R: Matrix): (S: Matrix)
    requires |w| == |Zsig| && AllLen(Zsig, |zPred|) && AngleFits(zAngle, |zPred|)
    requires IsMat(R, |zPred|, |zPred|) && Symmetric(R)
    ensures IsMat(S, |zPred|, |zPred|) && Symmetric(S)
  {
    var nZ := |zPred|;
    var D := Residuals(Zsig, zPred, zAngle);
    OuterSumSymmetric(w, D, nZ, |w|);
    SymmetricSum(OuterSum(w, D, D, nZ, nZ, |w|), R, nZ);
    MatAdd(OuterSum(w, D, D, nZ, nZ, |w|), R, nZ, nZ)
  }

  /** T: the weighted cross-covariance of the state residuals (yaw normalised) and the
      measurement residuals, as `Sigma.CrossCovariance` accumulates it. */
  function CrossCovarianceOf(w: seq<real>, Xsig: seq<Vector>, x: Vector, Zsig: seq<Vector>, zPred: Vector, zAngle: AngleIndex): (T: Matrix)
    requires |w| == |Xsig| == |Zsig| && |x| == NX && AllLen(Xsig, NX)
    requires AllLen(Zsig, |zPred|) && AngleFits(zAngle, |zPred|)
    ensures IsMat(T, NX, |zPred|)
  {
    OuterSum(w, Residuals(Xsig, x, AngleAt(Yaw)), Residuals(Zsig, zPred, zAngle), NX, |zPred|, |w|)
  }

  /** The correction given S, T and the innovation zd: x + K zd and P - K S K^T with
      K = T S^-1. P stays symmetric when it was. */
  function Correct(lib: Library, x: Vector, P: Matrix, S: Matrix, T: Matrix, zd: Vector): (post: Posterior)
    requires |x| == NX && IsMat(P, NX, NX)
    requires IsMat(S, |zd|, |zd|) && IsMat(T, NX, |zd|)
    ensures |post.x| == NX && IsMat(post.P, NX, NX)
    ensures Symmetric(P) && Symmetric(S) ==> Symmetric(post.P)
  {
    var nZ := |zd|;
    var K := MatMul(T, Inverse(lib, S, nZ), NX, nZ, nZ);
    var KSKt := MatMul(MatMul(K, S, NX, nZ, nZ), Transpose(K, NX, nZ), NX, nZ, NX);
    SandwichSymmetric(K, S, NX, nZ);
    Posterior(Add(x, MatVec(K, zd, NX)), MatSub(P, KSKt, NX, NX))
  }

  /** The whole update from the predicted sigma points, their projections Zsig and
      the measurement z. */
  function Update(lib: Library, w: seq<real>, x: Vector, P: Matrix, Xsig: seq<Vector>,
                  Zsig: seq<Vector>, R: Matrix, zAngle: AngleIndex, z: Vector): (post: Posterior)
    requires |x| == NX && IsMat(P, NX, NX) && |w| == |Xsig| == |Zsig| && AllLen(Xsig, NX)
    requires AllLen(Zsig, |z|) && AngleFits(zAngle, |z|) && IsMat(R, |z|, |z|) && Symmetric(R)
    ensures |post.x| == NX && IsMat(post.P, NX, NX)
    ensures Symmetric(P) ==> Symmetric(post.P)
  {
    var zPred := WeightedMean(Zsig, w, |z|);
    var S := InnovationCovariance(w, Zsig, zPred, zAngle, R);
    var T := CrossCovarianceOf(w, Xsig, x, Zsig, zPred, zAngle);
    Correct(lib, x, P, S, T, Residual(z, zPred, zAngle))
  }

  /** The update as the filter performs it: the predicted measurement, S from the
      residual loop plus R, T from the paired residual loop, then the correction
      with the measurement residual (its angle normalised). */
  method UpdatePosterior(lib: Library, w: seq<real>, x: Vector, P: Matrix, Xsig: seq<Vector>,
                         Zsig: seq<Vector>, R: Matrix, zAngle: AngleIndex, z: Vector)
    returns (post: Posterior)
    requires |x| == NX && IsMat(P, NX, NX) && |w| == |Xsig| == |Zsig| && AllLen(Xsig, NX)
    requires AllLen(Zsig, |z|) && AngleFits(zAngle, |z|) && IsMat(R, |z|, |z|) && Symmetric(R)
    ensures post == Update(lib, w, x, P, Xsig, Zsig, R, zAngle, z)
  {
    var nZ := |z|;
    var zPred := WeightedMean(Zsig, w, nZ);
    var S := Covariance(w, Zsig, zPred, zAngle);
    S := MatAdd(S, R, nZ, nZ);
    var T := CrossCovariance(w, Xsig, x, AngleAt(Yaw), Zsig, zPred, zAngle);
    var K := MatMul(T, Inverse(lib, S, nZ), NX, nZ, nZ);
    var zd := ComputeResidual(z, zPred, zAngle);
    post := Posterior(Add(x, MatVec(K, zd, NX)),
                      MatSub(P, MatMul(MatMul(K, S, NX, nZ, nZ), Transpose(K, NX, nZ), NX, nZ, NX), NX, NX));
  }

  /** A measurement equal to the predicted measurement leaves a zero innovation, so the
      mean is not moved, whatever the gain. */
  lemma UpdateAtPredictedMeasurement(lib: Library, w: seq<real>, x: Vector, P: Matrix, Xsig: seq<Vector>,
                                     Zsig: seq<Vector>, R: Matrix, zAngle: AngleIndex, z: Vector)
    requires |x| == NX && IsMat(P, NX, NX) && |w| == |Xsig| == |Zsig| && AllLen(Xsig, NX)
    requires AllLen(Zsig, |z|) && AngleFits(zAngle, |z|) && IsMat(R, |z|, |z|) && Symmetric(R)
    requires z == WeightedMean(Zsig, w, |z|)
    ensures Residual(z, z, zAngle) == Zeros(|z|)
    ensures Update(lib, w, x, P, Xsig, Zsig, R, zAngle, z).x == x
  {
    var nZ := |z|;
    var zd := Residual(z, z, zAngle);
    if zAngle.AngleAt? {
      WrapIdempotent(0.0);
    }
    assert zd == Zeros(nZ);
    var S := InnovationCovariance(w, Zsig, z, zAngle, R);
    var T := CrossCovarianceOf(w, Xsig, x, Zsig, z, zAngle);
    var K := MatMul(T, Inverse(lib, S, nZ), NX, nZ, nZ);
    forall r | 0 <= r < NX
      ensures MatVec(K, zd, NX)[r] == 0.0
    {
      DotZeros(K[r]);
    }
  }
}
