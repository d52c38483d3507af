/** The two measurement models applied to the predicted sigma points, and the
    measurement-noise covariances of the sensors. */
module Measurement {
  import opened Linalg
  import opened Primitives
  import opened Sigma

  /** Lidar dimension (px, py) and radar dimension (range, bearing, range rate). */
  const NZLidar: nat := 2
  const NZRadar: nat := 3

  /** Lidar sees the position. */
  function LidarProject(x: Vector): (z: Vector)
    requires |x| == NX
    ensures |z| == NZLidar
  {
    [x[0], x[1]]
  }

  /** Radar sees range, bearing and range rate. The range rate divides by the range,
      which is zero when px = py = 0. */
  function RadarProject(lib: Library, x: Vector): (z: Vector)
    requires |x| == NX
    ensures |z| == NZRadar
  {
    var px, py, v, yaw := x[0], x[1], x[2], x[3];
    var ro := lib.sqrt(px * px + py * py);
    var thi := lib.atan2(py, px);
    var roD := Quotient(lib, px * lib.cos(yaw) * v + py * lib.sin(yaw) * v, ro);
    [ro, thi, roD]
  }

  function LidarSigma(X: seq<Vector>): (Z: seq<Vector>)
    requires AllLen(X, NX)
    ensures |Z| == |X| && AllLen(Z, NZLidar)
  {
    seq(|X|, i requires 0 <= i < |X| => LidarProject(X[i]))
  }

  function RadarSigma(lib: Library, X: seq<Vector>): (Z: seq<Vector>)
    requires AllLen(X, NX)
    ensures |Z| == |X| && AllLen(Z, NZRadar)
  {
    seq(|X|, i requires 0 <= i < |X| => RadarProject(lib, X[i]))
  }

  /** The lidar loop filling Zsig column by column. */
  method ProjectLidar(X: seq<Vector>) returns (Z: seq<Vector>)
    requires AllLen(X, NX)
    ensures Z == LidarSigma(X)
    ensures forall i :: 0 <= i < |X| ==> Z[i] == X[i][..NZLidar]
  {
    Z := [];
    var i := 0;
    while i != |X|
      invariant 0 <= i <= |X|
      invariant Z == LidarSigma(X)[..i]
    {
      Z := Z + [LidarProject(X[i])];
      i := i + 1;
    }
  }

  /** The radar loop filling Zsig column by column. */
  method ProjectRadar(lib: Library, X: seq<Vector>) returns (Z: seq<Vector>)
    requires AllLen(X, NX)
    ensures Z == RadarSigma(lib, X)
  {
    Z := [];
    var i := 0;
    while i != |X|
      invariant 0 <= i <= |X|
      invariant Z == RadarSigma(lib, X)[..i]
    {
      Z := Z + [RadarProject(lib, X[i])];
      i := i + 1;
    }
  }

  /** R for lidar: the two position variances on the diagonal. */
  function LidarNoise(stdLaspx: real, stdLaspy: real): (R: Matrix)
    ensures IsMat(R, NZLidar, NZLidar) && Symmetric(R)
  {
    [[stdLaspx * stdLaspx, 0.0],
     [0.0, stdLaspy * stdLaspy]]
  }

  /** R for radar: range, bearing and range-rate variances on the diagonal. */
  function RadarNoise(stdRadr: real, stdRadphi: real, stdRadrd: real): (R: Matrix)
    ensures IsMat(R, NZRadar, NZRadar) && Symmetric(R)
  {
    [[stdRadr * stdRadr, 0.0, 0.0],
     [0.0, stdRadphi * stdRadphi, 0.0],
     [0.0, 0.0, stdRadrd * stdRadrd]]
  }

  /** The predicted lidar measurement is the position part of the weighted mean
      of the predicted sigma points. */
  lemma LidarMeanIsPosition(X: seq<Vector>, w: seq<real>)
    requires AllLen(X, NX) && |w| == |X|
    ensures WeightedMean(LidarSigma(X), w, NZLidar) == WeightedMean(X, w, NX)[..NZLidar]
  {
    var Z := LidarSigma(X);
    forall j | 0 <= j < NZLidar
      ensures Component(Z, j) == Component(X, j)
    {
    }
  }
}
