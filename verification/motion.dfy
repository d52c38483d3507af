/** The constant-turn-rate-and-velocity (CTRV) process model applied to each
    augmented sigma point: (px, py, v, yaw, yawd, nu_a, nu_yawdd) and a time step
    give the predicted (px, py, v, yaw, yawd). */
module Motion {
  import opened Linalg
  import opened Primitives
  import opened Sigma

  /** Yaw rates whose magnitude is at most this are treated as straight-line motion. */
  const YawRateEpsilon: real := 0.00001

  function Abs(a: real): real {
    if a < 0.0 then -a else a
  }

  /** One column of the propagation: the deterministic CTRV step followed by
      the noise terms. */
  function Ctrv(lib: Library, p: Vector, dt: real): (r: Vector)
    requires |p| == NAug
    ensures |r| == NX
  {
    var px, py, v, yaw, yawd, nuA, nuYawdd := p[0], p[1], p[2], p[3], p[4], p[5], p[6];
    var pxArc := if Abs(yawd) > YawRateEpsilon
                 then px + v * (lib.sin(yaw + yawd * dt) - lib.sin(yaw)) / yawd
                 else px + v * lib.cos(yaw) * dt;
    var pyArc := if Abs(yawd) > YawRateEpsilon
                 then py + v * (-lib.cos(yaw + yawd * dt) + lib.cos(yaw)) / yawd
                 else py + v * lib.sin(yaw) * dt;
    [ pxArc + dt * dt * lib.cos(yaw) * nuA * 0.5,
      pyArc + dt * dt * lib.sin(yaw) * nuA * 0.5,
      v + 0.0 + dt * nuA,
      yaw + yawd * dt + dt * dt * nuYawdd * 0.5,
      yawd + 0.0 + dt * nuYawdd ]
  }

  function PropagateAll(lib: Library, X: seq<Vector>, dt: real): (Y: seq<Vector>)
    requires AllLen(X, NAug)
    ensures |Y| == |X| && AllLen(Y, NX)
  {
    seq(|X|, i requires 0 <= i < |X| => Ctrv(lib, X[i], dt))
  }

  /** The prediction loop: every augmented sigma point is propagated into the
      same column of the predicted sigma points. */
  method PredictSigmaPoints(lib: Library, X: seq<Vector>, dt: real) returns (Y: seq<Vector>)
    requires AllLen(X, NAug)
    ensures Y == PropagateAll(lib, X, dt)
    ensures forall i :: 0 <= i < |X| ==> Y[i] == Ctrv(lib, X[i], dt)
  {
    Y := seq(|X|, i => Zeros(NX));
    var i := 0;
    while i != |X|
      invariant 0 <= i <= |X| && |Y| == |X|
      invariant forall k :: 0 <= k < i ==> Y[k] == Ctrv(lib, X[k], dt)
    {
      Y := Y[i := Ctrv(lib, X[i], dt)];
      i := i + 1;
    }
  }

  /** With a zero time step both branches return the state part of the point unchanged. */
  lemma CtrvZeroStep(lib: Library, p: Vector)
    requires |p| == NAug
    ensures Ctrv(lib, p, 0.0) == p[..NX]
  {
    var yaw, yawd := p[3], p[4];
    assert yaw + yawd * 0.0 == yaw;
    assert lib.sin(yaw + yawd * 0.0) - lib.sin(yaw) == 0.0;
    assert -lib.cos(yaw + yawd * 0.0) + lib.cos(yaw) == 0.0;
    var r := Ctrv(lib, p, 0.0);
    assert r[0] == p[0] && r[1] == p[1];
  }

  /** Speed and yaw rate are a random walk driven by the noise terms, and yaw
      integrates the yaw rate; none of this depends on the yaw-rate branch. */
  lemma CtrvRandomWalk(lib: Library, p: Vector, dt: real)
    requires |p| == NAug
    ensures Ctrv(lib, p, dt)[2] == p[2] + dt * p[5]
    ensures Ctrv(lib, p, dt)[3] == p[3] + p[4] * dt + 0.5 * dt * dt * p[6]
    ensures Ctrv(lib, p, dt)[4] == p[4] + dt * p[6]
  {
  }

  /** Straight-line branch: with no noise and |yawd| <= 1e-5 the position moves by
      v * dt along the heading. */
  lemma CtrvStraightLine(lib: Library, p: Vector, dt: real)
    requires |p| == NAug && Abs(p[4]) <= YawRateEpsilon && p[5] == 0.0
    ensures Ctrv(lib, p, dt)[0] == p[0] + p[2] * dt * lib.cos(p[3])
    ensures Ctrv(lib, p, dt)[1] == p[1] + p[2] * dt * lib.sin(p[3])
  {
  }

  /** Propagating a whole sigma-point set by a zero step keeps the state part of every column. */
  lemma PropagateZeroStep(lib: Library, X: seq<Vector>)
    requires AllLen(X, NAug)
    ensures forall i :: 0 <= i < |X| ==> PropagateAll(lib, X, 0.0)[i] == X[i][..NX]
  {
    forall i | 0 <= i < |X|
      ensures PropagateAll(lib, X, 0.0)[i] == X[i][..NX]
    {
      CtrvZeroStep(lib, X[i]);
    }
  }
}
