/** Angle normalisation as the filter performs it on yaw and bearing residuals:
    subtract 2*pi while the angle exceeds pi, then add 2*pi while it is below -pi. */
module Angles {

  /** The value of M_PI, as a real. */
  const Pi: real := 3.141592653589793

  /** k whole turns. */
  function Turns(k: int): real {
    2.0 * Pi * (k as real)
  }

  /** b is a plus a whole number of turns. */
  ghost predicate SameAngle(a: real, b: real) {
    exists k: int :: b == a + Turns(k)
  }

  /** The first loop: subtract 2*pi while above pi. */
  function WrapDown(a: real): real
    decreases if a > Pi then (a - Pi).Floor + 1 else 0
  {
    if a > Pi then WrapDown(a - 2.0 * Pi) else a
  }

  /** The second loop: add 2*pi while below -pi. */
  function WrapUp(a: real): real
    decreases if a < -Pi then (-Pi - a).Floor + 1 else 0
  {
    if a < -Pi then WrapUp(a + 2.0 * Pi) else a
  }

  /** Both loops, one after the other. */
  function Wrap(a: real): real {
    WrapUp(WrapDown(a))
  }

  /** The in-place normalisation of one residual component. */
  method NormalizeAngle(a: real) returns (r: real)
    ensures r == Wrap(a)
    ensures -Pi <= r <= Pi
    ensures SameAngle(a, r)
  {
    r := a;
    while r > Pi
      invariant WrapDown(r) == WrapDown(a)
      decreases if r > Pi then (r - Pi).Floor + 1 else 0
    {
      r := r - 2.0 * Pi;
    }
    while r < -Pi
      invariant r <= Pi
      invariant WrapUp(r) == Wrap(a)
      decreases if r < -Pi then (-Pi - r).Floor + 1 else 0
    {
      r := r + 2.0 * Pi;
    }
    WrapInRange(a);
    WrapSameAngle(a);
  }

  lemma {:induction false} WrapDownProps(a: real)
    ensures WrapDown(a) <= Pi
    ensures a > Pi ==> WrapDown(a) > -Pi
    ensures a <= Pi ==> WrapDown(a) == a
    decreases if a > Pi then (a - Pi).Floor + 1 else 0
  {
    if a > Pi {
      WrapDownProps(a - 2.0 * Pi);
    }
  }

  lemma {:induction false} WrapUpProps(a: real)
    requires a <= Pi
    ensures -Pi <= WrapUp(a) <= Pi
    decreases if a < -Pi then (-Pi - a).Floor + 1 else 0
  {
    if a < -Pi {
      WrapUpProps(a + 2.0 * Pi);
    }
  }

  /** The normalised angle lies in [-pi, pi]. */
  lemma WrapInRange(a: real)
    ensures -Pi <= Wrap(a) <= Pi
  {
    WrapDownProps(a);
    WrapUpProps(WrapDown(a));
  }

  lemma {:induction false} WrapDownTurns(a: real) returns (k: int)
    ensures WrapDown(a) == a + Turns(k)
    decreases if a > Pi then (a - Pi).Floor + 1 else 0
  {
    if a > Pi {
      var j := WrapDownTurns(a - 2.0 * Pi);
      k := j - 1;
    } else {
      k := 0;
    }
  }

  lemma {:induction false} WrapUpTurns(a: real) returns (k: int)
    ensures WrapUp(a) == a + Turns(k)
    decreases if a < -Pi then (-Pi - a).Floor + 1 else 0
  {
    if a < -Pi {
      var j := WrapUpTurns(a + 2.0 * Pi);
      k := j + 1;
    } else {
      k := 0;
    }
  }

  /** The normalised angle differs from the input by a whole number of turns. */
  lemma WrapSameAngle(a: real)
    ensures SameAngle(a, Wrap(a))
  {
    var j := WrapDownTurns(a);
    var k := WrapUpTurns(WrapDown(a));
    assert Wrap(a) == a + Turns(j + k);
  }

  /** An angle already in [-pi, pi] is left as it is, so normalising twice is normalising once. */
  lemma WrapIdempotent(a: real)
    ensures -Pi <= a <= Pi ==> Wrap(a) == a
    ensures Wrap(Wrap(a)) == Wrap(a)
  {
    WrapInRange(a);
  }
}
