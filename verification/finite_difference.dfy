/** Numerical differentiation by central finite differences
    (`derivative` in optimization_methods.py). */
module FiniteDifference {
  import opened Vectors

  /** The evaluation mode the optimizer asks of the objective: "abs" while
      estimating the gradient, "true" when scoring a candidate. */
  datatype Mode = AbsMode | TrueMode

  /** The user's black-box objective `objective(point, desired_value, mode)`. */
  type Objective = (seq<real>, real, Mode) -> real

  /** The reference definition: the central difference along axis k, with a
      perturbation vector built afresh for that axis. */
  function CentralDifference(objective: Objective, r: seq<real>, desired: real, delta: real, k: nat): real
    requires k < |r| && delta != 0.0
  {
    var step := OneHot(|r|, k, delta);
    (objective(Add(r, step), desired, AbsMode) - objective(Sub(r, step), desired, AbsMode)) / (2.0 * delta)
  }

  /** One central difference per coordinate of r. */
  function Gradient(objective: Objective, r: seq<real>, desired: real, delta: real): (g: seq<real>)
    requires delta != 0.0
  {
    seq(|r|, k requires 0 <= k < |r| => CentralDifference(objective, r, desired, delta, k))
  }

  /** The source's routine: one offset array, holding delta at index 0 and
      0 elsewhere, rotated right in place after each coordinate, and each
      difference divided by twice the offset's sum. */
  method Derivative(objective: Objective, r: seq<real>, desired: real, delta: real) returns (gradient: seq<real>)
    requires delta != 0.0
    ensures |gradient| == |r|
    ensures gradient == Gradient(objective, r, desired, delta)
  {
    var n := if |r| == 0 then 1 else |r|;
    var offset := new real[n](i => if i == 0 then delta else 0.0);
    assert offset[..] == OneHot(n, 0, delta);
    gradient := [];
    while |gradient| < |r|
      invariant |gradient| <= |r|
      invariant offset.Length == n
      invariant offset[..] == OneHot(n, |gradient| % n, delta)
      invariant forall j :: 0 <= j < |gradient| ==> gradient[j] == CentralDifference(objective, r, desired, delta, j)
    {
      var k := |gradient|;
      assert k % n == k;
      assert offset[..] == OneHot(|r|, k, delta);
      SumOneHot(n, k, delta);
      var fprime := (objective(Add(r, offset[..]), desired, AbsMode) - objective(Sub(r, offset[..]), desired, AbsMode))
                    / (2.0 * Sum(offset[..]));
      assert fprime == CentralDifference(objective, r, desired, delta, k);
      gradient := gradient + [fprime];
      RotateRight(offset);
      RotateOneHot(n, k, delta);
    }
    assert |gradient| == |r|;
  }
}
