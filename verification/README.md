# Adadelta gradient descent of qiskit-metal, modelled in Dafny

This project models the optimizer in
`qiskit_metal/analyses/optimization/optimization_methods.py`:

- `derivative` estimates the gradient of a black-box objective by central finite
  differences. It uses one offset array holding `delta` at index 0, rotated right
  in place after each coordinate.
- `adadelta_gradient_descent_optimization` runs at most `num_inter` iterations.
  Each iteration updates two per-dimension decaying averages in place (squared
  gradients and squared steps) and moves every coordinate against its gradient
  by the Adadelta step size `alpha`. It records the new point and its "true"
  evaluation, then returns:
  - as soon as a coordinate leaves its `[min, max]` bound;
  - otherwise, as soon as the relative error from the desired value is within
    the accepted percentage;
  - otherwise, when the iteration budget runs out.
- The nested `percent_error` and `end` build the result tuple. It holds the
  trajectory, the evaluations, the first point whose evaluation is closest to
  the desired value, that evaluation, and its error in percent.

The model is built in four layers:

- `Vectors` (vectors.dfy): numpy's elementwise `+`/`-` and Python's `sum`, plus
  the one-hot offset vector and its right rotation.
- `FiniteDifference` (finite_difference.dfy): the source's `derivative` as a
  method over an `array<real>` offset. It is proved equal to a reference
  gradient built from a fresh one-hot perturbation per axis.
- `Selection` (selection.dfy): `percent_error`, numpy's first-index `argmin`,
  and `end`, as functions.
- `Adadelta` (adadelta.dfy):
  - the specification: one iteration is the function `Step` over a `State`
    value, and a whole run is the recursive function `Run`, which stops on the
    first of the three exits. `Verdict` gives the source's order of the two
    early returns.
  - the implementation: `Optimize` is the source's loop over two `array<real>`
    averages, lists and early returns. It is proved to compute exactly
    `End` of `Run`, and to report which exit `Run` takes.

Arithmetic is over Dafny's `real`. The objective is a function-valued parameter
called with a `Mode` (`AbsMode` for "abs", `TrueMode` for "true"). numpy's
`sqrt` is also a function-valued parameter. The only thing assumed of it is that
it is nonnegative on nonnegative input (`SqrtNonnegative`).

## Model

| member | source | states |
|---|---|---|
| Vectors.SumOneHot | qiskit_metal/analyses/optimization/optimization_methods.py:27-31 | A vector whose only nonzero entry is `h` sums to `h`, wherever that entry sits, so `2*sum(delta)` is `2*delta` on every pass |
| Vectors.RotateOneHot | qiskit_metal/analyses/optimization/optimization_methods.py:33 | Rotating a one-hot vector right moves its nonzero entry from index k to index (k+1) mod n, so the offset stays one-hot |
| Vectors.RotateRight | qiskit_metal/analyses/optimization/optimization_methods.py:33 | The in-place `delta[:] = ...` leaves the array holding its last entry followed by all the others in order |
| FiniteDifference.Derivative | qiskit_metal/analyses/optimization/optimization_methods.py:10-35 | Returns exactly `len(r)` entries. Entry k is the central difference `(f(r + delta*e_k) - f(r - delta*e_k)) / (2*delta)` along axis k, with the objective in "abs" mode, although the loop reuses one rotating offset array |
| Selection.PercentError | qiskit_metal/analyses/optimization/optimization_methods.py:83-84 | The relative error is nonnegative, equals `|actual - theoretical| / |theoretical|`, and is 0 exactly when `actual == theoretical` |
| Selection.PercentErrorMonotone | qiskit_metal/analyses/optimization/optimization_methods.py:83-84 | An evaluation closer to the target never has a larger relative error |
| Selection.ArgMin | qiskit_metal/analyses/optimization/optimization_methods.py:89 | numpy's `argmin` returns an index of a least entry, and no earlier index holds that least value |
| Selection.End | qiskit_metal/analyses/optimization/optimization_methods.py:86-98 | `Err` exactly when there is no evaluation (argmin of an empty array). Otherwise returns the trajectory and evaluations unchanged, plus the point and evaluation at the first index minimising `abs(eval - desired)`, with `100 * percent_error` at that index. That percentage is at most the percentage of every recorded evaluation |
| Adadelta.DecayBetween | qiskit_metal/analyses/optimization/optimization_methods.py:111-118 | For `0 <= rho <= 1`, the updated average `avg*rho + x**2*(1-rho)` lies between the old average and `x**2` |
| Adadelta.DecayAll | qiskit_metal/analyses/optimization/optimization_methods.py:103-118 | The per-dimension update keeps the length and keeps nonnegative averages nonnegative when `0 <= rho <= 1` |
| Adadelta.Alpha | qiskit_metal/analyses/optimization/optimization_methods.py:116 | With `epsilon > 0` and nonnegative averages, `alpha` is strictly positive |
| Adadelta.Changes | qiskit_metal/analyses/optimization/optimization_methods.py:116-117 | One `change` per dimension. Each is positive exactly when its gradient entry is positive and negative exactly when it is negative |
| Adadelta.Init | qiskit_metal/analyses/optimization/optimization_methods.py:101-104 | The starting state holds the initial point, both averages are 0 in every dimension and both histories are empty. It already satisfies the invariant every later state keeps |
| Adadelta.Step | qiskit_metal/analyses/optimization/optimization_methods.py:108-124 | One iteration keeps the state invariant: dimensions match the bounds, both averages are nonnegative, and the trajectory is as long as the evaluations. It appends exactly the new point and its "true" evaluation and keeps every earlier evaluation |
| Adadelta.StepAgainstGradient | qiskit_metal/analyses/optimization/optimization_methods.py:116-119 | `new[i] = old[i] - alpha*gradient[i]`. The coordinate decreases exactly when its gradient entry is positive, increases exactly when it is negative, and stays put exactly when it is 0 |
| Adadelta.Verdict | qiskit_metal/analyses/optimization/optimization_methods.py:127-143 | The two early returns in the source's order: `BoundReached` exactly when the point is out of bounds, `Converged` exactly when it is inside and its relative error is at most the threshold, and going on exactly when it is inside and above the threshold |
| Adadelta.Run | qiskit_metal/analyses/optimization/optimization_methods.py:106-145 | The run returns a trajectory as long as its evaluations. With no iteration allowed it returns the starting state and the budget exit |
| Adadelta.RunHistory | qiskit_metal/analyses/optimization/optimization_methods.py:121-124 | A run keeps the state invariant and only appends to the trajectory and evaluations. It appends at least one point when the budget allows an iteration and never more than the budget, and exactly the budget when the budget ended it |
| Adadelta.RunKeepsRecorded | qiskit_metal/analyses/optimization/optimization_methods.py:123-124 | Every point and evaluation recorded before a run is still at its index afterwards |
| Adadelta.RunContinuesBeforeLast | qiskit_metal/analyses/optimization/optimization_methods.py:127-143 | Every point a run records before its last one was inside all bounds and had a relative error above the threshold, since otherwise the loop would have returned there |
| Adadelta.RunExit | qiskit_metal/analyses/optimization/optimization_methods.py:125-145 | The exit is decided by the last recorded point, checking bounds first: `BoundReached` iff it is out of bounds, `Converged` iff it is inside and its relative error is at most the threshold, and the budget exit otherwise |
| Adadelta.RunReport | qiskit_metal/analyses/optimization/optimization_methods.py:106-145 | From an empty history, `end` yields a report exactly when `num_inter > 0`. The report then holds between 1 and `num_inter` points and as many evaluations |
| Adadelta.DecayAverages | qiskit_metal/analyses/optimization/optimization_methods.py:110-111 | The in-place loop leaves `square_gradient_avg` holding the decayed update of its old contents, for every dimension |
| Adadelta.MoveAgainstGradient | qiskit_metal/analyses/optimization/optimization_methods.py:113-121 | The new point is the old point minus the per-dimension `change`. `square_parameter_avg` is overwritten in place with the decayed update by those changes |
| Adadelta.Advance | qiskit_metal/analyses/optimization/optimization_methods.py:108-121 | Gradient, both in-place average updates and the new point together produce the point and averages that `Step` specifies |
| Adadelta.OutOfBounds | qiskit_metal/analyses/optimization/optimization_methods.py:127-128 | Reports true exactly when some coordinate is above its max or below its min |
| Adadelta.Iterate | qiskit_metal/analyses/optimization/optimization_methods.py:108-143 | One pass of the loop body produces `Step`'s state. If it returns early, the whole run ends there with that exit. Otherwise the run continues as the run from the new state with one iteration fewer |
| Adadelta.Optimize | qiskit_metal/analyses/optimization/optimization_methods.py:38-145 | Returns `end` applied to the history `Run` specifies and reports the exit `Run` takes. A result exists exactly when `num_inter > 0`, and then holds between 1 and `num_inter` points and as many evaluations |

## Left out

- Printing (the `display` branches, the "Bound Reached" line and the summary line of `end`, lines 93-96, 129 and 132-140) and the `round` calls that only feed them. Printing changes no state. Which return was taken is reported through `Optimize`'s `exit` out-parameter instead.
- Parsing `valued_percentage` from a string such as `"5%"` (line 100). `Optimize` takes the number in front of `%` as the real parameter `valuedPercentage` and divides it by 100 as the source does.
- The optional replacement `derivative` argument (line 38). `Optimize` always uses the finite-difference `Derivative`.
- IEEE floating point: rounding, overflow, NaN and infinities. Arithmetic is over exact reals. The source produces NaN or infinity, or raises, in four cases, so `Optimize` requires their opposites:
  - `desired_value == 0`: `percent_error` divides by 0;
  - `delta == 0`: each central difference divides by 0;
  - `epsilon <= 0`: the denominator of `alpha` can be 0;
  - `rho` outside `[0, 1]`: an average can turn negative and `sqrt` then gives NaN.
- numpy's `sqrt` is a parameter. Its value is not modelled; the only assumption is that it is nonnegative on nonnegative input.
- The user objective is a total function parameter. An objective that raises or does I/O is not modelled.
- Adadelta.Optimize: requires `len(initial_conditions) == len(bounds)`. The mismatched cases are not modelled:
  - with no iteration (`num_inter <= 0`), `argmin` of the empty history fails first (line 89);
  - a point longer than `bounds` raises an IndexError at line 111;
  - a point shorter than `bounds` raises an IndexError at line 128, unless an earlier coordinate leaves its bound first, in which case the source returns a result normally.
- Adadelta.Optimize: `numInter` is a natural number, so a negative `num_inter` is not modelled. `range` of a negative count is empty, so the source then behaves exactly as with 0 and fails at `argmin`.
- `asarray` conversions. Points are sequences of reals and each bound is a `(lo, hi)` pair.
- qiskit_metal/analyses/quantization/black_box.py is not part of this model. Its effective-impedance routine only calls the HFSS renderer and returns `None`, and its algorithm is commented out.
- qiskit_metal/analyses/analysis_constants.py (a table of physical constants) and the quantization test file (no live assertion) are not part of this model.
