/** Gradient descent with Adadelta step sizes
    (`adadelta_gradient_descent_optimization` in optimization_methods.py).

    The run is specified by `Run`, which iterates `Step` over an abstract
    `State` and stops on the first of three exits; the method `Optimize`
    is the source's loop over arrays and lists, proved to compute what
    `Run` and `End` describe. */
module Adadelta {
  import opened Vectors
  import opened FiniteDifference
  import opened Selection

  /** One `[min, max]` pair of `bounds`. */
  datatype Bound = Bound(lo: real, hi: real)

  /** Which of the three returns of the loop ended the run. */
  datatype Exit = BoundReached | Converged | BudgetExhausted

  /** numpy's `sqrt` is foreign: all the model relies on is that it is
      nonnegative on nonnegative input. */
  ghost predicate SqrtNonnegative(sqrt: real -> real)
  {
    forall x :: x >= 0.0 ==> sqrt(x) >= 0.0
  }

  /** The fixed inputs of a run; `threshold` is `valued_percentage` already
      divided by 100. */
  datatype Params = Params(objective: Objective, sqrt: real -> real, desired: real,
                           bounds: seq<Bound>, delta: real, rho: real, epsilon: real,
                           threshold: real)

  ghost predicate ValidParams(p: Params)
  {
    p.desired != 0.0 && p.delta != 0.0 && p.epsilon > 0.0 &&
    0.0 <= p.rho <= 1.0 && SqrtNonnegative(p.sqrt)
  }

  /** The loop's variables: the current point, the two per-dimension running
      averages, and the trajectory and evaluations recorded so far. */
  datatype State = State(solution: seq<real>, sqGradAvg: seq<real>, sqParamAvg: seq<real>,
                         solutions: seq<seq<real>>, evaluations: seq<real>)

  /** The invariant every state of a run keeps: one entry per dimension in
      the point and the averages, nonnegative averages, and a trajectory as
      long as its list of evaluations. */
  predicate ValidState(p: Params, st: State)
  {
    var n := |p.bounds|;
    |st.solution| == n && |st.sqGradAvg| == n && |st.sqParamAvg| == n &&
    (forall i :: 0 <= i < n ==> st.sqGradAvg[i] >= 0.0 && st.sqParamAvg[i] >= 0.0) &&
    |st.solutions| == |st.evaluations| &&
    (forall j :: 0 <= j < |st.solutions| ==> |st.solutions[j]| == n)
  }

  /** The state before the first iteration (lines 101-104): the initial
      point, both averages 0 in every dimension, nothing recorded. It already
      satisfies the invariant every later state keeps. */
  function Init(p: Params, initial: seq<real>): (st: State)
    requires |initial| == |p.bounds|
    ensures ValidState(p, st)
    ensures st.solution == initial && st.solutions == [] && st.evaluations == []
    ensures forall i :: 0 <= i < |p.bounds| ==> st.sqGradAvg[i] == 0.0 && st.sqParamAvg[i] == 0.0
  {
    State(initial, Zeros(|p.bounds|), Zeros(|p.bounds|), [], [])
  }

  /** A point is inside when no coordinate is above its max or below its min. */
  predicate InBounds(x: seq<real>, bounds: seq<Bound>)
    requires |x| == |bounds|
  {
    forall b :: 0 <= b < |bounds| ==> bounds[b].lo <= x[b] <= bounds[b].hi
  }

  /** The update of a decaying average of squares: `avg*rho + x**2*(1-rho)`.
      For a decay in [0, 1] it is a weighted mean of the old average and
      x squared, so it lies between the two (DecayBetween). */
  function Decay(rho: real, avg: real, x: real): real
  {
    avg * rho + x * x * (1.0 - rho)
  }

  lemma DecayBetween(rho: real, avg: real, x: real)
    requires 0.0 <= rho <= 1.0
    ensures Min(avg, x * x) <= Decay(rho, avg, x) <= Max(avg, x * x)
  {
    var d := x * x - avg;
    assert Decay(rho, avg, x) == avg + (1.0 - rho) * d;
    assert (1.0 - rho) * d == d - rho * d;
    if d >= 0.0 {
      assert rho * d >= 0.0 && (1.0 - rho) * d >= 0.0;
    } else {
      assert rho * d <= 0.0 && (1.0 - rho) * d <= 0.0;
    }
  }

  function Min(a: real, b: real): real { if a <= b then a else b }
  function Max(a: real, b: real): real { if a <= b then b else a }

  /** The decaying-average update applied to every dimension at once. With
      a decay in [0, 1] it keeps nonnegative averages nonnegative. */
  function DecayAll(rho: real, avg: seq<real>, xs: seq<real>): (r: seq<real>)
    requires |avg| == |xs|
    ensures |r| == |avg|
    ensures 0.0 <= rho <= 1.0 && (forall i :: 0 <= i < |avg| ==> avg[i] >= 0.0) ==>
              forall i :: 0 <= i < |r| ==> r[i] >= 0.0
  {
    var r := seq(|avg|, i requires 0 <= i < |avg| => Decay(rho, avg[i], xs[i]));
    assert 0.0 <= rho <= 1.0 ==> forall i :: 0 <= i < |avg| ==> Min(avg[i], xs[i] * xs[i]) <= r[i] by {
      if 0.0 <= rho <= 1.0 {
        forall i | 0 <= i < |avg| ensures Min(avg[i], xs[i] * xs[i]) <= r[i] {
          DecayBetween(rho, avg[i], xs[i]);
        }
      }
    }
    r
  }

  /** The per-dimension step size `alpha`; epsilon keeps it defined and
      strictly positive. */
  function Alpha(epsilon: real, sqrt: real -> real, sqParamAvg: real, sqGradAvg: real): (a: real)
    requires epsilon > 0.0 && SqrtNonnegative(sqrt) && sqParamAvg >= 0.0 && sqGradAvg >= 0.0
    ensures a > 0.0
  {
    (epsilon + sqrt(sqParamAvg)) / (epsilon + sqrt(sqGradAvg))
  }

  /** The per-dimension `change = alpha * gradient[i]`: since alpha is
      positive, each change has the sign of its gradient entry. */
  function Changes(epsilon: real, sqrt: real -> real, sqParamAvg: seq<real>, sqGradAvg: seq<real>,
                   gradient: seq<real>): (c: seq<real>)
    requires epsilon > 0.0 && SqrtNonnegative(sqrt)
    requires |sqParamAvg| == |sqGradAvg| == |gradient|
    requires forall i :: 0 <= i < |gradient| ==> sqParamAvg[i] >= 0.0 && sqGradAvg[i] >= 0.0
    ensures |c| == |gradient|
    ensures forall i :: 0 <= i < |c| ==>
              (c[i] > 0.0 <==> gradient[i] > 0.0) && (c[i] < 0.0 <==> gradient[i] < 0.0)
  {
    var c := seq(|gradient|, i requires 0 <= i < |gradient| =>
                               Alpha(epsilon, sqrt, sqParamAvg[i], sqGradAvg[i]) * gradient[i]);
    assert forall i :: 0 <= i < |c| ==>
             (c[i] > 0.0 <==> gradient[i] > 0.0) && (c[i] < 0.0 <==> gradient[i] < 0.0) by {
      forall i | 0 <= i < |c|
        ensures (c[i] > 0.0 <==> gradient[i] > 0.0) && (c[i] < 0.0 <==> gradient[i] < 0.0)
      {
        var a := Alpha(epsilon, sqrt, sqParamAvg[i], sqGradAvg[i]);
        if gradient[i] > 0.0 {
          assert a * gradient[i] > 0.0;
        } else if gradient[i] < 0.0 {
          assert a * gradient[i] < 0.0;
        }
      }
    }
    c
  }

  /** One iteration of the loop body up to the exit checks: estimate the
      gradient, update the squared-gradient average, move every coordinate
      against its gradient by `alpha`, update the squared-step average, and
      record the new point with its "true" evaluation. */
  function Step(p: Params, st: State): (next: State)
    requires ValidParams(p) && ValidState(p, st)
    ensures ValidState(p, next)
    ensures next.solutions == st.solutions + [next.solution]
    ensures |next.evaluations| == |st.evaluations| + 1
    ensures next.evaluations[..|st.evaluations|] == st.evaluations
    ensures next.evaluations[|st.evaluations|] == p.objective(next.solution, p.desired, TrueMode)
  {
    var g := Gradient(p.objective, st.solution, p.desired, p.delta);
    var sg := DecayAll(p.rho, st.sqGradAvg, g);
    var change := Changes(p.epsilon, p.sqrt, st.sqParamAvg, sg, g);
    var sp := DecayAll(p.rho, st.sqParamAvg, change);
    var x := Sub(st.solution, change);
    State(x, sg, sp, st.solutions + [x], st.evaluations + [p.objective(x, p.desired, TrueMode)])
  }

  /** Every coordinate moves against its gradient entry by a strictly
      positive multiple of it: down exactly when the entry is positive, up
      exactly when it is negative, and not at all when it is 0. */
  lemma StepAgainstGradient(p: Params, st: State, i: nat)
    requires ValidParams(p) && ValidState(p, st) && i < |st.solution|
    ensures var g := Gradient(p.objective, st.solution, p.desired, p.delta);
            var next := Step(p, st);
            next.solution[i] == st.solution[i] - Alpha(p.epsilon, p.sqrt, st.sqParamAvg[i], next.sqGradAvg[i]) * g[i] &&
            (next.solution[i] < st.solution[i] <==> g[i] > 0.0) &&
            (next.solution[i] > st.solution[i] <==> g[i] < 0.0) &&
            (next.solution[i] == st.solution[i] <==> g[i] == 0.0)
  {
    var g := Gradient(p.objective, st.solution, p.desired, p.delta);
    var next := Step(p, st);
    var change := Changes(p.epsilon, p.sqrt, st.sqParamAvg, next.sqGradAvg, g);
    assert next.solution[i] == st.solution[i] - change[i];
  }

  /** The two early returns after a point is recorded, in the source's
      order: out of bounds first, then accurate enough; `BudgetExhausted`
      means neither fired and the loop goes on. */
  function Verdict(p: Params, x: seq<real>, evaluation: real): (v: Exit)
    requires ValidParams(p) && |x| == |p.bounds|
    ensures v == BoundReached <==> !InBounds(x, p.bounds)
    ensures v == Converged <==> InBounds(x, p.bounds) && PercentError(evaluation, p.desired) <= p.threshold
    ensures v == BudgetExhausted <==> InBounds(x, p.bounds) && PercentError(evaluation, p.desired) > p.threshold
  {
    if !InBounds(x, p.bounds) then BoundReached
    else if PercentError(evaluation, p.desired) <= p.threshold then Converged
    else BudgetExhausted
  }

  /** How a run ended and the state it ended in. */
  datatype Finish = Finish(state: State, exit: Exit)

  /** The loop `for iteration in range(budget)`: after each step, return if
      the new point is out of bounds, then if its relative error is at most
      the threshold; return when the budget runs out. */
  function Run(p: Params, st: State, budget: nat): (f: Finish)
    requires ValidParams(p) && ValidState(p, st)
    ensures |f.state.solutions| == |f.state.evaluations|
    ensures budget == 0 ==> f == Finish(st, BudgetExhausted)
    decreases budget
  {
    if budget == 0 then Finish(st, BudgetExhausted)
    else
      var next := Step(p, st);
      var verdict := Verdict(p, next.solution, next.evaluations[|next.evaluations| - 1]);
      if verdict != BudgetExhausted then Finish(next, verdict)
      else Run(p, next, budget - 1)
  }

  /** A run keeps the state invariant and only appends to the history:
      each iteration records exactly one point, so the history grows by at
      least one (when the budget allows any iteration) and by at most the
      budget, and by exactly the budget when the budget is what ended it. */
  lemma {:induction false} RunHistory(p: Params, st: State, budget: nat)
    requires ValidParams(p) && ValidState(p, st)
    decreases budget
    ensures var f := Run(p, st, budget);
            ValidState(p, f.state) &&
            (budget > 0 ==> |st.evaluations| < |f.state.evaluations| <= |st.evaluations| + budget) &&
            f.state.solutions[..|st.solutions|] == st.solutions &&
            f.state.evaluations[..|st.evaluations|] == st.evaluations &&
            (f.exit == BudgetExhausted ==> |f.state.evaluations| == |st.evaluations| + budget)
  {
    if budget > 0 {
      var next := Step(p, st);
      if Verdict(p, next.solution, next.evaluations[|next.evaluations| - 1]) == BudgetExhausted {
        RunHistory(p, next, budget - 1);
        var f := Run(p, next, budget - 1);
        assert f.state.solutions[..|st.solutions|] == f.state.solutions[..|next.solutions|][..|st.solutions|];
        assert f.state.evaluations[..|st.evaluations|] == f.state.evaluations[..|next.evaluations|][..|st.evaluations|];
      }
    }
  }

  /** A run that does not stop at its first step is the run from the
      stepped state with one iteration fewer. */
  lemma RunGoesOn(p: Params, st: State, budget: nat)
    requires ValidParams(p) && ValidState(p, st) && budget > 0
    requires var next := Step(p, st);
             Verdict(p, next.solution, next.evaluations[|st.evaluations|]) == BudgetExhausted
    ensures Run(p, st, budget) == Run(p, Step(p, st), budget - 1)
  {
  }

  /** A run leaves every point and evaluation recorded before it in place. */
  lemma RunKeepsRecorded(p: Params, st: State, budget: nat, j: nat)
    requires ValidParams(p) && ValidState(p, st) && j < |st.evaluations|
    ensures var f := Run(p, st, budget);
            j < |f.state.evaluations| == |f.state.solutions| &&
            f.state.solutions[j] == st.solutions[j] && f.state.evaluations[j] == st.evaluations[j]
  {
    RunHistory(p, st, budget);
    var f := Run(p, st, budget);
    assert f.state.solutions[..|st.solutions|][j] == st.solutions[j];
    assert f.state.evaluations[..|st.evaluations|][j] == st.evaluations[j];
  }

  /** Every point a run records before its last one was inside the bounds
      and not yet accurate enough: otherwise the run would have stopped
      there. */
  lemma {:induction false} RunContinuesBeforeLast(p: Params, st: State, budget: nat)
    requires ValidParams(p) && ValidState(p, st)
    decreases budget
    ensures var f := Run(p, st, budget);
            var s, e := f.state.solutions, f.state.evaluations;
            ValidState(p, f.state) &&
            forall j :: |st.evaluations| <= j < |e| - 1 ==> Verdict(p, s[j], e[j]) == BudgetExhausted
  {
    if budget > 0 {
      var next := Step(p, st);
      var m := |st.evaluations|;
      if Verdict(p, next.solution, next.evaluations[m]) == BudgetExhausted {
        RunGoesOn(p, st, budget);
        RunContinuesBeforeLast(p, next, budget - 1);
        RunKeepsRecorded(p, next, budget - 1, m);
      }
    }
  }

  /** Why a run stopped is read off its last recorded point: out of bounds,
      inside and accurate enough, or neither, in which case the budget was
      used up. */
  lemma {:induction false} RunExit(p: Params, st: State, budget: nat)
    requires ValidParams(p) && ValidState(p, st) && budget > 0
    decreases budget
    ensures var f := Run(p, st, budget);
            var last := |f.state.evaluations| - 1;
            ValidState(p, f.state) && |st.evaluations| <= last &&
            f.exit == Verdict(p, f.state.solutions[last], f.state.evaluations[last])
  {
    var next := Step(p, st);
    var m := |st.evaluations|;
    assert next.solutions[m] == next.solution;
    if Verdict(p, next.solution, next.evaluations[m]) == BudgetExhausted {
      RunGoesOn(p, st, budget);
      if budget > 1 {
        RunExit(p, next, budget - 1);
      }
    }
  }

  /** A run from an empty history yields a report exactly when it was
      allowed at least one iteration, and the report holds between one and
      `budget` points. */
  lemma RunReport(p: Params, st: State, budget: nat)
    requires ValidParams(p) && ValidState(p, st) && st.evaluations == []
    ensures var f := Run(p, st, budget);
            var r := End(f.state.solutions, f.state.evaluations, p.desired);
            (r.Ok? <==> budget > 0) &&
            (r.Ok? ==> 1 <= |r.value.solutions| == |r.value.evaluations| <= budget)
  {
    RunHistory(p, st, budget);
  }

  /** Lines 110-111: `square_gradient_avg[i]` overwritten in place with its
      decayed update, for every dimension. */
  method DecayAverages(avg: array<real>, xs: seq<real>, rho: real)
    requires avg.Length == |xs|
    modifies avg
    ensures avg[..] == DecayAll(rho, old(avg[..]), xs)
  {
    for i := 0 to avg.Length
      invariant forall j :: 0 <= j < i ==> avg[j] == Decay(rho, old(avg[j]), xs[j])
      invariant forall j :: i <= j < avg.Length ==> avg[j] == old(avg[j])
    {
      avg[i] := (avg[i] * rho) + ((xs[i] * xs[i]) * (1.0 - rho));
    }
  }

  /** Lines 113-121: for every dimension compute `alpha` and `change`,
      overwrite `square_parameter_avg[i]` in place and append the moved
      coordinate to the new point. */
  method MoveAgainstGradient(solution: seq<real>, gradient: seq<real>, sqGradAvg: array<real>,
                             sqParamAvg: array<real>, rho: real, epsilon: real, sqrt: real -> real)
    returns (newSolution: seq<real>)
    requires |solution| == |gradient| == sqGradAvg.Length == sqParamAvg.Length
    requires sqGradAvg != sqParamAvg
    requires epsilon > 0.0 && 0.0 <= rho <= 1.0 && SqrtNonnegative(sqrt)
    requires forall i :: 0 <= i < |gradient| ==> sqGradAvg[i] >= 0.0 && sqParamAvg[i] >= 0.0
    modifies sqParamAvg
    ensures var change := Changes(epsilon, sqrt, old(sqParamAvg[..]), sqGradAvg[..], gradient);
            newSolution == Sub(solution, change) &&
            sqParamAvg[..] == DecayAll(rho, old(sqParamAvg[..]), change)
  {
    ghost var before := sqParamAvg[..];
    ghost var changes := Changes(epsilon, sqrt, before, sqGradAvg[..], gradient);
    newSolution := [];
    for i := 0 to |solution|
      invariant |newSolution| == i
      invariant forall j :: 0 <= j < i ==> newSolution[j] == solution[j] - changes[j]
      invariant forall j :: 0 <= j < i ==> sqParamAvg[j] == Decay(rho, before[j], changes[j])
      invariant forall j :: i <= j < |solution| ==> sqParamAvg[j] == before[j]
    {
      var alpha := (epsilon + sqrt(sqParamAvg[i])) / (epsilon + sqrt(sqGradAvg[i]));
      var change := alpha * gradient[i];
      assert change == changes[i];
      sqParamAvg[i] := (sqParamAvg[i] * rho) + (change * change * (1.0 - rho));
      newSolution := newSolution + [solution[i] - change];
    }
  }

  /** Lines 108-121, one pass of the loop body up to the evaluation: the
      gradient, both averages updated in place, and the new point. */
  method Advance(p: Params, ghost st: State, solution: seq<real>, sqGradAvg: array<real>, sqParamAvg: array<real>)
    returns (newSolution: seq<real>)
    requires ValidParams(p) && ValidState(p, st)
    requires st.solution == solution && st.sqGradAvg == sqGradAvg[..] && st.sqParamAvg == sqParamAvg[..]
    requires sqGradAvg != sqParamAvg
    modifies sqGradAvg, sqParamAvg
    ensures var next := Step(p, st);
            newSolution == next.solution && sqGradAvg[..] == next.sqGradAvg && sqParamAvg[..] == next.sqParamAvg
  {
    var gradient := Derivative(p.objective, solution, p.desired, p.delta);
    DecayAverages(sqGradAvg, gradient, p.rho);
    newSolution := MoveAgainstGradient(solution, gradient, sqGradAvg, sqParamAvg, p.rho, p.epsilon, p.sqrt);
  }

  /** Lines 127-128: some coordinate is above its max or below its min. */
  method OutOfBounds(x: seq<real>, bounds: seq<Bound>) returns (outside: bool)
    requires |x| == |bounds|
    ensures outside <==> !InBounds(x, bounds)
  {
    for b := 0 to |bounds|
      invariant forall j :: 0 <= j < b ==> bounds[j].lo <= x[j] <= bounds[j].hi
    {
      if x[b] > bounds[b].hi || x[b] < bounds[b].lo {
        return true;
      }
    }
    return false;
  }

  /** Lines 108-143, one pass of the loop body: advance the point, record it
      with its evaluation, and tell whether one of the two early returns
      fires and which. With `remaining` iterations left, stopping means the
      run ends here; going on means the rest of the run is the run from the
      new state with one iteration fewer. */
  method Iterate(p: Params, ghost st: State, ghost remaining: nat, solution: seq<real>,
                 sqGradAvg: array<real>, sqParamAvg: array<real>,
                 solutions: seq<seq<real>>, evaluations: seq<real>)
    returns (newSolution: seq<real>, newSolutions: seq<seq<real>>, newEvaluations: seq<real>,
             stop: bool, exit: Exit)
    requires ValidParams(p) && ValidState(p, st) && remaining > 0
    requires st == State(solution, sqGradAvg[..], sqParamAvg[..], solutions, evaluations)
    requires sqGradAvg != sqParamAvg
    modifies sqGradAvg, sqParamAvg
    ensures Step(p, st) == State(newSolution, sqGradAvg[..], sqParamAvg[..], newSolutions, newEvaluations)
    ensures stop ==> Run(p, st, remaining) == Finish(Step(p, st), exit)
    ensures !stop ==> Run(p, st, remaining) == Run(p, Step(p, st), remaining - 1) && exit == BudgetExhausted
  {
    ghost var next := Step(p, st);
    newSolution := Advance(p, st, solution, sqGradAvg, sqParamAvg);
    var solutionEvaluation := p.objective(newSolution, p.desired, TrueMode);
    newSolutions := solutions + [newSolution];
    newEvaluations := evaluations + [solutionEvaluation];
    var percentageAway := PercentError(solutionEvaluation, p.desired);
    assert next == State(newSolution, sqGradAvg[..], sqParamAvg[..], newSolutions, newEvaluations);
    assert percentageAway == PercentError(next.evaluations[|next.evaluations| - 1], p.desired);

    var outside := OutOfBounds(newSolution, p.bounds);
    if outside {
      return newSolution, newSolutions, newEvaluations, true, BoundReached;
    }
    if percentageAway <= p.threshold {
      return newSolution, newSolutions, newEvaluations, true, Converged;
    }
    return newSolution, newSolutions, newEvaluations, false, BudgetExhausted;
  }

  /** `adadelta_gradient_descent_optimization`. The objective and `sqrt`
      are the caller's; `valuedPercentage` is the number in front of "%" in
      `valued_percentage`. The out-parameter `exit` reports which of the
      three returns was taken. */
  method Optimize(objective: Objective, sqrt: real -> real, initial: seq<real>, desired: real,
                  bounds: seq<Bound>, numInter: nat, delta: real, rho: real, epsilon: real,
                  valuedPercentage: real)
    returns (result: Result<Report, SelectionError>, exit: Exit)
    requires |initial| == |bounds|
    requires desired != 0.0 && delta != 0.0 && epsilon > 0.0 && 0.0 <= rho <= 1.0
    requires SqrtNonnegative(sqrt)
    ensures var p := Params(objective, sqrt, desired, bounds, delta, rho, epsilon, valuedPercentage / 100.0);
            var f := Run(p, Init(p, initial), numInter);
            exit == f.exit && result == End(f.state.solutions, f.state.evaluations, desired)
    ensures result.Ok? <==> numInter > 0
    ensures result.Ok? ==> 1 <= |result.value.solutions| == |result.value.evaluations| <= numInter
  {
    var p := Params(objective, sqrt, desired, bounds, delta, rho, epsilon, valuedPercentage / 100.0);
    var n := |bounds|;
    var solution := initial;
    var solutions: seq<seq<real>> := [];
    var evaluations: seq<real> := [];
    var sqGradAvg := new real[n](_ => 0.0);
    var sqParamAvg := new real[n](_ => 0.0);
    ghost var st := Init(p, initial);
    assert sqGradAvg[..] == Zeros(n) && sqParamAvg[..] == Zeros(n);
    ghost var final := Run(p, st, numInter);
    assert final == Run(Params(objective, sqrt, desired, bounds, delta, rho, epsilon, valuedPercentage / 100.0),
                        Init(Params(objective, sqrt, desired, bounds, delta, rho, epsilon, valuedPercentage / 100.0),
                             initial), numInter);
    RunReport(p, st, numInter);

    exit := BudgetExhausted;
    for iteration := 0 to numInter
      invariant ValidState(p, st)
      invariant st == State(solution, sqGradAvg[..], sqParamAvg[..], solutions, evaluations)
      invariant final == Run(p, st, numInter - iteration)
      invariant exit == BudgetExhausted
    {
      ghost var remaining := numInter - iteration;
      var stop;
      solution, solutions, evaluations, stop, exit :=
        Iterate(p, st, remaining, solution, sqGradAvg, sqParamAvg, solutions, evaluations);
      st := Step(p, st);
      if stop {
        assert final == Finish(st, exit);
        break;
      }
      assert final == Run(p, st, remaining - 1);
    }
    assert final == Finish(st, exit);
    result := End(solutions, evaluations, desired);
  }
}
