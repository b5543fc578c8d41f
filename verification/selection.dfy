/** The optimizer's closing step: `percent_error` and `end` in
    optimization_methods.py, which pick the best visited point out of the
    finished history. */
module Selection {

  datatype Result<T, E> = Ok(value: T) | Err(error: E)

  /** numpy's `argmin` raises on an empty array: a run of zero iterations
      has no evaluation to choose from. */
  datatype SelectionError = EmptyHistory

  /** The tuple `end` returns: the trajectory, its evaluations, the best
      point, its evaluation and its error from the target in percent. */
  datatype Report = Report(solutions: seq<seq<real>>, evaluations: seq<real>,
                           best: seq<real>, bestEvaluation: real, percentError: real)

  function Abs(x: real): real
  {
    if x < 0.0 then -x else x
  }

  /** `percent_error(actual, theoretical)`: the relative error, as a fraction. */
  function PercentError(actual: real, theoretical: real): (e: real)
    requires theoretical != 0.0
    ensures e >= 0.0
    ensures e == Abs(actual - theoretical) / Abs(theoretical)
    ensures e == 0.0 <==> actual == theoretical
  {
    var q := (actual - theoretical) / theoretical;
    assert q * theoretical == actual - theoretical;
    Abs(q)
  }

  /** A smaller distance from the target is a smaller relative error. */
  lemma PercentErrorMonotone(a: real, b: real, theoretical: real)
    requires theoretical != 0.0
    requires Abs(a - theoretical) <= Abs(b - theoretical)
    ensures PercentError(a, theoretical) <= PercentError(b, theoretical)
  {
    var da, db, t := Abs(a - theoretical), Abs(b - theoretical), Abs(theoretical);
    assert db / t - da / t == (db - da) / t;
  }

  /** `abs(solution_evaluations - desired_value)`. */
  function Deviations(evaluations: seq<real>, desired: real): (d: seq<real>)
  {
    seq(|evaluations|, i requires 0 <= i < |evaluations| => Abs(evaluations[i] - desired))
  }

  /** i is the first index holding the least entry of s. */
  predicate IsFirstArgMin(s: seq<real>, i: int)
  {
    0 <= i < |s| &&
    (forall j :: 0 <= j < |s| ==> s[i] <= s[j]) &&
    (forall j :: 0 <= j < i ==> s[i] < s[j])
  }

  /** numpy's `argmin`: the first index of a least entry. */
  function ArgMin(s: seq<real>): (i: nat)
    requires |s| > 0
    ensures IsFirstArgMin(s, i)
    decreases |s|
  {
    if |s| == 1 then 0
    else
      var k := ArgMin(s[..|s| - 1]);
      if s[|s| - 1] < s[k] then |s| - 1 else k
  }

  /** `end(solutions, solution_evaluations)`: report the first visited point
      whose evaluation lies closest to the desired value. */
  function End(solutions: seq<seq<real>>, evaluations: seq<real>, desired: real): (r: Result<Report, SelectionError>)
    requires |solutions| == |evaluations| && desired != 0.0
    ensures r.Err? <==> evaluations == []
    ensures r.Ok? ==> r.value.solutions == solutions && r.value.evaluations == evaluations
    ensures r.Ok? ==> exists i :: IsFirstArgMin(Deviations(evaluations, desired), i) &&
                                  r.value.best == solutions[i] &&
                                  r.value.bestEvaluation == evaluations[i] &&
                                  r.value.percentError == 100.0 * PercentError(evaluations[i], desired)
    ensures r.Ok? ==> forall j :: 0 <= j < |evaluations| ==>
                        r.value.percentError <= 100.0 * PercentError(evaluations[j], desired)
  {
    if evaluations == [] then Err(EmptyHistory)
    else
      var deviations := Deviations(evaluations, desired);
      var iMin := ArgMin(deviations);
      var percentageError := PercentError(evaluations[iMin], desired) * 100.0;
      assert forall j :: 0 <= j < |evaluations| ==>
        percentageError <= 100.0 * PercentError(evaluations[j], desired) by {
        forall j | 0 <= j < |evaluations|
          ensures percentageError <= 100.0 * PercentError(evaluations[j], desired)
        {
          assert deviations[iMin] <= deviations[j];
          PercentErrorMonotone(evaluations[iMin], evaluations[j], desired);
        }
      }
      Ok(Report(solutions, evaluations, solutions[iMin], evaluations[iMin], percentageError))
  }
}
