/** The secant solver (`SecantMethod` in Phase_2/Secant.py): each step
    replaces the oldest of two estimates by the zero of the line through
    them, with optional rounding to significant figures. */
module Secant {
  import opened Common

  const Converged := "Method converged successfully."
  const NotConverged := "Method did not converge within the maximum number of iterations."
  const DivisionByZero := "float division by zero"
  const UnboundIteration := "local variable 'iteration' referenced before assignment"

  /** The fixed state of a `SecantMethod`: the function, the two starting
      estimates, the error bound, the number of significant figures (-1 for
      no rounding), the iteration budget, and the float formatting
      `float(f'{x:.{n}g}')` the rounding relies on. */
  datatype SecantMethod = SecantMethod(
    func: real -> real, x0: real, x1: real, maxError: real, sigFigs: int, maxIterations: int,
    format: (real, int) -> real)

  /** The error of a step: not yet computed, infinite (the new estimate is
      0), or a finite number. */
  datatype StepError = NoError | Infinite | Finite(value: real)

  /** The dictionary `get_root` returns, without its timing entry. */
  datatype Report = Report(status: string, root: real, error: StepError, iteration: int)

  /** `round_significant_figures(x, sig_figs)`. */
  function RoundSignificantFigures(m: SecantMethod, x: real): (r: real)
    ensures m.sigFigs == -1 ==> r == x
    ensures x == 0.0 ==> r == 0.0
  {
    if m.sigFigs == -1 || x == 0.0 then x else m.format(x, m.sigFigs)
  }

  /** The quotient step of `__next__`; split out so that the rounded and the
      unrounded forms share it. */
  function SecantPoint(x0: real, numerator: real, denominator: real): (r: real)
    requires denominator != 0.0
    ensures (r - x0) * denominator == -numerator
  {
    x0 - numerator / denominator
  }

  /** `__next__(x0, x1)`: the next estimate, or the ZeroDivisionError raised
      when rounding makes the denominator 0. */
  function Next(m: SecantMethod, x0: real, x1: real): (r: Result<real>)
    ensures r.Failure? ==> r.message == DivisionByZero
    ensures var f0 := RoundSignificantFigures(m, m.func(x0));
      var f1 := RoundSignificantFigures(m, m.func(x1));
      r.Failure? <==> m.sigFigs != -1 && f0 != f1 && RoundSignificantFigures(m, f1 - f0) == 0.0
  {
    var f0 := RoundSignificantFigures(m, m.func(x0));
    var f1 := RoundSignificantFigures(m, m.func(x1));
    if f0 == f1 then Success(x1)
    else
      var numerator := if m.sigFigs != -1 then RoundSignificantFigures(m, (x1 - x0) * f0) else (x1 - x0) * f0;
      var denominator := if m.sigFigs != -1 then RoundSignificantFigures(m, f1 - f0) else f1 - f0;
      if denominator == 0.0 then Failure(DivisionByZero)
      else Success(RoundSignificantFigures(m, SecantPoint(x0, numerator, denominator)))
  }

  /** The error of a step from x1 to xNew. */
  function ErrorOf(xNew: real, x1: real): StepError
  {
    if xNew != 0.0 then Finite(Abs((xNew - x1) / xNew)) else Infinite
  }

  /** The test `error <= max_error`; infinity passes no finite bound. */
  predicate Meets(error: StepError, maxError: real)
  {
    error.Finite? && error.value <= maxError
  }

  /** The `for iteration in range(1, max_iterations + 1)` loop from iteration
      i on, with (x0, x1) the current estimates and `error` the last error;
      the report it leads to, or the exception a step raises. */
  function Loop(m: SecantMethod, x0: real, x1: real, error: StepError, i: int): Result<Report>
    decreases m.maxIterations + 1 - i
  {
    if i > m.maxIterations then Success(Report(NotConverged, x1, error, i - 1))
    else
      match Next(m, x0, x1)
      case Failure(msg) => Failure(msg)
      case Success(xNew) =>
        var e := ErrorOf(xNew, x1);
        if Meets(e, m.maxError) then Success(Report(Converged, xNew, e, i))
        else Loop(m, x1, xNew, e, i + 1)
  }

  /** What `get_root()` returns or raises. With fewer than one iteration the
      loop variable is never bound and building the report raises. */
  function GetRootSpec(m: SecantMethod): Result<Report>
  {
    var r := Loop(m, m.x0, m.x1, NoError, 1);
    if m.maxIterations < 1 then Failure(UnboundIteration) else r
  }

  /** `get_root()`. */
  method GetRoot(m: SecantMethod) returns (r: Result<Report>)
    ensures r == GetRootSpec(m)
  {
    var x0, x1 := m.x0, m.x1;
    var converged := false;
    var error := NoError;
    var iteration := 1;
    ghost var whole := Loop(m, x0, x1, error, iteration);
    while iteration <= m.maxIterations
      invariant Loop(m, x0, x1, error, iteration) == whole
      invariant !converged
      decreases m.maxIterations + 1 - iteration
    {
      var xNew := Next(m, x0, x1);
      if xNew.Failure? {
        return Failure(xNew.message);
      }
      error := ErrorOf(xNew.value, x1);
      x0, x1 := x1, xNew.value;
      if Meets(error, m.maxError) {
        converged := true;
        break;
      }
      iteration := iteration + 1;
    }
    if m.maxIterations < 1 {
      return Failure(UnboundIteration);
    }
    if !converged {
      iteration := iteration - 1;
    }
    r := Success(Report(if converged then Converged else NotConverged, x1, error, iteration));
  }

  // ---------------------------------------------------------------------------
  // Properties

  /** Where the rounded values of f at the two estimates are equal, the step
      returns the newer estimate unchanged. */
  lemma NextFlat(m: SecantMethod, x0: real, x1: real)
    requires RoundSignificantFigures(m, m.func(x0)) == RoundSignificantFigures(m, m.func(x1))
    ensures Next(m, x0, x1) == Success(x1)
  {
  }

  /** Without rounding, a step never raises, and its result is where the line
      through (x0, f(x0)) and (x1, f(x1)) crosses zero:
      f(x0) * (x1 - x0) + (r - x0) * (f(x1) - f(x0)) == 0. */
  lemma NextUnrounded(m: SecantMethod, x0: real, x1: real)
    requires m.sigFigs == -1
    requires m.func(x0) != m.func(x1)
    ensures Next(m, x0, x1).Success?
    ensures var r := Next(m, x0, x1).value;
      m.func(x0) * (x1 - x0) + (r - x0) * (m.func(x1) - m.func(x0)) == 0.0
  {
    var f0, f1 := m.func(x0), m.func(x1);
    var d := f1 - f0;
    var q := (x1 - x0) * f0 / d;
    assert q * d == (x1 - x0) * f0;
    var r := Next(m, x0, x1).value;
    assert r == x0 - q;
    assert (r - x0) * d == -(q * d);
  }

  /** The error is infinite exactly when the new estimate is 0; otherwise it
      is the non-negative e with e * |xNew| == |xNew - x1|. */
  lemma ErrorMeaning(xNew: real, x1: real)
    ensures ErrorOf(xNew, x1) == Infinite <==> xNew == 0.0
    ensures xNew != 0.0 ==>
      var e := ErrorOf(xNew, x1).value;
      e >= 0.0 && e * Abs(xNew) == Abs(xNew - x1)
  {
    if xNew != 0.0 {
      var q := (xNew - x1) / xNew;
      assert q * xNew == xNew - x1;
      AbsMul(q, xNew);
    }
  }

  /** The estimates after n steps from (x0, x1), or the exception a step
      raised on the way. */
  function Estimates(m: SecantMethod, x0: real, x1: real, n: nat): Result<(real, real)>
    decreases n
  {
    if n == 0 then Success((x0, x1))
    else
      match Next(m, x0, x1)
      case Failure(msg) => Failure(msg)
      case Success(xNew) => Estimates(m, x1, xNew, n - 1)
  }

  /** A report of the loop entered at iteration i (within the budget): its
      iteration lies between i and max_iterations; it says "converged"
      exactly when its error meets the bound, and otherwise the budget is
      spent. */
  lemma {:induction false} LoopStatus(m: SecantMethod, x0: real, x1: real, error: StepError, i: int)
    requires 1 <= i <= m.maxIterations
    ensures var r := Loop(m, x0, x1, error, i);
      r.Success? ==>
        && i <= r.value.iteration <= m.maxIterations
        && (r.value.status == Converged <==> Meets(r.value.error, m.maxError))
        && (r.value.status == Converged || r.value.status == NotConverged)
        && (r.value.status == NotConverged ==> r.value.iteration == m.maxIterations)
    decreases m.maxIterations + 1 - i
  {
    if Next(m, x0, x1).Success? {
      var xNew := Next(m, x0, x1).value;
      var e := ErrorOf(xNew, x1);
      if !Meets(e, m.maxError) && i < m.maxIterations {
        LoopStatus(m, x1, xNew, e, i + 1);
      }
    }
  }

  /** The root of a report of the loop entered at iteration i is the newest
      estimate after the reported number of steps, and its error is that of
      the last of those steps. */
  lemma {:induction false} LoopRoot(m: SecantMethod, x0: real, x1: real, error: StepError, i: int)
    requires 1 <= i <= m.maxIterations
    ensures var r := Loop(m, x0, x1, error, i);
      r.Success? ==>
        && i <= r.value.iteration
        && var n := r.value.iteration - i + 1;
        && Estimates(m, x0, x1, n - 1).Success?
        && Estimates(m, x0, x1, n).Success?
        && Estimates(m, x0, x1, n).value.1 == r.value.root
        && r.value.error == ErrorOf(r.value.root, Estimates(m, x0, x1, n - 1).value.1)
    decreases m.maxIterations + 1 - i
  {
    var r := Loop(m, x0, x1, error, i);
    if r.Success? {
      var xNew := Next(m, x0, x1).value;
      var e := ErrorOf(xNew, x1);
      if !Meets(e, m.maxError) && i < m.maxIterations {
        LoopRoot(m, x1, xNew, e, i + 1);
        var n := r.value.iteration - i + 1;
        assert Estimates(m, x0, x1, n) == Estimates(m, x1, xNew, n - 1);
        assert Estimates(m, x0, x1, n - 1) == Estimates(m, x1, xNew, n - 2);
      } else {
        assert Estimates(m, x0, x1, 1) == Estimates(m, x1, xNew, 0);
      }
    }
  }

  /** Whether the k-th step from (x0, x1) is made and its error meets the bound. */
  predicate MeetsAt(m: SecantMethod, x0: real, x1: real, k: nat)
  {
    && k >= 1
    && Estimates(m, x0, x1, k - 1).Success?
    && Estimates(m, x0, x1, k).Success?
    && Meets(ErrorOf(Estimates(m, x0, x1, k).value.1, Estimates(m, x0, x1, k - 1).value.1), m.maxError)
  }

  /** Steps from (x0, x1) after the first are the steps from the first
      step's estimates. */
  lemma ShiftMeetsAt(m: SecantMethod, x0: real, x1: real, xNew: real, k: nat)
    requires Next(m, x0, x1) == Success(xNew) && k >= 2
    ensures Estimates(m, x0, x1, k) == Estimates(m, x1, xNew, k - 1)
    ensures MeetsAt(m, x0, x1, k) == MeetsAt(m, x1, xNew, k - 1)
  {
    assert Estimates(m, x0, x1, k - 1) == Estimates(m, x1, xNew, k - 2);
  }

  /** No step before the one a report of the loop stops at met the bound. */
  lemma {:induction false} LoopNoEarlierStop(m: SecantMethod, x0: real, x1: real, error: StepError, i: int)
    requires 1 <= i <= m.maxIterations
    ensures var r := Loop(m, x0, x1, error, i);
      r.Success? ==>
        forall k: nat :: 1 <= k < r.value.iteration - i + 1 ==>
          Estimates(m, x0, x1, k).Success? && !MeetsAt(m, x0, x1, k)
    decreases m.maxIterations + 1 - i
  {
    var r := Loop(m, x0, x1, error, i);
    if r.Success? {
      var xNew := Next(m, x0, x1).value;
      var e := ErrorOf(xNew, x1);
      if !Meets(e, m.maxError) && i < m.maxIterations {
        LoopNoEarlierStop(m, x1, xNew, e, i + 1);
        forall k: nat | 1 <= k < r.value.iteration - i + 1
          ensures Estimates(m, x0, x1, k).Success? && !MeetsAt(m, x0, x1, k)
        {
          if k == 1 {
            assert Estimates(m, x0, x1, 1) == Estimates(m, x1, xNew, 0);
          } else {
            ShiftMeetsAt(m, x0, x1, xNew, k);
          }
        }
      }
    }
  }

  /** `get_root()` with a budget of at least one iteration: its report's
      iteration is at most max_iterations, its root is the newest estimate,
      it says "converged" exactly when the last error met the bound, and no
      earlier step's error did. */
  lemma GetRootReport(m: SecantMethod)
    requires m.maxIterations >= 1
    ensures var r := GetRootSpec(m);
      r.Success? ==>
        var rep := r.value;
        && 1 <= rep.iteration <= m.maxIterations
        && Estimates(m, m.x0, m.x1, rep.iteration).Success?
        && Estimates(m, m.x0, m.x1, rep.iteration).value.1 == rep.root
        && (rep.status == Converged <==> Meets(rep.error, m.maxError))
        && (rep.status == NotConverged ==> rep.iteration == m.maxIterations)
        && (forall k: nat :: 1 <= k < rep.iteration ==> !MeetsAt(m, m.x0, m.x1, k))
  {
    LoopStatus(m, m.x0, m.x1, NoError, 1);
    LoopRoot(m, m.x0, m.x1, NoError, 1);
    LoopNoEarlierStop(m, m.x0, m.x1, NoError, 1);
  }
}
