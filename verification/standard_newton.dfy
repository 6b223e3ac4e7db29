/** The standard Newton-Raphson solver (`StandardNewton` in
    Phase_2/standard_newton.py): x_{i+1} = x_i - f(x_i) / f'(x_i), every
    value rounded to the configured precision. */
module StandardNewton {
  import opened Common

  /** A `StandardNewton`: the function, its derivative, and rounding to the
      configured number of significant digits (`N(·, precision)`). */
  datatype Newton = Newton(f: real -> real, df: real -> real, round: real -> real)

  /** One record of `iter_steps`. Absent errors are None. */
  datatype NewtonRecord = NewtonRecord(
    iteration: int, xi: real, xNext: real, fx: real, dfx: real,
    absoluteError: Option<real>, relativeError: Option<real>)

  function Fx(nw: Newton, x: real): real { nw.round(nw.f(x)) }
  function Dfx(nw: Newton, x: real): real { nw.round(nw.df(x)) }

  /** The unrounded Newton step from x, with f(x) and f'(x) given. */
  function NewtonStep(x: real, fx: real, dfx: real): real
    requires dfx != 0.0
  {
    x - fx / dfx
  }

  /** The next estimate `x_new`; the source divides without a guard, so a
      derivative that rounds to 0 is excluded by the callers' precondition. */
  function NextX(nw: Newton, x: real): real
    requires Dfx(nw, x) != 0.0
  {
    nw.round(NewtonStep(x, Fx(nw, x), Dfx(nw, x)))
  }

  /** The two stopping tests: a small function value, or a small step. */
  predicate Stops(nw: Newton, x: real, tol: real)
    requires Dfx(nw, x) != 0.0
  {
    Abs(Fx(nw, x)) < tol || Abs(NextX(nw, x) - x) < tol
  }

  /** The stopping tests, read off a record. */
  predicate RecordStops(rec: NewtonRecord, tol: real)
  {
    Abs(rec.fx) < tol || Abs(rec.xNext - rec.xi) < tol
  }

  /** The precondition of both loops: at each of the (at most n) points the
      loop steps from, the rounded derivative is not 0. */
  predicate Regular(nw: Newton, x: real, n: int, tol: real)
    decreases Passes(n)
  {
    n <= 0 || (Dfx(nw, x) != 0.0 && (Stops(nw, x, tol) || Regular(nw, NextX(nw, x), n - 1, tol)))
  }

  /** The absolute error of the step from x to xNew at iteration i: none at
      iteration 0. */
  function AbsoluteError(i: int, x: real, xNew: real): Option<real>
  {
    if i == 0 then None else Some(Abs(xNew - x))
  }

  /** The relative error of the step from x to xNew: none when xNew is 0; the
      denominator keeps its sign. */
  function RelativeErrorOf(x: real, xNew: real): Option<real>
  {
    if xNew == 0.0 then None else Some(Abs(xNew - x) / xNew)
  }

  /** The record of iteration i, stepping from x. */
  function RecordAt(nw: Newton, x: real, i: int): NewtonRecord
    requires Dfx(nw, x) != 0.0
  {
    var xNew := NextX(nw, x);
    NewtonRecord(i, x, xNew, Fx(nw, x), Dfx(nw, x),
      AbsoluteError(i, x, xNew), RelativeErrorOf(x, xNew))
  }

  /** The records `iter_steps` yields from iteration i on, at x. */
  function Steps(nw: Newton, x: real, i: int, maxIter: int, tol: real): seq<NewtonRecord>
    requires Regular(nw, x, maxIter - i, tol)
    decreases Passes(maxIter - i)
  {
    if i >= maxIter then []
    else if Stops(nw, x, tol) then [RecordAt(nw, x, i)]
    else [RecordAt(nw, x, i)] + Steps(nw, NextX(nw, x), i + 1, maxIter, tol)
  }

  function FailureMessage(maxIter: int): string
  {
    "Failed to converge after " + IntToString(maxIter) + " iterations"
  }

  /** What `find_root` returns or raises, continuing at x from iteration i. */
  function FindRootFrom(nw: Newton, x: real, i: int, maxIter: int, tol: real): Result<real>
    requires Regular(nw, x, maxIter - i, tol)
    decreases Passes(maxIter - i)
  {
    if i >= maxIter then Failure(FailureMessage(maxIter))
    else if Abs(Fx(nw, x)) < tol then Success(x)
    else if Abs(NextX(nw, x) - x) < tol then Success(NextX(nw, x))
    else FindRootFrom(nw, NextX(nw, x), i + 1, maxIter, tol)
  }

  /** The starting point: the initial guess, rounded twice. */
  function Start(nw: Newton, guess: real): real
  {
    nw.round(nw.round(guess))
  }

  /** The values one pass of either loop computes at x. */
  method Evaluate(nw: Newton, x: real) returns (fx: real, dfx: real, xNew: real)
    requires Dfx(nw, x) != 0.0
    ensures fx == Fx(nw, x) && dfx == Dfx(nw, x) && xNew == NextX(nw, x)
  {
    fx := nw.round(nw.f(x));
    dfx := nw.round(nw.df(x));
    xNew := nw.round(NewtonStep(x, fx, dfx));
  }

  /** One unfolding of `Steps`: the record at x, then the rest unless a
      stopping test fires. */
  lemma StepsUnfold(nw: Newton, x: real, i: int, maxIter: int, tol: real)
    requires i < maxIter && Regular(nw, x, maxIter - i, tol)
    ensures Dfx(nw, x) != 0.0
    ensures !Stops(nw, x, tol) ==> Regular(nw, NextX(nw, x), maxIter - (i + 1), tol)
    ensures Steps(nw, x, i, maxIter, tol) ==
      [RecordAt(nw, x, i)] + (if Stops(nw, x, tol) then [] else Steps(nw, NextX(nw, x), i + 1, maxIter, tol))
  {
  }

  /** One unfolding of `FindRootFrom`. */
  lemma FindRootUnfold(nw: Newton, x: real, i: int, maxIter: int, tol: real)
    requires i < maxIter && Regular(nw, x, maxIter - i, tol)
    ensures Dfx(nw, x) != 0.0
    ensures FindRootFrom(nw, x, i, maxIter, tol) ==
      if Abs(Fx(nw, x)) < tol then Success(x)
      else if Abs(NextX(nw, x) - x) < tol then Success(NextX(nw, x))
      else FindRootFrom(nw, NextX(nw, x), i + 1, maxIter, tol)
  {
  }

  /** `iter_steps(initial_guess, tolerance, max_iter)`, all its records. */
  method IterSteps(nw: Newton, guess: real, tol: real, maxIter: int) returns (records: seq<NewtonRecord>)
    requires Regular(nw, Start(nw, guess), maxIter, tol)
    ensures records == Steps(nw, Start(nw, guess), 0, maxIter, tol)
  {
    var x := nw.round(guess);
    x := nw.round(x);
    var i := 0;
    records := [];
    ghost var whole := Steps(nw, x, i, maxIter, tol);
    var stopped := false;
    while i < maxIter && !stopped
      invariant Regular(nw, x, maxIter - i, tol)
      invariant !stopped ==> records + Steps(nw, x, i, maxIter, tol) == whole
      invariant stopped ==> records == whole
      decreases maxIter - i, if stopped then 0 else 1
    {
      StepsUnfold(nw, x, i, maxIter, tol);
      var fx, dfx, xNew := Evaluate(nw, x);
      var rec := NewtonRecord(i, x, xNew, fx, dfx, AbsoluteError(i, x, xNew), RelativeErrorOf(x, xNew));
      assert rec == RecordAt(nw, x, i);
      records := records + [rec];
      if Abs(fx) < tol || Abs(xNew - x) < tol {
        stopped := true;
      } else {
        x := xNew;
        i := i + 1;
      }
    }
  }

  /** `find_root(initial_guess, tolerance, max_iter)`. */
  method FindRoot(nw: Newton, guess: real, tol: real, maxIter: int) returns (r: Result<real>)
    requires Regular(nw, Start(nw, guess), maxIter, tol)
    ensures r == FindRootFrom(nw, Start(nw, guess), 0, maxIter, tol)
  {
    var x := nw.round(guess);
    x := nw.round(x);
    var i := 0;
    ghost var whole := FindRootFrom(nw, x, i, maxIter, tol);
    var found := None;
    while i < maxIter && found.None?
      invariant Regular(nw, x, maxIter - i, tol)
      invariant found.None? ==> FindRootFrom(nw, x, i, maxIter, tol) == whole
      invariant found.Some? ==> Success(found.value) == whole
      decreases maxIter - i, if found.None? then 1 else 0
    {
      FindRootUnfold(nw, x, i, maxIter, tol);
      var fx, dfx, xNew := Evaluate(nw, x);
      if Abs(fx) < tol {
        found := Some(x);
      } else if Abs(xNew - x) < tol {
        found := Some(xNew);
      } else {
        x := xNew;
        i := i + 1;
      }
    }
    if found.Some? {
      return Success(found.value);
    }
    r := Failure("Failed to converge after " + IntToString(maxIter) + " iterations");
  }

  // ---------------------------------------------------------------------------
  // Properties

  /** Without rounding, the new estimate is where the tangent at x crosses
      zero: f(x) + f'(x) * (x_new - x) == 0. */
  lemma NewtonTangent(nw: Newton, x: real)
    requires forall y :: nw.round(y) == y
    requires Dfx(nw, x) != 0.0
    ensures nw.f(x) + nw.df(x) * (NextX(nw, x) - x) == 0.0
  {
    var fx, dfx := nw.f(x), nw.df(x);
    var q := fx / dfx;
    assert q * dfx == fx;
    assert NextX(nw, x) - x == -q;
  }

  /** The records from iteration i on: at most max_iter - i of them, and at
      least one when the budget is not spent; the first steps from x and
      each next one from the previous one's x_{i+1}; each is the record of
      its own point, with iteration number i, i + 1, .... */
  lemma {:induction false} StepsChain(nw: Newton, x: real, i: int, maxIter: int, tol: real)
    requires Regular(nw, x, maxIter - i, tol)
    ensures var rs := Steps(nw, x, i, maxIter, tol);
      && |rs| <= Passes(maxIter - i)
      && (i < maxIter ==> |rs| > 0)
      && (|rs| > 0 ==> rs[0].xi == x)
      && (forall k :: 0 < k < |rs| ==> rs[k].xi == rs[k - 1].xNext)
      && (forall k :: 0 <= k < |rs| ==> Dfx(nw, rs[k].xi) != 0.0 && rs[k] == RecordAt(nw, rs[k].xi, i + k))
    decreases Passes(maxIter - i)
  {
    if i < maxIter {
      StepsUnfold(nw, x, i, maxIter, tol);
      if !Stops(nw, x, tol) {
        StepsChain(nw, NextX(nw, x), i + 1, maxIter, tol);
        var rs := Steps(nw, x, i, maxIter, tol);
        var rest := Steps(nw, NextX(nw, x), i + 1, maxIter, tol);
        assert forall k :: 0 < k < |rs| ==> rs[k] == rest[k - 1];
      }
    }
  }

  /** No record but the last meets a stopping test. */
  lemma {:induction false} StepsStop(nw: Newton, x: real, i: int, maxIter: int, tol: real)
    requires Regular(nw, x, maxIter - i, tol)
    ensures var rs := Steps(nw, x, i, maxIter, tol);
      forall k :: 0 <= k < |rs| - 1 ==> !RecordStops(rs[k], tol)
    decreases Passes(maxIter - i)
  {
    if i < maxIter {
      StepsUnfold(nw, x, i, maxIter, tol);
      if !Stops(nw, x, tol) {
        StepsStop(nw, NextX(nw, x), i + 1, maxIter, tol);
        var rs := Steps(nw, x, i, maxIter, tol);
        var rest := Steps(nw, NextX(nw, x), i + 1, maxIter, tol);
        assert forall k :: 0 < k < |rs| ==> rs[k] == rest[k - 1];
      }
    }
  }

  /** The last record meets a stopping test unless the budget is spent. */
  lemma {:induction false} StepsLastStops(nw: Newton, x: real, i: int, maxIter: int, tol: real)
    requires Regular(nw, x, maxIter - i, tol)
    ensures var rs := Steps(nw, x, i, maxIter, tol);
      |rs| > 0 && |rs| < Passes(maxIter - i) ==> RecordStops(rs[|rs| - 1], tol)
    decreases Passes(maxIter - i)
  {
    if i < maxIter {
      StepsUnfold(nw, x, i, maxIter, tol);
      if !Stops(nw, x, tol) {
        StepsLastStops(nw, NextX(nw, x), i + 1, maxIter, tol);
        var rs := Steps(nw, x, i, maxIter, tol);
        var rest := Steps(nw, NextX(nw, x), i + 1, maxIter, tol);
        assert |rest| > 0 ==> rs[|rs| - 1] == rest[|rest| - 1];
      }
    }
  }


  /** The fields of a record: iteration number, absolute error None exactly
      at iteration 0 and |x_{i+1} - x_i| otherwise, relative error None
      exactly when x_{i+1} is 0 and |x_{i+1} - x_i| / x_{i+1} otherwise. */
  lemma RecordFields(nw: Newton, x: real, i: int)
    requires Dfx(nw, x) != 0.0
    ensures var rec := RecordAt(nw, x, i);
      && rec.iteration == i && rec.xi == x
      && rec.fx == nw.round(nw.f(x)) && rec.dfx == nw.round(nw.df(x))
      && (rec.absoluteError == None <==> i == 0)
      && (rec.absoluteError.Some? ==> rec.absoluteError.value == Abs(rec.xNext - x) && rec.absoluteError.value >= 0.0)
      && (rec.relativeError == None <==> rec.xNext == 0.0)
      && (rec.relativeError.Some? ==> rec.relativeError.value * rec.xNext == Abs(rec.xNext - x))
  {
  }

  /** `find_root` and `iter_steps` stop at the same iteration: `find_root`
      returns x_i of the last record when its |f(x_i)| is below the
      tolerance, and x_{i+1} when only the step is; it raises exactly when no
      record meets a stopping test. */
  lemma {:induction false} FindRootAgrees(nw: Newton, x: real, i: int, maxIter: int, tol: real)
    requires Regular(nw, x, maxIter - i, tol)
    ensures var rs := Steps(nw, x, i, maxIter, tol);
      var stopped := |rs| > 0 && RecordStops(rs[|rs| - 1], tol);
      && (FindRootFrom(nw, x, i, maxIter, tol).Failure? <==> !stopped)
      && (!stopped ==> FindRootFrom(nw, x, i, maxIter, tol) == Failure(FailureMessage(maxIter)))
      && (stopped ==>
            FindRootFrom(nw, x, i, maxIter, tol) ==
            Success(if Abs(rs[|rs| - 1].fx) < tol then rs[|rs| - 1].xi else rs[|rs| - 1].xNext))
    decreases Passes(maxIter - i)
  {
    if i < maxIter {
      StepsUnfold(nw, x, i, maxIter, tol);
      FindRootUnfold(nw, x, i, maxIter, tol);
      if !Stops(nw, x, tol) {
        FindRootAgrees(nw, NextX(nw, x), i + 1, maxIter, tol);
        var rs := Steps(nw, x, i, maxIter, tol);
        var rest := Steps(nw, NextX(nw, x), i + 1, maxIter, tol);
        if |rest| > 0 {
          assert rs[|rs| - 1] == rest[|rest| - 1];
        }
      } else {
        assert Steps(nw, x, i, maxIter, tol) == [RecordAt(nw, x, i)];
      }
    }
  }

  /** `find_root` raises exactly when `iter_steps` yields max_iter records
      none of which meets a stopping test. */
  lemma FindRootRaises(nw: Newton, guess: real, tol: real, maxIter: int)
    requires Regular(nw, Start(nw, guess), maxIter, tol)
    ensures var rs := Steps(nw, Start(nw, guess), 0, maxIter, tol);
      FindRootFrom(nw, Start(nw, guess), 0, maxIter, tol).Failure? <==>
        |rs| == Passes(maxIter) && forall k :: 0 <= k < |rs| ==> !RecordStops(rs[k], tol)
  {
    var x := Start(nw, guess);
    StepsChain(nw, x, 0, maxIter, tol);
    StepsStop(nw, x, 0, maxIter, tol);
    StepsLastStops(nw, x, 0, maxIter, tol);
    FindRootAgrees(nw, x, 0, maxIter, tol);
    var rs := Steps(nw, x, 0, maxIter, tol);
    if |rs| > 0 && !RecordStops(rs[|rs| - 1], tol) {
      assert forall k :: 0 <= k < |rs| ==> !RecordStops(rs[k], tol);
    }
  }
}
