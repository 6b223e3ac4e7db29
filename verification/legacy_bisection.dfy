/** The older stand-alone bisection generator (`Bisection` in the top-level
    Bisection.py). It shares the bracket handling of the solver class but
    yields bare [root, relative error] pairs, stops on the tolerance before
    yielding, and raises nothing after its loop. */
module LegacyBisection {
  import opened Common
  import Bisection

  const Sentinel: real := 17.1717
  const NotContinuous := "the function is not continuous at the given range"
  const CannotSolve := "this equation cannot be solved by the Bisection method"

  /** The pair `[root, relative error]` the generator yields. */
  datatype LegacyRecord = LegacyRecord(root: real, relative: RelField)

  /** The records and ending of the `while mx_iter > 0` loop, entered with
      bracket (a, b), previous midpoint prev and counter `count`. */
  function Loop(s: Bisection.Solver, e: Equation, a: real, b: real, prev: real, count: int): Run<LegacyRecord>
    decreases Passes(count)
  {
    if count <= 0 then Run([], Finished)
    else
      var mid := Bisection.Midpoint(a, b);
      if !e.valid(mid) then Run([], Raised(NotContinuous))
      else if Product(e.f(a), e.f(b)) > 1.0 then Run([], Raised(CannotSolve))
      else if e.f(mid) == 0.0 then Run([LegacyRecord(mid, RelValue(RelativeError(mid, prev, Sentinel)))], Finished)
      else
        var (a', b') := Bisection.Halve(e, a, b);
        if RelativeError(prev, mid, Sentinel) < s.tol then Run([], Finished)
        else Prepend([LegacyRecord(mid, Shown(RelativeError(mid, prev, Sentinel), Sentinel))], Loop(s, e, a', b', mid, count - 1))
  }

  /** Everything `Bisection(equ, a, b, precision, tol, mx_iter)` yields, and
      how it ends. */
  function Trace(s: Bisection.Solver, e: Equation, a0: real, b0: real): Run<LegacyRecord>
  {
    var a := s.round(a0);
    var b := s.round(b0);
    if e.f(a) == 0.0 then Run([LegacyRecord(a, NoRelativeError)], Finished)
    else if e.f(b) == 0.0 then Run([LegacyRecord(b, NoRelativeError)], Finished)
    else
      var (a1, b1) := Bisection.Entry(s, e, a0, b0);
      if !e.valid(a1) || !e.valid(b1) then Run([], Raised(NotContinuous))
      else Loop(s, e, a1, b1, 0.0, s.maxIter)
  }

  /** The generator, run to its end. */
  method Generate(s: Bisection.Solver, e: Equation, a0: real, b0: real) returns (records: seq<LegacyRecord>, outcome: Outcome)
    ensures Run(records, outcome) == Trace(s, e, a0, b0)
  {
    var a := s.round(a0);
    var b := s.round(b0);
    if e.f(a) == 0.0 {
      return [LegacyRecord(a, NoRelativeError)], Finished;
    }
    if e.f(b) == 0.0 {
      return [LegacyRecord(b, NoRelativeError)], Finished;
    }
    if e.f(a) > 0.0 {
      var tmp := s.round(b);
      b := s.round(a);
      a := tmp;
    }
    if !e.valid(a) || !e.valid(b) {
      return [], Raised(NotContinuous);
    }
    records, outcome := RunLoop(s, e, a, b);
  }

  /** The `while mx_iter > 0` loop, entered with a bracket that passed the
      validity test. */
  method RunLoop(s: Bisection.Solver, e: Equation, a0: real, b0: real) returns (records: seq<LegacyRecord>, outcome: Outcome)
    ensures Run(records, outcome) == Loop(s, e, a0, b0, 0.0, s.maxIter)
  {
    var a, b := a0, b0;
    var mxIter := s.maxIter;
    var prev := 0.0;
    ghost var whole := Loop(s, e, a, b, prev, mxIter);
    records := [];
    while mxIter > 0
      invariant Prepend(records, Loop(s, e, a, b, prev, mxIter)) == whole
      decreases mxIter
    {
      ghost var rest := Loop(s, e, a, b, prev, mxIter);
      mxIter := mxIter - 1;
      var mid := Bisection.Midpoint(a, b);
      if !e.valid(mid) {
        return records, Raised(NotContinuous);
      }
      if Product(e.f(a), e.f(b)) > 1.0 {
        return records, Raised(CannotSolve);
      }
      if e.f(mid) == 0.0 {
        records := records + [LegacyRecord(mid, RelValue(RelativeError(mid, prev, Sentinel)))];
        assert Prepend(records, Run([], Finished)) == whole;
        break;
      }
      if e.f(mid) > 0.0 {
        b := mid;
      } else {
        a := mid;
      }
      if RelativeError(prev, mid, Sentinel) < s.tol {
        assert Prepend(records, Run([], Finished)) == whole;
        break;
      }
      var relative := Shown(RelativeError(mid, prev, Sentinel), Sentinel);
      records := records + [LegacyRecord(mid, relative)];
      prev := mid;
      assert rest == Prepend([records[|records| - 1]], Loop(s, e, a, b, prev, mxIter));
    }
    outcome := Finished;
  }

  // ---------------------------------------------------------------------------
  // Properties

  /** The previous midpoint a record of the loop was compared against. */
  function PrevOf(records: seq<LegacyRecord>, prev: real, k: nat): real
    requires k <= |records|
  {
    if k == 0 then prev else records[k - 1].root
  }

  /** The loop yields at most one record per pass; every yielded midpoint is
      valid; a record whose midpoint is not a root is yielded only when its
      relative error against the previous midpoint is not below the
      tolerance, so the midpoint that meets the tolerance is never yielded;
      only the last record can be a root, and its relative error is shown as
      the raw number even when it is the sentinel. */
  lemma {:induction false} LoopShape(s: Bisection.Solver, e: Equation, a: real, b: real, prev: real, count: int)
    ensures var r := Loop(s, e, a, b, prev, count);
      && |r.records| <= Passes(count)
      && (forall k :: 0 <= k < |r.records| ==> e.valid(r.records[k].root))
      && (forall k :: 0 <= k < |r.records| ==>
            var rec := r.records[k];
            if e.f(rec.root) == 0.0 then
              k == |r.records| - 1 && rec.relative == RelValue(RelativeError(rec.root, PrevOf(r.records, prev, k), Sentinel))
            else
              RelativeError(PrevOf(r.records, prev, k), rec.root, Sentinel) >= s.tol &&
              rec.relative == Shown(RelativeError(rec.root, PrevOf(r.records, prev, k), Sentinel), Sentinel))
    decreases Passes(count)
  {
    var r := Loop(s, e, a, b, prev, count);
    if count > 0 {
      var mid := Bisection.Midpoint(a, b);
      if e.valid(mid) && Product(e.f(a), e.f(b)) <= 1.0 && e.f(mid) != 0.0 && RelativeError(prev, mid, Sentinel) >= s.tol {
        var (a', b') := Bisection.Halve(e, a, b);
        LoopShape(s, e, a', b', mid, count - 1);
        var rest := Loop(s, e, a', b', mid, count - 1);
        assert r.records == [LegacyRecord(mid, Shown(RelativeError(mid, prev, Sentinel), Sentinel))] + rest.records;
        forall k | 0 < k < |r.records|
          ensures r.records[k] == rest.records[k - 1] && PrevOf(r.records, prev, k) == PrevOf(rest.records, mid, k - 1)
        {
        }
      }
    }
  }

  /** From a bracket with f(a) < 0 < f(b), the k-th record's midpoint is the
      midpoint of the bracket after k updates, that bracket still changes
      sign, and the "cannot be solved" exception is never raised. */
  lemma {:induction false} LoopFollowsBrackets(s: Bisection.Solver, e: Equation, a: real, b: real, prev: real, count: int)
    requires e.f(a) < 0.0 < e.f(b)
    ensures var r := Loop(s, e, a, b, prev, count);
      && r.outcome != Raised(CannotSolve)
      && forall k: nat :: k < |r.records| ==>
           && e.f(Bisection.BracketAfter(e, a, b, k).0) < 0.0 < e.f(Bisection.BracketAfter(e, a, b, k).1)
           && r.records[k].root == Bisection.Midpoint(Bisection.BracketAfter(e, a, b, k).0, Bisection.BracketAfter(e, a, b, k).1)
    decreases Passes(count)
  {
    var r := Loop(s, e, a, b, prev, count);
    if count > 0 {
      var mid := Bisection.Midpoint(a, b);
      assert Product(e.f(a), e.f(b)) < 0.0;
      if e.valid(mid) && e.f(mid) != 0.0 && RelativeError(prev, mid, Sentinel) >= s.tol {
        var (a', b') := Bisection.Halve(e, a, b);
        Bisection.HalveKeepsBracket(e, a, b);
        LoopFollowsBrackets(s, e, a', b', mid, count - 1);
        var rest := Loop(s, e, a', b', mid, count - 1);
        assert r.records == [LegacyRecord(mid, Shown(RelativeError(mid, prev, Sentinel), Sentinel))] + rest.records;
        forall k: nat | 0 < k < |r.records|
          ensures && e.f(Bisection.BracketAfter(e, a, b, k).0) < 0.0 < e.f(Bisection.BracketAfter(e, a, b, k).1)
                  && r.records[k].root == Bisection.Midpoint(Bisection.BracketAfter(e, a, b, k).0, Bisection.BracketAfter(e, a, b, k).1)
        {
          assert Bisection.BracketAfter(e, a, b, k) == Bisection.BracketAfter(e, a', b', k - 1);
          assert r.records[k] == rest.records[k - 1];
        }
      }
    }
  }

  /** A root at an endpoint gives the single pair [endpoint, "no relative
      error"]; otherwise at most mx_iter pairs are yielded, and nothing is
      raised after the loop. */
  lemma TraceShape(s: Bisection.Solver, e: Equation, a0: real, b0: real)
    ensures e.f(s.round(a0)) == 0.0 ==> Trace(s, e, a0, b0) == Run([LegacyRecord(s.round(a0), NoRelativeError)], Finished)
    ensures e.f(s.round(a0)) != 0.0 && e.f(s.round(b0)) == 0.0 ==>
      Trace(s, e, a0, b0) == Run([LegacyRecord(s.round(b0), NoRelativeError)], Finished)
    ensures e.f(s.round(a0)) != 0.0 && e.f(s.round(b0)) != 0.0 ==> |Trace(s, e, a0, b0).records| <= Passes(s.maxIter)
    ensures Trace(s, e, a0, b0).outcome == Finished || Trace(s, e, a0, b0).outcome == Raised(NotContinuous) ||
      Trace(s, e, a0, b0).outcome == Raised(CannotSolve)
  {
    var entry := Bisection.Entry(s, e, a0, b0);
    LoopShape(s, e, entry.0, entry.1, 0.0, s.maxIter);
    LoopOutcome(s, e, entry.0, entry.1, 0.0, s.maxIter);
  }

  /** The loop ends normally or with one of its two exceptions, and raises
      only where the source does: "not continuous" exactly when the midpoint
      of the bracket it had reached fails the validity test, "cannot be
      solved" exactly when it passes and f(a)*f(b) > 1 on that bracket. Every
      pass that yielded a pair passed both tests on its own bracket. */
  lemma {:induction false} LoopOutcome(s: Bisection.Solver, e: Equation, a: real, b: real, prev: real, count: int)
    ensures var r := Loop(s, e, a, b, prev, count);
      var here := Bisection.BracketAfter(e, a, b, |r.records|);
      && (r.outcome == Finished || r.outcome == Raised(NotContinuous) || r.outcome == Raised(CannotSolve))
      && (forall k: nat :: k < |r.records| ==>
            && r.records[k].root == Bisection.Midpoint(Bisection.BracketAfter(e, a, b, k).0, Bisection.BracketAfter(e, a, b, k).1)
            && Product(e.f(Bisection.BracketAfter(e, a, b, k).0), e.f(Bisection.BracketAfter(e, a, b, k).1)) <= 1.0)
      && (r.outcome.Raised? ==> |r.records| < Passes(count))
      && (r.outcome == Raised(NotContinuous) <==> r.outcome.Raised? && !e.valid(Bisection.Midpoint(here.0, here.1)))
      && (r.outcome == Raised(CannotSolve) <==>
            r.outcome.Raised? && e.valid(Bisection.Midpoint(here.0, here.1)) && Product(e.f(here.0), e.f(here.1)) > 1.0)
    decreases Passes(count)
  {
    var r := Loop(s, e, a, b, prev, count);
    if count > 0 {
      var mid := Bisection.Midpoint(a, b);
      if e.valid(mid) && Product(e.f(a), e.f(b)) <= 1.0 && e.f(mid) != 0.0 && RelativeError(prev, mid, Sentinel) >= s.tol {
        var (a', b') := Bisection.Halve(e, a, b);
        LoopOutcome(s, e, a', b', mid, count - 1);
        var rest := Loop(s, e, a', b', mid, count - 1);
        assert r.records == [LegacyRecord(mid, Shown(RelativeError(mid, prev, Sentinel), Sentinel))] + rest.records;
        assert Bisection.BracketAfter(e, a, b, |r.records|) == Bisection.BracketAfter(e, a', b', |rest.records|);
        forall k: nat | 0 < k < |r.records|
          ensures && r.records[k].root == Bisection.Midpoint(Bisection.BracketAfter(e, a, b, k).0, Bisection.BracketAfter(e, a, b, k).1)
                  && Product(e.f(Bisection.BracketAfter(e, a, b, k).0), e.f(Bisection.BracketAfter(e, a, b, k).1)) <= 1.0
        {
          assert Bisection.BracketAfter(e, a, b, k) == Bisection.BracketAfter(e, a', b', k - 1);
          assert r.records[k] == rest.records[k - 1];
        }
      }
    }
  }

  /** Unlike the solver class, a midpoint that is a root on the first pass
      is yielded with the sentinel number itself rather than the text: here
      f(x) = x - 1/2 on [0, 1]. */
  lemma RootOnFirstPassShowsSentinel()
    ensures var e := Equation(x => x - 0.5, x => true);
      var s := Bisection.Solver(x => x, 0.0001, 15);
      Trace(s, e, 0.0, 1.0) == Run([LegacyRecord(0.5, RelValue(Sentinel))], Finished)
  {
    var e := Equation(x => x - 0.5, x => true);
    var s := Bisection.Solver(x => x, 0.0001, 15);
    assert Bisection.Entry(s, e, 0.0, 1.0) == (0.0, 1.0);
    assert Bisection.Midpoint(0.0, 1.0) == 0.5;
  }
}
