/** The fixed-point solver class (`FixedPointIteration.fixed_point_iteration`
    and `final_result`): x_{i+1} = g(x_i), from a rounded start point. */
module FixedPoint {
  import opened Common

  const Sentinel: real := 17.1717
  const DoesNotConverge := "method doesn't converge"
  const CannotBeSolved := "cannot be solved"
  const DidNotConverge := "method didn't converge"

  /** The solver's configuration: rounding of the start point to the
      configured number of significant digits, the tolerance, and the
      iteration budget. */
  datatype Solver = Solver(round: real -> real, tol: real, maxIter: int)

  /** The iteration function g (as an `Equation`: its value and whether that
      value is a finite real) together with its derivative g'. */
  datatype Iteration = Iteration(g: Equation, dg: real -> real)

  /** One yielded step: the iteration number, x_i, x_{i+1} = g(x_i) and the
      relative error between them. */
  datatype FixedPointRecord = FixedPointRecord(iteration: int, xi: real, xNext: real, relativeError: RelField)

  function XNext(r: FixedPointRecord): real
  {
    r.xNext
  }

  /** The records and ending of the `while iter_count >= 0` loop, entered at
      `root` with the counter at `iterCount`. */
  function Loop(s: Solver, it: Iteration, root: real, iterCount: int): Run<FixedPointRecord>
    decreases Passes(iterCount + 1)
  {
    if iterCount < 0 then Run([], Finished)
    else if it.dg(root) > 1.0 then Run([], Raised(DoesNotConverge))
    else
      var count := iterCount - 1;
      var newRoot := it.g.f(root);
      if !it.g.valid(newRoot) then Run([], Raised(CannotBeSolved))
      else
        var relative := RelativeError(root, newRoot, Sentinel);
        if relative < s.tol then Run([FixedPointRecord(s.maxIter - count, root, newRoot, RelValue(relative))], Finished)
        else Prepend([FixedPointRecord(s.maxIter - count, root, newRoot, Shown(relative, Sentinel))], Loop(s, it, newRoot, count))
  }

  /** Everything `fixed_point_iteration(equ, start_point)` yields, and how it
      ends: the loop, then the check that raises when max_iter is 0. */
  function Trace(s: Solver, it: Iteration, start: real): Run<FixedPointRecord>
  {
    var r := Loop(s, it, s.round(start), s.maxIter);
    if r.outcome == Finished && s.maxIter == 0 then Run(r.records, Raised(DidNotConverge)) else r
  }

  /** The generator `fixed_point_iteration`. */
  method Iterate(s: Solver, it: Iteration, start: real) returns (records: seq<FixedPointRecord>, outcome: Outcome)
    ensures Run(records, outcome) == Trace(s, it, start)
  {
    records, outcome := LoopPasses(s, it, s.round(start));
    if outcome == Finished && s.maxIter == 0 {
      outcome := Raised(DidNotConverge);
    }
  }

  /** The `while iter_count >= 0` loop, entered at the rounded start point. */
  method LoopPasses(s: Solver, it: Iteration, start: real) returns (records: seq<FixedPointRecord>, outcome: Outcome)
    ensures Run(records, outcome) == Loop(s, it, start, s.maxIter)
  {
    var iterCount := s.maxIter;
    var root := start;
    ghost var whole := Loop(s, it, root, iterCount);
    var ended: Option<Outcome> := None;
    records := [];
    while iterCount >= 0 && ended.None?
      invariant ended.None? ==> Prepend(records, Loop(s, it, root, iterCount)) == whole
      invariant ended.Some? ==> Run(records, ended.value) == whole
      decreases Passes(iterCount + 1), if ended.None? then 1 else 0
    {
      ghost var before := records;
      var yielded;
      yielded, ended, root, iterCount := Pass(s, it, root, iterCount);
      records := records + yielded;
      if ended.None? {
        ghost var next := Loop(s, it, root, iterCount);
        PrependTwice(before, yielded, next);
      }
    }
    outcome := if ended.Some? then ended.value else Finished;
  }

  /** One pass of the loop body: the records it yields, the exception or
      break that ends the loop (None when it goes on), the next root and the
      counter. */
  method Pass(s: Solver, it: Iteration, root0: real, iterCount0: int)
    returns (yielded: seq<FixedPointRecord>, ended: Option<Outcome>, root: real, iterCount: int)
    requires iterCount0 >= 0
    ensures iterCount == iterCount0 - 1 || (ended.Some? && iterCount == iterCount0)
    ensures ended.None? ==> Loop(s, it, root0, iterCount0) == Prepend(yielded, Loop(s, it, root, iterCount))
    ensures ended.Some? ==> Loop(s, it, root0, iterCount0) == Run(yielded, ended.value)
  {
    root, iterCount := root0, iterCount0;
    yielded := [];
    ended := None;
    if it.dg(root) > 1.0 {
      ended := Some(Raised(DoesNotConverge));
      return;
    }
    iterCount := iterCount - 1;
    var count := iterCount;
    var newRoot := it.g.f(root);
    if !it.g.valid(newRoot) {
      ended := Some(Raised(CannotBeSolved));
      return;
    }
    var relative := RelativeError(root, newRoot, Sentinel);
    if relative < s.tol {
      yielded := [FixedPointRecord(s.maxIter - count, root, newRoot, RelValue(relative))];
      ended := Some(Finished);
      return;
    }
    yielded := [FixedPointRecord(s.maxIter - count, root, newRoot, Shown(relative, Sentinel))];
    root := newRoot;
  }

  /** `final_result(equ, start_point)`: the last x_{i+1} yielded, 0 when
      nothing was; the generator's exception propagates. */
  method FinalResult(s: Solver, it: Iteration, start: real) returns (r: Final)
    ensures r == FinalOf(Trace(s, it, start), XNext)
  {
    var records, outcome := Iterate(s, it, start);
    TraceShape(s, it, start);
    if outcome.Raised? {
      return Error(outcome.message);
    }
    var last := 0.0;
    for i := 0 to |records|
      invariant last == if i == 0 then 0.0 else records[i - 1].xNext
    {
      last := records[i].xNext;
    }
    r := Root(last);
  }

  // ---------------------------------------------------------------------------
  // Properties of the generator

  /** Entered with the counter at n, the loop yields at most n + 1 records,
      numbered max_iter - n + 1, max_iter - n + 2, ...; the first starts at
      `root` and each next one at the previous one's x_{i+1}; every x_{i+1} is
      g(x_i) and valid, and every x_i passed the derivative test; only the
      last record may meet the tolerance, and a record that meets it carries
      the numeric relative error. */
  lemma {:induction false} LoopShape(s: Solver, it: Iteration, root: real, iterCount: int)
    ensures var r := Loop(s, it, root, iterCount);
      && |r.records| <= Passes(iterCount + 1)
      && (forall k :: 0 <= k < |r.records| ==> r.records[k].iteration == s.maxIter - iterCount + k + 1)
      && (|r.records| > 0 ==> r.records[0].xi == root)
      && (forall k :: 0 < k < |r.records| ==> r.records[k].xi == r.records[k - 1].xNext)
      && (forall k :: 0 <= k < |r.records| ==>
            var rec := r.records[k];
            rec.xNext == it.g.f(rec.xi) && it.g.valid(rec.xNext) && it.dg(rec.xi) <= 1.0)
      && (forall k :: 0 <= k < |r.records| - 1 ==>
            var rec := r.records[k];
            RelativeError(rec.xi, rec.xNext, Sentinel) >= s.tol &&
            rec.relativeError == Shown(RelativeError(rec.xi, rec.xNext, Sentinel), Sentinel))
    decreases Passes(iterCount + 1)
  {
    var r := Loop(s, it, root, iterCount);
    if iterCount >= 0 && it.dg(root) <= 1.0 && it.g.valid(it.g.f(root)) {
      var newRoot := it.g.f(root);
      if RelativeError(root, newRoot, Sentinel) >= s.tol {
        LoopShape(s, it, newRoot, iterCount - 1);
        var rest := Loop(s, it, newRoot, iterCount - 1);
        assert forall k :: 0 < k < |r.records| ==> r.records[k] == rest.records[k - 1];
      }
    }
  }

  /** How the loop ends. It raises "method doesn't converge" exactly when
      g'(x) > 1 at the point it was about to step from, and "cannot be
      solved" exactly when g of that point is invalid; when it finishes with
      budget left, its last record met the tolerance and shows the number. */
  lemma {:induction false} LoopEnding(s: Solver, it: Iteration, root: real, iterCount: int)
    ensures var r := Loop(s, it, root, iterCount);
      var here := if r.records == [] then root else r.records[|r.records| - 1].xNext;
      && (r.outcome == Raised(DoesNotConverge) <==> r.outcome.Raised? && it.dg(here) > 1.0)
      && (r.outcome == Raised(CannotBeSolved) ==> it.dg(here) <= 1.0 && !it.g.valid(it.g.f(here)))
      && (r.outcome.Raised? ==> r.outcome == Raised(DoesNotConverge) || r.outcome == Raised(CannotBeSolved))
      && r.outcome != Unfinished
      && (r.outcome == Finished && |r.records| < Passes(iterCount + 1) ==>
            |r.records| > 0 &&
            var last := r.records[|r.records| - 1];
            RelativeError(last.xi, last.xNext, Sentinel) < s.tol &&
            last.relativeError == RelValue(RelativeError(last.xi, last.xNext, Sentinel)))
    decreases Passes(iterCount + 1)
  {
    var r := Loop(s, it, root, iterCount);
    if iterCount >= 0 && it.dg(root) <= 1.0 && it.g.valid(it.g.f(root)) {
      var newRoot := it.g.f(root);
      if RelativeError(root, newRoot, Sentinel) >= s.tol {
        LoopEnding(s, it, newRoot, iterCount - 1);
        var rest := Loop(s, it, newRoot, iterCount - 1);
        assert r.records == [r.records[0]] + rest.records;
        if rest.records != [] {
          assert r.records[|r.records| - 1] == rest.records[|rest.records| - 1];
        }
      }
    }
  }

  /** A nonzero fixed point of g at which g'(x) <= 1 ends the loop at once,
      with a single record of relative error 0 (given a positive tolerance). */
  lemma FixedPointStops(s: Solver, it: Iteration, x: real, iterCount: int)
    requires iterCount >= 0 && s.tol > 0.0
    requires it.g.f(x) == x && x != 0.0 && it.g.valid(x) && it.dg(x) <= 1.0
    ensures Loop(s, it, x, iterCount) == Run([FixedPointRecord(s.maxIter - iterCount + 1, x, x, RelValue(0.0))], Finished)
  {
    assert RelativeError(x, x, Sentinel) == 0.0;
  }

  /** The generator yields at most max_iter + 1 records, numbered from 1, the
      first one stepping from the rounded start point; "method didn't
      converge" comes only from the check after the loop, when max_iter is 0;
      and the generator always ends, by running out or by raising. */
  lemma TraceShape(s: Solver, it: Iteration, start: real)
    ensures var r := Trace(s, it, start);
      && |r.records| <= Passes(s.maxIter + 1)
      && (forall k :: 0 <= k < |r.records| ==> r.records[k].iteration == k + 1)
      && (|r.records| > 0 ==> r.records[0].xi == s.round(start))
    ensures Trace(s, it, start).outcome == Raised(DidNotConverge) ==> s.maxIter == 0
    ensures Trace(s, it, start).outcome != Unfinished
  {
    LoopShape(s, it, s.round(start), s.maxIter);
    LoopEnding(s, it, s.round(start), s.maxIter);
  }
}
