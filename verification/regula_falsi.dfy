/** The false-position solver class (`RegulaFalsePosition.false_position` and
    `final_result`): like bisection, but the new point is where the chord
    through (a, f(a)) and (b, f(b)) crosses zero. */
module RegulaFalsi {
  import opened Common

  const Sentinel: real := 17.0
  const NotContinuous := "the function is not continuous at the given range"
  const CannotSolve := "this equation cannot be solved by the False Position method"
  const DidNotConverge := "method didn't converge"

  /** The solver's configuration: rounding to the configured number of
      significant digits, the tolerance, and the iteration budget. */
  datatype Solver = Solver(round: real -> real, tol: real, maxIter: int)

  /** The zero of the chord through (a, fa) and (b, fb): the line
      fa + (x - a) * (fb - fa) / (b - a) crosses zero there. */
  function Chord(a: real, b: real, fa: real, fb: real): (r: real)
    requires fb - fa != 0.0
    ensures (r - a) * (fb - fa) == -fa * (b - a)
  {
    (a * fb - b * fa) / (fb - fa)
  }

  /** `formula_calc(equ, a, b)`. None stands for the complex infinity (or
      nan) the division yields when f(a) == f(b); the loop treats it as a
      point that fails the validity test. */
  function FormulaCalc(e: Equation, a: real, b: real): (r: Option<real>)
    ensures r.None? <==> e.f(a) == e.f(b)
    ensures r.Some? ==> (r.value - a) * (e.f(b) - e.f(a)) == -e.f(a) * (b - a)
  {
    var fa := e.f(a);
    var fb := e.f(b);
    if fb - fa == 0.0 then None else Some(Chord(a, b, fa, fb))
  }

  /** The bracket update: the new point replaces b where f is positive there,
      and a otherwise. */
  function Update(e: Equation, a: real, b: real, mid: real): (real, real)
  {
    if e.f(mid) > 0.0 then (a, mid) else (mid, b)
  }

  /** The bracket after k passes that each found a chord point and updated
      the bracket with it. */
  function BracketAfter(e: Equation, a: real, b: real, k: nat): (real, real)
    decreases k
  {
    if k == 0 then (a, b)
    else
      match FormulaCalc(e, a, b)
      case None => (a, b)
      case Some(mid) => var (a', b') := Update(e, a, b, mid); BracketAfter(e, a', b', k - 1)
  }

  /** The endpoints at loop entry: rounded, and exchanged (rounded again) when
      f is positive at the first one. */
  function Entry(s: Solver, e: Equation, a0: real, b0: real): (real, real)
  {
    var a := s.round(a0);
    var b := s.round(b0);
    if e.f(a) > 0.0 then (s.round(b), s.round(a)) else (a, b)
  }

  /** The record of an ordinary pass. */
  function PassRecord(s: Solver, iterCount: int, prev: real, mid: real): BracketRecord
  {
    BracketRecord(s.maxIter - iterCount, Some(prev), mid, Shown(RelativeError(mid, prev, Sentinel), Sentinel))
  }

  /** The record of a pass whose new point is a root: its relative error is
      rounded before the comparison with the sentinel. */
  function RootRecord(s: Solver, iterCount: int, prev: real, mid: real): BracketRecord
  {
    BracketRecord(s.maxIter - iterCount, Some(prev), mid, Shown(s.round(RelativeError(mid, prev, Sentinel)), Sentinel))
  }

  /** The records and ending of the `while iter_count >= 0` loop, entered with
      bracket (a, b) and previous point prev. The counter is never changed in
      the loop, so nothing but a root, the tolerance or an exception ends it;
      `fuel` bounds the passes the model follows. */
  function Loop(s: Solver, e: Equation, a: real, b: real, prev: real, iterCount: int, fuel: nat): Run<BracketRecord>
    decreases fuel
  {
    if iterCount < 0 then Run([], Finished)
    else if fuel == 0 then Run([], Unfinished)
    else
      match FormulaCalc(e, a, b)
      case None => Run([], Raised(NotContinuous))
      case Some(mid) =>
        if !e.valid(mid) then Run([], Raised(NotContinuous))
        else if Product(e.f(a), e.f(b)) > 0.0 then Run([], Raised(CannotSolve))
        else if e.f(mid) == 0.0 then Run([RootRecord(s, iterCount, prev, mid)], Finished)
        else
          var rec := PassRecord(s, iterCount, prev, mid);
          if RelativeError(prev, mid, Sentinel) < s.tol then Run([rec], Finished)
          else
            var (a', b') := Update(e, a, b, mid);
            Prepend([rec], Loop(s, e, a', b', mid, iterCount, fuel - 1))
  }

  /** The loop followed by the check after it, which raises when the counter
      is 0. */
  function AfterLoop(s: Solver, e: Equation, a: real, b: real, fuel: nat): Run<BracketRecord>
  {
    var r := Loop(s, e, a, b, 0.0, s.maxIter, fuel);
    if r.outcome == Finished && s.maxIter == 0 then Run(r.records, Raised(DidNotConverge)) else r
  }

  /** Everything `false_position(equ, a, b)` yields within `fuel` passes, and
      how it ends. */
  function Trace(s: Solver, e: Equation, a0: real, b0: real, fuel: nat): Run<BracketRecord>
  {
    var a := s.round(a0);
    var b := s.round(b0);
    if e.f(a) == 0.0 then Run([BracketRecord(0, None, a, NoRelativeError)], Finished)
    else if e.f(b) == 0.0 then Run([BracketRecord(0, None, b, NoRelativeError)], Finished)
    else
      var (a1, b1) := Entry(s, e, a0, b0);
      if !e.valid(a1) || !e.valid(b1) then Run([], Raised(NotContinuous))
      else AfterLoop(s, e, a1, b1, fuel)
  }

  /** The generator `false_position`, followed for at most `fuel` passes. */
  method FalsePosition(s: Solver, e: Equation, a0: real, b0: real, fuel: nat) returns (records: seq<BracketRecord>, outcome: Outcome)
    ensures Run(records, outcome) == Trace(s, e, a0, b0, fuel)
  {
    var a := s.round(a0);
    var b := s.round(b0);
    if e.f(a) == 0.0 {
      return [BracketRecord(0, None, a, NoRelativeError)], Finished;
    }
    if e.f(b) == 0.0 {
      return [BracketRecord(0, None, b, NoRelativeError)], Finished;
    }
    if e.f(a) > 0.0 {
      var tmp := s.round(b);
      b := s.round(a);
      a := tmp;
    }
    if !e.valid(a) || !e.valid(b) {
      return [], Raised(NotContinuous);
    }
    records, outcome := RunLoop(s, e, a, b, fuel);
  }

  /** The `while iter_count >= 0` loop of `false_position` and the check after it. */
  method RunLoop(s: Solver, e: Equation, a0: real, b0: real, fuel0: nat) returns (records: seq<BracketRecord>, outcome: Outcome)
    ensures Run(records, outcome) == AfterLoop(s, e, a0, b0, fuel0)
  {
    var iterCount := s.maxIter;
    records, outcome := LoopPasses(s, e, a0, b0, fuel0);
    if outcome == Finished && iterCount == 0 {
      outcome := Raised(DidNotConverge);
    }
    iterCount := iterCount - 1;
  }

  /** The passes of the `while iter_count >= 0` loop; the counter is never
      decremented inside it. */
  method LoopPasses(s: Solver, e: Equation, a0: real, b0: real, fuel0: nat) returns (records: seq<BracketRecord>, outcome: Outcome)
    ensures Run(records, outcome) == Loop(s, e, a0, b0, 0.0, s.maxIter, fuel0)
  {
    var a, b := a0, b0;
    var iterCount := s.maxIter;
    var prev := 0.0;
    var fuel := fuel0;
    ghost var whole := Loop(s, e, a, b, prev, iterCount, fuel);
    var ended: Option<Outcome> := None;
    records := [];
    while iterCount >= 0 && ended.None?
      invariant iterCount == s.maxIter
      invariant ended.None? ==> Prepend(records, Loop(s, e, a, b, prev, iterCount, fuel)) == whole
      invariant ended.Some? ==> Run(records, ended.value) == whole
      decreases fuel, if ended.None? then 1 else 0
    {
      if fuel == 0 {
        ended := Some(Unfinished);
      } else {
        ghost var before := records;
        var yielded;
        yielded, ended, a, b, prev := Pass(s, e, a, b, prev, iterCount, fuel);
        records := records + yielded;
        fuel := fuel - 1;
        ghost var next := Loop(s, e, a, b, prev, iterCount, fuel);
        PrependTwice(before, yielded, next);
      }
    }
    outcome := if ended.Some? then ended.value else Finished;
  }

  /** One pass of the loop body, from the chord to the update of prev: the
      records it yields, the exception or break that ends the loop (None
      when the loop goes on), and the new bracket and previous point. */
  method Pass(s: Solver, e: Equation, a0: real, b0: real, prev0: real, iterCount: int, fuel: nat)
    returns (yielded: seq<BracketRecord>, ended: Option<Outcome>, a: real, b: real, prev: real)
    requires iterCount >= 0 && fuel > 0
    ensures ended.None? ==> Loop(s, e, a0, b0, prev0, iterCount, fuel) == Prepend(yielded, Loop(s, e, a, b, prev, iterCount, fuel - 1))
    ensures ended.Some? ==> Loop(s, e, a0, b0, prev0, iterCount, fuel) == Run(yielded, ended.value)
  {
    a, b, prev := a0, b0, prev0;
    yielded := [];
    ended := None;
    var chord := FormulaCalc(e, a, b);
    if chord.None? {
      ended := Some(Raised(NotContinuous));
      return;
    }
    var mid := chord.value;
    if !e.valid(mid) {
      ended := Some(Raised(NotContinuous));
      return;
    }
    if Product(e.f(a), e.f(b)) > 0.0 {
      ended := Some(Raised(CannotSolve));
      return;
    }
    if e.f(mid) == 0.0 {
      var relative := Shown(s.round(RelativeError(mid, prev, Sentinel)), Sentinel);
      yielded := [BracketRecord(s.maxIter - iterCount, Some(prev), mid, relative)];
      ended := Some(Finished);
      return;
    }
    if e.f(mid) > 0.0 {
      b := mid;
    } else {
      a := mid;
    }
    var relative := Shown(RelativeError(mid, prev, Sentinel), Sentinel);
    yielded := [BracketRecord(s.maxIter - iterCount, Some(prev), mid, relative)];
    if RelativeError(prev, mid, Sentinel) < s.tol {
      ended := Some(Finished);
      return;
    }
    prev := mid;
  }

  /** `final_result(equ, a, b)`: drives the generator to its end, keeping the
      last new root. */
  method FinalResult(s: Solver, e: Equation, a0: real, b0: real, fuel: nat) returns (r: Final)
    ensures r == FinalOf(Trace(s, e, a0, b0, fuel), NewRoot)
  {
    var records, outcome := FalsePosition(s, e, a0, b0, fuel);
    match outcome {
      case Raised(m) => return Error(m);
      case Unfinished => return Pending;
      case Finished =>
    }
    var last := 0.0;
    for i := 0 to |records|
      invariant last == if i == 0 then 0.0 else records[i - 1].newRoot
    {
      last := records[i].newRoot;
    }
    r := Root(last);
  }

  // ---------------------------------------------------------------------------
  // Properties of the generator

  /** Where f(a) < 0 < f(b), the chord's zero lies strictly between a and b
      (in whichever order they come). */
  lemma ChordBetween(a: real, b: real, fa: real, fb: real)
    requires fa < 0.0 < fb
    ensures var m := Chord(a, b, fa, fb);
      (a < b ==> a < m < b) && (b < a ==> b < m < a) && (a == b ==> m == a)
  {
    var d := fb - fa;
    var t := -fa / d;
    assert t * d == -fa;
    assert 0.0 < t < 1.0 by {
      assert (1.0 - t) * d == fb;
      PositiveFactor(t, d);
      PositiveFactor(1.0 - t, d);
    }
    var m := Chord(a, b, fa, fb);
    assert m * d == a * fb - b * fa;
    assert (a + t * (b - a)) * d == a * d + (-fa) * (b - a);
    assert m == a + t * (b - a);
    if a < b {
      assert t * (b - a) > 0.0;
      assert t * (b - a) < b - a;
    } else if b < a {
      assert t * (a - b) > 0.0;
      assert t * (a - b) < a - b;
    }
  }

  lemma PositiveFactor(x: real, d: real)
    requires d > 0.0 && x * d > 0.0
    ensures x > 0.0
  {
  }

  /** The update keeps f(a) < 0 < f(b) when the new point is not a root, and
      the new bracket lies inside the old one. */
  lemma UpdateKeepsBracket(e: Equation, a: real, b: real, mid: real)
    requires e.f(a) < 0.0 < e.f(b)
    requires e.f(mid) != 0.0
    ensures var (a', b') := Update(e, a, b, mid);
      e.f(a') < 0.0 < e.f(b') && (a' == a || a' == mid) && (b' == b || b' == mid)
  {
  }

  /** Lo and hi of a pair: the pair's ends in increasing order. */
  function Lo(a: real, b: real): real { if a <= b then a else b }
  function Hi(a: real, b: real): real { if a <= b then b else a }

  /** From a bracket with f(a) < 0 < f(b), the loop never raises "cannot be
      solved", never meets an undefined chord, and every new point lies
      strictly inside the bracket it started from. */
  lemma {:induction false} LoopBracketed(s: Solver, e: Equation, a: real, b: real, prev: real, iterCount: int, fuel: nat)
    requires e.f(a) < 0.0 < e.f(b)
    ensures var r := Loop(s, e, a, b, prev, iterCount, fuel);
      && r.outcome != Raised(CannotSolve)
      && forall k :: 0 <= k < |r.records| ==> Lo(a, b) < r.records[k].newRoot < Hi(a, b)
    decreases fuel
  {
    var r := Loop(s, e, a, b, prev, iterCount, fuel);
    if iterCount >= 0 && fuel > 0 {
      assert e.f(b) - e.f(a) != 0.0;
      var mid := Chord(a, b, e.f(a), e.f(b));
      assert FormulaCalc(e, a, b) == Some(mid);
      ChordBetween(a, b, e.f(a), e.f(b));
      assert Product(e.f(a), e.f(b)) < 0.0;
      if e.valid(mid) && e.f(mid) != 0.0 && RelativeError(prev, mid, Sentinel) >= s.tol {
        var (a', b') := Update(e, a, b, mid);
        UpdateKeepsBracket(e, a, b, mid);
        LoopBracketed(s, e, a', b', mid, iterCount, fuel - 1);
        var rest := Loop(s, e, a', b', mid, iterCount, fuel - 1);
        assert r.records == [PassRecord(s, iterCount, prev, mid)] + rest.records;
        assert Lo(a, b) <= Lo(a', b') && Hi(a', b') <= Hi(a, b);
        forall k | 0 < k < |r.records|
          ensures Lo(a, b) < r.records[k].newRoot < Hi(a, b)
        {
          assert r.records[k] == rest.records[k - 1];
        }
      }
    }
  }

  /** The loop's records all report iteration max_iter - iter_count; each
      record's old root is the previous record's new root; a pass is followed
      by another only when its point is not a root and its relative error is
      not below the tolerance. */
  lemma {:induction false} LoopShape(s: Solver, e: Equation, a: real, b: real, prev: real, iterCount: int, fuel: nat)
    ensures var r := Loop(s, e, a, b, prev, iterCount, fuel);
      && (forall k :: 0 <= k < |r.records| ==> r.records[k].iteration == s.maxIter - iterCount)
      && (|r.records| > 0 ==> r.records[0].oldRoot == Some(prev))
      && (forall k :: 0 < k < |r.records| ==> r.records[k].oldRoot == Some(r.records[k - 1].newRoot))
      && (forall k :: 0 <= k < |r.records| - 1 ==>
            r.records[k].oldRoot.Some? &&
            e.f(r.records[k].newRoot) != 0.0 &&
            RelativeError(r.records[k].oldRoot.value, r.records[k].newRoot, Sentinel) >= s.tol)
    decreases fuel
  {
    var r := Loop(s, e, a, b, prev, iterCount, fuel);
    if iterCount >= 0 && fuel > 0 && FormulaCalc(e, a, b).Some? {
      var mid := FormulaCalc(e, a, b).value;
      if e.valid(mid) && Product(e.f(a), e.f(b)) <= 0.0 && e.f(mid) != 0.0 && RelativeError(prev, mid, Sentinel) >= s.tol {
        var (a', b') := Update(e, a, b, mid);
        LoopShape(s, e, a', b', mid, iterCount, fuel - 1);
        var rest := Loop(s, e, a', b', mid, iterCount, fuel - 1);
        assert r.records == [PassRecord(s, iterCount, prev, mid)] + rest.records;
        assert forall k :: 0 < k < |r.records| ==> r.records[k] == rest.records[k - 1];
      }
    }
  }

  /** How the loop ends: a normal end (with the counter not negative) comes
      right after a record whose new point is a root or meets the tolerance
      against its old one; running out of fuel follows exactly `fuel`
      records; and only the two exceptions of the loop body are raised. */
  lemma {:induction false} LoopEnding(s: Solver, e: Equation, a: real, b: real, prev: real, iterCount: int, fuel: nat)
    ensures var r := Loop(s, e, a, b, prev, iterCount, fuel);
      && (r.outcome == Finished && iterCount >= 0 ==>
            |r.records| > 0 &&
            var last := r.records[|r.records| - 1];
            last.oldRoot.Some? &&
            (e.f(last.newRoot) == 0.0 || RelativeError(last.oldRoot.value, last.newRoot, Sentinel) < s.tol))
      && (r.outcome == Unfinished ==> |r.records| == fuel)
      && (r.outcome.Raised? ==> r.outcome.message == NotContinuous || r.outcome.message == CannotSolve)
    decreases fuel
  {
    var r := Loop(s, e, a, b, prev, iterCount, fuel);
    if iterCount >= 0 && fuel > 0 && FormulaCalc(e, a, b).Some? {
      var mid := FormulaCalc(e, a, b).value;
      if e.valid(mid) && Product(e.f(a), e.f(b)) <= 0.0 && e.f(mid) != 0.0 && RelativeError(prev, mid, Sentinel) >= s.tol {
        var (a', b') := Update(e, a, b, mid);
        LoopEnding(s, e, a', b', mid, iterCount, fuel - 1);
        var rest := Loop(s, e, a', b', mid, iterCount, fuel - 1);
        assert r.records == [PassRecord(s, iterCount, prev, mid)] + rest.records;
      }
    }
  }

  /** When the loop raises, and why: on the bracket it had reached, the
      chord is undefined or its point fails the validity test ("not
      continuous"), or the point passes and f(a)*f(b) > 0 ("cannot be
      solved"). Every pass that yielded a record found a valid chord point on
      its own bracket, where f(a)*f(b) <= 0. */
  lemma {:induction false} LoopRaises(s: Solver, e: Equation, a: real, b: real, prev: real, iterCount: int, fuel: nat)
    ensures var r := Loop(s, e, a, b, prev, iterCount, fuel);
      var here := BracketAfter(e, a, b, |r.records|);
      var point := FormulaCalc(e, here.0, here.1);
      && (forall k: nat :: k < |r.records| ==>
            && FormulaCalc(e, BracketAfter(e, a, b, k).0, BracketAfter(e, a, b, k).1) == Some(r.records[k].newRoot)
            && e.valid(r.records[k].newRoot)
            && Product(e.f(BracketAfter(e, a, b, k).0), e.f(BracketAfter(e, a, b, k).1)) <= 0.0)
      && (r.outcome.Raised? ==> iterCount >= 0 && |r.records| < fuel)
      && (r.outcome == Raised(NotContinuous) <==> r.outcome.Raised? && (point.None? || !e.valid(point.value)))
      && (r.outcome == Raised(CannotSolve) <==>
            r.outcome.Raised? && point.Some? && e.valid(point.value) && Product(e.f(here.0), e.f(here.1)) > 0.0)
    decreases fuel
  {
    var r := Loop(s, e, a, b, prev, iterCount, fuel);
    if iterCount >= 0 && fuel > 0 && FormulaCalc(e, a, b).Some? {
      var mid := FormulaCalc(e, a, b).value;
      if e.valid(mid) && Product(e.f(a), e.f(b)) <= 0.0 && e.f(mid) != 0.0 && RelativeError(prev, mid, Sentinel) >= s.tol {
        var (a', b') := Update(e, a, b, mid);
        LoopRaises(s, e, a', b', mid, iterCount, fuel - 1);
        var rest := Loop(s, e, a', b', mid, iterCount, fuel - 1);
        assert r.records == [PassRecord(s, iterCount, prev, mid)] + rest.records;
        assert BracketAfter(e, a, b, |r.records|) == BracketAfter(e, a', b', |rest.records|);
        forall k: nat | 0 < k < |r.records|
          ensures && FormulaCalc(e, BracketAfter(e, a, b, k).0, BracketAfter(e, a, b, k).1) == Some(r.records[k].newRoot)
                  && e.valid(r.records[k].newRoot)
                  && Product(e.f(BracketAfter(e, a, b, k).0), e.f(BracketAfter(e, a, b, k).1)) <= 0.0
        {
          assert BracketAfter(e, a, b, k) == BracketAfter(e, a', b', k - 1);
          assert r.records[k] == rest.records[k - 1];
        }
      }
    }
  }

  /** A root at an endpoint: exactly one iteration-0 record for it, and nothing
      else; a is looked at before b. */
  lemma ZeroEndpoint(s: Solver, e: Equation, a0: real, b0: real, fuel: nat)
    ensures e.f(s.round(a0)) == 0.0 ==>
      Trace(s, e, a0, b0, fuel) == Run([BracketRecord(0, None, s.round(a0), NoRelativeError)], Finished)
    ensures e.f(s.round(a0)) != 0.0 && e.f(s.round(b0)) == 0.0 ==>
      Trace(s, e, a0, b0, fuel) == Run([BracketRecord(0, None, s.round(b0), NoRelativeError)], Finished)
  {
  }

  /** Every record of the generator reports iteration 0, and the check after
      the loop raises exactly when max_iter is 0 and the loop itself ended
      normally. */
  lemma TraceShape(s: Solver, e: Equation, a0: real, b0: real, fuel: nat)
    ensures var r := Trace(s, e, a0, b0, fuel);
      forall k :: 0 <= k < |r.records| ==> r.records[k].iteration == 0
    ensures Trace(s, e, a0, b0, fuel).outcome == Raised(DidNotConverge) ==> s.maxIter == 0
  {
    var a := s.round(a0);
    var b := s.round(b0);
    if e.f(a) != 0.0 && e.f(b) != 0.0 {
      var entry := Entry(s, e, a0, b0);
      if e.valid(entry.0) && e.valid(entry.1) {
        LoopShape(s, e, entry.0, entry.1, 0.0, s.maxIter, fuel);
        LoopEnding(s, e, entry.0, entry.1, 0.0, s.maxIter, fuel);
        var r := Loop(s, e, entry.0, entry.1, 0.0, s.maxIter, fuel);
        assert Trace(s, e, a0, b0, fuel).records == r.records;
      }
    }
  }

  /** When the bracket at loop entry satisfies f(a) < 0 < f(b), the generator
      never raises "cannot be solved", and every new root lies strictly
      between the entry endpoints. */
  lemma TraceBracketed(s: Solver, e: Equation, a0: real, b0: real, fuel: nat)
    requires e.f(s.round(a0)) != 0.0 && e.f(s.round(b0)) != 0.0
    requires e.f(Entry(s, e, a0, b0).0) < 0.0 < e.f(Entry(s, e, a0, b0).1)
    ensures Trace(s, e, a0, b0, fuel).outcome != Raised(CannotSolve)
    ensures var r := Trace(s, e, a0, b0, fuel);
      var entry := Entry(s, e, a0, b0);
      forall k :: 0 <= k < |r.records| ==> Lo(entry.0, entry.1) < r.records[k].newRoot < Hi(entry.0, entry.1)
  {
    var entry := Entry(s, e, a0, b0);
    LoopBracketed(s, e, entry.0, entry.1, 0.0, s.maxIter, fuel);
  }
}
