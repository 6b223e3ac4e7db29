/** The bisection solver class (`Bisection.bisection` and `final_result`):
    a generator that halves a sign-changing bracket and yields one record per
    midpoint. */
module Bisection {
  import opened Common

  const Sentinel: real := 17.1717
  const NotContinuous := "the function is not continuous at the given range"
  const CannotSolve := "this equation cannot be solved by the Bisection method"
  const DidNotConverge := "method didn't converge"

  /** The solver's configuration: rounding to the configured number of
      significant digits, the tolerance, and the iteration budget. */
  datatype Solver = Solver(round: real -> real, tol: real, maxIter: int)

  function Midpoint(a: real, b: real): real
  {
    (b + a) / 2.0
  }

  /** The bracket update: the midpoint replaces b where f is positive there,
      and a otherwise. */
  function Halve(e: Equation, a: real, b: real): (real, real)
  {
    var mid := Midpoint(a, b);
    if e.f(mid) > 0.0 then (a, mid) else (mid, b)
  }

  /** The bracket after k updates, whatever the loop decides. */
  function BracketAfter(e: Equation, a: real, b: real, k: nat): (real, real)
    decreases k
  {
    if k == 0 then (a, b) else var (a', b') := Halve(e, a, b); BracketAfter(e, a', b', k - 1)
  }

  /** The endpoints at loop entry: rounded, and exchanged (rounded again) when
      f is positive at the first one. */
  function Entry(s: Solver, e: Equation, a0: real, b0: real): (real, real)
  {
    var a := s.round(a0);
    var b := s.round(b0);
    if e.f(a) > 0.0 then (s.round(b), s.round(a)) else (a, b)
  }

  /** The record of one pass: iteration number, previous and new midpoint, and
      the displayed relative error of the new midpoint against the previous. */
  function PassRecord(s: Solver, count: int, prev: real, mid: real): BracketRecord
  {
    BracketRecord(s.maxIter - (count - 1), Some(prev), mid, Shown(RelativeError(mid, prev, Sentinel), Sentinel))
  }

  /** The records and ending of the `while iter_count > 0` loop, entered with
      bracket (a, b), previous midpoint prev and counter `count`. */
  function Loop(s: Solver, e: Equation, a: real, b: real, prev: real, count: int): Run<BracketRecord>
    decreases Passes(count)
  {
    if count <= 0 then Run([], Finished)
    else
      var mid := Midpoint(a, b);
      if !e.valid(mid) then Run([], Raised(NotContinuous))
      else if Product(e.f(a), e.f(b)) > 1.0 then Run([], Raised(CannotSolve))
      else
        var rec := PassRecord(s, count, prev, mid);
        if e.f(mid) == 0.0 then Run([rec], Finished)
        else if RelativeError(prev, mid, Sentinel) < s.tol then Run([rec], Finished)
        else
          var (a', b') := Halve(e, a, b);
          Prepend([rec], Loop(s, e, a', b', mid, count - 1))
  }

  /** Everything `bisection(equ, a, b)` yields, and how it ends. */
  function Trace(s: Solver, e: Equation, a0: real, b0: real): Run<BracketRecord>
  {
    var a := s.round(a0);
    var b := s.round(b0);
    if e.f(a) == 0.0 then Run([BracketRecord(0, None, a, NoRelativeError)], Finished)
    else if e.f(b) == 0.0 then Run([BracketRecord(0, None, b, NoRelativeError)], Finished)
    else
      var (a1, b1) := Entry(s, e, a0, b0);
      if !e.valid(a1) || !e.valid(b1) then Run([], Raised(NotContinuous))
      else
        var r := Loop(s, e, a1, b1, 0.0, s.maxIter);
        if r.outcome == Finished && s.maxIter == 0 then Run(r.records, Raised(DidNotConverge)) else r
  }

  /** The generator `bisection`, run to its end. */
  method Bisect(s: Solver, e: Equation, a0: real, b0: real) returns (records: seq<BracketRecord>, outcome: Outcome)
    ensures Run(records, outcome) == Trace(s, e, a0, b0)
  {
    var a := s.round(a0);
    var b := s.round(b0);
    if e.f(a) == 0.0 {
      return [BracketRecord(0, None, a, NoRelativeError)], Finished;
    }
    if e.f(b) == 0.0 {
      return [BracketRecord(0, None, b, NoRelativeError)], Finished;
    }
    if e.f(a) > 0.0 {
      var tmp := s.round(b);
      b := s.round(a);
      a := tmp;
    }
    if !e.valid(a) || !e.valid(b) {
      return [], Raised(NotContinuous);
    }
    records, outcome := RunLoop(s, e, a, b);
  }

  /** The `while iter_count > 0` loop of `bisection`, entered with a bracket
      that passed the validity test, and the check after it. */
  method RunLoop(s: Solver, e: Equation, a0: real, b0: real) returns (records: seq<BracketRecord>, outcome: Outcome)
    ensures Run(records, outcome) == var r := Loop(s, e, a0, b0, 0.0, s.maxIter);
      if r.outcome == Finished && s.maxIter == 0 then Run(r.records, Raised(DidNotConverge)) else r
  {
    var a, b := a0, b0;
    var iterCount := s.maxIter;
    var prev := 0.0;
    ghost var whole := Loop(s, e, a, b, prev, iterCount);
    records := [];
    while iterCount > 0
      invariant Prepend(records, Loop(s, e, a, b, prev, iterCount)) == whole
      decreases iterCount
    {
      ghost var rest := Loop(s, e, a, b, prev, iterCount);
      iterCount := iterCount - 1;
      var mid := Midpoint(a, b);
      if !e.valid(mid) {
        return records, Raised(NotContinuous);
      }
      if Product(e.f(a), e.f(b)) > 1.0 {
        return records, Raised(CannotSolve);
      }
      var relative := Shown(RelativeError(mid, prev, Sentinel), Sentinel);
      if e.f(mid) == 0.0 {
        records := records + [BracketRecord(s.maxIter - iterCount, Some(prev), mid, relative)];
        assert Prepend(records, Run([], Finished)) == whole;
        break;
      }
      if e.f(mid) > 0.0 {
        b := mid;
      } else {
        a := mid;
      }
      relative := Shown(RelativeError(mid, prev, Sentinel), Sentinel);
      ghost var before := records;
      var record := BracketRecord(s.maxIter - iterCount, Some(prev), mid, relative);
      records := records + [record];
      if RelativeError(prev, mid, Sentinel) < s.tol {
        assert Prepend(records, Run([], Finished)) == whole;
        break;
      }
      prev := mid;
      ghost var next := Loop(s, e, a, b, prev, iterCount);
      assert rest == Prepend([record], next);
      PrependTwice(before, [record], next);
    }
    outcome := Finished;
    if s.maxIter == 0 {
      outcome := Raised(DidNotConverge);
    }
  }

  /** `final_result(equ, a, b)`: drives the generator to its end, keeping the
      last new root. */
  method FinalResult(s: Solver, e: Equation, a0: real, b0: real) returns (r: Final)
    ensures r == FinalOf(Trace(s, e, a0, b0), NewRoot)
  {
    var records, outcome := Bisect(s, e, a0, b0);
    match outcome {
      case Raised(m) => return Error(m);
      case Unfinished => return Pending;
      case Finished =>
    }
    var last := 0.0;
    for i := 0 to |records|
      invariant last == if i == 0 then 0.0 else records[i - 1].newRoot
    {
      last := records[i].newRoot;
    }
    r := Root(last);
  }

  // ---------------------------------------------------------------------------
  // Properties of the generator

  /** A root at an endpoint: exactly one iteration-0 record for it, and nothing
      else; a is looked at before b. */
  lemma ZeroEndpoint(s: Solver, e: Equation, a0: real, b0: real)
    ensures e.f(s.round(a0)) == 0.0 ==>
      Trace(s, e, a0, b0) == Run([BracketRecord(0, None, s.round(a0), NoRelativeError)], Finished)
    ensures e.f(s.round(a0)) != 0.0 && e.f(s.round(b0)) == 0.0 ==>
      Trace(s, e, a0, b0) == Run([BracketRecord(0, None, s.round(b0), NoRelativeError)], Finished)
    ensures e.f(s.round(a0)) == 0.0 ==> FinalOf(Trace(s, e, a0, b0), NewRoot) == Root(s.round(a0))
  {
  }

  /** The loop yields at most one record per pass, numbered consecutively; each
      record's old root is the previous record's new root; every record's
      midpoint passed the validity test. */
  lemma {:induction false} LoopShape(s: Solver, e: Equation, a: real, b: real, prev: real, count: int)
    ensures var r := Loop(s, e, a, b, prev, count);
      && |r.records| <= Passes(count)
      && (forall k :: 0 <= k < |r.records| ==> r.records[k].iteration == s.maxIter - count + k + 1)
      && (|r.records| > 0 ==> r.records[0].oldRoot == Some(prev))
      && (forall k :: 0 < k < |r.records| ==> r.records[k].oldRoot == Some(r.records[k - 1].newRoot))
      && (forall k :: 0 <= k < |r.records| ==> e.valid(r.records[k].newRoot))
    decreases Passes(count)
  {
    if count > 0 {
      var mid := Midpoint(a, b);
      if e.valid(mid) && Product(e.f(a), e.f(b)) <= 1.0 && e.f(mid) != 0.0 && RelativeError(prev, mid, Sentinel) >= s.tol {
        var (a', b') := Halve(e, a, b);
        LoopShape(s, e, a', b', mid, count - 1);
      }
    }
  }

  /** The loop continues past a record only when its midpoint is not a root and
      its relative error (taken against the new midpoint) is not below the
      tolerance; when it stops early without raising, the last record is a root
      or met the tolerance. */
  lemma {:induction false} LoopStops(s: Solver, e: Equation, a: real, b: real, prev: real, count: int)
    ensures var r := Loop(s, e, a, b, prev, count);
      && (forall k :: 0 <= k < |r.records| - 1 ==>
            r.records[k].oldRoot.Some? &&
            e.f(r.records[k].newRoot) != 0.0 &&
            RelativeError(r.records[k].oldRoot.value, r.records[k].newRoot, Sentinel) >= s.tol)
      && (r.outcome == Finished && |r.records| < Passes(count) ==>
            |r.records| > 0 &&
            var last := r.records[|r.records| - 1];
            last.oldRoot.Some? &&
            (e.f(last.newRoot) == 0.0 || RelativeError(last.oldRoot.value, last.newRoot, Sentinel) < s.tol))
    decreases Passes(count)
  {
    if count > 0 {
      var mid := Midpoint(a, b);
      if e.valid(mid) && Product(e.f(a), e.f(b)) <= 1.0 && e.f(mid) != 0.0 && RelativeError(prev, mid, Sentinel) >= s.tol {
        var (a', b') := Halve(e, a, b);
        LoopStops(s, e, a', b', mid, count - 1);
        var rest := Loop(s, e, a', b', mid, count - 1);
        var r := Loop(s, e, a, b, prev, count);
        assert r.records == [PassRecord(s, count, prev, mid)] + rest.records;
        assert forall k :: 0 < k < |r.records| ==> r.records[k] == rest.records[k - 1];
      }
    }
  }

  /** The update keeps f(a) < 0 < f(b) when the midpoint is not a root, and
      halves the width of the bracket. */
  lemma HalveKeepsBracket(e: Equation, a: real, b: real)
    requires e.f(a) < 0.0 < e.f(b)
    requires e.f(Midpoint(a, b)) != 0.0
    ensures var (a', b') := Halve(e, a, b);
      e.f(a') < 0.0 < e.f(b') && Abs(b' - a') * 2.0 == Abs(b - a)
  {
  }

  /** w halved k times, that is w / 2^k. */
  function Halved(w: real, k: nat): real
    decreases k
  {
    if k == 0 then w else Halved(w / 2.0, k - 1)
  }

  /** Every update halves the width of the bracket: after k updates it is the
      first width halved k times. */
  lemma {:induction false} BracketAfterWidth(e: Equation, a: real, b: real, k: nat)
    ensures Abs(BracketAfter(e, a, b, k).1 - BracketAfter(e, a, b, k).0) == Halved(Abs(b - a), k)
    decreases k
  {
    if k > 0 {
      var next := Halve(e, a, b);
      assert Abs(next.1 - next.0) == Abs(b - a) / 2.0;
      BracketAfterWidth(e, next.0, next.1, k - 1);
    }
  }

  /** From a bracket with f(a) < 0 < f(b), the k-th record's new root is the
      midpoint of the bracket after k updates, and that bracket still has
      f(lo) < 0 < f(hi); the "cannot be solved" exception is never raised. */
  lemma {:induction false} LoopFollowsBrackets(s: Solver, e: Equation, a: real, b: real, prev: real, count: int)
    requires e.f(a) < 0.0 < e.f(b)
    ensures var r := Loop(s, e, a, b, prev, count);
      && r.outcome != Raised(CannotSolve)
      && forall k: nat :: k < |r.records| ==>
           && e.f(BracketAfter(e, a, b, k).0) < 0.0 < e.f(BracketAfter(e, a, b, k).1)
           && r.records[k].newRoot == Midpoint(BracketAfter(e, a, b, k).0, BracketAfter(e, a, b, k).1)
    decreases Passes(count)
  {
    var r := Loop(s, e, a, b, prev, count);
    if count > 0 {
      var mid := Midpoint(a, b);
      assert Product(e.f(a), e.f(b)) < 0.0;
      if e.valid(mid) && e.f(mid) != 0.0 && RelativeError(prev, mid, Sentinel) >= s.tol {
        var (a', b') := Halve(e, a, b);
        HalveKeepsBracket(e, a, b);
        LoopFollowsBrackets(s, e, a', b', mid, count - 1);
        var rest := Loop(s, e, a', b', mid, count - 1);
        assert r.records == [PassRecord(s, count, prev, mid)] + rest.records;
        forall k: nat | 0 < k < |r.records|
          ensures && e.f(BracketAfter(e, a, b, k).0) < 0.0 < e.f(BracketAfter(e, a, b, k).1)
                  && r.records[k].newRoot == Midpoint(BracketAfter(e, a, b, k).0, BracketAfter(e, a, b, k).1)
        {
          assert BracketAfter(e, a, b, k) == BracketAfter(e, a', b', k - 1);
          assert r.records[k] == rest.records[k - 1];
        }
      }
    }
  }

  /** The trace as a whole: a zero endpoint gives one iteration-0 record;
      otherwise at most max_iter records, numbered 1, 2, 3, ... */
  lemma TraceCount(s: Solver, e: Equation, a0: real, b0: real)
    ensures var r := Trace(s, e, a0, b0);
      && |r.records| <= Passes(s.maxIter) + 1
      && (e.f(s.round(a0)) != 0.0 && e.f(s.round(b0)) != 0.0 ==>
            && |r.records| <= Passes(s.maxIter)
            && forall k :: 0 <= k < |r.records| ==> r.records[k].iteration == k + 1)
  {
    var (a1, b1) := Entry(s, e, a0, b0);
    LoopShape(s, e, a1, b1, 0.0, s.maxIter);
  }

  /** When the bracket at loop entry satisfies f(a) < 0 < f(b), every record's
      new root is the midpoint of a bracket that still changes sign and whose
      width is the entry width halved k times; the sign test never raises. */
  lemma TraceBracketed(s: Solver, e: Equation, a0: real, b0: real)
    requires e.f(s.round(a0)) != 0.0 && e.f(s.round(b0)) != 0.0
    requires e.f(Entry(s, e, a0, b0).0) < 0.0 < e.f(Entry(s, e, a0, b0).1)
    ensures Trace(s, e, a0, b0).outcome != Raised(CannotSolve)
    ensures var r := Trace(s, e, a0, b0);
      var entry := Entry(s, e, a0, b0);
      forall k: nat :: k < |r.records| ==>
        var bracket := BracketAfter(e, entry.0, entry.1, k);
        && e.f(bracket.0) < 0.0 < e.f(bracket.1)
        && Abs(bracket.1 - bracket.0) == Halved(Abs(entry.1 - entry.0), k)
        && r.records[k].newRoot == Midpoint(bracket.0, bracket.1)
  {
    var entry := Entry(s, e, a0, b0);
    LoopFollowsBrackets(s, e, entry.0, entry.1, 0.0, s.maxIter);
    forall k: nat {
      BracketAfterWidth(e, entry.0, entry.1, k);
    }
  }

  /** With a tolerance at most the sentinel, the first pass never stops on the
      tolerance, because its previous midpoint is 0 and its relative error is
      the sentinel: with a budget of two passes or more, a loop that ends
      normally after a single record ended on a root. */
  lemma FirstPassIgnoresTolerance(s: Solver, e: Equation, a: real, b: real, count: int)
    requires s.tol <= Sentinel && count >= 2
    ensures var r := Loop(s, e, a, b, 0.0, count);
      |r.records| == 1 && r.outcome == Finished ==> e.f(r.records[0].newRoot) == 0.0
  {
    var mid := Midpoint(a, b);
    if e.valid(mid) && Product(e.f(a), e.f(b)) <= 1.0 && e.f(mid) != 0.0 {
      assert RelativeError(0.0, mid, Sentinel) == Sentinel;
      var (a', b') := Halve(e, a, b);
      var rest := Loop(s, e, a', b', mid, count - 1);
      assert rest.outcome.Raised? || |rest.records| >= 1;
    }
  }

  /** When the loop raises, and why: the midpoint of the bracket it had
      reached failed the validity test ("not continuous"), or it passed and
      f(a)*f(b) > 1 on that bracket ("cannot be solved"). Every pass that
      yielded a record passed both tests, on the bracket after as many
      updates as records before it. */
  lemma {:induction false} LoopRaises(s: Solver, e: Equation, a: real, b: real, prev: real, count: int)
    ensures var r := Loop(s, e, a, b, prev, count);
      var here := BracketAfter(e, a, b, |r.records|);
      && (forall k: nat :: k < |r.records| ==>
            && r.records[k].newRoot == Midpoint(BracketAfter(e, a, b, k).0, BracketAfter(e, a, b, k).1)
            && e.valid(r.records[k].newRoot)
            && Product(e.f(BracketAfter(e, a, b, k).0), e.f(BracketAfter(e, a, b, k).1)) <= 1.0)
      && (r.outcome.Raised? ==> |r.records| < Passes(count))
      && (r.outcome == Raised(NotContinuous) <==> r.outcome.Raised? && !e.valid(Midpoint(here.0, here.1)))
      && (r.outcome == Raised(CannotSolve) <==>
            r.outcome.Raised? && e.valid(Midpoint(here.0, here.1)) && Product(e.f(here.0), e.f(here.1)) > 1.0)
    decreases Passes(count)
  {
    var r := Loop(s, e, a, b, prev, count);
    if count > 0 {
      var mid := Midpoint(a, b);
      if e.valid(mid) && Product(e.f(a), e.f(b)) <= 1.0 && e.f(mid) != 0.0 && RelativeError(prev, mid, Sentinel) >= s.tol {
        var (a', b') := Halve(e, a, b);
        LoopRaises(s, e, a', b', mid, count - 1);
        var rest := Loop(s, e, a', b', mid, count - 1);
        assert r.records == [PassRecord(s, count, prev, mid)] + rest.records;
        assert BracketAfter(e, a, b, |r.records|) == BracketAfter(e, a', b', |rest.records|);
        forall k: nat | 0 < k < |r.records|
          ensures && r.records[k].newRoot == Midpoint(BracketAfter(e, a, b, k).0, BracketAfter(e, a, b, k).1)
                  && e.valid(r.records[k].newRoot)
                  && Product(e.f(BracketAfter(e, a, b, k).0), e.f(BracketAfter(e, a, b, k).1)) <= 1.0
        {
          assert BracketAfter(e, a, b, k) == BracketAfter(e, a', b', k - 1);
          assert r.records[k] == rest.records[k - 1];
        }
      }
    }
  }

  /** The sign test compares f(a)*f(b) with 1, not 0: a bracket whose ends have
      the same sign and whose product is at most 1 is bisected anyway. Here
      f is the constant 0.5 on [0, 1]. */
  lemma SameSignBracketAccepted()
    ensures var e := Equation(x => 0.5, x => true);
      var s := Solver(x => x, 1.0, 1);
      && e.f(0.0) * e.f(1.0) > 0.0
      && Trace(s, e, 0.0, 1.0) == Run([BracketRecord(1, Some(0.0), 0.5, NoRelativeError)], Finished)
  {
    var e := Equation(x => 0.5, x => true);
    var s := Solver(x => x, 1.0, 1);
    assert Entry(s, e, 0.0, 1.0) == (1.0, 0.0);
    assert Midpoint(1.0, 0.0) == 0.5;
  }
}
