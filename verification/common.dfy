/** Values shared by the root finders: how a record generator ends, the
    relative-error field of a record, and the relative error with its numeric
    "no relative error" sentinel. */
module Common {

  datatype Option<T> = None | Some(value: T)

  /** A call that returns a value, or raises an exception with a message. */
  datatype Result<T> = Success(value: T) | Failure(message: string)

  /** How a record generator stops: it runs out normally, it raises, or, for a
      loop with no bound of its own, it is still running when the fuel given to
      the model runs out. */
  datatype Outcome = Finished | Raised(message: string) | Unfinished

  /** The records a generator yields, in order, and how it stopped. The records
      yielded before an exception are part of the run: a consumer has seen them. */
  datatype Run<R> = Run(records: seq<R>, outcome: Outcome)

  function Prepend<R>(prefix: seq<R>, run: Run<R>): Run<R>
  {
    Run(prefix + run.records, run.outcome)
  }

  /** Prepending two prefixes one after the other is prepending their
      concatenation. */
  lemma PrependTwice<R>(p: seq<R>, q: seq<R>, run: Run<R>)
    ensures Prepend(p + q, run) == Prepend(p, Prepend(q, run))
  {
    assert (p + q) + run.records == p + (q + run.records);
  }

  /** What `final_result` gives back: the root, the generator's exception, or,
      when the fuel given to the model ran out first, nothing yet. */
  datatype Final = Root(value: real) | Error(message: string) | Pending

  /** `final_result`: the root field of the last record, 0 when nothing was
      yielded; the generator's exception propagates. */
  function FinalOf<R>(r: Run<R>, root: R -> real): Final
  {
    match r.outcome
    case Raised(m) => Error(m)
    case Unfinished => Pending
    case Finished => Root(if r.records == [] then 0.0 else root(r.records[|r.records| - 1]))
  }

  /** An equation in one variable, as the solvers see it: its value at a point,
      and whether that value passes the validity test (a finite real, not
      complex infinity). */
  datatype Equation = Equation(f: real -> real, valid: real -> bool)

  /** The relative-error field of a record: the text "no relative error", or a number. */
  datatype RelField = NoRelativeError | RelValue(value: real)

  /** The record yielded by the two bracketing methods. `oldRoot` is None where
      the source writes the text "none". */
  datatype BracketRecord = BracketRecord(iteration: int, oldRoot: Option<real>, newRoot: real, relativeError: RelField)

  /** The product of two equation values, as the bracketing methods' sign
      tests compute it. */
  function Product(x: real, y: real): real
  {
    x * y
  }

  function NewRoot(r: BracketRecord): real
  {
    r.newRoot
  }

  function Abs(x: real): real
  {
    if x < 0.0 then -x else x
  }

  /** `relative_error(x1, x2)`: the change from x1 to x2 relative to x2, or the
      sentinel when either operand is zero. */
  function RelativeError(x1: real, x2: real, sentinel: real): (r: real)
    ensures x1 == 0.0 || x2 == 0.0 ==> r == sentinel
    ensures x1 != 0.0 && x2 != 0.0 ==> r >= 0.0 && (r == 0.0 <==> x1 == x2)
  {
    if x1 == 0.0 || x2 == 0.0 then sentinel else Abs((x2 - x1) / x2)
  }

  /** The relative error is the sentinel exactly when an operand is zero;
      otherwise it is the non-negative ratio r with r * |x2| == |x2 - x1|. */
  lemma RelativeErrorMeaning(x1: real, x2: real, sentinel: real)
    ensures x1 == 0.0 || x2 == 0.0 ==> RelativeError(x1, x2, sentinel) == sentinel
    ensures x1 != 0.0 && x2 != 0.0 ==>
      var r := RelativeError(x1, x2, sentinel);
      r >= 0.0 && r * Abs(x2) == Abs(x2 - x1)
  {
    if x1 != 0.0 && x2 != 0.0 {
      var q := (x2 - x1) / x2;
      assert q * x2 == x2 - x1;
      AbsMul(q, x2);
    }
  }

  lemma AbsMul(x: real, y: real)
    ensures Abs(x) * Abs(y) == Abs(x * y)
  {
    if x < 0.0 && y < 0.0 {
      assert x * y == (-x) * (-y);
    } else if x < 0.0 {
      assert x * y <= 0.0;
    } else if y < 0.0 {
      assert x * y <= 0.0;
    }
  }

  /** The display step: a relative error equal to the sentinel is shown as the
      text "no relative error". */
  function Shown(r: real, sentinel: real): RelField
  {
    if r == sentinel then NoRelativeError else RelValue(r)
  }

  /** A record's relative-error field is the text exactly when an operand is
      zero or the quotient itself happens to equal the sentinel; otherwise it is
      the quotient. */
  lemma ShownRelativeError(x1: real, x2: real, sentinel: real)
    ensures Shown(RelativeError(x1, x2, sentinel), sentinel) == NoRelativeError
            <==> x1 == 0.0 || x2 == 0.0 || Abs((x2 - x1) / x2) == sentinel
    ensures x1 != 0.0 && x2 != 0.0 && Abs((x2 - x1) / x2) != sentinel
            ==> Shown(RelativeError(x1, x2, sentinel), sentinel) == RelValue(Abs((x2 - x1) / x2))
  {
  }

  /** The number of passes a loop `while n > 0: n -= 1` makes. */
  function Passes(n: int): nat
  {
    if n < 0 then 0 else n
  }

  /** The decimal text of an integer, as Python's `str` writes it. */
  function IntToString(n: int): string
  {
    if n < 0 then "-" + NatToString(-n) else NatToString(n)
  }

  function NatToString(n: nat): string
    decreases n
  {
    if n < 10 then ["0123456789"[n]] else NatToString(n / 10) + ["0123456789"[n % 10]]
  }

}
