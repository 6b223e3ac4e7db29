# Root finders of equations-solver, modelled in Dafny

equations-solver finds a root of an equation f(x) = 0 in one variable. Each
method is a solver class whose generator yields one record per iteration:
bisection, false position (regula falsi), fixed-point iteration, standard
Newton-Raphson, Newton-Raphson modified for multiple roots (the second
modified form) and the secant method. The classes also have a
`final_result`/`find_root` shortcut. A step window (`GeneratorWindow`) pulls
records from one of these generators on demand and lets the user page back
and forth over them. An older stand-alone `Bisection` generator sits at the
top of the repository.

The model works on real numbers. The equation is a pair `Equation(f, valid)`:
`f` is its value at a point, and `valid` is the solvers' validity test, which
asks for a finite real and rejects complex infinity. Rounding to the
configured precision (`sp.N(·, precision)`) is a parameter
`round: real -> real`. The secant method's `float(f'{x:.{n}g}')` formatting is
a parameter `format: (real, int) -> real`.

Each generator is modelled three ways:
- a recursive function (`Loop`, `Steps`, `Trace`) that gives every record it
  yields and how it ends: normally, or with the message of the exception it
  raises;
- a method with the source's own loop, proved equal to that function;
- lemmas about that function: what each record holds, when the loop stops,
  the bracket invariants, and the exception cases.

The step window is a class whose methods update the buffer, the cursor, the
two buttons' enabled flags and the display in place.

Modules:
- `Common` holds the shared record types and `relative_error`.
- `Bisection`, `RegulaFalsi`, `FixedPoint`, `Secant`, `StandardNewton` and
  `ModifiedNewton` model the solvers in `Phase_2/`.
- `StepWindow` models `Phase_2/step.py`.
- `LegacyBisection` models the top-level `Bisection.py`.

## Model

| member | source | states |
|---|---|---|
| Common.RelativeErrorMeaning | Phase_2/Bisection.py:10-13 | `relative_error` is the sentinel exactly when an operand is 0, and otherwise the non-negative r with r·\|x2\| = \|x2 − x1\| |
| Common.RelativeError | Phase_2/Bisection.py:10-13 | `relative_error` (and its copies in Phase_2/RegulaFalseMethod.py:10-13, Phase_2/FixedPointIteration.py:10-13 and Bisection.py:2-5) is the sentinel when an operand is 0; otherwise it is non-negative, and 0 exactly when the operands are equal |
| Common.ShownRelativeError | Phase_2/Bisection.py:77-79 | a record shows the text "no relative error" exactly when an operand is 0 or the quotient happens to equal the sentinel, and otherwise shows the quotient |
| Bisection.Bisect | Phase_2/Bisection.py:18-96 | the generator yields exactly the records of `Trace` and ends as it says |
| Bisection.RunLoop | Phase_2/Bisection.py:51-96 | the `while iter_count > 0` loop and the check after it follow `Loop`; "method didn't converge" is raised only when max_iter is 0 |
| Bisection.FinalResult | Phase_2/Bisection.py:98-103 | `final_result` is the new root of the last record (0 when there is none), or the generator's exception |
| Bisection.ZeroEndpoint | Phase_2/Bisection.py:23-39 | a root at the rounded a, or else at the rounded b, gives exactly one iteration-0 record with old root "none" and no relative error; `final_result` is then that endpoint |
| Bisection.LoopShape | Phase_2/Bisection.py:51-93 | at most one record per pass, numbered consecutively; each old root is the previous record's new root; every midpoint passed the validity test |
| Bisection.LoopStops | Phase_2/Bisection.py:63-91 | a record is followed by another only when its midpoint is not a root and its relative error is not below the tolerance; an early normal stop comes after a root or a record that meets the tolerance |
| Bisection.HalveKeepsBracket | Phase_2/Bisection.py:72-75 | the update keeps f(a) < 0 < f(b) and halves the bracket width |
| Bisection.BracketAfterWidth | Phase_2/Bisection.py:53-75 | after k updates the bracket width is the entry width halved k times |
| Bisection.LoopFollowsBrackets | Phase_2/Bisection.py:51-93 | from a sign-changing bracket, the k-th record's midpoint is the midpoint of the k-th bracket, which still changes sign, and "cannot be solved" is never raised |
| Bisection.TraceCount | Phase_2/Bisection.py:18-96 | the generator yields at most max_iter records numbered 1, 2, 3, …, or the single endpoint record |
| Bisection.TraceBracketed | Phase_2/Bisection.py:41-93 | when the entry bracket changes sign, every record's new root is the midpoint of a sign-changing bracket of width (b − a)/2^k, and the sign test never raises |
| Bisection.LoopRaises | Phase_2/Bisection.py:51-93 | on the bracket the loop has reached, "not continuous" is raised exactly when its midpoint fails the validity test, and "cannot be solved" exactly when the midpoint passes and f(a)·f(b) > 1; each record's midpoint is that of its own bracket, valid, with f(a)·f(b) ≤ 1 there; a raise comes before the pass budget is spent |
| Bisection.FirstPassIgnoresTolerance | Phase_2/Bisection.py:46-91 | with a tolerance at most the sentinel and at least two passes, a loop that ends normally after a single record ended on a root: the first pass cannot stop on the tolerance, because its previous midpoint is 0 |
| Bisection.SameSignBracketAccepted | Phase_2/Bisection.py:58-59 | the sign test compares f(a)·f(b) with 1, so a same-sign bracket with product at most 1 is bisected (f = 0.5 on [0, 1]) |
| RegulaFalsi.FalsePosition | Phase_2/RegulaFalseMethod.py:23-101 | the generator yields exactly the records of `Trace` and ends as it says |
| RegulaFalsi.RunLoop | Phase_2/RegulaFalseMethod.py:56-101 | the loop and the check after it: "method didn't converge" is raised when max_iter is 0 and the loop ended normally |
| RegulaFalsi.LoopPasses | Phase_2/RegulaFalseMethod.py:56-97 | the `while iter_count >= 0` loop, whose counter never changes, follows `Loop` |
| RegulaFalsi.Pass | Phase_2/RegulaFalseMethod.py:58-97 | one pass yields the record, the exception or the break that one unfolding of `Loop` gives, and hands the next bracket to the rest of the loop |
| RegulaFalsi.FinalResult | Phase_2/RegulaFalseMethod.py:103-108 | `final_result` is the new root of the last record (0 when there is none), or the generator's exception |
| RegulaFalsi.FormulaCalc | Phase_2/RegulaFalseMethod.py:18-21 | `formula_calc` gives no point exactly when f(a) = f(b), where the source divides by zero; otherwise its point is where the chord through (a, f(a)) and (b, f(b)) crosses zero |
| RegulaFalsi.ChordBetween | Phase_2/RegulaFalseMethod.py:18-21 | where f(a) < 0 < f(b), `formula_calc` gives a point strictly between a and b |
| RegulaFalsi.UpdateKeepsBracket | Phase_2/RegulaFalseMethod.py:78-81 | the update keeps f(a) < 0 < f(b) and replaces one end by the new point |
| RegulaFalsi.LoopBracketed | Phase_2/RegulaFalseMethod.py:56-97 | from a sign-changing bracket, "cannot be solved" is never raised and every new root lies strictly inside the entry bracket |
| RegulaFalsi.LoopShape | Phase_2/RegulaFalseMethod.py:56-97 | every record reports iteration max_iter − iter_count; old roots chain to the previous new roots; a pass is followed by another only when its point is not a root and its relative error is not below the tolerance |
| RegulaFalsi.LoopEnding | Phase_2/RegulaFalseMethod.py:56-97 | a normal end comes right after a root or a record that meets the tolerance; only the two loop exceptions are raised |
| RegulaFalsi.LoopRaises | Phase_2/RegulaFalseMethod.py:56-97 | on the bracket the loop has reached, "not continuous" is raised exactly when `formula_calc` gives no point there or its point fails the validity test, and "cannot be solved" exactly when the point passes and f(a)·f(b) > 0; each record's new root is the chord point of its own bracket, valid, with f(a)·f(b) ≤ 0 there |
| RegulaFalsi.ZeroEndpoint | Phase_2/RegulaFalseMethod.py:28-44 | a root at the rounded a, or else at the rounded b, gives exactly one iteration-0 record |
| RegulaFalsi.TraceShape | Phase_2/RegulaFalseMethod.py:23-101 | every record reports iteration 0; "method didn't converge" means max_iter is 0 |
| RegulaFalsi.TraceBracketed | Phase_2/RegulaFalseMethod.py:46-97 | when the entry bracket changes sign, nothing raises "cannot be solved" and every new root lies strictly between the entry ends |
| FixedPoint.Iterate | Phase_2/FixedPointIteration.py:18-58 | the generator yields exactly the records of `Trace` and ends as it says |
| FixedPoint.LoopPasses | Phase_2/FixedPointIteration.py:24-55 | the `while iter_count >= 0` loop follows `Loop` |
| FixedPoint.Pass | Phase_2/FixedPointIteration.py:25-55 | one pass yields the record, the exception or the break of one unfolding of `Loop`, and decrements the counter past the derivative test |
| FixedPoint.FinalResult | Phase_2/FixedPointIteration.py:60-65 | `final_result` is x_{i+1} of the last record (0 when there is none), or the generator's exception |
| FixedPoint.LoopShape | Phase_2/FixedPointIteration.py:24-55 | at most n + 1 records, numbered on from max_iter − n + 1; the first steps from the start point and each next one from the previous x_{i+1} = g(x_i); only the last may meet the tolerance |
| FixedPoint.LoopEnding | Phase_2/FixedPointIteration.py:24-55 | "method doesn't converge" is raised exactly when g'(x) > 1 at the current point; "cannot be solved" only for an invalid g(x); the loop never runs on forever |
| FixedPoint.FixedPointStops | Phase_2/FixedPointIteration.py:29-43 | a nonzero fixed point with g' ≤ 1 ends the loop at once with one record of relative error 0 |
| FixedPoint.TraceShape | Phase_2/FixedPointIteration.py:18-58 | at most max_iter + 1 records, numbered from 1, the first from the rounded start point; "method didn't converge" only when max_iter is 0 |
| Secant.GetRoot | Phase_2/Secant.py:46-68 | `get_root` returns the report, or raises the exception, that `GetRootSpec` gives |
| Secant.Next | Phase_2/Secant.py:27-44 | `__next__` raises ZeroDivisionError exactly when rounding is on, the rounded values of f differ, and their rounded difference is 0 |
| Secant.RoundSignificantFigures | Phase_2/Secant.py:3-6 | `round_significant_figures` leaves x as it is when rounding is off (-1) and leaves 0 as 0 |
| Secant.NextFlat | Phase_2/Secant.py:31-32 | equal rounded values of f give back the newer estimate |
| Secant.NextUnrounded | Phase_2/Secant.py:27-44 | without rounding a step never raises, and its result is where the line through the two points crosses zero |
| Secant.ErrorMeaning | Phase_2/Secant.py:53 | the error is infinite exactly when the new estimate is 0, and otherwise it is the non-negative e with e·\|x_new\| = \|x_new − x1\| |
| Secant.LoopStatus | Phase_2/Secant.py:51-63 | the report's iteration is within the budget; it says "converged" exactly when its error meets the bound, and otherwise the budget is spent |
| Secant.LoopRoot | Phase_2/Secant.py:51-66 | the report's root is the newest estimate after the reported number of steps, and its error is that of the last step |
| Secant.LoopNoEarlierStop | Phase_2/Secant.py:51-59 | no step before the reported one met the error bound |
| Secant.GetRootReport | Phase_2/Secant.py:46-68 | with a budget of at least one, the report's iteration is in 1..max_iterations, its root is the newest estimate, "converged" holds exactly when the last error met the bound, and no earlier error did |
| StandardNewton.IterSteps | Phase_2/standard_newton.py:14-39 | `iter_steps` yields exactly the records of `Steps` |
| StandardNewton.FindRoot | Phase_2/standard_newton.py:41-58 | `find_root` returns, or raises "Failed to converge after N iterations", as `FindRootFrom` says |
| StandardNewton.NewtonTangent | Phase_2/standard_newton.py:22 | without rounding, x_new is where the tangent at x crosses zero |
| StandardNewton.StepsChain | Phase_2/standard_newton.py:18-39 | at most max_iter records, at least one; the first steps from the start and each next from the previous x_{i+1}; each is its point's record, numbered 0, 1, 2, … |
| StandardNewton.StepsStop | Phase_2/standard_newton.py:34-37 | no record but the last meets a stopping test |
| StandardNewton.StepsLastStops | Phase_2/standard_newton.py:18-37 | the last record meets a stopping test unless the budget is spent |
| StandardNewton.RecordFields | Phase_2/standard_newton.py:24-32 | a record's absolute error is absent exactly at iteration 0, and its relative error exactly when x_{i+1} is 0; otherwise they are \|x_{i+1} − x_i\| and that over x_{i+1} |
| StandardNewton.FindRootAgrees | Phase_2/standard_newton.py:14-58 | `find_root` stops where `iter_steps` does: it returns x_i when \|f(x_i)\| is below the tolerance, else x_{i+1}, and raises exactly when no record stops |
| StandardNewton.FindRootRaises | Phase_2/standard_newton.py:41-58 | `find_root` raises exactly when `iter_steps` yields max_iter records none of which meets a stopping test |
| ModifiedNewton.IterSteps | Phase_2/modified_2_newton.py:15-43 | `iter_steps` yields exactly the records of `Steps` |
| ModifiedNewton.FindRoot | Phase_2/modified_2_newton.py:45-64 | `find_root` returns, or raises "Failed to converge after N iterations", as `FindRootFrom` says |
| ModifiedNewton.NewtonStepForQuotient | Phase_2/modified_2_newton.py:24-25 | without rounding, the step is the Newton step for u = f/f', whose derivative is (f'² − f·f'')/f'² |
| ModifiedNewton.StepsChain | Phase_2/modified_2_newton.py:19-43 | at most max_iter records, at least one; the first steps from the start and each next from the previous x_{i+1}; each is its point's record, numbered 0, 1, 2, … |
| ModifiedNewton.StepsStop | Phase_2/modified_2_newton.py:38-41 | no record but the last meets a stopping test |
| ModifiedNewton.StepsLastStops | Phase_2/modified_2_newton.py:19-41 | the last record meets a stopping test unless the budget is spent |
| ModifiedNewton.RecordFields | Phase_2/modified_2_newton.py:27-36 | a record's absolute error is absent exactly at iteration 0, and its relative error exactly when x_{i+1} is 0; otherwise they are \|x_{i+1} − x_i\| and that over x_{i+1} |
| ModifiedNewton.FindRootAgrees | Phase_2/modified_2_newton.py:15-64 | `find_root` stops where `iter_steps` does: it returns x_i when \|f(x_i)\| is below the tolerance, else x_{i+1}, and raises exactly when no record stops |
| ModifiedNewton.FindRootRaises | Phase_2/modified_2_newton.py:45-64 | `find_root` raises exactly when `iter_steps` yields max_iter records none of which meets a stopping test |
| StepWindow.RecordSource.constructor | Phase_2/step.py:6 | a fresh generator has yielded nothing |
| StepWindow.RecordSource.Next | Phase_2/step.py:49 | `next(generator)` gives the next record, then the generator's exception once, then StopIteration |
| StepWindow.GeneratorWindow.constructor | Phase_2/step.py:4-27 | a new window has an empty buffer, the cursor before the first record, Previous disabled and Next enabled |
| StepWindow.GeneratorWindow.ShowNext | Phase_2/step.py:46-64 | Next moves the cursor one forward and shows that record, pulling from the generator only at the newest record; on StopIteration it disables Next and appends "Process completed"; the buffer always holds exactly the records pulled so far and Previous is enabled exactly when the cursor is past the first; the generator counts as failed exactly when it had failed before or this call returned its exception |
| StepWindow.GeneratorWindow.ShowPrev | Phase_2/step.py:66-78 | Previous moves the cursor one back, shows that record and enables Next, and does nothing on the first record; it never pulls |
| StepWindow.GeneratorWindow.PrevThenNext | Phase_2/step.py:46-78 | Previous then Next shows the same record again without pulling from the generator |
| LegacyBisection.Generate | Bisection.py:8-49 | the generator yields exactly the records of `Trace` and ends as it says |
| LegacyBisection.RunLoop | Bisection.py:28-49 | the `while mx_iter > 0` loop follows `Loop` |
| LegacyBisection.LoopShape | Bisection.py:28-49 | at most one pair per pass, each midpoint valid; a pair that is not a root is yielded only when its relative error against the previous midpoint is not below the tolerance, so the midpoint that meets it is never yielded; a root comes last and carries the raw relative error |
| LegacyBisection.LoopFollowsBrackets | Bisection.py:28-42 | from a sign-changing bracket, the k-th pair's root is the midpoint of the k-th bracket, which still changes sign, and "cannot be solved" is never raised |
| LegacyBisection.LoopOutcome | Bisection.py:28-49 | the loop ends normally or with one of its two exceptions: on the bracket it has reached, "not continuous" exactly when the midpoint fails the validity test, and "cannot be solved" exactly when the midpoint passes and f(a)·f(b) > 1; each pair's root is the midpoint of its own bracket, valid, with f(a)·f(b) ≤ 1 there |
| LegacyBisection.TraceShape | Bisection.py:8-49 | a root at an endpoint gives the single pair [endpoint, "no relative error"]; otherwise at most mx_iter pairs; nothing is raised after the loop |
| LegacyBisection.RootOnFirstPassShowsSentinel | Bisection.py:36-38 | a root found on the first pass is yielded with the number 17.1717, not the text (f(x) = x − 1/2 on [0, 1]) |

## Left out

- Symbolic algebra (sympy's `subs`, `diff`, `lambdify`, `sympify`) is not modelled. The equation, its derivatives and the validity test are function parameters, and the solvers never see their formulas.
- Floating-point arithmetic is not modelled: values are exact reals, and rounding to a precision is an uninterpreted function. So the model cannot say when a rounded result differs from the exact one.
- `RegulaFalsi.FormulaCalc`, `RegulaFalsi.Loop`: when f(a) = f(b), sympy's division in `formula_calc` gives complex infinity (nan when the rounded ends are equal), and the source substitutes that value into f. If f there fails the validity test, it raises "the function is not continuous at the given range". If f there passes (f = 1, or f = 1/(1 + x²) on [−1, 1]), the sign test sees f(a)·f(b) = f(a)² > 0 and raises "this equation cannot be solved by the False Position method". The model returns no point and always raises "not continuous"; it does not capture the second case.
- `Bisection.Trace`, `RegulaFalsi.Trace`, `LegacyBisection.Trace`, `FixedPoint.Loop`: the model's f gives a real at every point, so it compares values the source cannot. On a value that is not real (complex infinity, nan, a complex number), sympy's `equ.subs(x, a) > 0` (Phase_2/Bisection.py:41, Phase_2/RegulaFalseMethod.py:46, Bisection.py:19) raises TypeError before the validity test at the next lines. The same holds for `diff.subs(x, root) > 1` (Phase_2/FixedPointIteration.py:25). The model instead compares the real value and goes on to the validity test. The model also takes an endpoint whose value is 0 as a root even when that endpoint fails the validity test, while the source's `== 0` is false there.
- `RegulaFalsi.Loop` and `RegulaFalsi.Trace` take a `fuel` bound. The source loop has no pass limit of its own (its counter never changes), so the model follows at most `fuel` passes and reports `Unfinished` beyond that. Whether the source loop ends is not modelled.
- `StandardNewton.IterSteps`, `StandardNewton.FindRoot`, `ModifiedNewton.IterSteps` and `ModifiedNewton.FindRoot` require that no point they step from has a rounded derivative (or denominator) of 0. The source divides by it unguarded, with a result that depends on sympy.
- Secant: the `excution_time` entry of the report and the clock it reads are not modelled.
- `Secant.RoundSignificantFigures`: the `'{x:.{n}g}'` formatting is a parameter, so its properties (digits kept, idempotence) are not stated.
- `Secant.GetRoot`: with `max_iterations` < 1, the source fails with an UnboundLocalError when it builds the report. The model returns that error as a failure; its text stands for Python's message.
- Exceptions raised inside the lambdified functions (domain errors, overflow) are not modelled.
- `StepWindow.GeneratorWindow.ShowNext` returns the message of an exception the generator raises, other than StopIteration. In the program, that exception leaves the button handler.
- `format_dict`, `init_ui`, Qt widget layout and the precision used for display are not modelled. The display holds the records themselves.
- The `var` argument of `Modified2Newton.__init__` is not modelled: the constructor replaces it at once with the symbol x.
- `print` calls and the `main` demonstration functions are not modelled.
- `Phase_2/phase2Window.py`, which builds the solvers from user input, is not part of this model.
