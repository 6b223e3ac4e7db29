/** The step-by-step viewer (`GeneratorWindow` in Phase_2/step.py): it pulls
    records from a solver's generator on demand, keeps every record pulled so
    far, and lets the user move back and forth over them. The widgets are
    reduced to the two buttons' enabled flags and the text shown. */
module StepWindow {
  import opened Common

  /** What one `next(generator)` gives: a record, StopIteration, or the
      exception the generator raises. */
  datatype Pulled<T> = Yielded(value: T) | Exhausted | Threw(message: string)

  /** A solver's generator: the records it will yield, in order, and the
      exception (if any) it raises after them. Once it has raised, it only
      stops, as a Python generator does. */
  class RecordSource<T> {
    const items: seq<T>
    const failure: Option<string>
    var pos: nat
    var failed: bool

    ghost predicate Valid()
      reads this
    {
      pos <= |items|
    }

    constructor (items: seq<T>, failure: Option<string>)
      ensures Valid()
      ensures this.items == items && this.failure == failure && pos == 0 && !failed
    {
      this.items := items;
      this.failure := failure;
      pos := 0;
      failed := false;
    }

    /** `next(generator)`. */
    method Next() returns (r: Pulled<T>)
      requires Valid()
      modifies this
      ensures Valid()
      ensures old(pos) < |items| ==> r == Yielded(items[old(pos)]) && pos == old(pos) + 1 && failed == old(failed)
      ensures old(pos) == |items| && failure.Some? && !old(failed) ==>
        r == Threw(failure.value) && pos == old(pos) && failed
      ensures old(pos) == |items| && (failure.None? || old(failed)) ==>
        r == Exhausted && pos == old(pos) && failed == old(failed)
    {
      if pos < |items| {
        r := Yielded(items[pos]);
        pos := pos + 1;
      } else if failure.Some? && !failed {
        r := Threw(failure.value);
        failed := true;
      } else {
        r := Exhausted;
      }
    }
  }

  /** A line of the text display: a record (as `format_dict` lays it out),
      or the text "Process completed". */
  datatype Line<T> = Shown(record: T) | Completed

  class GeneratorWindow<T> {
    const source: RecordSource<T>
    var steps: seq<T>
    var currentStep: int
    var prevEnabled: bool
    var nextEnabled: bool
    var display: seq<Line<T>>

    /** The buffer holds exactly the records pulled so far, the cursor is on
        one of them (or before the first), and Previous is enabled exactly
        when there is a record before the cursor. */
    ghost predicate Valid()
      reads this, source
    {
      && source.Valid()
      && -1 <= currentStep < |steps|
      && steps == source.items[..source.pos]
      && prevEnabled == (currentStep > 0)
    }

    /** `GeneratorWindow(generator, precision)`, with nothing pulled yet. */
    constructor (source: RecordSource<T>)
      requires source.Valid() && source.pos == 0
      ensures Valid()
      ensures this.source == source
      ensures steps == [] && currentStep == -1 && !prevEnabled && nextEnabled && display == []
    {
      this.source := source;
      steps := [];
      currentStep := -1;
      prevEnabled := false;
      nextEnabled := true;
      display := [];
    }

    /** `show_next`: moves the cursor one record forward, pulling a record
        from the generator only when the cursor is on the newest one. On
        StopIteration nothing moves, Next is disabled and "Process completed"
        is added to the display. Any other exception of the generator leaves
        `show_next` and is returned here; nothing in the window changes. */
    method ShowNext() returns (raised: Option<string>)
      requires Valid()
      modifies this, source
      ensures Valid()
      ensures old(currentStep) < old(|steps|) - 1 ==>
        && raised == None
        && steps == old(steps) && source.pos == old(source.pos) && source.failed == old(source.failed)
        && currentStep == old(currentStep) + 1
        && display == [Shown(steps[currentStep])]
        && nextEnabled == old(nextEnabled)
      ensures old(currentStep) == old(|steps|) - 1 && old(source.pos) < |source.items| ==>
        && raised == None
        && steps == old(steps) + [source.items[old(source.pos)]]
        && currentStep == old(currentStep) + 1
        && display == [Shown(steps[currentStep])]
        && nextEnabled == old(nextEnabled)
      ensures old(currentStep) == old(|steps|) - 1 && old(source.pos) == |source.items| ==>
        && steps == old(steps) && currentStep == old(currentStep)
        && prevEnabled == old(prevEnabled)
        && source.pos == old(source.pos)
        && (if source.failure.Some? && !old(source.failed) then
              raised == Some(source.failure.value) && display == old(display) && nextEnabled == old(nextEnabled)
            else
              raised == None && display == old(display) + [Completed] && !nextEnabled)
    ensures source.failed == (old(source.failed) || raised.Some?)
    {
      if currentStep == |steps| - 1 {
        var value := source.Next();
        match value {
          case Yielded(v) =>
            steps := steps + [v];
          case Exhausted =>
            nextEnabled := false;
            display := display + [Completed];
            return None;
          case Threw(m) =>
            return Some(m);
        }
      }
      currentStep := currentStep + 1;
      display := [Shown(steps[currentStep])];
      prevEnabled := currentStep > 0;
      raised := None;
    }

    /** `show_prev`: moves the cursor one record back when there is one,
        never pulling, and enables Next; otherwise nothing happens. */
    method ShowPrev()
      requires Valid()
      modifies this
      ensures Valid()
      ensures steps == old(steps)
      ensures old(currentStep) > 0 ==>
        currentStep == old(currentStep) - 1 && display == [Shown(steps[currentStep])] && nextEnabled
      ensures old(currentStep) <= 0 ==>
        currentStep == old(currentStep) && display == old(display) && nextEnabled == old(nextEnabled)
    {
      if currentStep > 0 {
        currentStep := currentStep - 1;
        display := [Shown(steps[currentStep])];
        prevEnabled := currentStep > 0;
        nextEnabled := true;
      }
    }

    /** Buffered records are never changed: after Previous, Next shows again
        the record that was on display, without pulling from the generator. */
    method PrevThenNext()
      requires Valid() && currentStep > 0
      modifies this, source
      ensures Valid()
      ensures steps == old(steps) && source.pos == old(source.pos)
      ensures currentStep == old(currentStep)
      ensures display == [Shown(old(steps)[old(currentStep)])]
    {
      ShowPrev();
      var raised := ShowNext();
    }
  }
}
