/** The breath-cycles dialog: a cycle counter that starts at 4 and resets to
    4 on every opening, and the session length it saves. */
module CyclesDialog {
  import opened JsMath

  const DefaultCycles := 4

  class BreathCyclesDialog {
    var open: bool
    var selectedCycles: int
    /** `getCycleLengthSeconds(pattern)`, taken as given. */
    const cycleLengthSeconds: real

    ghost predicate Valid()
      reads this
    {
      selectedCycles >= 1
    }

    constructor (cycleLengthSeconds: real)
      ensures Valid() && !open && selectedCycles == DefaultCycles
      ensures this.cycleLengthSeconds == cycleLengthSeconds
    {
      open := false;
      selectedCycles := DefaultCycles;
      this.cycleLengthSeconds := cycleLengthSeconds;
    }

    /** The total the dialog shows and saves. */
    function TotalDurationSeconds(): (r: real)
      reads this
      ensures selectedCycles >= 0 && cycleLengthSeconds >= 0.0 ==> r >= 0.0
    {
      selectedCycles as real * cycleLengthSeconds
    }

    /** Opening runs the reset effect. */
    method Open()
      modifies this`open, this`selectedCycles
      ensures Valid() && open && selectedCycles == DefaultCycles
    {
      open := true;
      selectedCycles := DefaultCycles;
    }

    method Increment()
      requires Valid()
      modifies this`selectedCycles
      ensures Valid() && selectedCycles == old(selectedCycles) + 1
    {
      selectedCycles := selectedCycles + 1;
    }

    /** Never below one cycle. */
    method Decrement()
      requires Valid()
      modifies this`selectedCycles
      ensures Valid() && selectedCycles == MaxInt(1, old(selectedCycles) - 1)
      ensures old(selectedCycles) > 1 ==> selectedCycles == old(selectedCycles) - 1
    {
      selectedCycles := MaxInt(1, selectedCycles - 1);
    }

    /** The 2, 6 and 10 cycle buttons. */
    method Preset(cycles: int)
      requires Valid() && cycles in {2, 6, 10}
      modifies this`selectedCycles
      ensures Valid() && selectedCycles == cycles
    {
      selectedCycles := cycles;
    }

    /** Emits the total for the selected cycles, then closes. */
    method Save() returns (durationSeconds: real)
      requires Valid()
      modifies this`open
      ensures Valid() && !open
      ensures durationSeconds == selectedCycles as real * cycleLengthSeconds
    {
      durationSeconds := TotalDurationSeconds();
      open := false;
    }

    /** Closes without emitting. */
    method Cancel()
      requires Valid()
      modifies this`open
      ensures Valid() && !open && selectedCycles == old(selectedCycles)
    {
      open := false;
    }
  }

  /** From the reset value of 4, four decrements stop at one cycle and an
      increment then saves two. */
  method DecrementFloorScenario(cycleLengthSeconds: real) returns (saved: real)
    ensures saved == 2.0 * cycleLengthSeconds
  {
    var dialog := new BreathCyclesDialog(cycleLengthSeconds);
    dialog.Open();
    dialog.Decrement();
    dialog.Decrement();
    dialog.Decrement();
    dialog.Decrement();
    dialog.Increment();
    saved := dialog.Save();
  }
}
