/** The exercise card of the home screen: its duration text and the
    change-duration dialog. Durations here are whole seconds. */
module HomeCard {
  import opened Wrappers
  import opened JsMath
  import opened Text

  const FallbackInputSeconds := 300

  /** `formatDuration`: '5 min' for 0, 'N min' for whole minutes, else 'M:SS'.
      Minutes use `Math.floor` and seconds `%`, so negative input gives
      negative fields. */
  function FormatDuration(seconds: int): (r: string)
    ensures seconds == 0 ==> r == "5 min"
  {
    if seconds == 0 then "5 min"
    else
      var minutes := FloorDiv(seconds, 60);
      var secs := Rem(seconds, 60);
      if secs == 0 then IntToString(minutes) + " min"
      else IntToString(minutes) + ":" + PadStart(IntToString(secs), 2, '0')
  }

  /** A positive whole number of minutes reads 'N min'. */
  lemma FormatWholeMinutes(minutes: int)
    requires minutes >= 1
    ensures FormatDuration(60 * minutes) == Digits(minutes) + " min"
  {
    var seconds := 60 * minutes;
    assert seconds == minutes * 60 + 0;
    DivModOf(minutes, 60, 0);
    assert FloorDiv(seconds, 60) == minutes;
    assert Rem(seconds, 60) == 0;
    assert IntToString(minutes) == Digits(minutes);
  }

  /** Any other positive duration reads back through 'M:SS' as its minutes
      and its seconds 1..59, the seconds always two digits wide. */
  lemma FormatMinutesSeconds(seconds: int)
    requires seconds > 0 && seconds % 60 != 0
    ensures Split(FormatDuration(seconds), ':') == [Digits(seconds / 60), PadStart(Digits(seconds % 60), 2, '0')]
    ensures |Split(FormatDuration(seconds), ':')[1]| == 2
    ensures ParseClock(FormatDuration(seconds)) == Some([seconds / 60, seconds % 60])
  {
    assert FloorDiv(seconds, 60) == seconds / 60 && Rem(seconds, 60) == seconds % 60;
    MinutesColonSeconds(FormatDuration(seconds), seconds / 60, seconds % 60);
  }

  /** Minutes, a colon and the seconds 1..59 padded to two digits read back
      as the minutes and seconds. */
  lemma MinutesColonSeconds(text: string, m: nat, s: nat)
    requires 0 < s < 60
    requires text == IntToString(m) + ":" + PadStart(IntToString(s), 2, '0')
    ensures Split(text, ':') == [Digits(m), PadStart(Digits(s), 2, '0')]
    ensures |Split(text, ':')[1]| == 2
    ensures ParseClock(text) == Some([m, s])
  {
    var a := IntToString(m);
    var b := PadStart(IntToString(s), 2, '0');
    assert a == Digits(m);
    assert IntToString(s) == Digits(s);
    ValueOfDigits(m);
    ValueOfPadded(IntToString(s), 2);
    ShortNumber(s);
    ParseClock2(a, b);
  }

  /** `parseInt(text) || 300`, the typed duration: NaN and 0 become 300. */
  function CoerceDurationInput(text: string): (r: int)
    ensures ParseInt(text).None? || ParseInt(text) == Some(0) ==> r == FallbackInputSeconds
    ensures ParseInt(text).Some? && ParseInt(text).value != 0 ==> r == ParseInt(text).value
    ensures r != 0
  {
    match ParseInt(text)
    case None => FallbackInputSeconds
    case Some(v) => if v == 0 then FallbackInputSeconds else v
  }

  class ExerciseCard {
    /** The current duration the home screen passes in. */
    var duration: int
    var isDialogOpen: bool
    var tempDuration: int

    constructor (duration: int)
      ensures this.duration == duration && tempDuration == duration && !isDialogOpen
    {
      this.duration := duration;
      tempDuration := duration;
      isDialogOpen := false;
    }

    /** A new duration from the home screen; the dialog's copy is not touched. */
    method SetDurationProp(duration: int)
      modifies this`duration
      ensures this.duration == duration
    {
      this.duration := duration;
    }

    /** `handleOpenDialog`: the dialog starts from the current duration. */
    method OpenDialog()
      modifies this`tempDuration, this`isDialogOpen
      ensures tempDuration == duration && isDialogOpen
    {
      tempDuration := duration;
      isDialogOpen := true;
    }

    /** Typing into the duration input. */
    method TypeDuration(text: string)
      modifies this`tempDuration
      ensures tempDuration == CoerceDurationInput(text)
    {
      tempDuration := CoerceDurationInput(text);
    }

    /** `handleSaveDuration`: forwards a positive duration and closes in
        every case. */
    method SaveDuration() returns (changed: Option<int>)
      modifies this`isDialogOpen
      ensures !isDialogOpen
      ensures changed == if tempDuration > 0 then Some(tempDuration) else None
      ensures changed.Some? ==> changed.value > 0
    {
      changed := if tempDuration > 0 then Some(tempDuration) else None;
      isDialogOpen := false;
    }

    method CancelDialog()
      modifies this`isDialogOpen
      ensures !isDialogOpen
    {
      isDialogOpen := false;
    }
  }
}
