/** The breath-hold test page: a stopwatch whose attempts are stored, and the
    all-time record shown above it. */
module BreathHoldTest {
  import opened Wrappers
  import opened JsMath
  import opened Text
  import opened Store
  import opened LocalStore

  /** `Math.max(...durations)` over a non-empty list. */
  function MaxDuration(records: seq<BreathHoldRecord>): (m: int)
    requires records != []
    ensures exists i :: 0 <= i < |records| && records[i].duration == m
    ensures forall i :: 0 <= i < |records| ==> records[i].duration <= m
  {
    if |records| == 1 then records[0].duration
    else
      var rest := MaxDuration(records[1..]);
      assert forall i :: 1 <= i < |records| ==> records[i] == records[1..][i - 1];
      MaxInt(records[0].duration, rest)
  }

  /** The record the page starts with: the longest stored hold, or 0. */
  function InitialRecord(records: seq<BreathHoldRecord>): (r: int)
    ensures records == [] ==> r == 0
    ensures records != [] ==> r == MaxDuration(records)
  {
    if records == [] then 0 else MaxDuration(records)
  }

  /** `formatTime`: whole hours, minutes and seconds of the floored seconds,
      each padded to two digits. */
  function FormatTime(ms: int): (r: string)
  {
    var totalSeconds := FloorDiv(ms, 1000);
    var hours := FloorDiv(totalSeconds, 3600);
    var minutes := FloorDiv(Rem(totalSeconds, 3600), 60);
    var seconds := Rem(totalSeconds, 60);
    ClockText(hours, minutes, seconds)
  }

  function ClockText(hours: int, minutes: int, seconds: int): string {
    PadStart(IntToString(hours), 2, '0') + ":" + PadStart(IntToString(minutes), 2, '0') + ":"
      + PadStart(IntToString(seconds), 2, '0')
  }

  /** A non-negative time reads back as hours, minutes 0..59 and seconds
      0..59 that add up to its whole seconds; minutes and seconds are exactly
      two digits wide, the hours at least two. */
  lemma FormatTimeReadsBack(ms: int)
    requires ms >= 0
    ensures var fields := Split(FormatTime(ms), ':');
            |fields| == 3 && |fields[0]| >= 2 && |fields[1]| == 2 && |fields[2]| == 2
    ensures var v := ParseClock(FormatTime(ms));
            && v.Some? && |v.value| == 3
            && v.value[1] < 60 && v.value[2] < 60
            && v.value[0] * 3600 + v.value[1] * 60 + v.value[2] == ms / 1000
  {
    FormatTimeFields(ms);
    ClockReadsBack(FormatTime(ms), ms / 1000);
  }

  /** A clock text built from the hours, minutes and seconds of `t` reads
      back as fields that add up to `t`. */
  lemma ClockReadsBack(text: string, t: int)
    requires t >= 0
    requires text == ClockText(t / 3600, (t % 3600) / 60, t % 60)
    ensures var fields := Split(text, ':');
            |fields| == 3 && |fields[0]| >= 2 && |fields[1]| == 2 && |fields[2]| == 2
    ensures var v := ParseClock(text);
            && v.Some? && |v.value| == 3
            && v.value[1] < 60 && v.value[2] < 60
            && v.value[0] * 3600 + v.value[1] * 60 + v.value[2] == t
  {
    ClockArithmetic(t);
    ClockTextReadsBack(t / 3600, (t % 3600) / 60, t % 60);
  }

  /** The three fields `formatTime` computes, for a non-negative time. */
  lemma FormatTimeFields(ms: int)
    requires ms >= 0
    ensures var t := ms / 1000;
            FormatTime(ms) == ClockText(t / 3600, (t % 3600) / 60, t % 60)
  {
    var t := ms / 1000;
    assert FloorDiv(ms, 1000) == t;
    assert Rem(t, 3600) == t % 3600;
    assert Rem(t, 60) == t % 60;
  }

  /** Two-digit-padded fields read back as their values. */
  lemma ClockTextReadsBack(h: nat, m: nat, s: nat)
    requires m < 60 && s < 60
    ensures var fields := Split(ClockText(h, m, s), ':');
            |fields| == 3 && |fields[0]| >= 2 && |fields[1]| == 2 && |fields[2]| == 2
    ensures ParseClock(ClockText(h, m, s)) == Some([h, m, s])
  {
    var a := PadStart(IntToString(h), 2, '0');
    var b := PadStart(IntToString(m), 2, '0');
    var c := PadStart(IntToString(s), 2, '0');
    ValueOfPadded(IntToString(h), 2);
    ValueOfPadded(IntToString(m), 2);
    ValueOfPadded(IntToString(s), 2);
    ShortNumber(m);
    ShortNumber(s);
    ParseClock3(a, b, c);
  }

  /** Hours, minutes and seconds of `t` seconds. */
  lemma ClockArithmetic(t: int)
    requires t >= 0
    ensures (t % 3600) / 60 < 60 && t % 60 < 60
    ensures (t / 3600) * 3600 + ((t % 3600) / 60) * 60 + t % 60 == t
  {
    var h, r := t / 3600, t % 3600;
    assert t == h * 3600 + r;
    assert r == ((r / 60) * 60) + r % 60;
    assert t == (h * 60) * 60 + r;
    ModOfMultiple(h * 60, 60, r);
    assert t % 60 == r % 60;
  }

  class BreathHoldPage {
    const storage: Storage
    var isRunning: bool
    /** Milliseconds of the current or last attempt. */
    var elapsed: int
    var allTimeRecord: int
    var startTime: int
    /** The attempts stopped on this page. */
    ghost var attempts: seq<int>

    /** The record is at least every attempt stopped here. */
    ghost predicate Valid()
      reads this
    {
      forall i :: 0 <= i < |attempts| ==> attempts[i] <= allTimeRecord
    }

    /** Mounting loads the record from the stored attempts. */
    constructor (storage: Storage)
      ensures Valid() && this.storage == storage
      ensures !isRunning && elapsed == 0 && attempts == []
      ensures allTimeRecord == InitialRecord(GetBreathHoldRecords(storage))
    {
      this.storage := storage;
      isRunning := false;
      elapsed := 0;
      startTime := 0;
      attempts := [];
      allTimeRecord := InitialRecord(GetBreathHoldRecords(storage));
    }

    /** `handleStart` and the effect it triggers: elapsed back to 0, the
        stopwatch starts at `now`. */
    method HandleStart(now: int)
      requires Valid()
      modifies this`isRunning, this`elapsed, this`startTime
      ensures Valid() && isRunning && elapsed == 0 && startTime == now
    {
      elapsed := 0;
      isRunning := true;
      startTime := now;
    }

    /** One 100 ms tick of the running stopwatch. */
    method Tick(now: int)
      requires Valid() && isRunning
      modifies this`elapsed
      ensures Valid() && elapsed == now - startTime
    {
      elapsed := now - startTime;
    }

    /** `handleStop`: a positive attempt is stored (stamped `now`) and raises
        the record if it beats it; the record never decreases. */
    method HandleStop(now: int)
      requires Valid()
      modifies this`isRunning, this`allTimeRecord, this`attempts, storage`items
      ensures Valid() && !isRunning
      ensures allTimeRecord >= old(allTimeRecord)
      ensures elapsed > 0 ==> allTimeRecord == MaxInt(old(allTimeRecord), elapsed) && attempts == old(attempts) + [elapsed]
      ensures elapsed > 0 ==> storage.items == old(ItemsAfterAddBreathHoldRecord(storage, elapsed, now))
      ensures elapsed <= 0 ==> (allTimeRecord == old(allTimeRecord) && attempts == old(attempts)
                                && storage.items == old(storage.items))
    {
      isRunning := false;
      if elapsed > 0 {
        AddBreathHoldRecord(storage, elapsed, now);
        attempts := attempts + [elapsed];
        if elapsed > allTimeRecord {
          allTimeRecord := elapsed;
        }
      }
    }
  }
}
