/** The player screen: loading the target duration, the one-shot session
    logging shared by auto-stop and close, and the countdown and phase label. */
module PlayerScreen {
  import opened Wrappers
  import opened JsMath
  import opened Text
  import opened Patterns
  import opened BreathingEngine
  import opened DurationGuards
  import opened Store
  import opened LocalStore
  import opened Settings

  /** The duration-loading effect, given `Number(search.duration)` (None when
      the parameter is absent or empty): only a number above 0 is validated,
      everything else takes the fallback. */
  function LoadedTargetDuration(duration: Option<JsNumber>): (r: real)
    ensures MinDurationSeconds <= r <= MaxDurationSeconds
    ensures duration.None? || duration.value.NaN? || !duration.value.Above(0.0) ==> r == SafeFallbackDurationSeconds
    ensures duration.Some? && duration.value.Finite? && MinDurationSeconds <= duration.value.value <= MaxDurationSeconds
            ==> r == duration.value.value
    ensures !(duration.Some? && duration.value.Finite? && MinDurationSeconds <= duration.value.value <= MaxDurationSeconds)
            ==> r == SafeFallbackDurationSeconds
  {
    if duration.Some? && !duration.value.NaN? && duration.value.Above(0.0) then ValidateDuration(duration)
    else ValidateDuration(None)
  }

  /** The logged duration of a session: whole milliseconds, floored. */
  function SessionDurationMs(totalElapsed: real): (r: int)
    ensures r as real <= totalElapsed * 1000.0 < r as real + 1.0
  {
    Floor(totalElapsed * 1000.0)
  }

  /** `remainingTime`: what is left of the target, never negative. */
  function RemainingTime(targetDuration: real, totalElapsed: real): (r: real)
    ensures r >= 0.0
    ensures totalElapsed <= targetDuration ==> r + totalElapsed == targetDuration
    ensures totalElapsed >= targetDuration ==> r == 0.0
  {
    Max(0.0, targetDuration - totalElapsed)
  }

  /** `formatCountdown`: minutes and seconds, each zero-padded to two digits. */
  function FormatCountdown(seconds: real): (r: string)
  {
    var mins := Floor(seconds / 60.0);
    var secs := Floor(RemReal(seconds, 60.0));
    PadStart(IntToString(mins), 2, '0') + ":" + PadStart(IntToString(secs), 2, '0')
  }

  /** For a non-negative time the countdown reads back as the whole minutes
      and the seconds 0..59 of `floor(seconds)`, both fields at least two
      characters wide and the seconds exactly two. */
  lemma FormatCountdownReadsBack(seconds: real)
    requires seconds >= 0.0
    ensures var fields := Split(FormatCountdown(seconds), ':');
            |fields| == 2 && |fields[0]| >= 2 && |fields[1]| == 2
    ensures ParseClock(FormatCountdown(seconds)) == Some([Floor(seconds) / 60, Floor(seconds) % 60])
  {
    CountdownArithmetic(seconds);
    MinutesSecondsReadBack(FormatCountdown(seconds), Floor(seconds) / 60, Floor(seconds) % 60);
  }

  /** Minutes and seconds 0..59, each padded to two digits and joined by a
      colon, read back as themselves. */
  lemma MinutesSecondsReadBack(text: string, m: nat, s: nat)
    requires s < 60
    requires text == PadStart(IntToString(m), 2, '0') + ":" + PadStart(IntToString(s), 2, '0')
    ensures var fields := Split(text, ':');
            |fields| == 2 && |fields[0]| >= 2 && |fields[1]| == 2
    ensures ParseClock(text) == Some([m, s])
  {
    var a := PadStart(IntToString(m), 2, '0');
    var b := PadStart(IntToString(s), 2, '0');
    ValueOfPadded(IntToString(m), 2);
    ValueOfPadded(IntToString(s), 2);
    ShortNumber(s);
    ParseClock2(a, b);
  }

  /** The minutes and seconds fields of the countdown are the quotient and
      remainder of `floor(seconds)` by 60. */
  lemma CountdownArithmetic(seconds: real)
    requires seconds >= 0.0
    ensures Floor(seconds / 60.0) == Floor(seconds) / 60
    ensures Floor(RemReal(seconds, 60.0)) == Floor(seconds) % 60
  {
    var m := Floor(seconds / 60.0);
    var rem := RemReal(seconds, 60.0);
    assert rem == RemNonNegative(seconds, 60.0);
    assert seconds - rem == 60.0 * m as real;
    assert rem == seconds - (60 * m) as real;
    FloorShift(seconds, 60 * m);
    var s := Floor(rem);
    assert 0 <= s < 60;
    DivModOf(m, 60, s);
  }

  /** `getPhaseLabel`. */
  function PhaseLabel(state: BreathingState): (r: string)
    ensures !state.isRunning ==> r == ""
    ensures state.isRunning ==> (r == "breathe in" <==> state.phase == Inhale)
    ensures state.isRunning ==> (r == "breathe out" <==> state.phase == Exhale)
    ensures state.isRunning ==> (r == "hold" <==> state.phase in {HoldTop, HoldBottom})
  {
    if !state.isRunning then ""
    else match state.phase
      case Inhale => "breathe in"
      case Exhale => "breathe out"
      case HoldTop => "hold"
      case HoldBottom => "hold"
  }

  class Player {
    const engine: Engine
    const storage: Storage
    var targetDuration: real
    /** The start instant of the session not yet logged, or 0. */
    var sessionStart: int
    var sessionLogged: bool
    /** The screen has been left; no handler runs after that. */
    var closed: bool
    /** The sessions this screen has logged since the last start. */
    ghost var logged: seq<BreathingSession>

    /** At most one session is logged per start; once one is, the one-shot
        state says so (or the screen is gone). */
    ghost predicate Valid()
      reads this, engine
    {
      && engine.Valid()
      && |logged| <= 1
      && (|logged| == 1 ==> closed || (sessionStart == 0 && sessionLogged))
    }

    /** Mounting: the engine runs the given (parsed) pattern with the voice
        volume at 80 and the stored guided-meditation switch. */
    constructor (pattern: Pattern, storage: Storage)
      ensures Valid() && !closed
      ensures this.storage == storage && fresh(engine)
      ensures engine.pattern == pattern
      ensures engine.options == EngineOptions(Some(80.0), Some(GetGuidedMeditationEnabled(storage)))
      ensures !engine.state.isRunning
      ensures targetDuration == 0.0 && sessionStart == 0 && !sessionLogged && logged == []
    {
      engine := new Engine(pattern, EngineOptions(Some(80.0), Some(GetGuidedMeditationEnabled(storage))));
      this.storage := storage;
      targetDuration := 0.0;
      sessionStart := 0;
      sessionLogged := false;
      closed := false;
      logged := [];
    }

    /** The duration-loading effect. */
    method LoadDuration(duration: Option<JsNumber>)
      modifies this`targetDuration
      ensures targetDuration == LoadedTargetDuration(duration)
      ensures MinDurationSeconds <= targetDuration <= MaxDurationSeconds
    {
      targetDuration := LoadedTargetDuration(duration);
    }

    /** The voice-guidance slider: the next render hands the engine the new
        volume, which from then on decides whether phase prompts are spoken
        (the guidance module's own volume setting is not modelled). A volume
        of 0 or less silences the prompts; a positive one leaves the
        decision to the guided-meditation switch. */
    method SetVoiceVolume(volume: real)
      requires Valid()
      modifies engine`options
      ensures Valid()
      ensures engine.options == old(engine.options).(voiceVolume := Some(volume))
      ensures volume <= 0.0 ==> !AnnounceEnabled(engine.options)
      ensures volume > 0.0 ==>
                (AnnounceEnabled(engine.options) <==> engine.options.guidedMeditationEnabled.GetOr(true))
    {
      engine.options := engine.options.(voiceVolume := Some(volume));
    }

    /** Whether the auto-stop effect acts on the current state. */
    predicate AutoStopDue()
      reads this, engine
    {
      && engine.state.isRunning
      && !engine.state.isPaused
      && targetDuration > 0.0
      && ShouldAllowAutoStop(engine.state.totalElapsed, targetDuration)
      && !sessionLogged
    }

    /** The auto-stop effect: once the target is reached, stop the engine and,
        if a session is open, log it once and close the one-shot. */
    method AutoStopCheck(now: int)
      requires Valid() && !closed
      modifies this`sessionStart, this`sessionLogged, this`logged,
               engine`state, engine`intervalActive, engine`log, storage`items
      ensures Valid() && !closed
      ensures !old(AutoStopDue()) ==>
                && engine.state == old(engine.state) && engine.log == old(engine.log)
                && storage.items == old(storage.items)
                && sessionStart == old(sessionStart) && sessionLogged == old(sessionLogged)
                && logged == old(logged)
      ensures old(AutoStopDue()) ==>
                && engine.state == old(engine.state).(isRunning := false, isPaused := false)
                && engine.log == old(engine.log) + [CancelSpeech]
      ensures old(AutoStopDue()) && old(sessionStart) > 0 ==>
                var session := BreathingSession(now, engine.pattern.name, SessionDurationMs(old(engine.state.totalElapsed)));
                && logged == old(logged) + [session]
                && sessionStart == 0 && sessionLogged
                && storage.items == old(ItemsAfterAddBreathingSession(storage, engine.pattern.name, session.duration, now))
      ensures old(AutoStopDue()) && old(sessionStart) <= 0 ==>
                && storage.items == old(storage.items) && logged == old(logged)
                && sessionStart == old(sessionStart) && sessionLogged == old(sessionLogged)
    {
      if AutoStopDue() {
        var elapsed := engine.state.totalElapsed;
        engine.Stop();
        if sessionStart > 0 {
          var duration := SessionDurationMs(elapsed);
          AddBreathingSession(storage, engine.pattern.name, duration, now);
          logged := logged + [BreathingSession(now, engine.pattern.name, duration)];
          sessionStart := 0;
          sessionLogged := true;
        }
      }
    }

    /** `handleClose`: cancel speech, stop a running engine, and log the
        session unless it is already logged, never opened, or empty. */
    method HandleClose(now: int)
      requires Valid() && !closed
      modifies this`closed, this`logged, engine`state, engine`intervalActive, engine`log, storage`items
      ensures Valid() && closed
      ensures !engine.state.isRunning && !engine.intervalActive
      ensures engine.state == if old(engine.state.isRunning) then old(engine.state).(isRunning := false, isPaused := false)
                              else old(engine.state)
      ensures engine.log == old(engine.log) + [CancelSpeech] + (if old(engine.state.isRunning) then [CancelSpeech] else [])
      ensures var saves := old(sessionStart) > 0 && !old(sessionLogged) && old(engine.state.totalElapsed) > 0.0;
              var session := BreathingSession(now, engine.pattern.name, SessionDurationMs(old(engine.state.totalElapsed)));
              && (saves ==> logged == old(logged) + [session]
                            && storage.items == old(ItemsAfterAddBreathingSession(storage, engine.pattern.name, session.duration, now)))
              && (!saves ==> logged == old(logged) && storage.items == old(storage.items))
      ensures old(sessionLogged) ==> logged == old(logged) && storage.items == old(storage.items)
    {
      engine.log := engine.log + [CancelSpeech];
      if engine.state.isRunning {
        engine.Stop();
      }
      if sessionStart > 0 && !sessionLogged && engine.state.totalElapsed > 0.0 {
        var duration := SessionDurationMs(engine.state.totalElapsed);
        AddBreathingSession(storage, engine.pattern.name, duration, now);
        logged := logged + [BreathingSession(now, engine.pattern.name, duration)];
      }
      closed := true;
    }

    /** `handleStart`: open a new session at `now`, then start the engine. */
    method HandleStart(now: int)
      requires Valid() && !closed
      modifies this`sessionStart, this`sessionLogged, this`logged,
               engine`state, engine`startTime, engine`phaseStart, engine`totalPausedDuration,
               engine`intervalActive, engine`log
      ensures Valid() && !closed
      ensures sessionStart == now && !sessionLogged && logged == []
      ensures engine.state == BreathingState(Inhale, engine.pattern.inhale, true, false, 0.0)
      ensures engine.startTime == now && engine.phaseStart == now && engine.totalPausedDuration == 0
      ensures engine.log == old(engine.log) + PhaseCues(engine.options, Inhale)
    {
      sessionStart := now;
      sessionLogged := false;
      logged := [];
      engine.Start(now);
    }
  }

  /** One start, an auto-stop at the 30 s target and then a close log exactly
      one session of 30 000 ms in an empty, working store. */
  method AutoStopThenCloseLogsOnce(t0: int, tClose: int) returns (sessions: seq<BreathingSession>)
    requires t0 > 0
    ensures sessions == [BreathingSession(t0 + 30000, "Slow", 30000)]
  {
    var storage := new Storage(map[], false);
    var pattern := Pattern("slow", "Slow", "100-0-0-0", 100.0, 0.0, 0.0, 0.0);
    var player := new Player(pattern, storage);
    player.LoadDuration(Some(Finite(30.0)));
    player.HandleStart(t0);
    player.engine.Tick(t0 + 30000);
    assert player.engine.state.totalElapsed == 30.0;
    player.AutoStopCheck(t0 + 30000);
    player.HandleClose(tClose);
    sessions := GetBreathingSessions(storage);
  }
}
