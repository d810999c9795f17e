/** The breathing circle: how the engine state is shown (colour, animation,
    centre text, progress ring). */
module BreathingCircle {
  import opened Wrappers
  import opened JsMath
  import opened Text
  import opened Patterns
  import opened BreathingEngine
  import opened Segments

  const InhaleColor := "#C8D5C8"
  const ExhaleColor := "#D5C8C8"
  const HoldColor := "#C8CED5"

  function PhaseDefaultColor(phase: Phase): (r: string)
    ensures r == HoldColor <==> phase in {HoldTop, HoldBottom}
    ensures r == InhaleColor <==> phase == Inhale
    ensures r == ExhaleColor <==> phase == Exhale
  {
    match phase
    case Inhale => InhaleColor
    case Exhale => ExhaleColor
    case HoldTop => HoldColor
    case HoldBottom => HoldColor
  }

  /** `getPhaseColor`: a given, non-empty theme colour while running; the
      phase's own colour otherwise. */
  function PhaseColor(state: BreathingState, themeColor: Option<string>): (r: string)
    ensures themeColor.Some? && themeColor.value != "" && state.isRunning ==> r == themeColor.value
    ensures !(themeColor.Some? && themeColor.value != "" && state.isRunning) ==> r == PhaseDefaultColor(state.phase)
  {
    if themeColor.Some? && themeColor.value != "" && state.isRunning then themeColor.value
    else PhaseDefaultColor(state.phase)
  }

  /** `getAnimationClass`: none unless running and not paused; then one
      class per phase. */
  function AnimationClass(state: BreathingState): (r: string)
    ensures r == "" <==> !state.isRunning || state.isPaused
  {
    if !state.isRunning || state.isPaused then ""
    else match state.phase
      case Inhale => "animate-breathe-in"
      case Exhale => "animate-breathe-out"
      case HoldTop => "animate-breathe-hold-top"
      case HoldBottom => "animate-breathe-hold-bottom"
  }

  /** While animating, the four phases get four different classes. */
  lemma AnimationClassPerPhase(s1: BreathingState, s2: BreathingState)
    requires s1.isRunning && !s1.isPaused && s2.isRunning && !s2.isPaused
    ensures AnimationClass(s1) == AnimationClass(s2) <==> s1.phase == s2.phase
  {
  }

  /** The animation length in seconds: the phase's remaining time while
      animating, 0 otherwise. */
  function AnimationDurationSeconds(state: BreathingState): (r: real)
    ensures !state.isRunning || state.isPaused ==> r == 0.0
    ensures state.isRunning && !state.isPaused ==> r == state.timeRemaining
  {
    if state.isRunning && !state.isPaused then state.timeRemaining else 0.0
  }

  /** `formatTime`: the remaining seconds rounded up. */
  function FormatTime(seconds: real): (r: string)
    ensures seconds > -1.0 ==> IsCanonical(r) && (Value(r) - 1) as real < seconds <= Value(r) as real
  {
    IntToString(Ceil(seconds))
  }

  /** The placeholder literal as the source file holds it: the three UTF-8
      bytes of an em dash, each read as a Windows-1252 character. */
  const PlaceholderAsWritten: string := "\U{00E2}\U{20AC}\U{201D}"
  const EmDash: char := '\U{2014}'

  /** The centre text as written: the override if given, the rounded-up
      remaining time while running, else the literal above. */
  function DisplayTextAsWritten(state: BreathingState, overrideText: Option<string>): (r: string)
    ensures overrideText.None? && !state.isRunning ==> r == PlaceholderAsWritten
  {
    if overrideText.Some? then overrideText.value
    else if state.isRunning then FormatTime(state.timeRemaining)
    else PlaceholderAsWritten
  }

  /** The centre text with the em dash the literal was evidently meant to be. */
  function DisplayText(state: BreathingState, overrideText: Option<string>): (r: string)
    ensures overrideText.Some? ==> r == overrideText.value
    ensures overrideText.None? && state.isRunning ==> r == FormatTime(state.timeRemaining)
    ensures overrideText.None? && !state.isRunning ==> r == [EmDash] && |r| == 1
  {
    if overrideText.Some? then overrideText.value
    else if state.isRunning then FormatTime(state.timeRemaining)
    else [EmDash]
  }

  /** The UTF-8 encoding of a character from U+0800 to U+FFFF. */
  function Utf8ThreeBytes(c: char): (r: seq<int>)
    requires 0x800 <= c as int <= 0xFFFF
    ensures |r| == 3 && 0xE0 <= r[0] < 0xF0 && 0x80 <= r[1] < 0xC0 && 0x80 <= r[2] < 0xC0
  {
    var n := c as int;
    [0xE0 + n / 4096, 0x80 + (n / 64) % 64, 0x80 + n % 64]
  }

  /** The characters Windows-1252 gives the bytes 0x80 to 0x9F (the five
      unassigned bytes are read as the control character of the same number). */
  const Windows1252High: seq<char> := [
    '\U{20AC}', '\U{0081}', '\U{201A}', '\U{0192}', '\U{201E}', '\U{2026}', '\U{2020}', '\U{2021}',
    '\U{02C6}', '\U{2030}', '\U{0160}', '\U{2039}', '\U{0152}', '\U{008D}', '\U{017D}', '\U{008F}',
    '\U{0090}', '\U{2018}', '\U{2019}', '\U{201C}', '\U{201D}', '\U{2022}', '\U{2013}', '\U{2014}',
    '\U{02DC}', '\U{2122}', '\U{0161}', '\U{203A}', '\U{0153}', '\U{009D}', '\U{017E}', '\U{0178}']

  /** One byte read as Windows-1252. */
  function Windows1252(b: int): (c: char)
    requires 0 <= b < 256
    ensures (b < 0x80 || b >= 0xA0) ==> c as int == b
  {
    if b < 0x80 || b >= 0xA0 then b as char else Windows1252High[b - 0x80]
  }

  /** The source shows the mis-decoded literal instead of an em dash whenever
      the engine is idle and no override is given. */
  lemma PlaceholderIsMisdecodedEmDash(state: BreathingState)
    requires !state.isRunning
    ensures var bytes := Utf8ThreeBytes(EmDash);
            bytes == [0xE2, 0x80, 0x94]
            && DisplayTextAsWritten(state, None)
               == [Windows1252(bytes[0]), Windows1252(bytes[1]), Windows1252(bytes[2])]
    ensures DisplayTextAsWritten(state, None) != DisplayText(state, None)
  {
    var bytes := Utf8ThreeBytes(EmDash);
    assert bytes == [0xE2, 0x80, 0x94];
    assert Windows1252(0x94) == '\U{201D}';
  }

  /** Whether the segmented progress ring is drawn: exactly when the engine
      runs and the session length gives the ring at least one segment. */
  function ProgressRingShown(state: BreathingState, sessionDuration: Option<real>): (r: bool)
    ensures r <==> state.isRunning && sessionDuration.Some? && TotalSegments(sessionDuration.value) >= 1
  {
    sessionDuration.Some? && sessionDuration.value > 0.0 && state.isRunning
  }

  /** When the ring appears at the start of a session, it shows all of its
      segments and none of them filled. */
  lemma ProgressRingStartsEmpty(state: BreathingState, sessionDuration: Option<real>)
    requires ProgressRingShown(state, sessionDuration)
    requires 0.0 <= state.totalElapsed < SegmentSeconds
    ensures TotalSegments(sessionDuration.value) >= 1
    ensures FilledSegments(state.totalElapsed, sessionDuration.value) == 0
  {
    FirstSegmentEmpty(state.totalElapsed, sessionDuration.value);
  }
}
