/** The breathing phase engine: a four-phase cyclic state machine driven by a
    periodic tick. Elapsed time is always recomputed from absolute instants
    (milliseconds, as `Date.now()` gives them), never summed from per-tick
    deltas. Speech, vibration and speech cancellation are recorded as cues
    appended to a log. */
module BreathingEngine {
  import opened Wrappers
  import opened JsMath
  import opened Patterns

  /** What the engine publishes to the page. */
  datatype BreathingState = BreathingState(
    phase: Phase,
    timeRemaining: real,
    isRunning: bool,
    isPaused: bool,
    totalElapsed: real)

  /** The optional engine settings; absent values take their defaults. */
  datatype EngineOptions = EngineOptions(voiceVolume: Option<real>, guidedMeditationEnabled: Option<bool>)

  /** A side effect on the speech or vibration channel. */
  datatype Cue = Speak(text: string) | Vibrate(ms: int) | CancelSpeech

  /** The fixed cycle order. */
  const PhaseSequence: seq<Phase> := [Inhale, HoldTop, Exhale, HoldBottom]

  function IndexOf(p: Phase): (i: nat)
    ensures i < |PhaseSequence| && PhaseSequence[i] == p
  {
    match p
    case Inhale => 0
    case HoldTop => 1
    case Exhale => 2
    case HoldBottom => 3
  }

  /** The phase after `p`, looked up in the cycle order. */
  function NextPhase(p: Phase): (r: Phase)
    ensures p == Inhale ==> r == HoldTop
    ensures p == HoldTop ==> r == Exhale
    ensures p == Exhale ==> r == HoldBottom
    ensures p == HoldBottom ==> r == Inhale
  {
    PhaseSequence[(IndexOf(p) + 1) % |PhaseSequence|]
  }

  /** `k` applications of NextPhase. */
  function Advance(p: Phase, k: nat): Phase
    decreases k
  {
    if k == 0 then p else Advance(NextPhase(p), k - 1)
  }

  /** Four steps around the cycle return to the starting phase. */
  lemma {:induction false} AdvanceFour(p: Phase)
    ensures Advance(p, 4) == p
  {
    var p1 := NextPhase(p);
    var p2 := NextPhase(p1);
    var p3 := NextPhase(p2);
    assert Advance(p, 4) == Advance(p3, 1);
  }

  /** The four phases met from any starting phase are all four phases. */
  lemma {:induction false} AdvanceCoversAll(p: Phase, q: Phase)
    ensures exists k :: 0 <= k < 4 && Advance(p, k) == q
  {
    var p1 := NextPhase(p);
    var p2 := NextPhase(p1);
    var p3 := NextPhase(p2);
    assert Advance(p, 0) == p;
    assert Advance(p, 1) == p1;
    assert Advance(p, 2) == p2;
    assert Advance(p, 3) == p3;
  }

  /** The configured length of the phase. */
  function PhaseDuration(pattern: Pattern, phase: Phase): real {
    pattern.Duration(phase)
  }

  /** The spoken prompt for a phase. */
  function PhaseGuidance(phase: Phase): (r: string)
    ensures phase == Inhale ==> r == "Breathe in"
    ensures phase == Exhale ==> r == "Breathe out"
    ensures phase == HoldTop || phase == HoldBottom ==> r == "Hold"
  {
    match phase
    case Inhale => "Breathe in"
    case HoldTop => "Hold"
    case Exhale => "Breathe out"
    case HoldBottom => "Hold"
  }

  /** The phase the zero-skipping transition settles on when it is asked to
      enter `p` and may look at `budget` phases: the first of them whose
      duration is not exactly 0. */
  function FirstNonZero(pattern: Pattern, p: Phase, budget: nat): Option<Phase>
    decreases budget
  {
    if budget == 0 then None
    else if PhaseDuration(pattern, p) != 0.0 then Some(p)
    else FirstNonZero(pattern, NextPhase(p), budget - 1)
  }

  /** The phase actually entered when the transition is asked to enter `p`. */
  function EnteredPhase(pattern: Pattern, p: Phase): Option<Phase> {
    FirstNonZero(pattern, p, 4)
  }

  /** How many zero-length phases come before the first non-zero one,
      starting at `p` (`budget` when all phases within the budget are zero). */
  function ZeroRun(pattern: Pattern, p: Phase, budget: nat): (k: nat)
    ensures k <= budget
    decreases budget
  {
    if budget == 0 || PhaseDuration(pattern, p) != 0.0 then 0
    else 1 + ZeroRun(pattern, NextPhase(p), budget - 1)
  }

  /** FirstNonZero enters the phase after the run of zero-length phases, or
      nothing when the run uses up the whole budget. */
  lemma {:induction false} FirstNonZeroIsFirst(pattern: Pattern, p: Phase, budget: nat)
    ensures var k := ZeroRun(pattern, p, budget);
            && (forall j :: 0 <= j < k ==> PhaseDuration(pattern, Advance(p, j)) == 0.0)
            && (k < budget ==> PhaseDuration(pattern, Advance(p, k)) != 0.0
                               && FirstNonZero(pattern, p, budget) == Some(Advance(p, k)))
            && (k == budget ==> FirstNonZero(pattern, p, budget) == None)
    decreases budget
  {
    if budget > 0 && PhaseDuration(pattern, p) == 0.0 {
      var n := NextPhase(p);
      FirstNonZeroIsFirst(pattern, n, budget - 1);
      forall j | 1 <= j <= budget
        ensures Advance(p, j) == Advance(n, j - 1)
      {
      }
    }
  }

  /** A transition enters some phase exactly when the pattern has a non-zero
      phase; the phase entered is the first non-zero one in cycle order,
      at most three skips away, and a negative duration is not skipped.
      For an all-zero pattern the source's recursion never ends. */
  lemma EnteredPhaseSpec(pattern: Pattern, p: Phase)
    ensures EnteredPhase(pattern, p).Some? <==> pattern.HasNonZeroPhase()
    ensures var k := ZeroRun(pattern, p, 4);
            EnteredPhase(pattern, p).Some? ==>
              && k < 4
              && EnteredPhase(pattern, p) == Some(Advance(p, k))
              && PhaseDuration(pattern, Advance(p, k)) != 0.0
              && (forall j :: 0 <= j < k ==> PhaseDuration(pattern, Advance(p, j)) == 0.0)
    ensures PhaseDuration(pattern, p) < 0.0 ==> EnteredPhase(pattern, p) == Some(p)
  {
    FirstNonZeroIsFirst(pattern, p, 4);
    if pattern.HasNonZeroPhase() {
      var q :| PhaseDuration(pattern, q) != 0.0;
      AdvanceCoversAll(p, q);
    }
  }

  /** Whether a phase entry is announced: guided meditation on (default on)
      and the voice volume (default 80) above zero once scaled to 0..1. */
  predicate AnnounceEnabled(options: EngineOptions) {
    options.guidedMeditationEnabled.GetOr(true) && options.voiceVolume.GetOr(80.0) / 100.0 > 0.0
  }

  /** The cues for entering a phase: its spoken prompt when announcements are
      enabled, then a 50 ms vibration in every case. */
  function PhaseCues(options: EngineOptions, phase: Phase): (r: seq<Cue>)
    ensures |r| >= 1 && r[|r| - 1] == Vibrate(50)
    ensures Speak(PhaseGuidance(phase)) in r <==> AnnounceEnabled(options)
    ensures forall c :: c in r ==> c == Vibrate(50) || c == Speak(PhaseGuidance(phase))
  {
    if AnnounceEnabled(options) then [Speak(PhaseGuidance(phase)), Vibrate(50)] else [Vibrate(50)]
  }

  class Engine {
    /** The pattern and options of the latest render. */
    var pattern: Pattern
    var options: EngineOptions
    var state: BreathingState
    /** Instants in milliseconds. */
    var startTime: int
    var phaseStart: int
    var pausedTime: int
    var totalPausedDuration: int
    /** Whether the 100 ms interval timer is installed. */
    var intervalActive: bool
    /** Every speech and vibration cue issued so far. */
    ghost var log: seq<Cue>

    /** At most one interval, and it exists exactly while running and not paused. */
    ghost predicate Valid()
      reads this
    {
      intervalActive == (state.isRunning && !state.isPaused)
    }

    constructor (pattern: Pattern, options: EngineOptions)
      ensures Valid()
      ensures this.pattern == pattern && this.options == options
      ensures state == BreathingState(Inhale, pattern.inhale, false, false, 0.0)
      ensures startTime == phaseStart == pausedTime == totalPausedDuration == 0
      ensures log == []
    {
      this.pattern := pattern;
      this.options := options;
      state := BreathingState(Inhale, pattern.inhale, false, false, 0.0);
      startTime, phaseStart, pausedTime, totalPausedDuration := 0, 0, 0, 0;
      intervalActive := false;
      log := [];
    }

    /** The session time at instant `now`, in seconds, paused time excluded. */
    function TotalElapsedAt(now: int): (r: real)
      reads this
      ensures r * 1000.0 == (now - startTime - totalPausedDuration) as real
    {
      (now - startTime - totalPausedDuration) as real / 1000.0
    }

    /** What is left of the current phase at instant `now`, measured against
        the phase's full duration from the phase-start instant. */
    function TimeRemainingAt(now: int): (r: real)
      reads this
      ensures r >= 0.0
      ensures r > 0.0 ==> r * 1000.0 == PhaseDuration(pattern, state.phase) * 1000.0 - (now - phaseStart) as real
      ensures (now - phaseStart) as real < PhaseDuration(pattern, state.phase) * 1000.0 ==>
                r * 1000.0 == PhaseDuration(pattern, state.phase) * 1000.0 - (now - phaseStart) as real
      ensures (now >= phaseStart && PhaseDuration(pattern, state.phase) >= 0.0) ==>
                r <= PhaseDuration(pattern, state.phase)
    {
      Max(0.0, PhaseDuration(pattern, state.phase) - (now - phaseStart) as real / 1000.0)
    }

    /** A tick at `now` moves to the next phase. */
    predicate TransitionDue(now: int)
      reads this
    {
      TimeRemainingAt(now) <= 0.0
    }

    /** Enter `newPhase`, skipping every phase of duration exactly 0 (the
        source recurses; this loop visits at most four phases). */
    method TransitionToPhase(newPhase: Phase, now: int)
      requires pattern.HasNonZeroPhase()
      modifies this`state, this`phaseStart, this`log
      ensures EnteredPhase(pattern, newPhase) == Some(state.phase)
      ensures state == old(state).(phase := state.phase, timeRemaining := PhaseDuration(pattern, state.phase))
      ensures phaseStart == now
      ensures log == old(log) + PhaseCues(options, state.phase)
    {
      EnteredPhaseSpec(pattern, newPhase);
      var phase := newPhase;
      var budget := 4;
      while PhaseDuration(pattern, phase) == 0.0
        invariant 0 < budget <= 4
        invariant FirstNonZero(pattern, phase, budget) == EnteredPhase(pattern, newPhase)
        invariant EnteredPhase(pattern, newPhase).Some?
        decreases budget
      {
        phase := NextPhase(phase);
        budget := budget - 1;
      }
      log := log + PhaseCues(options, phase);
      phaseStart := now;
      state := state.(phase := phase, timeRemaining := PhaseDuration(pattern, phase));
    }

    /** Begin a session in the inhale phase, even when inhale lasts 0 s. */
    method Start(now: int)
      requires Valid()
      modifies this`state, this`startTime, this`phaseStart, this`totalPausedDuration,
               this`intervalActive, this`log
      ensures Valid()
      ensures state == BreathingState(Inhale, pattern.inhale, true, false, 0.0)
      ensures startTime == now && phaseStart == now && totalPausedDuration == 0
      ensures log == old(log) + PhaseCues(options, Inhale)
    {
      startTime := now;
      phaseStart := now;
      totalPausedDuration := 0;
      state := BreathingState(Inhale, pattern.inhale, true, false, 0.0);
      log := log + PhaseCues(options, Inhale);
      intervalActive := true;
    }

    /** Stop ticking and remember the pause instant; phase, remaining time
        and elapsed time are kept. */
    method Pause(now: int)
      requires Valid()
      modifies this`state, this`pausedTime, this`intervalActive, this`log
      ensures Valid()
      ensures state == old(state).(isPaused := true)
      ensures pausedTime == now
      ensures log == old(log) + [CancelSpeech]
    {
      intervalActive := false;
      log := log + [CancelSpeech];
      pausedTime := now;
      state := state.(isPaused := true);
    }

    /** Add the pause to the paused total and rebase the phase start to now:
        the current phase starts over from its full duration. */
    method Resume(now: int)
      requires Valid()
      modifies this`state, this`pausedTime, this`totalPausedDuration, this`phaseStart,
               this`intervalActive
      ensures Valid()
      ensures state == old(state).(isPaused := false)
      ensures old(pausedTime) > 0 ==>
                totalPausedDuration == old(totalPausedDuration) + (now - old(pausedTime)) && pausedTime == 0
      ensures old(pausedTime) <= 0 ==>
                totalPausedDuration == old(totalPausedDuration) && pausedTime == old(pausedTime)
      ensures phaseStart == now
      ensures TimeRemainingAt(now) == Max(0.0, PhaseDuration(pattern, state.phase))
    {
      if pausedTime > 0 {
        var pauseDuration := now - pausedTime;
        totalPausedDuration := totalPausedDuration + pauseDuration;
        pausedTime := 0;
      }
      phaseStart := now;
      state := state.(isPaused := false);
      intervalActive := state.isRunning;
    }

    /** End the session; the last phase, remaining and elapsed time stay readable. */
    method Stop()
      requires Valid()
      modifies this`state, this`intervalActive, this`log
      ensures Valid()
      ensures state == old(state).(isRunning := false, isPaused := false)
      ensures !intervalActive
      ensures log == old(log) + [CancelSpeech]
    {
      intervalActive := false;
      log := log + [CancelSpeech];
      state := state.(isRunning := false, isPaused := false);
    }

    /** One firing of the 100 ms interval, which exists only while running and
        not paused. Either the current phase has run out and the engine enters
        the next non-zero phase (leaving the elapsed time as it was), or only
        the remaining and elapsed times are refreshed. When every phase lasts
        0 s the zero skip recurses until the stack overflows; the error is
        thrown before any cue or state update, so such a tick changes
        nothing, and the interval keeps firing. */
    method Tick(now: int)
      requires Valid() && intervalActive
      modifies this`state, this`phaseStart, this`log
      ensures Valid()
      ensures old(TransitionDue(now)) && !pattern.HasNonZeroPhase() ==>
                state == old(state) && phaseStart == old(phaseStart) && log == old(log)
      ensures old(TransitionDue(now)) && pattern.HasNonZeroPhase() ==>
                && EnteredPhase(pattern, NextPhase(old(state.phase))) == Some(state.phase)
                && state == old(state).(phase := state.phase, timeRemaining := PhaseDuration(pattern, state.phase))
                && phaseStart == now
                && log == old(log) + PhaseCues(options, state.phase)
      ensures !old(TransitionDue(now)) ==>
                && state == old(state).(timeRemaining := old(TimeRemainingAt(now)),
                                        totalElapsed := old(TotalElapsedAt(now)))
                && phaseStart == old(phaseStart)
                && log == old(log)
    {
      var totalElapsedSeconds := (now - startTime - totalPausedDuration) as real / 1000.0;
      var phaseElapsed := (now - phaseStart) as real / 1000.0;
      var phaseDuration := PhaseDuration(pattern, state.phase);
      var timeRemaining := Max(0.0, phaseDuration - phaseElapsed);
      if timeRemaining <= 0.0 {
        var nextPhase := NextPhase(state.phase);
        if pattern.HasNonZeroPhase() {
          TransitionToPhase(nextPhase, now);
        }
      } else {
        state := state.(timeRemaining := timeRemaining, totalElapsed := totalElapsedSeconds);
      }
    }
  }

  /** Equal breathing (4-0-4-0): 4 s after the start the hold is skipped and
      the engine is in the exhale phase with its full 4 s ahead; the elapsed
      time still shows the last non-transition tick (3.9 s). */
  method EqualBreathingFirstTransition(t0: int, options: EngineOptions) returns (s: BreathingState)
    ensures s.phase == Exhale && s.timeRemaining == 4.0 && s.isRunning && !s.isPaused
    ensures s.totalElapsed == 3.9
  {
    var engine := new Engine(EqualBreathing, options);
    engine.Start(t0);
    engine.Tick(t0 + 3900);
    assert engine.state.phase == Inhale;
    engine.Tick(t0 + 4000);
    EnteredPhaseSpec(EqualBreathing, HoldTop);
    assert FirstNonZero(EqualBreathing, HoldTop, 4) == Some(Exhale);
    s := engine.state;
  }

  /** Time spent paused contributes nothing: after start at t0, a pause at tp
      and a resume at tr, a tick at t1 reports t1 - t0 - (tr - tp) ms of
      session time. A pause at instant 0 is not recorded, as in the source. */
  method PausedTimeExcluded(pattern: Pattern, options: EngineOptions, t0: int, tp: int, tr: int, t1: int)
    returns (elapsed: real)
    requires tr <= t1 && (t1 - tr) as real < pattern.inhale * 1000.0
    ensures tp > 0 ==> elapsed * 1000.0 == (t1 - t0 - (tr - tp)) as real
    ensures tp <= 0 ==> elapsed * 1000.0 == (t1 - t0) as real
  {
    var engine := new Engine(pattern, options);
    engine.Start(t0);
    engine.Pause(tp);
    engine.Resume(tr);
    engine.Tick(t1);
    elapsed := engine.state.totalElapsed;
  }

  /** Resuming restarts the current phase: a tick `d` ms after a resume sees
      the phase's full duration minus `d`, however much of the phase had
      elapsed before the pause. */
  method ResumeRestartsPhase(pattern: Pattern, options: EngineOptions, t0: int, tp: int, tr: int, d: nat)
    returns (remaining: real)
    requires (d as real) < pattern.inhale * 1000.0
    ensures remaining * 1000.0 == pattern.inhale * 1000.0 - d as real
  {
    var engine := new Engine(pattern, options);
    engine.Start(t0);
    engine.Pause(tp);
    engine.Resume(tr);
    engine.Tick(tr + d);
    remaining := engine.state.timeRemaining;
  }

  /** A pattern whose four phases all last 0 s is due for a transition on
      every tick, and every such tick overflows the stack before it changes
      anything: the player stays on the inhale phase with no time remaining
      and no elapsed time, and no cue beyond the first is issued. */
  method AllZeroPatternStaysFrozen(pattern: Pattern, options: EngineOptions, t0: int, t1: int, t2: int)
    returns (s: BreathingState, ghost cues: seq<Cue>)
    requires pattern.inhale == pattern.holdTop == pattern.exhale == pattern.holdBottom == 0.0
    requires t0 <= t1 <= t2
    ensures s == BreathingState(Inhale, 0.0, true, false, 0.0)
    ensures cues == PhaseCues(options, Inhale)
  {
    var engine := new Engine(pattern, options);
    engine.Start(t0);
    engine.Tick(t1);
    engine.Tick(t2);
    s := engine.state;
    cues := engine.log;
  }
}
