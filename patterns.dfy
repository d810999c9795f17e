/** Breathing patterns: four phase durations in seconds (custom patterns allow
    half-second steps, hence `real`) with identity and display metadata, and
    the three preset patterns offered on the home screen. */
module Patterns {

  /** The four parts of a breathing cycle, in cycle order. */
  datatype Phase = Inhale | HoldTop | Exhale | HoldBottom

  datatype Pattern = Pattern(
    id: string,
    name: string,
    description: string,
    inhale: real,
    holdTop: real,
    exhale: real,
    holdBottom: real)
  {
    /** The configured length of one phase. */
    function Duration(phase: Phase): real {
      match phase
      case Inhale => inhale
      case HoldTop => holdTop
      case Exhale => exhale
      case HoldBottom => holdBottom
    }

    predicate NonNegative() {
      inhale >= 0.0 && holdTop >= 0.0 && exhale >= 0.0 && holdBottom >= 0.0
    }

    /** Some phase lasts a non-zero time (the skipping of zero-length phases
        terminates only for such patterns). */
    predicate HasNonZeroPhase() {
      inhale != 0.0 || holdTop != 0.0 || exhale != 0.0 || holdBottom != 0.0
    }

    /** The length of one full cycle: the sum of the four phases. */
    function CycleSum(): real {
      inhale + holdTop + exhale + holdBottom
    }
  }

  const EqualBreathing := Pattern("equal", "Equal Breathing", "4-4", 4.0, 0.0, 4.0, 0.0)
  const BoxBreathing := Pattern("box", "Box Breathing", "4-4-4-4", 4.0, 4.0, 4.0, 4.0)
  const DeepSleep := Pattern("478", "4-7-8 Deep Sleep", "4-7-8", 4.0, 7.0, 8.0, 0.0)

  /** The preset list, in display order. */
  function PresetPatterns(): (r: seq<Pattern>)
    ensures |r| == 3
    ensures forall i :: 0 <= i < |r| ==> r[i].NonNegative() && r[i].inhale > 0.0
    ensures forall i, j :: 0 <= i < j < |r| ==> r[i].id != r[j].id
    ensures r[0].holdTop == r[0].holdBottom == 0.0 && r[0].CycleSum() == 8.0
    ensures r[1].inhale == r[1].holdTop == r[1].exhale == r[1].holdBottom == 4.0
    ensures r[1].CycleSum() == 16.0
    ensures r[2].holdBottom == 0.0 && r[2].CycleSum() == 19.0
  {
    [EqualBreathing, BoxBreathing, DeepSleep]
  }
}
