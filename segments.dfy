/** The session progress ring: one segment per eight seconds of the session,
    filled as the elapsed time passes each eight-second mark. */
module Segments {
  import opened JsMath

  const SegmentSeconds: real := 8.0

  /** `Math.ceil(total / 8)`. */
  function TotalSegments(totalDurationSeconds: real): (r: int)
    ensures (r - 1) as real * SegmentSeconds < totalDurationSeconds <= r as real * SegmentSeconds
    ensures totalDurationSeconds > 0.0 ==> r >= 1
  {
    Ceil(totalDurationSeconds / SegmentSeconds)
  }

  /** `Math.min(Math.floor(elapsed / 8), totalSegments)`. */
  function FilledSegments(elapsedSeconds: real, totalDurationSeconds: real): (r: int)
    ensures r <= TotalSegments(totalDurationSeconds)
    ensures elapsedSeconds >= 0.0 && totalDurationSeconds >= 0.0 ==> 0 <= r
    ensures elapsedSeconds >= TotalSegments(totalDurationSeconds) as real * SegmentSeconds ==>
              r == TotalSegments(totalDurationSeconds)
    ensures r < TotalSegments(totalDurationSeconds) ==>
              r as real * SegmentSeconds <= elapsedSeconds < (r + 1) as real * SegmentSeconds
    ensures elapsedSeconds < TotalSegments(totalDurationSeconds) as real * SegmentSeconds ==>
              r as real * SegmentSeconds <= elapsedSeconds < (r + 1) as real * SegmentSeconds
  {
    MinInt(Floor(elapsedSeconds / SegmentSeconds), TotalSegments(totalDurationSeconds))
  }

  /** The filled ring only grows as time passes. */
  lemma FilledMonotone(e1: real, e2: real, totalDurationSeconds: real)
    requires e1 <= e2
    ensures FilledSegments(e1, totalDurationSeconds) <= FilledSegments(e2, totalDurationSeconds)
  {
    FloorMonotone(e1 / SegmentSeconds, e2 / SegmentSeconds);
  }

  /** The filled ring is drawn only once a segment is filled. */
  predicate FilledRingShown(elapsedSeconds: real, totalDurationSeconds: real) {
    FilledSegments(elapsedSeconds, totalDurationSeconds) > 0
  }

  /** Nothing is drawn filled during the first eight seconds. */
  lemma FirstSegmentEmpty(elapsedSeconds: real, totalDurationSeconds: real)
    requires 0.0 <= elapsedSeconds < SegmentSeconds
    ensures !FilledRingShown(elapsedSeconds, totalDurationSeconds)
  {
  }
}
