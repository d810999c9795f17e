/** Guards between untrusted duration input and the session: the target
    duration check and the auto-stop condition. The diagnostic warnings the
    source writes to the console are not modelled. */
module DurationGuards {
  import opened Wrappers
  import opened JsMath

  const SafeFallbackDurationSeconds: real := 300.0
  const MinDurationSeconds: real := 30.0
  const MaxDurationSeconds: real := 3600.0

  /** `validateDuration`: `None` stands for `undefined` and `null`. A value in
      [30, 3600] passes through; anything else, including NaN and the
      infinities, becomes the 300 s fallback rather than the nearer bound. */
  function ValidateDuration(duration: Option<JsNumber>): (r: real)
    ensures MinDurationSeconds <= r <= MaxDurationSeconds
    ensures duration.None? || duration.value.NaN? ==> r == SafeFallbackDurationSeconds
    ensures (duration.Some? && duration.value.Finite?
             && MinDurationSeconds <= duration.value.value <= MaxDurationSeconds)
            ==> r == duration.value.value
    ensures !(duration.Some? && duration.value.Finite?
              && MinDurationSeconds <= duration.value.value <= MaxDurationSeconds)
            ==> r == SafeFallbackDurationSeconds
  {
    if duration.None? || duration.value.NaN? then SafeFallbackDurationSeconds
    else if duration.value.Below(MinDurationSeconds) then SafeFallbackDurationSeconds
    else if duration.value.Above(MaxDurationSeconds) then SafeFallbackDurationSeconds
    else duration.value.value
  }

  /** Validating a validated duration changes nothing. */
  lemma ValidateDurationIdempotent(duration: Option<JsNumber>)
    ensures ValidateDuration(Some(Finite(ValidateDuration(duration)))) == ValidateDuration(duration)
  {
  }

  /** `shouldAllowAutoStop`: for targets over a minute at least 5 s must have
      elapsed; in every case the elapsed time must have reached the target.
      Since a target over 60 s exceeds 5 s, the floor never changes the answer. */
  function ShouldAllowAutoStop(elapsedSeconds: real, targetDurationSeconds: real): (r: bool)
    ensures r ==> elapsedSeconds >= targetDurationSeconds
    ensures targetDurationSeconds <= 60.0 ==> (r <==> elapsedSeconds >= targetDurationSeconds)
    ensures targetDurationSeconds > 60.0 && elapsedSeconds < 5.0 ==> !r
    ensures r == (elapsedSeconds >= targetDurationSeconds)
  {
    if targetDurationSeconds > 60.0 && elapsedSeconds < 5.0 then false
    else elapsedSeconds >= targetDurationSeconds
  }

  /** Once auto-stop is allowed, it stays allowed as time goes on. */
  lemma AutoStopMonotone(e1: real, e2: real, target: real)
    requires e1 <= e2 && ShouldAllowAutoStop(e1, target)
    ensures ShouldAllowAutoStop(e2, target)
  {
  }
}
