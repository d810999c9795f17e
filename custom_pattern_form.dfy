/** The custom-pattern editor: one numeric input per phase, each edit
    replacing one duration of the pattern. */
module CustomPatternForm {
  import opened Wrappers
  import opened JsMath
  import opened Patterns

  /** `parseFloat(text) || 0`, given `parseFloat`'s result (None for NaN):
      NaN becomes 0 and every other value is kept (a zero stays zero). */
  function CoerceInput(parsed: Option<real>): (value: real)
    ensures parsed.None? ==> value == 0.0
    ensures parsed.Some? ==> value == parsed.value
  {
    match parsed
    case None => 0.0
    case Some(v) => v
  }

  /** The pattern with one phase's duration replaced. */
  function WithDuration(pattern: Pattern, field: Phase, value: real): Pattern {
    match field
    case Inhale => pattern.(inhale := value)
    case HoldTop => pattern.(holdTop := value)
    case Exhale => pattern.(exhale := value)
    case HoldBottom => pattern.(holdBottom := value)
  }

  /** `handleChange`: the edited duration becomes `max(0, value)`; the other
      durations and the identity fields are kept. */
  function HandleChange(pattern: Pattern, field: Phase, value: real): (r: Pattern)
    ensures r.Duration(field) == Max(0.0, value) && r.Duration(field) >= 0.0
    ensures forall other :: other != field ==> r.Duration(other) == pattern.Duration(other)
    ensures r.id == pattern.id && r.name == pattern.name && r.description == pattern.description
  {
    WithDuration(pattern, field, Max(0.0, value))
  }

  /** Applies a sequence of edits in order. */
  function ApplyEdits(pattern: Pattern, edits: seq<(Phase, real)>): Pattern
    decreases |edits|
  {
    if edits == [] then pattern
    else ApplyEdits(HandleChange(pattern, edits[0].0, edits[0].1), edits[1..])
  }

  /** No sequence of edits makes a non-negative pattern negative. */
  lemma {:induction false} EditsKeepNonNegative(pattern: Pattern, edits: seq<(Phase, real)>)
    requires pattern.NonNegative()
    ensures ApplyEdits(pattern, edits).NonNegative()
    decreases |edits|
  {
    if edits != [] {
      var next := HandleChange(pattern, edits[0].0, edits[0].1);
      assert next.NonNegative() by {
        assert forall p :: next.Duration(p) >= 0.0;
        assert next.inhale == next.Duration(Inhale) && next.holdTop == next.Duration(HoldTop);
        assert next.exhale == next.Duration(Exhale) && next.holdBottom == next.Duration(HoldBottom);
      }
      EditsKeepNonNegative(next, edits[1..]);
    }
  }

  /** Nothing keeps a pattern from being edited to all zeros, the pattern
      whose phase skipping overflows the stack on every due tick. */
  lemma AllZeroReachable(pattern: Pattern, texts: seq<Option<real>>)
    requires |texts| == 4 && forall i :: 0 <= i < 4 ==> texts[i] == None
    ensures var edits := [(Inhale, CoerceInput(texts[0])), (HoldTop, CoerceInput(texts[1])),
                          (Exhale, CoerceInput(texts[2])), (HoldBottom, CoerceInput(texts[3]))];
            !ApplyEdits(pattern, edits).HasNonZeroPhase()
  {
    var edits := [(Inhale, 0.0), (HoldTop, 0.0), (Exhale, 0.0), (HoldBottom, 0.0)];
    var p1 := HandleChange(pattern, Inhale, 0.0);
    var p2 := HandleChange(p1, HoldTop, 0.0);
    var p3 := HandleChange(p2, Exhale, 0.0);
    var p4 := HandleChange(p3, HoldBottom, 0.0);
    assert edits[1..] == [(HoldTop, 0.0), (Exhale, 0.0), (HoldBottom, 0.0)];
    assert edits[1..][1..] == [(Exhale, 0.0), (HoldBottom, 0.0)];
    assert edits[1..][1..][1..] == [(HoldBottom, 0.0)];
    assert ApplyEdits(pattern, edits) == p4;
  }
}
