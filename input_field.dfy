/**
 * The numeric input box shared by the calculators: on blur it parses its text,
 * turns anything unparseable (or zero) into 0 and clamps the number into
 * `[min, max]`; its arrow buttons step the value up without a ceiling and down
 * no lower than `min`.
 *
 * `parseFloat` is not modelled: its outcome is a parameter, `None` standing
 * for `NaN`.
 */
module InputField {
  import opened Wrappers

  /** The bounds of one box, after the component's defaults are applied. */
  datatype Bounds = Bounds(min: real, max: Option<real>, step: real)

  /** `min = 0` and `step = 1` unless the caller passes them; `max` has no default. */
  function WithDefaults(min: Option<real>, max: Option<real>, step: Option<real>): (b: Bounds)
    ensures min.None? ==> b.min == 0.0
    ensures step.None? ==> b.step == 1.0
    ensures min.Some? ==> b.min == min.value
    ensures step.Some? ==> b.step == step.value
    ensures b.max == max
  {
    Bounds(min.GetOr(0.0), max, step.GetOr(1.0))
  }

  /** `parseFloat(text) || 0`. */
  function ParseOrZero(parsed: Option<real>): (x: real)
    ensures parsed.None? ==> x == 0.0
    ensures parsed.Some? ==> x == parsed.value
  {
    OrDefault(parsed, 0.0)
  }

  function Max(a: real, b: real): real { if a >= b then a else b }

  function Min(a: real, b: real): real { if a <= b then a else b }

  /** `Math.max(min, x)`, then `Math.min(max, ·)` when `max` is given. */
  function Clamp(b: Bounds, x: real): (r: real)
    ensures b.max.None? ==> r >= b.min
    ensures b.max.Some? ==> r <= b.max.value
    ensures b.max.Some? && b.min <= b.max.value ==> b.min <= r
    ensures b.max.Some? && b.min > b.max.value ==> r == b.max.value
    ensures b.min <= x && (b.max.None? || x <= b.max.value) ==> r == x
    ensures x < b.min && (b.max.None? || b.min <= b.max.value) ==> r == b.min
  {
    var lower := Max(b.min, x);
    if b.max.Some? then Min(b.max.value, lower) else lower
  }

  /** Clamping a clamped value changes nothing. */
  lemma ClampIdempotent(b: Bounds, x: real)
    ensures Clamp(b, Clamp(b, x)) == Clamp(b, x)
  {
  }

  /** `handleBlur`: the number passed to `onChange`. */
  method HandleBlur(b: Bounds, parsed: Option<real>) returns (clampedValue: real)
    ensures clampedValue == Clamp(b, ParseOrZero(parsed))
  {
    var numValue := if parsed.Some? && parsed.value != 0.0 then parsed.value else 0.0;
    clampedValue := Max(b.min, numValue);
    if b.max.Some? {
      clampedValue := Min(b.max.value, clampedValue);
    }
  }

  /** Text that parses to an in-range number is kept as it is; unparseable text becomes the clamp of 0. */
  lemma BlurOutcomes(b: Bounds, v: real)
    ensures b.min <= v && (b.max.None? || v <= b.max.value) ==> Clamp(b, ParseOrZero(Some(v))) == v
    ensures Clamp(b, ParseOrZero(None)) == Clamp(b, 0.0)
    ensures b.min <= 0.0 && (b.max.None? || 0.0 <= b.max.value) ==> Clamp(b, ParseOrZero(None)) == 0.0
  {
  }

  /** The up arrow: `value + step`, with no upper clamp. */
  function Increment(b: Bounds, value: real): (r: real)
    ensures r - value == b.step
  {
    value + b.step
  }

  /** The down arrow: `Math.max(min, value - step)`. */
  function Decrement(b: Bounds, value: real): (r: real)
    ensures r >= b.min
    ensures r == b.min || r == value - b.step
    ensures value - b.step >= b.min ==> r == value - b.step
  {
    Max(b.min, value - b.step)
  }

  /** Stepping up then down returns to any value at or above `min`; down then up, to any value a full step above it. */
  lemma StepRoundTrips(b: Bounds, value: real)
    ensures value >= b.min ==> Decrement(b, Increment(b, value)) == value
    ensures value - b.step >= b.min ==> Increment(b, Decrement(b, value)) == value
  {
  }

  /** With a `max`, the up arrow can leave the range that blur enforces. */
  lemma IncrementCanExceedMax()
    ensures var b := Bounds(0.0, Some(10.0), 1.0);
      Increment(b, 10.0) > b.max.value && Clamp(b, Increment(b, 10.0)) == 10.0
  {
  }
}
