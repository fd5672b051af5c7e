/** The size-oscillation state machine. A size field (a circle's horizontal radius, a
    rectangle's width) moves by a fixed increment in the direction given by a `shrinking`
    flag, is clamped into [0, max], and the flag turns round at the bounds. The second
    version writes this out once per shape; the third has it as the generic `updateSize`.
    Sizes are exact reals, so 0.2, 0.1, 9.9 and 10.1 are represented exactly. */
module Oscillation {

  /** How far a size moves in one frame. */
  const SizeIncrement: real := 0.2

  /** The largest horizontal radius of an ellipse. */
  const CircleMaxRadius: real := 5.0

  /** The largest width of a rectangle. */
  const RectangleMaxWidth: real := 10.0

  /** The fixed vertical radius of an ellipse. */
  const CircleRadiusY: real := 5.0

  /** The fixed height of a rectangle. */
  const RectangleHeight: real := 10.0

  /** The current value of the size field together with its direction flag. */
  datatype Size = Size(value: real, shrinking: bool)

  /** The value after moving one increment, before clamping. */
  function Moved(s: Size, inc: real): real {
    if s.shrinking then s.value - inc else s.value + inc
  }

  /** One size update with increment `inc` and upper bound `maxValue`. */
  function Oscillate(s: Size, inc: real, maxValue: real): (r: Size)
    // whatever the starting value, even one out of range, the result is in range
    ensures 0.0 <= maxValue ==> 0.0 <= r.value <= maxValue
    // at the bounds the flag points back into the range
    ensures 0.0 < maxValue && r.value == 0.0 ==> !r.shrinking
    ensures 0.0 < maxValue && r.value == maxValue ==> r.shrinking
    // strictly inside the range, the size has moved by one increment and kept its direction
    ensures 0.0 < r.value < maxValue ==> r.value == Moved(s, inc) && r.shrinking == s.shrinking
    // from a value in range, the size never moves by more than one increment
    ensures 0.0 <= inc && 0.0 <= s.value <= maxValue ==> s.value - inc <= r.value <= s.value + inc
  {
    var v := Moved(s, inc);
    if v <= 0.0 then Size(0.0, false)
    else if v >= maxValue then Size(maxValue, true)
    else Size(v, s.shrinking)
  }

  /** `k` consecutive size updates. */
  function Iterate(s: Size, inc: real, maxValue: real, k: nat): Size
    decreases k
  {
    if k == 0 then s else Iterate(Oscillate(s, inc, maxValue), inc, maxValue, k - 1)
  }

  /** Running `a` updates and then `b` more is running `a + b`. */
  lemma {:induction false} IterateAdd(s: Size, inc: real, maxValue: real, a: nat, b: nat)
    ensures Iterate(Iterate(s, inc, maxValue, a), inc, maxValue, b) == Iterate(s, inc, maxValue, a + b)
    decreases a
  {
    if a > 0 {
      IterateAdd(Oscillate(s, inc, maxValue), inc, maxValue, a - 1, b);
    }
  }

  /** A size that starts in [0, max] stays there for ever. */
  lemma {:induction false} IterateInRange(s: Size, inc: real, maxValue: real, k: nat)
    requires 0.0 <= s.value <= maxValue
    ensures 0.0 <= Iterate(s, inc, maxValue, k).value <= maxValue
    decreases k
  {
    if k > 0 {
      IterateInRange(Oscillate(s, inc, maxValue), inc, maxValue, k - 1);
    }
  }

  /** While the top is not reached, a growing size rises by one increment per update. */
  lemma {:induction false} Rising(v: real, maxValue: real, k: nat)
    requires 0.0 <= v && v + SizeIncrement * k as real < maxValue
    ensures Iterate(Size(v, false), SizeIncrement, maxValue, k) == Size(v + SizeIncrement * k as real, false)
    decreases k
  {
    if k > 0 {
      assert Oscillate(Size(v, false), SizeIncrement, maxValue) == Size(v + SizeIncrement, false);
      Rising(v + SizeIncrement, maxValue, k - 1);
    }
  }

  /** While zero is not reached, a shrinking size falls by one increment per update. */
  lemma {:induction false} Falling(v: real, maxValue: real, k: nat)
    requires v <= maxValue && 0.0 < v - SizeIncrement * k as real
    ensures Iterate(Size(v, true), SizeIncrement, maxValue, k) == Size(v - SizeIncrement * k as real, true)
    decreases k
  {
    if k > 0 {
      assert Oscillate(Size(v, true), SizeIncrement, maxValue) == Size(v - SizeIncrement, true);
      Falling(v - SizeIncrement, maxValue, k - 1);
    }
  }

  /** When the maximum is `n` increments, a size that starts at 0 and grows reaches the
      maximum (and turns to shrinking) after `n` updates and is back at 0, growing again,
      after `2 * n`: the oscillation has period `2 * n` frames. */
  lemma Period(n: nat)
    requires 1 <= n
    ensures Iterate(Size(0.0, false), SizeIncrement, SizeIncrement * n as real, n)
            == Size(SizeIncrement * n as real, true)
    ensures Iterate(Size(0.0, false), SizeIncrement, SizeIncrement * n as real, 2 * n)
            == Size(0.0, false)
  {
    var m := SizeIncrement * n as real;
    var start := Size(0.0, false);
    Rising(0.0, m, n - 1);
    IterateAdd(start, SizeIncrement, m, n - 1, 1);
    var top := Iterate(start, SizeIncrement, m, n);
    assert top == Size(m, true);
    Falling(m, m, n - 1);
    IterateAdd(top, SizeIncrement, m, n - 1, 1);
    IterateAdd(start, SizeIncrement, m, n, n);
  }

  /** A circle's radius (maximum 5) cycles every 50 frames, a rectangle's width (maximum
      10) every 100 frames. */
  lemma ShapePeriods()
    ensures Iterate(Size(0.0, false), SizeIncrement, CircleMaxRadius, 50) == Size(0.0, false)
    ensures Iterate(Size(0.0, false), SizeIncrement, RectangleMaxWidth, 100) == Size(0.0, false)
  {
    Period(25);
    Period(50);
  }
}
