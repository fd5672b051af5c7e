/** Random draws. Every `Math.random()` call of the confetti scripts is a parameter of the
    model; the host promises a value in [0, 1), which is the only thing the model assumes. */
module Draws {

  /** What `Math.random()` may return. */
  predicate IsDraw(r: real) {
    0.0 <= r < 1.0
  }

  /** `Math.floor(r * n)` for a draw `r`: a uniform index below `n`. */
  function Pick(n: nat, r: real): (k: nat)
    requires 0 < n && IsDraw(r)
    ensures k < n
    ensures k as real <= r * n as real < k as real + 1.0
  {
    (r * n as real).Floor
  }

  /** A real that is a whole number. */
  predicate Whole(v: real) {
    v.Floor as real == v
  }

  /** `Math.random() < 0.5`: a fair coin. */
  predicate Heads(r: real) {
    r < 0.5
  }
}

/** The colour palettes: strings of "r, g, b" components. */
module Palettes {
  import opened Draws

  /** The three colours of the first version. */
  const ThreeColors: seq<string> := ["255, 99, 71", "70, 130, 180", "255, 215, 0"]

  /** The seven colours of the second and third versions. */
  const SevenColors: seq<string> := [
    "255, 99, 71", "70, 130, 180", "255, 215, 0", "255, 192, 203",
    "173, 216, 230", "255, 218, 185", "240, 128, 128"]

  /** `palette[Math.floor(Math.random() * palette.length)]`. */
  function PickColor(palette: seq<string>, r: real): (c: string)
    requires palette != [] && IsDraw(r)
    ensures c in palette
  {
    palette[Pick(|palette|, r)]
  }
}
