/** The per-frame motion step shared by the three versions: gravity, then air resistance on
    both velocity components, then the position moves by the new velocity. The scripts use
    IEEE doubles; here the same formula is evaluated on exact reals. */
module Kinematics {

  /** Added to the vertical velocity every frame (pixels per frame squared). */
  const Gravity: real := 0.06

  /** Fraction of the velocity lost every frame. */
  const AirResistance: real := 0.02

  /** The rotation per frame of the second and third versions, one way or the other. */
  const Spin: real := 0.02

  /** Position and velocity of one particle, in canvas pixels. */
  datatype Motion = Motion(x: real, y: real, vx: real, vy: real)

  /** One frame of motion. */
  function Drift(m: Motion): (r: Motion)
    ensures r.vx == m.vx * (1.0 - AirResistance)
    ensures r.x - m.x == r.vx && r.y - m.y == r.vy
  {
    var vy := (m.vy + Gravity) * (1.0 - AirResistance);
    var vx := m.vx * (1.0 - AirResistance);
    Motion(m.x + vx, m.y + vy, vx, vy)
  }

  /** The worked figure: from the origin with velocity (5, 5), one frame gives
      vx = 4.9 and vy = (5 + 0.06) * 0.98 = 4.9588, and the position moves by the same. */
  lemma DriftFromFiveFive()
    ensures Drift(Motion(0.0, 0.0, 5.0, 5.0)) == Motion(4.9, 4.9588, 4.9, 4.9588)
  {
  }
}
