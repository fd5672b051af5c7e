/** Second version: rectangles and ellipses fired upwards in a narrow cone, spinning, whose
    width (rectangles) or horizontal radius (ellipses) swells and shrinks between bounds.
    The pool and its frame scan are those of the first version; the expiry test still comes
    before any change other than the motion. */
module ConfettiPart2 {
  import opened Draws
  import opened Palettes
  import opened Kinematics
  import opened Lifecycle
  import opened Oscillation
  import opened PoolScan
  import opened FrameProgress

  /** The two shapes a particle can have. */
  datatype Shape = Rectangle | Circle

  /** The `Math.random()` values one particle's constructor takes, apart from the two that
      choose the firing angle and the one that sets the starting rotation angle: colour,
      vertical speed, shape, spin direction, ellipse radius, rectangle width, direction of
      the size change. */
  datatype ParticleDraws = ParticleDraws(color: real, speed: real, shape: real, spin: real,
                                         radius: real, width: real, shrink: real) {
    predicate Valid() {
      IsDraw(color) && IsDraw(speed) && IsDraw(shape) && IsDraw(spin)
      && IsDraw(radius) && IsDraw(width) && IsDraw(shrink)
    }
  }

  /** The fields of a particle, as one value. A particle carries both an ellipse's radii
      and a rectangle's sides; its shape says which pair is in use. */
  datatype ParticleState = ParticleState(motion: Motion, lifespan: int, color: string, shape: Shape,
                                         rotationAngle: real, rotationSpeed: real,
                                         radiusY: real, radiusX: real, height: real, width: real,
                                         shrinking: bool)

  /** Both size fields lie within their bounds. */
  predicate InRange(s: ParticleState) {
    0.0 <= s.radiusX <= CircleMaxRadius && 0.0 <= s.width <= RectangleMaxWidth
  }

  /** The particle the constructor builds at (x, y) from the draws `d`. `slope` is the
      tangent of the firing angle, which sets the horizontal speed in proportion to the
      vertical one, and `angle` is the starting rotation angle. */
  function Spawn(x: real, y: real, d: ParticleDraws, slope: real, angle: real): (s: ParticleState)
    requires d.Valid()
    ensures s.motion.x == x && s.motion.y == y && s.lifespan == 0
    ensures -21.0 < s.motion.vy <= -9.0 && s.motion.vx == slope * -s.motion.vy
    ensures s.color in SevenColors
    ensures s.shape == Rectangle <==> Heads(d.shape)
    ensures s.rotationAngle == angle
    ensures (s.rotationSpeed == Spin <==> d.spin > 0.5) && (s.rotationSpeed == -Spin <==> d.spin <= 0.5)
    ensures s.radiusY == CircleRadiusY && s.height == RectangleHeight
    ensures Whole(s.radiusX) && Whole(s.width) && InRange(s)
    ensures s.shrinking <==> Heads(d.shrink)
  {
    var vy := -(d.speed * 12.0 + 9.0);
    ParticleState(Motion(x, y, slope * (if vy < 0.0 then -vy else vy), vy), 0,
                  PickColor(SevenColors, d.color),
                  if Heads(d.shape) then Rectangle else Circle,
                  angle, if d.spin > 0.5 then Spin else -Spin,
                  CircleRadiusY, Pick(6, d.radius) as real, RectangleHeight, Pick(11, d.width) as real,
                  Heads(d.shrink))
  }

  /** The lifespan counter of a particle state. */
  function LifespanOf(s: ParticleState): int {
    s.lifespan
  }

  /** The size step: an ellipse's horizontal radius or a rectangle's width oscillates. */
  function Resize(s: ParticleState): (r: ParticleState)
    ensures s.shape == Circle ==>
              Size(r.radiusX, r.shrinking) == Oscillate(Size(s.radiusX, s.shrinking), SizeIncrement, CircleMaxRadius)
              && r == s.(radiusX := r.radiusX, shrinking := r.shrinking)
    ensures s.shape == Rectangle ==>
              Size(r.width, r.shrinking) == Oscillate(Size(s.width, s.shrinking), SizeIncrement, RectangleMaxWidth)
              && r == s.(width := r.width, shrinking := r.shrinking)
  {
    if s.shape == Circle then
      var r := Oscillate(Size(s.radiusX, s.shrinking), SizeIncrement, CircleMaxRadius);
      s.(radiusX := r.value, shrinking := r.shrinking)
    else
      var r := Oscillate(Size(s.width, s.shrinking), SizeIncrement, RectangleMaxWidth);
      s.(width := r.value, shrinking := r.shrinking)
  }

  /** The state a particle is left in by an update with the given fate. Every update moves
      the particle; only one that runs to the end resizes, turns and ages it. */
  function Apply(f: Fate, s: ParticleState): (r: ParticleState)
    ensures f != Skipped ==> r.motion == Drift(s.motion) && r.color == s.color && r.shape == s.shape
    ensures r.lifespan == if f == Updated then s.lifespan + 1 else s.lifespan
    ensures f == Skipped ==> r == s
  {
    match f
    case Updated =>
      var r := Resize(s.(motion := Drift(s.motion)));
      r.(rotationAngle := r.rotationAngle + r.rotationSpeed, lifespan := r.lifespan + 1)
    case Removed => s.(motion := Drift(s.motion))
    case Skipped => s
  }

  /** What an update that runs to the end does: the particle ages by one and turns by its
      spin; its shape, spin, colour, fixed radius and fixed side stay; the size field of
      its shape takes one oscillation step and the other size field is left alone. */
  lemma UpdatedParticle(s: ParticleState)
    ensures var r := Apply(Updated, s);
            && r.lifespan == s.lifespan + 1 && r.rotationAngle == s.rotationAngle + s.rotationSpeed
            && r.shape == s.shape && r.rotationSpeed == s.rotationSpeed && r.color == s.color
            && r.radiusY == s.radiusY && r.height == s.height && r.motion == Drift(s.motion)
            && (s.shape == Circle ==>
                  r.width == s.width
                  && Size(r.radiusX, r.shrinking) == Oscillate(Size(s.radiusX, s.shrinking), SizeIncrement, CircleMaxRadius))
            && (s.shape == Rectangle ==>
                  r.radiusX == s.radiusX
                  && Size(r.width, r.shrinking) == Oscillate(Size(s.width, s.shrinking), SizeIncrement, RectangleMaxWidth))
  {
  }

  /** A particle that removes itself only moves: its size, flag, rotation and lifespan are
      those it had before the update. */
  lemma RemovedParticle(s: ParticleState)
    ensures var r := Apply(Removed, s);
            && r.motion == Drift(s.motion) && r.lifespan == s.lifespan
            && r.radiusX == s.radiusX && r.width == s.width && r.shrinking == s.shrinking
            && r.rotationAngle == s.rotationAngle && r == s.(motion := r.motion)
  {
  }

  /** The sizes of a particle never leave their bounds, whatever its fates. */
  lemma {:induction false} StaysInRange(fates: seq<Fate>, s: ParticleState)
    requires InRange(s)
    ensures InRange(Run(fates, s))
    decreases |fates|
  {
    if fates != [] {
      var t := Apply(fates[0], s);
      assert InRange(t) by {
        if fates[0] == Updated {
          var m := s.(motion := Drift(s.motion));
          assert InRange(m);
          assert InRange(Resize(m));
        }
      }
      StaysInRange(fates[1..], t);
    }
  }

  /** The state a particle reaches through a run of fates, one per frame. */
  function Run(fates: seq<Fate>, s: ParticleState): ParticleState
    decreases |fates|
  {
    if fates == [] then s else Run(fates[1..], Apply(fates[0], s))
  }

  /** A new particle is still in the pool, with lifespan `k` and both sizes in bounds,
      after each of its first 201 updates, and removes itself on exactly its 202nd. */
  lemma SpawnedLifetime(x: real, y: real, d: ParticleDraws, slope: real, angle: real, k: nat)
    requires d.Valid()
    ensures Own(Spawn(x, y, d, slope, angle), k, LifespanOf, Apply).Some? <==> k <= LifespanFrames + 1
    ensures var r := Own(Spawn(x, y, d, slope, angle), k, LifespanOf, Apply);
            r.Some? ==> r.value.lifespan == k && InRange(r.value)
  {
    OwnFollowsCount(Spawn(x, y, d, slope, angle), k, LifespanOf, Apply);
    RemovedOnUpdate202(k);
    OwnInRange(Spawn(x, y, d, slope, angle), k);
  }

  /** The particle's own updates keep its sizes in bounds. */
  lemma {:induction false} OwnInRange(s: ParticleState, k: nat)
    requires InRange(s)
    ensures Own(s, k, LifespanOf, Apply).Some? ==> InRange(Own(s, k, LifespanOf, Apply).value)
    decreases k
  {
    if k > 0 && !Expired(s.lifespan) {
      StaysInRange([Updated], s);
      assert Run([Updated], s) == Apply(Updated, s) by {
        assert [Updated][1..] == [];
      }
      OwnInRange(Apply(Updated, s), k - 1);
    }
  }

  class Particle {
    var x: real
    var y: real
    var vx: real
    var vy: real
    var lifespan: int
    var color: string
    var shape: Shape
    var rotationAngle: real
    var rotationSpeed: real
    var radiusY: real
    var radiusX: real
    var height: real
    var width: real
    var shrinking: bool

    function State(): ParticleState
      reads this
    {
      ParticleState(Motion(x, y, vx, vy), lifespan, color, shape, rotationAngle, rotationSpeed,
                    radiusY, radiusX, height, width, shrinking)
    }

    constructor (x0: real, y0: real, d: ParticleDraws, slope: real, angle: real)
      requires d.Valid()
      ensures State() == Spawn(x0, y0, d, slope, angle)
    {
      x := x0;
      y := y0;
      lifespan := 0;
      color := PickColor(SevenColors, d.color);
      var speed := -(d.speed * 12.0 + 9.0);
      vy := speed;
      vx := slope * (if speed < 0.0 then -speed else speed);
      shape := if Heads(d.shape) then Rectangle else Circle;
      rotationAngle := angle;
      rotationSpeed := if d.spin > 0.5 then Spin else -Spin;
      radiusY := CircleRadiusY;
      radiusX := Pick(6, d.radius) as real;
      height := RectangleHeight;
      width := Pick(11, d.width) as real;
      shrinking := Heads(d.shrink);
    }

    /** The motion step of an update: gravity, air resistance, then the position moves. */
    method Move()
      modifies this
      ensures State() == old(State()).(motion := Drift(old(State()).motion))
    {
      vy := vy + Gravity;
      vx := vx * (1.0 - AirResistance);
      vy := vy * (1.0 - AirResistance);
      x := x + vx;
      y := y + vy;
    }

    /** The size step of an update: the size field of the particle's shape moves one
        increment in the direction of `shrinking` and is clamped into its bounds, turning
        the flag round at a bound. */
    method StepSize()
      modifies this
      ensures State() == Resize(old(State()))
    {
      if shape == Circle {
        if shrinking {
          radiusX := radiusX - SizeIncrement;
        } else {
          radiusX := radiusX + SizeIncrement;
        }
        if radiusX <= 0.0 {
          radiusX := 0.0;
          shrinking := false;
        } else if radiusX >= CircleMaxRadius {
          radiusX := CircleMaxRadius;
          shrinking := true;
        }
      } else {
        if shrinking {
          width := width - SizeIncrement;
        } else {
          width := width + SizeIncrement;
        }
        if width <= 0.0 {
          width := 0.0;
          shrinking := false;
        } else if width >= RectangleMaxWidth {
          width := RectangleMaxWidth;
          shrinking := true;
        }
      }
    }

    /** One frame of this particle. It always moves. If it is past its lifespan and is
        found in `pool`, it splices itself out and stops; otherwise its size field steps,
        it turns, it ages by one and it is drawn (`drawn` says that it is). */
    method Update(pool: Pool) returns (drawn: bool)
      modifies this, pool
      ensures drawn <==> !(Expired(old(lifespan)) && this in old(pool.particles))
      ensures drawn ==> pool.particles == old(pool.particles) && State() == Apply(Updated, old(State()))
      ensures !drawn ==> var at := IndexOf(old(pool.particles), this);
                         && pool.particles == old(pool.particles)[..at] + old(pool.particles)[at + 1..]
                         && State() == Apply(Removed, old(State()))
    {
      Move();
      ghost var moved := State();

      if lifespan > LifespanFrames {
        var index := IndexOf(pool.particles, this);
        if index != -1 {
          pool.particles := pool.particles[..index] + pool.particles[index + 1..];
          return false;
        }
      }

      StepSize();
      ghost var resized := State();
      assert resized == Resize(moved);
      assert moved == old(State()).(motion := Drift(old(State()).motion));
      Turn();
      assert State() == resized.(rotationAngle := resized.rotationAngle + resized.rotationSpeed,
                                 lifespan := resized.lifespan + 1);
      drawn := true;
    }

    /** The end of an update that runs its course: the particle turns by its spin and
        ages by one. */
    method Turn()
      modifies this
      ensures State() == old(State()).(rotationAngle := old(rotationAngle) + old(rotationSpeed),
                                       lifespan := old(lifespan) + 1)
    {
      rotationAngle := rotationAngle + rotationSpeed;
      lifespan := lifespan + 1;
    }
  }

  /** The states of the particles of `ps`, in order. */
  function States(ps: seq<Particle>): (r: seq<ParticleState>)
    reads ps
    ensures |r| == |ps|
    ensures forall k :: 0 <= k < |ps| ==> r[k] == ps[k].State()
    decreases |ps|
  {
    if ps == [] then [] else States(ps[..|ps| - 1]) + [ps[|ps| - 1].State()]
  }

  /** The particles of `ps` are in the states `now`. */
  ghost predicate Shows(ps: seq<Particle>, now: seq<ParticleState>)
    reads ps
  {
    |now| == |ps| && forall k :: 0 <= k < |ps| ==> ps[k].State() == now[k]
  }

  /** The array of active particles, with the two operations that change it. */
  class Pool {
    var particles: seq<Particle>

    ghost predicate Valid()
      reads this
    {
      Distinct(particles)
    }

    constructor ()
      ensures Valid() && particles == []
    {
      particles := [];
    }

    /** The mouse-down handler: `ParticleCount` new particles at the event's point,
        appended after the ones already there. Particle `k` of the batch is built from
        `draws[k]`, `slopes[k]` and `angles[k]`. */
    method CreateNewParticles(x: real, y: real, draws: seq<ParticleDraws>, slopes: seq<real>, angles: seq<real>)
      requires Valid()
      requires |draws| == |slopes| == |angles| == ParticleCount
      requires forall k :: 0 <= k < |draws| ==> draws[k].Valid()
      modifies this
      ensures Valid()
      ensures |particles| == |old(particles)| + ParticleCount
      ensures particles[..|old(particles)|] == old(particles)
      ensures forall k :: |old(particles)| <= k < |particles| ==>
                var n := k - |old(particles)|;
                fresh(particles[k]) && particles[k].State() == Spawn(x, y, draws[n], slopes[n], angles[n])
    {
      var i := 0;
      while i < ParticleCount
        invariant 0 <= i <= ParticleCount
        invariant Valid()
        invariant |particles| == |old(particles)| + i
        invariant particles[..|old(particles)|] == old(particles)
        invariant forall k :: |old(particles)| <= k < |particles| ==>
                    var n := k - |old(particles)|;
                    fresh(particles[k]) && particles[k].State() == Spawn(x, y, draws[n], slopes[n], angles[n])
      {
        var particle := new Particle(x, y, draws[i], slopes[i], angles[i]);
        particles := particles + [particle];
        i := i + 1;
      }
    }

    /** The update of the particle at position `i` of the pool, entry `j` of the pool
        `before` the frame began with, in the states `now`: only that particle changes. */
    method Visit(ghost before: seq<Particle>, ghost now: seq<ParticleState>, ghost j: nat, i: nat)
      returns (particle: Particle, wasDrawn: bool)
      requires i < |particles| && j < |before| && particles[i] == before[j]
      requires IndexOf(particles, before[j]) == i
      requires forall k :: 0 <= k < |before| && k != j ==> before[k] != before[j]
      requires Shows(before, now)
      modifies this, particles[i]
      ensures particle == before[j]
      ensures wasDrawn <==> !Expired(LifespanOf(now[j]))
      ensures wasDrawn ==> particles == old(particles)
      ensures !wasDrawn ==> particles == old(particles)[..i] + old(particles)[i + 1..]
      ensures Shows(before, now[j := Apply(if wasDrawn then Updated else Removed, now[j])])
    {
      particle := particles[i];
      wasDrawn := particle.Update(this);
    }

    /** One step of a frame's scan: the particle at position `i` of the pool, entry `j`
        of the pool `before` the frame began with, is updated, and the scan moves on to
        entry `next`, with the states of `before` now `after`. */
    method Step(ghost before: seq<Particle>, ghost expired: seq<bool>, ghost start: seq<ParticleState>,
                ghost now: seq<ParticleState>, ghost j: nat, i: nat, ghost drawn: seq<Particle>)
      returns (particle: Particle, wasDrawn: bool, ghost after: seq<ParticleState>, ghost next: nat)
      requires Distinct(before) && Scanning(before, expired, j, i, particles, drawn) && i < |particles|
      requires Shows(before, now) && Progressed(now, start, expired, j, Apply)
      requires forall k :: 0 <= k < |start| ==> expired[k] == Expired(LifespanOf(start[k]))
      modifies this, particles[i]
      ensures Scanning(before, expired, next, i + 1, particles, if wasDrawn then drawn + [particle] else drawn)
      ensures Shows(before, after) && Progressed(after, start, expired, next, Apply) && j < next
    {
      ScanAt(before, expired, j, i, particles, drawn);
      assert forall k :: 0 <= k < |before| && k != j ==> before[k] != before[j];
      ghost var ps := particles;
      particle, wasDrawn := Visit(before, now, j, i);
      next := Advance(before, expired, start, now, j, i, ps, drawn, wasDrawn, particles, LifespanOf, Apply);
      after := now[j := Apply(Fates(expired)[j], now[j])];
    }

    /** One animation frame: the forward scan that updates every particle it reaches.
        The particles are given their fates from their lifespans when the frame begins;
        `drawn` lists the particles drawn, in drawing order. */
    method AnimationFrame() returns (drawn: seq<Particle>)
      requires Valid()
      modifies this, particles
      ensures Valid()
      ensures var fates := Fates(ExpiredFlags(old(States(particles)), LifespanOf));
              && particles == Select(old(particles), fates, Kept)
              && drawn == Select(old(particles), fates, {Updated})
              && forall k :: 0 <= k < |old(particles)| ==>
                   old(particles)[k].State() == Apply(fates[k], old(States(particles))[k])
    {
      ghost var before := particles;
      ghost var start := States(before);
      ghost var expired := ExpiryOf(start, LifespanOf);
      ghost var now := start;
      ghost var j: nat := 0;
      var i := 0;
      drawn := [];
      ScanStart(before, expired);
      while i < |particles|
        invariant Scanning(before, expired, j, i, particles, drawn)
        invariant Shows(before, now) && Progressed(now, start, expired, j, Apply)
        decreases |before| - j
      {
        var particle, wasDrawn;
        particle, wasDrawn, now, j := Step(before, expired, start, now, j, i, drawn);
        if wasDrawn {
          drawn := drawn + [particle];
        }
        i := i + 1;
      }
      Finish(before, expired, start, now, j, i, particles, drawn, LifespanOf, Apply);
    }
  }
}
