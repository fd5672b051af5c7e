/** First version: round particles that fly, fall and fade. A mouse-down event adds a
    batch of particles to a module-level array; every animation frame walks that array
    and updates each particle, and an expired particle splices itself out of the array. */
module ConfettiPart1 {
  import opened Draws
  import opened Palettes
  import opened Kinematics
  import opened Lifecycle
  import opened PoolScan
  import opened FrameProgress

  /** The `Math.random()` values one particle's constructor takes, in the order it takes
      them: horizontal speed, vertical speed, colour. */
  datatype ParticleDraws = ParticleDraws(vx: real, vy: real, color: real) {
    predicate Valid() {
      IsDraw(vx) && IsDraw(vy) && IsDraw(color)
    }
  }

  /** The fields of a particle, as one value. */
  datatype ParticleState = ParticleState(motion: Motion, lifespan: int, color: string)

  /** The particle the constructor builds at (x, y) from the draws `d`. */
  function Spawn(x: real, y: real, d: ParticleDraws): (s: ParticleState)
    requires d.Valid()
    ensures s.motion.x == x && s.motion.y == y && s.lifespan == 0
    ensures -5.0 <= s.motion.vx < 5.0 && -14.0 < s.motion.vy <= -3.0
    ensures s.color in ThreeColors
  {
    ParticleState(Motion(x, y, d.vx * 10.0 - 5.0, -(d.vy * 11.0 + 3.0)), 0,
                  PickColor(ThreeColors, d.color))
  }

  /** The lifespan counter of a particle state. */
  function LifespanOf(s: ParticleState): int {
    s.lifespan
  }

  /** The state a particle is left in by an update with the given fate. Every update moves
      the particle; only one that runs to the end ages it. */
  function Apply(f: Fate, s: ParticleState): (r: ParticleState)
    ensures f != Skipped ==> r.motion == Drift(s.motion) && r.color == s.color
    ensures r.lifespan == if f == Updated then s.lifespan + 1 else s.lifespan
    ensures f == Skipped ==> r == s
  {
    match f
    case Updated => s.(motion := Drift(s.motion), lifespan := s.lifespan + 1)
    case Removed => s.(motion := Drift(s.motion))
    case Skipped => s
  }

  /** A new particle is still in the pool, with lifespan `k`, after each of its first 201
      updates, and removes itself on exactly its 202nd. */
  lemma SpawnedLifetime(x: real, y: real, d: ParticleDraws, k: nat)
    requires d.Valid()
    ensures Own(Spawn(x, y, d), k, LifespanOf, Apply).Some? <==> k <= LifespanFrames + 1
    ensures var r := Own(Spawn(x, y, d), k, LifespanOf, Apply);
            r.Some? ==> r.value.lifespan == k
  {
    OwnFollowsCount(Spawn(x, y, d), k, LifespanOf, Apply);
    RemovedOnUpdate202(k);
  }

  class Particle {
    var x: real
    var y: real
    var vx: real
    var vy: real
    var lifespan: int
    var color: string

    function State(): ParticleState
      reads this
    {
      ParticleState(Motion(x, y, vx, vy), lifespan, color)
    }

    constructor (x0: real, y0: real, d: ParticleDraws)
      requires d.Valid()
      ensures State() == Spawn(x0, y0, d)
    {
      x := x0;
      y := y0;
      vx := d.vx * 10.0 - 5.0;
      vy := -(d.vy * 11.0 + 3.0);
      lifespan := 0;
      color := PickColor(ThreeColors, d.color);
    }

    /** One frame of this particle. It always moves. If it is past its lifespan and is
        found in `pool`, it splices itself out and stops; otherwise it ages by one and is
        drawn (the painting itself is not modelled: `drawn` says that it happened). */
    method Update(pool: Pool) returns (drawn: bool)
      modifies this, pool
      ensures drawn <==> !(Expired(old(lifespan)) && this in old(pool.particles))
      ensures drawn ==> pool.particles == old(pool.particles) && State() == Apply(Updated, old(State()))
      ensures !drawn ==> var at := IndexOf(old(pool.particles), this);
                         && pool.particles == old(pool.particles)[..at] + old(pool.particles)[at + 1..]
                         && State() == Apply(Removed, old(State()))
    {
      vy := vy + Gravity;
      vx := vx * (1.0 - AirResistance);
      vy := vy * (1.0 - AirResistance);
      x := x + vx;
      y := y + vy;

      if lifespan > LifespanFrames {
        var index := IndexOf(pool.particles, this);
        if index != -1 {
          pool.particles := pool.particles[..index] + pool.particles[index + 1..];
          return false;
        }
      }

      lifespan := lifespan + 1;
      drawn := true;
    }
  }

  /** The states of the particles of `ps`, in order. */
  function States(ps: seq<Particle>): (r: seq<ParticleState>)
    reads ps
    ensures |r| == |ps|
    ensures forall k :: 0 <= k < |ps| ==> r[k] == ps[k].State()
    decreases |ps|
  {
    if ps == [] then [] else States(ps[..|ps| - 1]) + [ps[|ps| - 1].State()]
  }

  /** The particles of `ps` are in the states `now`. */
  ghost predicate Shows(ps: seq<Particle>, now: seq<ParticleState>)
    reads ps
  {
    |now| == |ps| && forall k :: 0 <= k < |ps| ==> ps[k].State() == now[k]
  }

  /** The array of active particles, with the two operations that change it. */
  class Pool {
    var particles: seq<Particle>

    ghost predicate Valid()
      reads this
    {
      Distinct(particles)
    }

    constructor ()
      ensures Valid() && particles == []
    {
      particles := [];
    }

    /** The mouse-down handler: `ParticleCount` new particles at the event's point,
        appended after the ones already there. */
    method CreateNewParticles(x: real, y: real, draws: seq<ParticleDraws>)
      requires Valid()
      requires |draws| == ParticleCount
      requires forall k :: 0 <= k < |draws| ==> draws[k].Valid()
      modifies this
      ensures Valid()
      ensures |particles| == |old(particles)| + ParticleCount
      ensures particles[..|old(particles)|] == old(particles)
      ensures forall k :: |old(particles)| <= k < |particles| ==>
                fresh(particles[k]) && particles[k].State() == Spawn(x, y, draws[k - |old(particles)|])
    {
      var i := 0;
      while i < ParticleCount
        invariant 0 <= i <= ParticleCount
        invariant Valid()
        invariant |particles| == |old(particles)| + i
        invariant particles[..|old(particles)|] == old(particles)
        invariant forall k :: |old(particles)| <= k < |particles| ==>
                    fresh(particles[k]) && particles[k].State() == Spawn(x, y, draws[k - |old(particles)|])
      {
        var particle := new Particle(x, y, draws[i]);
        particles := particles + [particle];
        i := i + 1;
      }
    }

    /** The update of the particle at position `i` of the pool, entry `j` of the pool
        `before` the frame began with, in the states `now`: only that particle changes. */
    method Visit(ghost before: seq<Particle>, ghost now: seq<ParticleState>, ghost j: nat, i: nat)
      returns (particle: Particle, wasDrawn: bool)
      requires i < |particles| && j < |before| && particles[i] == before[j]
      requires IndexOf(particles, before[j]) == i
      requires forall k :: 0 <= k < |before| && k != j ==> before[k] != before[j]
      requires Shows(before, now)
      modifies this, particles[i]
      ensures particle == before[j]
      ensures wasDrawn <==> !Expired(LifespanOf(now[j]))
      ensures wasDrawn ==> particles == old(particles)
      ensures !wasDrawn ==> particles == old(particles)[..i] + old(particles)[i + 1..]
      ensures Shows(before, now[j := Apply(if wasDrawn then Updated else Removed, now[j])])
    {
      particle := particles[i];
      wasDrawn := particle.Update(this);
    }

    /** One step of a frame's scan: the particle at position `i` of the pool, entry `j`
        of the pool `before` the frame began with, is updated, and the scan moves on to
        entry `next`, with the states of `before` now `after`. */
    method Step(ghost before: seq<Particle>, ghost expired: seq<bool>, ghost start: seq<ParticleState>,
                ghost now: seq<ParticleState>, ghost j: nat, i: nat, ghost drawn: seq<Particle>)
      returns (particle: Particle, wasDrawn: bool, ghost after: seq<ParticleState>, ghost next: nat)
      requires Distinct(before) && Scanning(before, expired, j, i, particles, drawn) && i < |particles|
      requires Shows(before, now) && Progressed(now, start, expired, j, Apply)
      requires forall k :: 0 <= k < |start| ==> expired[k] == Expired(LifespanOf(start[k]))
      modifies this, particles[i]
      ensures Scanning(before, expired, next, i + 1, particles, if wasDrawn then drawn + [particle] else drawn)
      ensures Shows(before, after) && Progressed(after, start, expired, next, Apply) && j < next
    {
      ScanAt(before, expired, j, i, particles, drawn);
      assert forall k :: 0 <= k < |before| && k != j ==> before[k] != before[j];
      ghost var ps := particles;
      particle, wasDrawn := Visit(before, now, j, i);
      next := Advance(before, expired, start, now, j, i, ps, drawn, wasDrawn, particles, LifespanOf, Apply);
      after := now[j := Apply(Fates(expired)[j], now[j])];
    }

    /** One animation frame: the forward scan that updates every particle it reaches.
        The particles are given their fates from their lifespans when the frame begins;
        `drawn` lists the particles drawn, in drawing order. */
    method AnimationFrame() returns (drawn: seq<Particle>)
      requires Valid()
      modifies this, particles
      ensures Valid()
      ensures var fates := Fates(ExpiredFlags(old(States(particles)), LifespanOf));
              && particles == Select(old(particles), fates, Kept)
              && drawn == Select(old(particles), fates, {Updated})
              && forall k :: 0 <= k < |old(particles)| ==>
                   old(particles)[k].State() == Apply(fates[k], old(States(particles))[k])
    {
      ghost var before := particles;
      ghost var start := States(before);
      ghost var expired := ExpiryOf(start, LifespanOf);
      ghost var now := start;
      ghost var j: nat := 0;
      var i := 0;
      drawn := [];
      ScanStart(before, expired);
      while i < |particles|
        invariant Scanning(before, expired, j, i, particles, drawn)
        invariant Shows(before, now) && Progressed(now, start, expired, j, Apply)
        decreases |before| - j
      {
        var particle, wasDrawn;
        particle, wasDrawn, now, j := Step(before, expired, start, now, j, i, drawn);
        if wasDrawn {
          drawn := drawn + [particle];
        }
        i := i + 1;
      }
      Finish(before, expired, start, now, j, i, particles, drawn, LifespanOf, Apply);
    }
  }
}
