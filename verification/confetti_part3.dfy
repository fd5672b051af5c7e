/** Third version: the particle becomes a base class with `Circle` and `Rectangle`
    subclasses, the constants move into one configuration object, and the size oscillation
    becomes one method that takes the name of the field to change. As the script stands,
    two methods read names that are declared nowhere, and the spawner builds the abstract
    base class; the members called `...AsWritten` and `CreateNewParticles` keep that
    behaviour, and the rest of the module is the evidently intended program. There is no
    expiry in this version: nothing is ever removed from the pool. */
module ConfettiPart3 {
  import opened Draws
  import opened Palettes
  import opened Kinematics
  import opened Lifecycle
  import opened Oscillation
  import opened PoolScan

  /** What a JavaScript `throw` carries in this script. */
  datatype JsError = ReferenceError(name: string) | Error(message: string)

  /** How a method call ends: normally, or with an exception. */
  datatype Outcome = Done | Thrown(error: JsError)

  /** The class a particle was constructed as. */
  datatype Kind = Base | Circle | Rectangle

  /** The message of the base class's `draw`. */
  const DrawMessage: string := "draw method must be implemented by subclass."

  /** The message of the base class's `update`. */
  const UpdateMessage: string := "update method must be implemented by subclass."

  /** The names the script declares at its top level. Neither `GRAVITY` nor
      `sizeIncrement` is among them. */
  const TopLevelNames: set<string> := {
    "confettiConfig", "canvas", "context", "offscreenCanvas", "offscreenContext",
    "Particle", "Circle", "Rectangle", "createNewParticles", "animationLoop"}

  /** The globals of the page that this script reads. */
  const HostGlobals: set<string> := {
    "Math", "window", "document", "OffscreenCanvas", "requestAnimationFrame", "Error"}

  /** Reading one of the free names this script reads inside a method: it resolves when
      the script or the page declares it, and otherwise throws a `ReferenceError` naming
      it. */
  function Resolve(name: string): Outcome {
    if name in TopLevelNames || name in HostGlobals then Done else Thrown(ReferenceError(name))
  }

  /** The dimension fields each class adds: an ellipse's two radii, a rectangle's two
      sides, none for the base class. */
  function DimsOf(kind: Kind): set<string> {
    match kind
    case Base => {}
    case Circle => {"radiusX", "radiusY"}
    case Rectangle => {"height", "width"}
  }

  /** The dimension a subclass's `update` oscillates. */
  function ActiveDim(kind: Kind): string
    requires kind != Base
  {
    if kind == Circle then "radiusX" else "width"
  }

  /** The bound a subclass's `update` passes for that dimension. */
  function MaxSize(kind: Kind): real
    requires kind != Base
  {
    if kind == Circle then CircleMaxRadius else RectangleMaxWidth
  }

  /** The `Math.random()` values one particle's constructors take, apart from the two that
      choose the firing angle and the one that sets the starting rotation angle: colour,
      vertical speed, spin direction, direction of the size change, and the subclass's
      starting size (the base class takes no such draw). */
  datatype ParticleDraws = ParticleDraws(color: real, speed: real, spin: real, shrink: real, size: real) {
    predicate Valid() {
      IsDraw(color) && IsDraw(speed) && IsDraw(spin) && IsDraw(shrink) && IsDraw(size)
    }
  }

  /** The fields of a particle, as one value. `dims` holds the fields a subclass adds,
      by name, as the script reaches them through `this[propertyName]`. */
  datatype ParticleState = ParticleState(motion: Motion, lifespan: int, color: string,
                                         rotationAngle: real, rotationSpeed: real, shrinking: bool,
                                         sizeIncrement: real, dims: map<string, real>)

  /** The particle a constructor of class `kind` builds at (x, y) from the draws `d`;
      `slope` is the tangent of the firing angle and `angle` the starting rotation. */
  function Spawn(kind: Kind, x: real, y: real, d: ParticleDraws, slope: real, angle: real): (s: ParticleState)
    requires d.Valid()
    ensures s.motion.x == x && s.motion.y == y && s.lifespan == 0
    ensures -21.0 < s.motion.vy <= -9.0 && s.motion.vx == slope * -s.motion.vy
    ensures s.color in SevenColors && s.rotationAngle == angle
    ensures (s.rotationSpeed == Spin <==> d.spin > 0.5) && (s.rotationSpeed == -Spin <==> d.spin <= 0.5)
    ensures (s.shrinking <==> Heads(d.shrink)) && s.sizeIncrement == SizeIncrement
    ensures s.dims.Keys == DimsOf(kind)
    ensures kind == Circle ==>
              s.dims["radiusY"] == CircleRadiusY
              && Whole(s.dims["radiusX"]) && 0.0 <= s.dims["radiusX"] <= CircleMaxRadius
    ensures kind == Rectangle ==>
              s.dims["height"] == RectangleHeight
              && Whole(s.dims["width"]) && 0.0 <= s.dims["width"] <= RectangleMaxWidth
  {
    var vy := -(d.speed * 12.0 + 9.0);
    ParticleState(Motion(x, y, slope * (if vy < 0.0 then -vy else vy), vy), 0,
                  PickColor(SevenColors, d.color), angle, if d.spin > 0.5 then Spin else -Spin,
                  Heads(d.shrink), SizeIncrement,
                  match kind
                  case Base => map[]
                  case Circle => map["radiusY" := CircleRadiusY, "radiusX" := Pick(6, d.size) as real]
                  case Rectangle => map["height" := RectangleHeight, "width" := Pick(11, d.size) as real])
  }

  /** The effect of `updatePhysics` as intended: the particle moves, turns by its spin
      and ages by one; nothing else changes. */
  function Physics(s: ParticleState): (r: ParticleState)
    ensures r.lifespan == s.lifespan + 1
    ensures r.rotationAngle == s.rotationAngle + s.rotationSpeed
    ensures r.motion == Drift(s.motion)
    ensures r == s.(motion := r.motion, rotationAngle := r.rotationAngle, lifespan := r.lifespan)
  {
    s.(motion := Drift(s.motion), rotationAngle := s.rotationAngle + s.rotationSpeed,
       lifespan := s.lifespan + 1)
  }

  /** The effect of `updateSize(name, maxValue)` as intended: the named field takes one
      oscillation step with the particle's own increment, and the flag follows; every
      other field, and every other dimension, is left as it was. */
  function SizeStep(s: ParticleState, name: string, maxValue: real): (r: ParticleState)
    requires name in s.dims
    ensures r.dims.Keys == s.dims.Keys
    ensures forall other :: other in s.dims && other != name ==> r.dims[other] == s.dims[other]
    ensures Size(r.dims[name], r.shrinking) == Oscillate(Size(s.dims[name], s.shrinking), s.sizeIncrement, maxValue)
    ensures 0.0 <= maxValue ==> 0.0 <= r.dims[name] <= maxValue
    ensures r == s.(dims := r.dims, shrinking := r.shrinking)
  {
    var z := Oscillate(Size(s.dims[name], s.shrinking), s.sizeIncrement, maxValue);
    s.(dims := s.dims[name := z.value], shrinking := z.shrinking)
  }

  /** The expectations of the unit tests of `updateSize`, on a particle with the
      constructor's increment and a mocked `size` field, maximum 10. */
  lemma UpdateSizeTests(s: ParticleState)
    requires s.sizeIncrement == SizeIncrement
    ensures SizeStep(s.(dims := s.dims["size" := 5.0], shrinking := false), "size", 10.0).dims["size"] == 5.2
    ensures SizeStep(s.(dims := s.dims["size" := 5.0], shrinking := true), "size", 10.0).dims["size"] == 4.8
    ensures var r := SizeStep(s.(dims := s.dims["size" := 0.1], shrinking := true), "size", 10.0);
            r.dims["size"] == 0.0 && !r.shrinking
    ensures var r := SizeStep(s.(dims := s.dims["size" := 9.9], shrinking := false), "size", 10.0);
            r.dims["size"] == 10.0 && r.shrinking
    ensures SizeStep(s.(dims := s.dims["size" := -0.1], shrinking := true), "size", 10.0).dims["size"] == 0.0
    ensures SizeStep(s.(dims := s.dims["size" := 10.1], shrinking := false), "size", 10.0).dims["size"] == 10.0
  {
  }

  /** One `update` of a `Circle` or a `Rectangle`: physics first, then the size step on
      the subclass's dimension. */
  function Animate(kind: Kind, s: ParticleState): (r: ParticleState)
    requires kind != Base && s.dims.Keys == DimsOf(kind)
    ensures r.dims.Keys == DimsOf(kind)
    ensures r.lifespan == s.lifespan + 1 && r.rotationAngle == s.rotationAngle + s.rotationSpeed
    ensures r.motion == Drift(s.motion) && r.color == s.color && r.rotationSpeed == s.rotationSpeed
    ensures 0.0 <= r.dims[ActiveDim(kind)] <= MaxSize(kind)
    ensures Size(r.dims[ActiveDim(kind)], r.shrinking)
            == Oscillate(Size(s.dims[ActiveDim(kind)], s.shrinking), s.sizeIncrement, MaxSize(kind))
    ensures forall other :: other in s.dims && other != ActiveDim(kind) ==> r.dims[other] == s.dims[other]
  {
    SizeStep(Physics(s), ActiveDim(kind), MaxSize(kind))
  }

  /** `n` frames of a `Circle` or a `Rectangle`. */
  function Frames(kind: Kind, s: ParticleState, n: nat): ParticleState
    requires kind != Base && s.dims.Keys == DimsOf(kind)
    decreases n
  {
    if n == 0 then s else Frames(kind, Animate(kind, s), n - 1)
  }

  /** Nothing expires in this version: after `n` frames a particle has aged by `n`,
      however large `n` is, still has its dimensions, and its oscillating one is in
      bounds from the first frame on. */
  lemma {:induction false} NeverExpires(kind: Kind, s: ParticleState, n: nat)
    requires kind != Base && s.dims.Keys == DimsOf(kind)
    ensures var r := Frames(kind, s, n);
            && r.lifespan == s.lifespan + n && r.dims.Keys == DimsOf(kind)
            && (n > 0 ==> 0.0 <= r.dims[ActiveDim(kind)] <= MaxSize(kind))
    decreases n
  {
    if n > 0 {
      NeverExpires(kind, Animate(kind, s), n - 1);
    }
  }

  class Particle {
    const kind: Kind
    var x: real
    var y: real
    var vx: real
    var vy: real
    var lifespan: int
    var color: string
    var rotationAngle: real
    var rotationSpeed: real
    var shrinking: bool
    var sizeIncrement: real
    var dims: map<string, real>

    function State(): ParticleState
      reads this
    {
      ParticleState(Motion(x, y, vx, vy), lifespan, color, rotationAngle, rotationSpeed, shrinking,
                    sizeIncrement, dims)
    }

    /** The particle has exactly the dimension fields of its class. */
    predicate Valid()
      reads this
    {
      dims.Keys == DimsOf(kind)
    }

    /** `new Particle`, `new Circle` or `new Rectangle`, as `k` says. */
    constructor (k: Kind, x0: real, y0: real, d: ParticleDraws, slope: real, angle: real)
      requires d.Valid()
      ensures kind == k && Valid() && State() == Spawn(k, x0, y0, d, slope, angle)
    {
      kind := k;
      x := x0;
      y := y0;
      lifespan := 0;
      color := PickColor(SevenColors, d.color);
      var speed := -(d.speed * 12.0 + 9.0);
      vy := speed;
      vx := slope * (if speed < 0.0 then -speed else speed);
      rotationAngle := angle;
      rotationSpeed := if d.spin > 0.5 then Spin else -Spin;
      shrinking := Heads(d.shrink);
      sizeIncrement := SizeIncrement;
      match k
      case Base =>
        dims := map[];
      case Circle =>
        dims := map["radiusY" := CircleRadiusY, "radiusX" := Pick(6, d.size) as real];
      case Rectangle =>
        dims := map["height" := RectangleHeight, "width" := Pick(11, d.size) as real];
    }

    /** `updatePhysics` as the script has it: its first statement reads `GRAVITY`, which
        is declared nowhere, so it throws before any field changes. */
    method UpdatePhysicsAsWritten() returns (r: Outcome)
      ensures r == Thrown(ReferenceError("GRAVITY"))
    {
      r := Resolve("GRAVITY");
    }

    /** `updatePhysics` with the configured gravity. */
    method UpdatePhysics()
      modifies this
      ensures State() == Physics(old(State()))
    {
      vy := vy + Gravity;
      vx := vx * (1.0 - AirResistance);
      vy := vy * (1.0 - AirResistance);
      x := x + vx;
      y := y + vy;
      rotationAngle := rotationAngle + rotationSpeed;
      lifespan := lifespan + 1;
    }

    /** `updateSize` as the script has it: reading `this[name]` succeeds (or gives
        `undefined`), but the increment is read from a bare `sizeIncrement` rather than
        from the particle, which throws before any field changes. */
    method UpdateSizeAsWritten(name: string, maxValue: real) returns (r: Outcome)
      ensures r == Thrown(ReferenceError("sizeIncrement"))
    {
      r := Resolve("sizeIncrement");
    }

    /** `updateSize` with the particle's own increment. */
    method UpdateSize(name: string, maxValue: real)
      requires name in dims
      modifies this
      ensures State() == SizeStep(old(State()), name, maxValue)
    {
      ghost var z := Oscillate(Size(dims[name], shrinking), sizeIncrement, maxValue);
      if shrinking {
        dims := dims[name := dims[name] - sizeIncrement];
      } else {
        dims := dims[name := dims[name] + sizeIncrement];
      }
      assert dims[name] == Moved(Size(old(dims[name]), shrinking), sizeIncrement);
      if dims[name] <= 0.0 {
        dims := dims[name := 0.0];
        shrinking := false;
      } else if dims[name] >= maxValue {
        dims := dims[name := maxValue];
        shrinking := true;
      }
      assert dims == old(dims)[name := z.value] && shrinking == z.shrinking;
    }

    /** `draw`: the base class's throws; a subclass's paints the canvas, which is not
        modelled. */
    method Draw() returns (r: Outcome)
      ensures kind == Base <==> r == Thrown(Error(DrawMessage))
      ensures kind != Base <==> r == Done
    {
      if kind == Base {
        r := Thrown(Error(DrawMessage));
      } else {
        r := Done;
      }
    }

    /** `update`: the base class's throws and changes nothing; a subclass's runs the
        physics, then the size step on its own dimension, then draws. */
    method Update() returns (r: Outcome)
      requires Valid()
      modifies this
      ensures Valid()
      ensures kind == Base ==> r == Thrown(Error(UpdateMessage)) && State() == old(State())
      ensures kind != Base ==> r == Done && State() == Animate(kind, old(State()))
    {
      if kind == Base {
        r := Thrown(Error(UpdateMessage));
      } else {
        UpdatePhysics();
        UpdateSize(ActiveDim(kind), MaxSize(kind));
        r := Draw();
      }
    }
  }

  /** The position of the first particle of `ps` built as the base class, or `|ps|`
      when there is none. */
  function FirstBase(ps: seq<Particle>): (n: nat)
    ensures n <= |ps|
    ensures forall k :: 0 <= k < n ==> ps[k].kind != Base
    ensures n < |ps| ==> ps[n].kind == Base
    decreases |ps|
  {
    if ps == [] then 0
    else if ps[0].kind == Base then 0
    else 1 + FirstBase(ps[1..])
  }

  /** A pool without base-class particles has none to stop at. */
  lemma {:induction false} NoBase(ps: seq<Particle>)
    requires forall k :: 0 <= k < |ps| ==> ps[k].kind != Base
    ensures FirstBase(ps) == |ps|
    decreases |ps|
  {
    if ps != [] {
      NoBase(ps[1..]);
    }
  }

  /** The states of the particles of `ps`, in order. */
  function States(ps: seq<Particle>): (r: seq<ParticleState>)
    reads ps
    ensures |r| == |ps|
    ensures forall k :: 0 <= k < |ps| ==> r[k] == ps[k].State()
    decreases |ps|
  {
    if ps == [] then [] else States(ps[..|ps| - 1]) + [ps[|ps| - 1].State()]
  }

  /** The particles of `ps` are in the states `now`. */
  ghost predicate Shows(ps: seq<Particle>, now: seq<ParticleState>)
    reads ps
  {
    |now| == |ps| && forall k :: 0 <= k < |ps| ==> ps[k].State() == now[k]
  }

  /** Every particle of `ps` has exactly the dimension fields of its class. */
  ghost predicate AllValid(ps: seq<Particle>)
    reads ps
  {
    forall k :: 0 <= k < |ps| ==> ps[k].Valid()
  }

  /** Particles whose states have their classes' dimension fields are valid. */
  lemma ShowsValid(ps: seq<Particle>, now: seq<ParticleState>)
    requires Shows(ps, now) && Fits(ps, now)
    ensures AllValid(ps)
  {
    forall k | 0 <= k < |ps|
      ensures ps[k].Valid()
    {
      assert ps[k].State() == now[k];
    }
  }

  /** Each state of `now` has the dimension fields of its particle's class. */
  ghost predicate Fits(ps: seq<Particle>, now: seq<ParticleState>) {
    |now| == |ps| && forall k :: 0 <= k < |ps| ==> now[k].dims.Keys == DimsOf(ps[k].kind)
  }

  /** Partway through a frame, at position `i`: the particles before `i`, all of them
      subclass instances, have been updated once from their starting states `start`, and
      the others are untouched. */
  ghost predicate Animated(ps: seq<Particle>, start: seq<ParticleState>, now: seq<ParticleState>, i: nat) {
    Fits(ps, start) && |now| == |ps| && i <= |ps| && (forall k :: 0 <= k < i ==> ps[k].kind != Base)
    && (forall k :: 0 <= k < i ==> now[k] == Animate(ps[k].kind, start[k]))
    && (forall k :: i <= k < |ps| ==> now[k] == start[k])
  }

  /** Partway through a frame, every state still has its class's dimension fields. */
  lemma AnimatedFits(ps: seq<Particle>, start: seq<ParticleState>, now: seq<ParticleState>, i: nat)
    requires Animated(ps, start, now, i)
    ensures Fits(ps, now)
  {
    forall k | 0 <= k < |ps|
      ensures now[k].dims.Keys == DimsOf(ps[k].kind)
    {
      if k < i {
        assert now[k] == Animate(ps[k].kind, start[k]);
      }
    }
  }

  /** Updating a subclass instance at position `i` moves the frame on by one. */
  lemma AnimatedStep(ps: seq<Particle>, start: seq<ParticleState>, now: seq<ParticleState>, i: nat)
    requires Animated(ps, start, now, i) && i < |ps| && ps[i].kind != Base
    ensures Animated(ps, start, now[i := Animate(ps[i].kind, now[i])], i + 1)
  {
  }

  /** A frame that stops at position `i` stops at the first base-class particle, having
      updated exactly the particles before it. */
  lemma Stopped(ps: seq<Particle>, start: seq<ParticleState>, now: seq<ParticleState>, i: nat)
    requires Animated(ps, start, now, i) && i < |ps| && ps[i].kind == Base
    ensures i == FirstBase(ps)
  {
  }

  /** The states one frame leaves the particles `ps` in, from the states `start`: the
      particles before the first base-class one are updated once, the others keep their
      states. */
  function FrameResult(ps: seq<Particle>, start: seq<ParticleState>): (r: seq<ParticleState>)
    requires Fits(ps, start)
    ensures |r| == |ps|
    ensures forall k :: 0 <= k < |ps| ==> r[k] == if k < FirstBase(ps) then Animate(ps[k].kind, start[k]) else start[k]
  {
    seq(|ps|, k requires 0 <= k < |ps| => if k < FirstBase(ps) then Animate(ps[k].kind, start[k]) else start[k])
  }

  /** Where a frame ends, at position `i`, either at the end or at the first base-class
      particle: the states are the frame's result, and every state still has its class's
      dimension fields. */
  lemma Ended(ps: seq<Particle>, start: seq<ParticleState>, now: seq<ParticleState>, i: nat)
    requires Animated(ps, start, now, i) && (i == FirstBase(ps) || |ps| <= i)
    ensures i == FirstBase(ps) && Fits(ps, now) && now == FrameResult(ps, start)
  {
    AnimatedFits(ps, start, now, i);
  }

  /** A frame over subclass particles only, after a click added new ones behind the
      particles `before`: the earlier particles take one step and the new ones are on
      their first frame. */
  lemma AfterClick(ps: seq<Particle>, before: seq<ParticleState>, spawned: seq<ParticleState>,
                   now: seq<ParticleState>)
    requires Fits(ps, spawned) && FirstBase(ps) == |ps| && now == FrameResult(ps, spawned)
    requires |before| <= |spawned| && forall k :: 0 <= k < |before| ==> spawned[k] == before[k]
    requires forall k :: |before| <= k < |spawned| ==> spawned[k].lifespan == 0
    ensures |now| == |ps|
    ensures forall k :: 0 <= k < |before| ==> now[k] == Animate(ps[k].kind, before[k])
    ensures forall k :: |before| <= k < |now| ==> now[k].lifespan == 1
  {
  }

  /** The states of particles shown in `now` are `now`. */
  lemma ShowsStates(ps: seq<Particle>, now: seq<ParticleState>)
    requires Shows(ps, now)
    ensures States(ps) == now
  {
  }

  /** The configuration object, as far as it changes: its array of active particles. */
  class Config {
    var activeParticles: seq<Particle>

    ghost predicate Valid()
      reads this, activeParticles
    {
      Distinct(activeParticles) && AllValid(activeParticles)
    }

    constructor ()
      ensures Valid() && activeParticles == []
    {
      activeParticles := [];
    }

    /** The mouse-down handler as the script has it: `ParticleCount` instances of the base
        class at the event's point, appended after the particles already there. */
    method CreateNewParticles(x: real, y: real, draws: seq<ParticleDraws>, slopes: seq<real>, angles: seq<real>)
      requires Valid()
      requires |draws| == |slopes| == |angles| == ParticleCount
      requires forall k :: 0 <= k < |draws| ==> draws[k].Valid()
      modifies this
      ensures Valid()
      ensures |activeParticles| == |old(activeParticles)| + ParticleCount
      ensures activeParticles[..|old(activeParticles)|] == old(activeParticles)
      ensures forall k :: |old(activeParticles)| <= k < |activeParticles| ==>
                var n := k - |old(activeParticles)|;
                fresh(activeParticles[k]) && activeParticles[k].kind == Base
                && activeParticles[k].State() == Spawn(Base, x, y, draws[n], slopes[n], angles[n])
    {
      var i := 0;
      while i < ParticleCount
        invariant 0 <= i <= ParticleCount
        invariant Valid()
        invariant |activeParticles| == |old(activeParticles)| + i
        invariant activeParticles[..|old(activeParticles)|] == old(activeParticles)
        invariant forall k :: |old(activeParticles)| <= k < |activeParticles| ==>
                    var n := k - |old(activeParticles)|;
                    fresh(activeParticles[k]) && activeParticles[k].kind == Base
                    && activeParticles[k].State() == Spawn(Base, x, y, draws[n], slopes[n], angles[n])
      {
        var particle := new Particle(Base, x, y, draws[i], slopes[i], angles[i]);
        activeParticles := activeParticles + [particle];
        i := i + 1;
      }
    }

    /** The mouse-down handler building the subclasses, each a `Rectangle` or a `Circle`
        on a fair coin `shapes[k]`, as the second version chose its shapes. */
    method CreateNewShapes(x: real, y: real, draws: seq<ParticleDraws>, slopes: seq<real>, angles: seq<real>,
                           shapes: seq<real>)
      requires Valid()
      requires |draws| == |slopes| == |angles| == |shapes| == ParticleCount
      requires forall k :: 0 <= k < |draws| ==> draws[k].Valid()
      modifies this
      ensures Valid()
      ensures |activeParticles| == |old(activeParticles)| + ParticleCount
      ensures activeParticles[..|old(activeParticles)|] == old(activeParticles)
      ensures forall k :: |old(activeParticles)| <= k < |activeParticles| ==>
                var n := k - |old(activeParticles)|;
                var kind := if Heads(shapes[n]) then Rectangle else Circle;
                fresh(activeParticles[k]) && activeParticles[k].kind == kind
                && activeParticles[k].State() == Spawn(kind, x, y, draws[n], slopes[n], angles[n])
    {
      var i := 0;
      while i < ParticleCount
        invariant 0 <= i <= ParticleCount
        invariant Valid()
        invariant |activeParticles| == |old(activeParticles)| + i
        invariant activeParticles[..|old(activeParticles)|] == old(activeParticles)
        invariant forall k :: |old(activeParticles)| <= k < |activeParticles| ==>
                    var n := k - |old(activeParticles)|;
                    var kind := if Heads(shapes[n]) then Rectangle else Circle;
                    fresh(activeParticles[k]) && activeParticles[k].kind == kind
                    && activeParticles[k].State() == Spawn(kind, x, y, draws[n], slopes[n], angles[n])
      {
        var particle := new Particle(if Heads(shapes[i]) then Rectangle else Circle,
                                     x, y, draws[i], slopes[i], angles[i]);
        activeParticles := activeParticles + [particle];
        i := i + 1;
      }
    }

    /** The update of the particle at position `i`, the particles being in the states
        `now`: only that particle changes. */
    method Visit(ghost now: seq<ParticleState>, i: nat) returns (r: Outcome)
      requires i < |activeParticles| && Distinct(activeParticles)
      requires Shows(activeParticles, now) && Fits(activeParticles, now)
      modifies activeParticles[i]
      ensures activeParticles[i].kind == Base ==> r == Thrown(Error(UpdateMessage)) && Shows(activeParticles, now)
      ensures activeParticles[i].kind != Base ==>
                r == Done && Shows(activeParticles, now[i := Animate(activeParticles[i].kind, now[i])])
    {
      assert activeParticles[i].Valid();
      r := activeParticles[i].Update();
    }

    /** One step of a frame: the particle at position `i` is updated, from the states
        `now` of the frame's particles to `after`. */
    method Step(ghost start: seq<ParticleState>, ghost now: seq<ParticleState>, i: nat)
      returns (r: Outcome, ghost after: seq<ParticleState>)
      requires Distinct(activeParticles) && i < |activeParticles|
      requires Shows(activeParticles, now) && Animated(activeParticles, start, now, i)
      modifies activeParticles[i]
      ensures Shows(activeParticles, after)
      ensures r == Done ==> Animated(activeParticles, start, after, i + 1)
      ensures r != Done ==> r == Thrown(Error(UpdateMessage)) && i == FirstBase(activeParticles)
                            && Animated(activeParticles, start, after, i)
    {
      AnimatedFits(activeParticles, start, now, i);
      r := Visit(now, i);
      if r == Done {
        AnimatedStep(activeParticles, start, now, i);
        after := now[i := Animate(activeParticles[i].kind, now[i])];
      } else {
        Stopped(activeParticles, start, now, i);
        after := now;
      }
    }

    /** One animation frame: every particle is updated in order, and the first exception
        ends the frame (and, since the next frame is never requested, the animation). The
        array itself never changes. */
    method AnimationFrame() returns (r: Outcome)
      requires Valid()
      modifies activeParticles
      ensures Valid() && activeParticles == old(activeParticles)
      ensures r == Done <==> FirstBase(activeParticles) == |activeParticles|
      ensures r != Done ==> r == Thrown(Error(UpdateMessage))
      ensures States(activeParticles) == FrameResult(activeParticles, old(States(activeParticles)))
    {
      ghost var start := States(activeParticles);
      ghost var now := start;
      var i := 0;
      r := Done;
      while i < |activeParticles| && r == Done
        invariant Shows(activeParticles, now) && Animated(activeParticles, start, now, i)
        invariant r != Done ==> r == Thrown(Error(UpdateMessage)) && i == FirstBase(activeParticles) < |activeParticles|
        decreases |activeParticles| - i, if r == Done then 1 else 0
      {
        r, now := Step(start, now, i);
        if r == Done {
          i := i + 1;
        }
      }
      Ended(activeParticles, start, now, i);
      ShowsValid(activeParticles, now);
      ShowsStates(activeParticles, now);
    }

    /** A click followed by a frame, as the script stands: the frame meets a base-class
        particle and throws. */
    method ClickThenFrame(x: real, y: real, draws: seq<ParticleDraws>, slopes: seq<real>, angles: seq<real>)
      returns (r: Outcome)
      requires Valid()
      requires |draws| == |slopes| == |angles| == ParticleCount
      requires forall k :: 0 <= k < |draws| ==> draws[k].Valid()
      modifies this, activeParticles
      ensures r == Thrown(Error(UpdateMessage))
    {
      CreateNewParticles(x, y, draws, slopes, angles);
      assert forall k :: 0 <= k < |activeParticles| ==> activeParticles[k] in old(activeParticles) || fresh(activeParticles[k]);
      ghost var first := |activeParticles| - ParticleCount;
      assert activeParticles[first].kind == Base;
      assert FirstBase(activeParticles) <= first;
      r := AnimationFrame();
    }

    /** The subclass spawner on a pool that has only subclass particles: the pool then
        has only subclass particles still, those it had keep their states `before`, and the
        new ones, fresh, start with lifespan 0. */
    method ClickShapes(x: real, y: real, draws: seq<ParticleDraws>, slopes: seq<real>,
                       angles: seq<real>, shapes: seq<real>)
      returns (ghost before: seq<ParticleState>, ghost spawned: seq<ParticleState>)
      requires Valid() && forall k :: 0 <= k < |activeParticles| ==> activeParticles[k].kind != Base
      requires |draws| == |slopes| == |angles| == |shapes| == ParticleCount
      requires forall k :: 0 <= k < |draws| ==> draws[k].Valid()
      modifies this
      ensures Valid() && |activeParticles| == |old(activeParticles)| + ParticleCount
      ensures forall k :: |old(activeParticles)| <= k < |activeParticles| ==> activeParticles[k].kind != Base
      ensures activeParticles[..|old(activeParticles)|] == old(activeParticles)
      ensures forall k :: 0 <= k < |activeParticles| ==> activeParticles[k] in old(activeParticles) || fresh(activeParticles[k])
      ensures before == old(States(activeParticles)) && spawned == States(activeParticles)
      ensures |before| <= |spawned| && forall k :: 0 <= k < |before| ==> spawned[k] == before[k]
      ensures forall k :: |before| <= k < |spawned| ==> spawned[k].lifespan == 0
    {
      before := States(activeParticles);
      CreateNewShapes(x, y, draws, slopes, angles, shapes);
      assert forall k :: 0 <= k < |activeParticles| ==> activeParticles[k] in old(activeParticles) || fresh(activeParticles[k]);
      spawned := States(activeParticles);
      forall k | 0 <= k < |before|
        ensures spawned[k] == before[k]
      {
        assert activeParticles[k] == old(activeParticles)[k];
      }
      forall k | |before| <= k < |spawned|
        ensures spawned[k].lifespan == 0
      {
        assert spawned[k] == activeParticles[k].State();
      }
    }

    /** A click followed by a frame with the subclass spawner, on a pool that has only
        subclass particles: the frame completes and updates every particle once, so the
        particles that were there take one `Animate` step and the new ones have lifespan 1. */
    method ClickThenFrameShapes(x: real, y: real, draws: seq<ParticleDraws>, slopes: seq<real>,
                                angles: seq<real>, shapes: seq<real>)
      returns (r: Outcome)
      requires Valid() && forall k :: 0 <= k < |activeParticles| ==> activeParticles[k].kind != Base
      requires |draws| == |slopes| == |angles| == |shapes| == ParticleCount
      requires forall k :: 0 <= k < |draws| ==> draws[k].Valid()
      modifies this, activeParticles
      ensures r == Done
      ensures |activeParticles| == |old(activeParticles)| + ParticleCount
      ensures activeParticles[..|old(activeParticles)|] == old(activeParticles)
      ensures var now := States(activeParticles);
              && (forall k :: 0 <= k < |old(activeParticles)| ==>
                    now[k] == Animate(activeParticles[k].kind, old(States(activeParticles))[k]))
              && (forall k :: |old(activeParticles)| <= k < |now| ==> now[k].lifespan == 1)
    {
      ghost var before, spawned := ClickShapes(x, y, draws, slopes, angles, shapes);
      forall k | 0 <= k < |activeParticles|
        ensures activeParticles[k].kind != Base
      {
        if k < |old(activeParticles)| {
          assert activeParticles[k] == old(activeParticles)[k];
        }
      }
      NoBase(activeParticles);
      r := AnimationFrame();
      AfterClick(activeParticles, before, spawned, States(activeParticles));
    }
  }
}
