# Confetti particles: lifecycle, size oscillation and the particle pool

A model of the three versions of a canvas confetti effect. A mouse-down adds a batch of
100 particles to an array of active particles. Each animation frame walks that array with
a forward index loop and updates every particle it reaches.

- **First version** (`part-1/script.js`): round particles move under gravity and air
  resistance. An update first moves the particle. It then asks whether the lifespan is
  past 200. If so, and the particle is found in the array, the particle splices itself out
  and stops. Otherwise it ages by one and is drawn. Because the splice happens during the
  forward scan, the particle that slides into the vacated slot is passed over for that
  frame. The model reproduces this skip rather than fixing it.
- **Second version** (`part-2/script.js`): rectangles and ellipses that spin. Their width
  or horizontal radius swells and shrinks by 0.2 per frame between 0 and a bound (10 or
  5). A `shrinking` flag turns round at each bound. The expiry test and the pool scan are
  those of the first version.
- **Third version** (`part-3/script.js`): a `Particle` base class with `Circle` and
  `Rectangle` subclasses. There is a generic `updateSize(propertyName, maxValue)` and no
  expiry at all. As written, it fails in three places; see "Findings".

## Modules

- `Draws` and `Palettes`: every `Math.random()` is a parameter in [0, 1).
- `Kinematics`: the motion step, on exact reals.
- `Lifecycle`: the expiry threshold and what it means over many updates.
- `Oscillation`: the size state machine.
- `PoolScan`: `indexOf` and the forward scan with self-removal, on values. Each entry gets
  a fate: updated, removed, or passed over.
- `FrameProgress`: the bookkeeping of one frame, generic in the particle state.
- `ConfettiPart1`, `ConfettiPart2`, `ConfettiPart3`: one module per script, with classes.
  Each `Particle` class has the script's fields. Each pool class (`Pool`, `Config`) holds
  the array of active particles as a sequence field. Each method is proved against a pure
  function of the particle state (`Spawn`, `Apply`, `Physics`, `SizeStep`, `Animate`).

## Model

| member | source | states |
|---|---|---|
| Draws.Pick | src/canvas/confetti/part-1/script.js:33 | `Math.floor(r * n)` for a draw `r` is a whole index below `n`, the floor of `r * n` |
| Palettes.PickColor | src/canvas/confetti/part-2/script.js:42 | the colour drawn is one of the palette's entries |
| Kinematics.Drift | src/canvas/confetti/part-1/script.js:49-58 | air resistance scales the horizontal speed by 0.98, and the position moves by exactly the new velocity |
| Kinematics.DriftFromFiveFive | src/canvas/confetti/part-3/script.js:73-83 | from speed (5, 5), one step gives speed and displacement (4.9, 4.9588) |
| Lifecycle.Counts | src/canvas/confetti/part-1/script.js:61-70 | until the limit is passed, each update adds exactly one to the lifespan and keeps the particle |
| Lifecycle.GoneForGood | src/canvas/confetti/part-1/script.js:61-66 | once a particle has removed itself, it stays removed however many more updates are counted |
| Lifecycle.Peak | src/canvas/confetti/part-1/script.js:61-70 | the lifespan of a particle still in the pool never exceeds 201 |
| Lifecycle.RemovedOnUpdate202 | src/canvas/confetti/part-1/script.js:61-70 | from lifespan 0, a particle is present with lifespan `k` after each of its first 201 updates, and is gone exactly from its 202nd update on |
| Lifecycle.SurviveSplit | src/canvas/confetti/part-1/script.js:61-70 | counting `a` updates and then `b` more is counting `a + b` |
| Oscillation.Oscillate | src/canvas/confetti/part-3/script.js:92-106 | for any start value the result is in [0, max]; at 0 the flag says growing and at max it says shrinking; strictly inside, the value has moved one increment in the flag's direction and the flag is kept; from a value in range it never moves by more than one increment |
| Oscillation.IterateAdd | src/canvas/confetti/part-2/script.js:125-156 | running `a` size updates and then `b` more is running `a + b` |
| Oscillation.IterateInRange | src/canvas/confetti/part-2/script.js:134-155 | a size that starts in [0, max] stays there for any number of updates |
| Oscillation.Rising | src/canvas/confetti/part-2/script.js:127-131 | below the top, a growing size rises by 0.2 per update and keeps growing |
| Oscillation.Falling | src/canvas/confetti/part-2/script.js:127-131 | above zero, a shrinking size falls by 0.2 per update and keeps shrinking |
| Oscillation.Period | src/canvas/confetti/part-2/script.js:125-140 | with a maximum of `n` increments, a size starting at 0 reaches the maximum after `n` updates and is back at 0, growing, after `2n` |
| Oscillation.ShapePeriods | src/canvas/confetti/part-2/script.js:125-156 | an ellipse's radius cycles every 50 frames and a rectangle's width every 100 |
| PoolScan.IndexOf | src/canvas/confetti/part-1/script.js:62 | `indexOf` gives -1 exactly when the particle is absent, and otherwise its first position |
| PoolScan.IndexOfDistinct | src/canvas/confetti/part-1/script.js:62-64 | in a pool without repetitions, `indexOf` finds an entry at its own position |
| PoolScan.ScanRule | src/canvas/confetti/part-1/script.js:97-99 | an entry is passed over exactly when the entry before it removed itself; otherwise its own expiry decides whether it is removed or updated |
| PoolScan.FateRule | src/canvas/confetti/part-1/script.js:97-99 | only expired entries are removed; only unexpired ones are updated; an expired entry that is not removed was passed over; the entry after a removed one is passed over |
| PoolScan.NothingExpired | src/canvas/confetti/part-1/script.js:97-99 | when nothing has expired, every entry is updated |
| PoolScan.SkipExamples | src/canvas/confetti/part-1/script.js:97-99 | with the first of three particles expired, the second is passed over; with all three expired, the second survives the frame |
| PoolScan.SelectLength | src/canvas/confetti/part-1/script.js:97-99 | the entries kept number as many as the kept fates |
| PoolScan.KeptOrRemoved | src/canvas/confetti/part-1/script.js:97-99 | every fate is either kept or removed |
| PoolScan.SurvivorCount | src/canvas/confetti/part-1/script.js:97-99 | after a frame, the pool is shorter by exactly the number of particles that removed themselves |
| PoolScan.SelectSubset | src/canvas/confetti/part-1/script.js:97-99 | the pool after a frame holds only particles it held before |
| PoolScan.SelectDistinct | src/canvas/confetti/part-1/script.js:97-99 | the pool after a frame has no repetitions, and holds a particle exactly when its fate keeps it |
| PoolScan.AdvanceUpdated | src/canvas/confetti/part-1/script.js:97-99 | an unexpired entry reached by the scan is updated and kept, and the scan carries on at the next entry |
| PoolScan.AdvanceRemoved | src/canvas/confetti/part-1/script.js:62-64 | an expired entry reached by the scan is removed, and the entry after it is passed over but kept |
| PoolScan.ScanAt | src/canvas/confetti/part-1/script.js:97-98 | while the index is inside the array, it points at the next entry of the original pool that is not yet dealt with, which `indexOf` finds there |
| PoolScan.ScanUpdated | src/canvas/confetti/part-1/script.js:97-99 | an unexpired entry leaves the array as it is and is drawn |
| PoolScan.ScanRemoved | src/canvas/confetti/part-1/script.js:97-99 | an expired entry is spliced out at the index, and the following entry is passed over |
| PoolScan.ScanEnd | src/canvas/confetti/part-1/script.js:97-99 | when the index passes the end of the array, every entry has had its fate; the array holds the kept entries in order, and the drawn ones are the updated entries |
| FrameProgress.Advance | src/canvas/confetti/part-1/script.js:97-99 | one update moves the scan on: the entry's fate follows from its lifespan, and its state is the state that fate gives |
| FrameProgress.Finish | src/canvas/confetti/part-1/script.js:97-99 | at the end of a frame, the array is the kept entries, without repetitions, and each particle is in the state its fate gives |
| ConfettiPart1.Spawn | src/canvas/confetti/part-1/script.js:27-34 | a new particle is at the event's point with lifespan 0, horizontal speed in [-5, 5), vertical speed in (-14, -3], and a colour from the palette |
| ConfettiPart1.Apply | src/canvas/confetti/part-1/script.js:48-72 | the state an update leaves a particle in, by its fate: an update that runs to the end moves it and adds one to its lifespan; one that removes the particle only moves it; a passed-over particle is unchanged; the colour is kept |
| FrameProgress.OwnFollowsCount | src/canvas/confetti/part-1/script.js:61-70 | for any particle whose completed update adds one to its lifespan, its own successive updates keep it in the pool exactly as long as the lifespan count says, with the lifespan that count gives; both versions' `Apply` are such updates |
| ConfettiPart1.SpawnedLifetime | src/canvas/confetti/part-1/script.js:27-34 | a new particle is still in the pool, with lifespan `k`, after each of its first 201 updates, and removes itself on exactly its 202nd |
| ConfettiPart1.Particle.constructor | src/canvas/confetti/part-1/script.js:27-34 | the constructed particle's fields are those of `Spawn` |
| ConfettiPart1.Particle.Update | src/canvas/confetti/part-1/script.js:48-72 | the particle always moves; it removes itself (exactly its own entry, the others keep their order) iff it is past its lifespan and in the array; otherwise it ages by one and is drawn, even if expired but absent from the array |
| ConfettiPart1.Pool.CreateNewParticles | src/canvas/confetti/part-1/script.js:75-88 | exactly 100 fresh particles at the event's point are appended; the earlier entries are untouched |
| ConfettiPart1.Pool.Visit | src/canvas/confetti/part-1/script.js:98 | updating the particle at the index changes only that particle, and splices it out iff it has expired |
| ConfettiPart1.Pool.Step | src/canvas/confetti/part-1/script.js:97-99 | one iteration of the frame loop keeps the scan invariant and applies the visited particle's fate |
| ConfettiPart1.Pool.AnimationFrame | src/canvas/confetti/part-1/script.js:92-103 | after one frame, the array is the particles whose fate keeps them, in their old order; the drawn particles are the updated ones, in order; every particle of the old array is in the state its fate gives, so each is updated at most once and the one after a removed particle is passed over |
| ConfettiPart2.Spawn | src/canvas/confetti/part-2/script.js:38-64 | a new particle has lifespan 0, vertical speed in (-21, -9], horizontal speed proportional to it, a palette colour, a rectangle or ellipse on a fair coin, rotation speed ±0.02, radiusY 5, height 10, and a whole radiusX in [0, 5] and width in [0, 10] |
| ConfettiPart2.Particle.constructor | src/canvas/confetti/part-2/script.js:38-64 | the constructed particle's fields are those of `Spawn` |
| ConfettiPart2.Resize | src/canvas/confetti/part-2/script.js:125-156 | an ellipse's horizontal radius, or a rectangle's width, takes one oscillation step with maximum 5 or 10; no other field changes but the flag |
| ConfettiPart2.Apply | src/canvas/confetti/part-2/script.js:104-163 | the state an update leaves a particle in, by its fate: moved, aged by one and resized when it runs to the end; only moved when the particle removes itself; unchanged when passed over; shape and colour are kept |
| ConfettiPart2.OwnInRange | src/canvas/confetti/part-2/script.js:133-155 | a particle's own successive updates keep both sizes in bounds |
| ConfettiPart2.SpawnedLifetime | src/canvas/confetti/part-2/script.js:38-64 | a new particle is still in the pool, with lifespan `k` and both sizes in bounds, after each of its first 201 updates, and removes itself on exactly its 202nd |
| ConfettiPart2.Particle.Move | src/canvas/confetti/part-2/script.js:105-114 | the motion step changes only the position and speed, as `Drift` says |
| ConfettiPart2.Particle.StepSize | src/canvas/confetti/part-2/script.js:125-156 | an ellipse's radiusX, or a rectangle's width, takes one oscillation step with maximum 5 or 10 |
| ConfettiPart2.Particle.Turn | src/canvas/confetti/part-2/script.js:158-161 | the end of an update that runs its course: the angle grows by the spin and the lifespan by one, and nothing else changes |
| ConfettiPart2.Particle.Update | src/canvas/confetti/part-2/script.js:104-163 | as in the first version; a particle that removes itself returns before any size, rotation or lifespan change |
| ConfettiPart2.UpdatedParticle | src/canvas/confetti/part-2/script.js:125-161 | a full update ages the particle by one and turns it by its spin; it keeps shape, spin, colour, radiusY and height; it oscillates the size field of its shape and leaves the other one alone |
| ConfettiPart2.RemovedParticle | src/canvas/confetti/part-2/script.js:116-123 | a particle that removes itself only moves; size, flag, rotation and lifespan are as before |
| ConfettiPart2.StaysInRange | src/canvas/confetti/part-2/script.js:134-155 | sizes that start in bounds stay in bounds through any run of updates |
| ConfettiPart2.Pool.CreateNewParticles | src/canvas/confetti/part-2/script.js:166-173 | exactly 100 fresh particles are appended; the earlier entries are untouched |
| ConfettiPart2.Pool.Visit | src/canvas/confetti/part-2/script.js:183 | updating the particle at the index changes only that particle, and splices it out iff it has expired |
| ConfettiPart2.Pool.Step | src/canvas/confetti/part-2/script.js:182-184 | one iteration of the frame loop keeps the scan invariant |
| ConfettiPart2.Pool.AnimationFrame | src/canvas/confetti/part-2/script.js:177-188 | one frame has the same outcome as in the first version: the kept particles remain in order, and each particle is in the state its fate gives |
| ConfettiPart3.Spawn | src/canvas/confetti/part-3/script.js:46-64 | a new particle has lifespan 0, increment 0.2, a palette colour and rotation speed ±0.02; a Circle has radiusY 5 and a whole radiusX in [0, 5], a Rectangle height 10 and a whole width in [0, 10], and a base particle neither |
| ConfettiPart3.Particle.constructor | src/canvas/confetti/part-3/script.js:117-158 | a Circle's or a Rectangle's constructor runs the base constructor and then sets its two dimensions; the fields are those of `Spawn` for its class |
| ConfettiPart3.Physics | src/canvas/confetti/part-3/script.js:73-90 | physics adds exactly one to the lifespan and the rotation speed to the angle, moves the particle, and changes nothing else |
| ConfettiPart3.Particle.UpdatePhysics | src/canvas/confetti/part-3/script.js:73-90 | the method leaves the particle in the state `Physics` gives |
| ConfettiPart3.Particle.UpdatePhysicsAsWritten | src/canvas/confetti/part-3/script.js:75 | the script's version always throws a `ReferenceError` for `GRAVITY` and changes nothing |
| ConfettiPart3.SizeStep | src/canvas/confetti/part-3/script.js:92-106 | only the named field and `shrinking` change; the named field takes one oscillation step with the particle's own increment and ends in [0, max] |
| ConfettiPart3.Particle.UpdateSize | src/canvas/confetti/part-3/script.js:92-106 | the method leaves the particle in the state `SizeStep` gives |
| ConfettiPart3.Particle.UpdateSizeAsWritten | src/canvas/confetti/part-3/script.js:93-97 | the script's version always throws a `ReferenceError` for `sizeIncrement` and changes nothing |
| ConfettiPart3.UpdateSizeTests | src/canvas/confetti/part-3/confetti.test.js:43-99 | with maximum 10: 5 grows to 5.2; 5 shrinks to 4.8; 0.1 shrinking ends at 0, growing; 9.9 growing ends at 10, shrinking; -0.1 ends at 0; 10.1 ends at 10 |
| ConfettiPart3.Particle.Draw | src/canvas/confetti/part-3/script.js:108-110 | the base class's `draw` throws its error; a subclass's completes |
| ConfettiPart3.Particle.Update | src/canvas/confetti/part-3/script.js:112-184 | the base class's `update` throws its error and changes nothing; a Circle's or a Rectangle's, with the corrected `updatePhysics` and `updateSize`, completes and leaves the particle in the state `Animate` gives |
| ConfettiPart3.Animate | src/canvas/confetti/part-3/script.js:180-184 | one subclass update runs physics, then the size step on radiusX (maximum 5) or width (maximum 10): the particle ages by one, the active size ends in bounds, and the other dimensions are unchanged |
| ConfettiPart3.NeverExpires | src/canvas/confetti/part-3/script.js:203-205 | after `n` frames a particle has aged by `n`, however large; nothing ever expires |
| ConfettiPart3.FirstBase | src/canvas/confetti/part-3/script.js:203-205 | the position of the first base-class particle, where a frame's loop throws |
| ConfettiPart3.NoBase | src/canvas/confetti/part-3/script.js:203-205 | a pool of subclass particles has no such position |
| ConfettiPart3.Config.CreateNewParticles | src/canvas/confetti/part-3/script.js:187-194 | exactly 100 fresh base-class particles are appended; the earlier entries are untouched |
| ConfettiPart3.Config.CreateNewShapes | src/canvas/confetti/part-3/script.js:187-194 | the same, with a Rectangle or a Circle on a fair coin for each particle |
| ConfettiPart3.Config.ClickShapes | src/canvas/confetti/part-3/script.js:187-194 | after a click with the subclass spawner, the particles that were there keep their states and the new ones start with lifespan 0, all of a subclass |
| ConfettiPart3.Config.Visit | src/canvas/confetti/part-3/script.js:204 | updating the particle at the index changes only that particle: a base-class one throws and stays as it was, a subclass one takes one `Animate` step |
| ConfettiPart3.Config.Step | src/canvas/confetti/part-3/script.js:203-205 | one iteration of the frame loop either updates the particle at the index and moves on, or throws exactly at the first base-class particle |
| ConfettiPart3.AfterClick | src/canvas/confetti/part-3/script.js:203-205 | a frame over subclass particles only updates each of them once: the particles from before the click take one `Animate` step and the new ones reach lifespan 1 |
| ConfettiPart3.Config.AnimationFrame | src/canvas/confetti/part-3/script.js:198-213 | the array never changes; the frame completes iff no particle is a base-class instance, and otherwise throws the base `update` error; the particles before the first base-class one are updated once and the rest are untouched |
| ConfettiPart3.Config.ClickThenFrame | src/canvas/confetti/part-3/script.js:191 | with the script's spawner, the first frame after a click always throws |
| ConfettiPart3.Config.ClickThenFrameShapes | src/canvas/confetti/part-3/script.js:191 | with the subclass spawner, a frame after a click completes; the pool has grown by exactly 100, the earlier particles each take one `Animate` step and the new ones are on lifespan 1 |

## Left out

- Drawing: every `draw` body, the canvas and offscreen canvas, the fill style and its alpha (`getFillStyle`). These are calls into the 2D-context API. In the first two versions a drawn particle is recorded (the `drawn` result of `Update` and the `drawn` list of a frame), not painted; in the third, a subclass's `draw` is modelled as completing and nothing is recorded.
- `requestAnimationFrame`: one frame is modelled. In the third version, an exception ends the frame before the next one is requested, so one throw stops the animation for good.
- Event wiring and the resize handlers.
- Floating point: positions, speeds and sizes are exact reals. Rounding in `0.2` steps and in the drift formula is not modelled.
- `Math.tan` of the firing angle and the angle's two draws are the parameter `slope`, and `Math.random() * Math.PI * 2` is the parameter `angle`. No bound on the horizontal speed is stated.
- ConfettiPart3.Particle.UpdateSize: requires the named field to exist. On a missing field the script computes `undefined ± 0.2`, which is NaN, and NaN has no counterpart in the reals. Every caller in the script names an existing field.
- ConfettiPart3.Particle.Draw: a subclass's `draw` is modelled as completing without effect.
- The unit tests other than those of `updateSize`. They expect a colour that is not in the palette and physics values that do not follow from the formula.
- The `updateSize` tests themselves call methods on undeclared names (`article` in the first, `particle` in the other four), so as written they would not reach their expectations. The model takes those expectations as the intended behaviour of `updateSize`.
- The third version reads `lifespanFrames` only in `getFillStyle`, for the fade alpha, which is left out. No expiry test uses it, so it plays no part in the model.

## Findings

| source | as written | input that shows it | evidently intended | confidence | as-written member | corrected member |
|---|---|---|---|---|---|---|
| src/canvas/confetti/part-3/script.js:94 | `updateSize` reads a bare `sizeIncrement`, which no scope declares, so every call throws a `ReferenceError` before changing anything | the unit test's particle with `size` 5, growing, maximum 10: a throw instead of 5.2 | the particle's own `sizeIncrement`, 0.2, set at line 63 | high; not executed | ConfettiPart3.Particle.UpdateSizeAsWritten | ConfettiPart3.Particle.UpdateSize |
| src/canvas/confetti/part-3/script.js:75 | `updatePhysics` reads `GRAVITY`, which this version no longer declares, so every call throws a `ReferenceError` | any Circle or Rectangle update | the configured gravity, 0.06 | high; not executed | ConfettiPart3.Particle.UpdatePhysicsAsWritten | ConfettiPart3.Particle.UpdatePhysics |
| src/canvas/confetti/part-3/script.js:191 | the spawner builds the base class, whose `update` throws | one click followed by one frame: the frame throws at the first new particle | a Circle or a Rectangle per particle, chosen on a fair coin as the second version did | medium (the coin is a guess); not executed | ConfettiPart3.Config.ClickThenFrame | ConfettiPart3.Config.ClickThenFrameShapes |
