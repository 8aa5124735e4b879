# Particle lifecycle engine, in Dafny

This project models the simulation core of an interactive particle effect
(`main.js`). A `ParticleSystem` owns a list of particles. Once per frame it
emits a batch of new particles if it is below capacity. It then drops the
particles that are both off-canvas and dead, and advances the rest by one
frame under a random drift. A `World` holds the registered systems, updates
them in order and keeps a shared pointer vector. It also holds the one
controllable system, whose scatter, size and life settings the mouse wheel
adjusts, each clamped to a floor.

Modules:

- `Vectors` (`vectors.dfy`): the vector value `Point` and the mutable `Vec2`
  object. `Add` changes its receiver and returns it, and `Clone` returns a
  new object. The random-vector sampler draws from an externally supplied
  stream of samples in [0, 1). The integration step's clone-then-add on
  objects (`MoveVectors`) is proved to leave the particle's own vectors
  untouched.
- `Particles` (`particles.dfy`): the per-frame pipeline as functions on
  values. It covers emission (`Emitted`), the keep/remove filter (`Cull`,
  `Keep`), the per-particle step (`Step`), the map over the survivors
  (`Integrate`) and the whole update (`NextParticles`). It also holds the
  lemmas about them.
- `Engine` (`engine.dfy`): the classes `ParticleSystem` and `World`. It covers
  the constructor defaults, the emission loop of `ParticleSystem.Update`, the
  clamped wheel setters and their dispatch, and the object registry.
  `ParticleSystem.Update` is proved equal to `NextParticles` of the old list.

Modelling choices:

- Numbers are `real`. `maxParticles` and `creationRate` are `int`.
- `Math.random()` is a `Stream` (`nat -> Sample`). Emission of the `i`-th
  particle draws samples `2i` and `2i+1`. The drift of the `j`-th survivor
  draws the two samples after all emission samples.
- Particles are values. The update builds every advanced particle from
  clones, so particles never share vector objects after their first update.
  A freshly emitted particle's location is the system's location vector.
  For the controllable system that vector is the world's mouse vector. Its
  value is read once, at emission, and the filter and the step in the same
  update see the same value.
- The life setting is a divisor. `ParticleSystem.Valid()` states that it is
  non-zero. The constructor's `||` replaces a zero with 60, but a negative
  configured value passes through. The life setter keeps it at least 1.

Behaviour of the code worth noting:

- The shift and the alt modifier both route the wheel to scatter
  (main.js:66-73). `updateParticleSize` is never reached from the wheel
  handler (`Route`).
- The drift default is `gravityRate = -0.5` (main.js:137). A drift
  component lies between `gravityRate` and `-gravityRate`, in whichever
  order they come (`Between`).
- A new particle is aged in the update that emits it (main.js:151-174).
  With capacity 5, batch 5 and life 2, started empty, the lives after three
  updates are 1, 0 and -1 (`LifeScenario`). Life can become negative. A particle at life 0 is kept
  once more and then has life -1.
- A new particle's size is recomputed in that same update: with life 2 and
  size 24 it is 12 after its first update (`FirstUpdate`).
- A negative configured life setting passes through `||`. Its batch is then
  dead from the start, so a batch emitted more than 100 units off-canvas is
  removed in the update that emits it (`DeadBatchDropped`). `FirstUpdate`
  therefore assumes a non-negative life setting.

## Model

| member | source | states |
|---|---|---|
| `Vectors.Vec2.constructor` | main.js:4-7 | the new vector holds the given components |
| `Vectors.Vec2.Add` | main.js:9-14 | the receiver becomes the component-wise sum and the method returns the receiver itself; with `v` the receiver, both components double |
| `Vectors.Vec2.Clone` | main.js:16-18 | returns a fresh object with the same value, so later changes to either do not affect the other |
| `Vectors.Vec2.GetRandom` | main.js:21-26 | returns a fresh vector whose components are two separate scaled samples |
| `Vectors.Uniform` | main.js:23-24 | `r*(max-min)+min` lies between `min` and `max`, in whichever order the range is given |
| `Vectors.UniformBetween` | main.js:23-24 | a sample in [0,1) scaled into the range stays between its two ends, for an inverted range too |
| `Vectors.RandomPoint` | main.js:21-26 | both components of a random vector lie in the sampled range |
| `Vectors.MoveVectors` | main.js:169-171 | new speed = old speed + drift, new location = old location + NEW speed, both fresh objects; the particle's own vectors and the drift are unchanged |
| `Engine.AdvanceVectors` | main.js:167-171 | moving vector objects holding a particle's speed and location with the drift gives two distinct objects holding exactly the speed and location of `Step` |
| `Particles.Cull` | main.js:162-166 | the filter never grows the list, and keeps a particle exactly when it is visible or alive |
| `Particles.CullAppend` | main.js:162-166 | the filter preserves relative order: filtering a concatenation is concatenating the filtered parts |
| `Particles.CullKeepsAll` | main.js:162-166 | a list of kept particles passes the filter unchanged |
| `Particles.CullDropsAll` | main.js:162-166 | a list of invisible, dead particles is emptied by the filter |
| `Particles.EmittedSpeedBound` | main.js:151-160 | every speed component of an emitted batch has magnitude at most `abs(scatter)`, for a negative scatter setting too |
| `Particles.Emitted` | main.js:151-160 | the batch has exactly `n` particles, all at the origin with life `particleLife` and size `particleSize`, and each speed component lies between `-scatter` and `scatter` |
| `Particles.StepIsSuccessor` | main.js:167-173 | one step with a drift from the drift range lowers life by exactly 1, moves by the new speed, and sets a non-negative size computed only from the new life and the current size and life settings |
| `Particles.Integrate` | main.js:167-174 | the map keeps the length and order, and the `j`-th result is the `j`-th particle advanced with its own drift sample |
| `Particles.IntegrateSuccessors` | main.js:167-174 | every advanced particle is a successor of the particle at the same position |
| `Particles.NextParticlesShape` | main.js:150-175 | no emission at or above capacity, exactly `creationRate` below it; the update equals the survivors of the old list followed by the survivors of the batch, advanced in that order with the drift samples that follow the emission samples |
| `Particles.IntegrateAppend` | main.js:167-174 | advancing two lists joined end to end keeps the total length, and each particle of either part has its successor at its own position in the result |
| `Particles.SurvivorRule` | main.js:162-168 | a particle of the list is in the filter's output exactly when it is not both invisible and of life < 0; a visible or alive particle reappears in the next list with life exactly one lower |
| `Particles.BatchSurvives` | main.js:151-166 | with a non-negative life setting, the whole new batch passes its first filter |
| `Particles.PopulationBound` | main.js:151-166 | a population of at most `maxParticles + creationRate - 1` stays within that bound after an update |
| `Particles.FirstUpdate` | main.js:150-175 | an empty system below capacity holds exactly the batch after one update, each particle with life `particleLife - 1` and size `max(0, particleSize * (particleLife - 1) / particleLife)` |
| `Particles.FreshSuccessor` | main.js:167-171 | the successor of a particle at the configured life has life `particleLife - 1` and the size that life gives |
| `Particles.FirstSizeScenario` | main.js:151-171 | with life 2 and size 24, a new particle's size after its first update is 12 |
| `Particles.DeadBatchDropped` | main.js:151-166 | with a negative life setting, a batch emitted outside the visible area is gone after the update that emits it |
| `Particles.AgingUpdate` | main.js:151-168 | at capacity, a list of equally aged live particles is kept whole and every life drops by 1 |
| `Particles.FullUpdate` | main.js:151-175 | at or above capacity the update emits nothing and advances the filter's survivors only |
| `Particles.ExpiryUpdate` | main.js:162-174 | at capacity the update keeps as many particles as the filter keeps, and none when all are invisible and dead, as in the fourth update of the five-particle scenario when none is visible |
| `Particles.LifeScenario` | main.js:150-175 | capacity 5, batch 5, life 2, from empty: five particles with lives 1, 0 and -1 after the first, second and third update |
| `Engine.OrDefault` | main.js:133-138 | a configuration entry that is missing or zero yields the default; otherwise the entry; the result is zero only when the default is |
| `Engine.ParticleSystem.constructor` | main.js:128-144 | an empty system with the defaults 300, 60, 24, 3, -0.5, 1.3 for missing or zero entries and a non-zero life setting; a controllable system shares the world's mouse vector and becomes the world's controllable system |
| `Engine.ParticleSystem.AddParticle` | main.js:146-148 | the particle is appended at the end |
| `Engine.ParticleSystem.Update` | main.js:150-175 | the new particle list is `NextParticles` of the old one under the current settings, the location's current value and the canvas size (`Next`); only the particle list changes |
| `Engine.WheelAdjusted` | main.js:80-90 | the adjusted parameter is the larger of the floor and `value - delta/divisor` |
| `Engine.WheelScenario` | main.js:88-90 | wheel delta 100 lowers life 60 to 50; delta 1000 stops at the floor 1 |
| `Engine.Route` | main.js:66-77 | shift or alt select scatter, no modifier selects life, size is never selected |
| `Engine.World.UpdateParticleScatter` | main.js:80-82 | scatter becomes `max(0, scatter - delta/100)`; the other settings and the particles are unchanged |
| `Engine.World.UpdateParticleSize` | main.js:84-86 | size becomes `max(0, size - delta/100)`; the other settings and the particles are unchanged |
| `Engine.World.UpdateParticleLife` | main.js:88-90 | life becomes `max(1, life - delta/10)`, so it is at least 1 and never a zero divisor |
| `Engine.World.HandleMouseWheel` | main.js:63-78 | the setter chosen by `Route` runs; particle size is never changed |
| `Engine.SpliceStart` | main.js:96-98 | `splice`'s start index: a negative index counts from the end and stops at 0, a large index stops at the length |
| `Engine.SpliceOne` | main.js:96-98 | removes the one element at the start index if there is one, keeping the order of the rest; a non-empty list loses exactly one element iff the index is below its length |
| `Engine.SpliceUndoesPush` | main.js:92-98 | removing at the last index or at -1 undoes an append |
| `Engine.World.constructor` | main.js:35-37 | no objects, no controllable system, and the mouse vector at the canvas centre |
| `Engine.World.AddObject` | main.js:92-94 | the system is appended to the object list |
| `Engine.World.RemoveObject` | main.js:96-98 | the object list becomes `SpliceOne` of the old list at the index |
| `Engine.World.Update` | main.js:111-115 | the `i`-th registered system's particle list becomes its `Next` from before the pass, drawing from the `i`-th stream; the world stays valid |

## Left out

- Rendering: `World.draw`, `ParticleSystem.draw` and `drawParticle` (gradients, blend mode, opacity) are side effects on a foreign drawing context.
- Canvas and DOM glue: acquiring the 2D context, window sizing in the `World` constructor, `init`, `handleWindowResize` and `handleMouseMove` are host I/O. The canvas size and the mouse vector's value are simply fields.
- The frame loop: `start` and `tick` reschedule themselves forever through `requestAnimationFrame`. `World.Update` models one tick's update pass.
- `event.preventDefault()` in the wheel handler is host I/O.
- The bootstrap script at the end of `main.js` is concrete wiring.
- `Math.random` is replaced by a supplied stream of samples in [0, 1).
- IEEE floating point: NaN, infinities and rounding are not modelled. `||` is modelled for missing and zero entries only, and the `x || 0` in the `Vec2` constructor is the identity on reals.
- `maxParticles` and `creationRate` are integers. A fractional `creationRate` (the loop would run its ceiling times) is not modelled.
- `removeObject` takes an integer index. Truncation of a fractional or `undefined` index is not modelled.
- Before a controllable system exists, the world's `controllable` is an empty placeholder object. The setters then write NaN fields into it that nothing reads. Here `controllable` is null and the setters change nothing.
- The index argument that `World.update` passes to each object's `update` is ignored by `ParticleSystem.update`, and so is not modelled.
- Engine.World.Update: the postcondition describes each system's new particle list only when no system is registered twice. A system registered twice is updated twice, which the model allows but does not describe.
