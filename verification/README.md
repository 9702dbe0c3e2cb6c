# Shape-morphing particles: a Dafny model of the particle bookkeeping

The sketch animates a swarm of particles. Each particle steers towards its own
target point, and every few seconds the swarm re-forms into the next shape of a
cyclic list (triangle, square, circle, heart, cycloid). This project models the
bookkeeping behind that animation and proves properties about it:

- **`Particle`** (particle.js) is a class with a position, a target and a
  speed. Its constructor, `applyForce`, `update` and `clone` become the methods
  of `Particles.Particle`. Each method's contract is stated through a pure
  function on `ParticleState`: `Created`, `Pushed`, `Moved` and `Cloned`.
- **`pointsToParticles`** (script.js) is reconciliation: it makes the particle
  array exactly as long as the new shape's point list, then aims particle *i*
  at point *i*. `Sketch.Swarm.PointsToParticles` does this imperatively on a
  population of particle objects. `Reconcile.Reconciled` specifies it on
  states. The imperative code has two steps, `Resize` (the `slice`/`concat`)
  and `AimAt` (the `forEach`), and `Reconciled` mirrors them with `Resized`
  and `Retargeted`. `Template` is the `lastParticle` that the padding clones:
  a clone of the last particle, or a particle at the origin when there is none.
- **The braking profile** of `getAttraction` becomes `Steering.DesiredSpeed`,
  the speed a particle wants at a given distance from its target.
- **The shape index** of `showNextShape` becomes `ShapeCycle.NextShapeIndex`
  and `Sketch.Swarm.AdvanceShape`. Its iterate, `AdvancedBy`, shows that the
  shapes are visited cyclically.

Vectors are values (`Vectors.Vec2` over `real`). Every vector a particle holds
is created fresh (particle.js:3-5, script.js:147), and no two particles share
one. So in-place `add` on such a vector is the same as replacing the field
with a sum. The
module-level variables `particles`, `currentShapeIndex` and `shapes` become
the fields of one `Sketch.Swarm` object. Its invariant `Valid()` says three
things: there is at least one shape, the index names one of them, and no
particle object occurs twice in the population. Every particle is created by
`new` or `clone`, so the sketch keeps the third part.

`clone()` goes through the constructor with only the position and the target,
so a clone starts at rest. Particles added while the population grows are
clones of a clone of the last particle. They start where the last particle is,
with zero speed, not with its speed. The model follows the code here.

Files: `vector.dfy`, `particle.dfy`, `reconcile.dfy`, `steering.dfy`,
`shape_cycle.dfy`, `sketch.dfy`.

## Model

| member | source | states |
|---|---|---|
| Particles.Particle.constructor | particle.js:2-6 | the new particle is at (x, y), aimed at (targetX, targetY), with zero speed |
| Particles.Particle.ApplyForce | particle.js:12-14 | speed becomes old speed + force componentwise; position and target are unchanged |
| Particles.Particle.Update | particle.js:16-18 | position becomes old position + speed; speed and target are unchanged |
| Particles.Particle.Clone | particle.js:20-25 | returns a fresh particle with the same position and target and zero speed; the original is not modified (no modifies clause) |
| Particles.ClonedKeepsPlaceAndAim | particle.js:20-25 | a clone keeps position and target, has zero speed, and cloning a clone changes nothing more |
| Particles.PushedByZero | particle.js:12-14 | applying the zero force leaves the whole particle state unchanged |
| Particles.PushedTwice | particle.js:12-14 | two successive forces act as their sum |
| Particles.MovedAtRest | particle.js:16-18 | update of a particle with zero speed leaves it where it is |
| Reconcile.Copies | script.js:141 | the padding is exactly k entries, each equal to the template |
| Reconcile.Reconciled | script.js:133-149 | the result has one particle per point; particle i is aimed at point i; survivors keep position and speed; added particles have zero speed and sit at the last old particle's position, or at the origin when the population was empty |
| Reconcile.ReconciledShrinks | script.js:135-136 | with fewer points than particles, the result is exactly the first \|points\| old particles in order, retargeted; the trailing ones are dropped |
| Reconcile.ReconciledGrows | script.js:137-142 | with more points than particles, the old particles stay at the front in order, retargeted, and every appended particle is the clone of the template aimed at its point |
| Reconcile.ReconciledIdempotent | script.js:133-149 | reconciling twice with the same points is the same as reconciling once |
| Reconcile.ReconciledThroughLarger | script.js:133-149 | reconciling through a point list at least as long as the final one gives the same population as reconciling directly with the final list |
| Reconcile.ReconciledOneToThree | script.js:133-149 | one particle at the origin reconciled with (10,0), (0,10), (-10,0) gives three particles at the origin at rest, aimed at those points in order |
| Steering.DesiredSpeed | script.js:180-182 | the result is maxSpeed when distance >= brakingDistance; below that it is proportional to distance (r * brakingDistance == distance * maxSpeed); it lies in [0, maxSpeed] when maxSpeed >= 0 |
| Steering.DesiredSpeedEnds | script.js:180-182 | the desired speed is 0 at distance 0 and maxSpeed at the braking distance, so the profile is continuous |
| Steering.DesiredSpeedMonotone | script.js:180-182 | the desired speed is non-decreasing in distance |
| ShapeCycle.NextShapeIndex | script.js:154-155 | the next index is below the shape count; from a valid index it is index + 1, or 0 after the last shape |
| ShapeCycle.AdvancedByWithinCycle | script.js:151-158 | within one cycle, repeated advances count up from a valid index and wrap once to 0 |
| ShapeCycle.AdvancedByCompose | script.js:151-158 | advancing a + b times is advancing a times, then b times |
| ShapeCycle.AdvancedByPeriodic | script.js:151-158 | after shapeCount advances the same shape is current again, and the sequence of indices repeats with that period |
| ShapeCycle.AdvancedByVisitsAll | script.js:151-158 | from any valid index, every shape index is reached in fewer than shapeCount advances |
| Sketch.CloneMany | script.js:141 | returns count fresh, pairwise distinct particles whose states are all the clone of the template |
| Sketch.Swarm.constructor | script.js:2-5 | the initial population is empty and the first shape is current |
| Sketch.Swarm.PointsToParticles | script.js:133-149 | the new population's states are Reconciled(old states, points); survivors are the same objects at the same indices; appended particles are fresh; dropped particles are not modified |
| Sketch.Swarm.Resize | script.js:134-143 | the population has n particles, and their states are the truncation of the old ones or the old ones padded with clones of the template (`Reconcile.Template`: a clone of the last particle, or a particle at the origin aimed at the origin when there is none, the `lastParticle` of script.js:138-140); survivors are the same objects and added ones are fresh |
| Sketch.Swarm.AimAt | script.js:145-148 | particle i's target becomes point i; positions and speeds are unchanged |
| Sketch.Swarm.AdvanceShape | script.js:154-155 | currentShapeIndex becomes NextShapeIndex of the old index, so it stays within [0, shapes.length) |
| Sketch.Swarm.ShowNextShape | script.js:151-158 | one round reconciles the population with the current shape, then advances the index; survivors are the same objects, added particles are fresh and dropped ones are not modified |
| Sketch.Swarm.ShowShapes | script.js:151-158 | after r rounds the index is the old index advanced r times, and the population is as long as the shape shown last, with particle i aimed at that shape's point i |

## Left out

- Floating point: coordinates and speeds are `real`, so rounding in `add` and in the braking ratio is not modelled.
- Vector magnitude, `setMag`, `limit` and `p5.Vector.sub` in `getAttraction` and `limitSpeed` (script.js:178-198) are not modelled. The first three take a square root in the p5 vector library, which is not part of this model. `p5.Vector.sub` only subtracts componentwise, but it only feeds those three, so it is left out with them. The steering force, the force bound and the speed clamp are therefore not modelled. The distance that `DesiredSpeed` takes is an input here.
- The per-frame `update` loop (script.js:221-228) is built from those vector operations and is left out with them. Its last step, `Particle.update`, is modelled.
- Steering.DesiredSpeed: the bound 0 <= r <= maxSpeed is stated only for maxSpeed >= 0. The control panel keeps maxSpeed in [5, 50] and is not part of this model.
- The shape generators and `rotatePoint` (script.js:37-131) are left out. They compute point lists with trigonometry in floating-point loops. `shapes` is a parameter of the `Swarm` constructor, and any non-empty list of point lists is allowed.
- The timing of `showNextShape` (`delay`, `setTimeout`, script.js:33-35, 153) is left out. The endless self-rescheduling becomes `ShowShapes`, which runs a given number of rounds. `ShowShapes` runs its rounds back to back. In the sketch, `draw()` calls `update()` on every frame while a shape is shown (script.js:153, 218, 221-228), and those frames move particles and change their speeds. So the equation `States() == Reconciled(old(States()), ...)` of `ShowNextShape` holds only without those frames. The length and target facts of `ShowShapes` do carry over to the sketch, because the frames never change targets or the population.
- Rendering and the page are left out: `draw`, `Particle.draw`, `clearCanvas`, `drawParticles`, `drawPoints`, `updateScreenSize`, `setup`. So is the `dat.GUI` panel (`generateGUISettings`, `settings`). These are canvas and DOM input/output.
