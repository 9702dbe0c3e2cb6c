/** The module-level state of script.js that the particle bookkeeping works
    on: the particle array, the list of shapes and the current shape index,
    gathered in one object. */
module Sketch {
  import opened Vectors
  import opened Particles
  import opened Reconcile
  import opened ShapeCycle

  /** The states of a sequence of particles, in order. */
  ghost function StatesOf(ps: seq<Particle>): seq<ParticleState>
    reads set p | p in ps
  {
    seq(|ps|, i requires 0 <= i < |ps| reads set p | p in ps => ps[i].State())
  }

  /** `count` fresh, distinct clones of `template`, as built by
      `new Array(count).fill().map(() => template.clone())`. */
  method CloneMany(template: Particle, count: nat) returns (clones: seq<Particle>)
    ensures |clones| == count
    ensures forall k :: 0 <= k < count ==> fresh(clones[k])
    ensures forall k, l :: 0 <= k < l < count ==> clones[k] != clones[l]
    ensures StatesOf(clones) == Copies(Cloned(template.State()), count)
  {
    clones := [];
    while |clones| < count
      invariant |clones| <= count
      invariant forall k :: 0 <= k < |clones| ==> fresh(clones[k])
      invariant forall k, l :: 0 <= k < l < |clones| ==> clones[k] != clones[l]
      invariant StatesOf(clones) == Copies(Cloned(template.State()), |clones|)
    {
      var c := template.Clone();
      clones := clones + [c];
    }
  }

  class Swarm {
    var particles: seq<Particle>
    var currentShapeIndex: nat
    const shapes: seq<seq<Vec2>>

    /** There is at least one shape, the index names one of them, and no
        particle object occurs twice in the population. */
    ghost predicate Valid()
      reads this
    {
      0 < |shapes| && currentShapeIndex < |shapes| &&
      forall i, j :: 0 <= i < j < |particles| ==> particles[i] != particles[j]
    }

    ghost function States(): seq<ParticleState>
      reads this, set p | p in particles
    {
      StatesOf(particles)
    }

    /** The state right after the shapes are generated: no particles yet,
        the first shape current. */
    constructor (shapes: seq<seq<Vec2>>)
      requires 0 < |shapes|
      ensures Valid()
      ensures this.shapes == shapes && particles == [] && currentShapeIndex == 0
    {
      this.shapes := shapes;
      particles := [];
      currentShapeIndex := 0;
    }

    /** `pointsToParticles(points)`: resize the population to one particle
        per point and aim particle i at point i. Surviving particles are the
        same objects as before; added ones are new; dropped ones are left
        untouched. */
    method PointsToParticles(points: seq<Vec2>)
      requires Valid()
      modifies this`particles, set p | p in particles
      ensures Valid() && currentShapeIndex == old(currentShapeIndex)
      ensures States() == Reconciled(old(States()), points)
      ensures forall i :: 0 <= i < |particles| && i < |old(particles)| ==>
                particles[i] == old(particles)[i]
      ensures forall i :: |old(particles)| <= i < |particles| ==> fresh(particles[i])
      ensures forall i :: |particles| <= i < |old(particles)| ==>
                unchanged(old(particles)[i])
      ensures forall p :: p in particles ==> p in old(particles) || fresh(p)
    {
      Resize(|points|);
      AimAt(points);
    }

    /** The `slice` / `concat` step of `pointsToParticles`: truncate the
        population to `n` particles, or pad it with clones of a clone of the
        last particle (of a particle at the origin when there is none).
        No particle object is modified. */
    method Resize(n: nat)
      requires Valid()
      modifies this`particles
      ensures Valid() && |particles| == n
      ensures States() == Resized(old(States()), n)
      ensures forall i :: 0 <= i < n && i < |old(particles)| ==>
                particles[i] == old(particles)[i]
      ensures forall i :: |old(particles)| <= i < n ==> fresh(particles[i])
    {
      ghost var before := States();
      var lengthDifference := n - |particles|;
      if lengthDifference < 0 {
        particles := particles[..n];
        assert States() == before[..n];
      } else if lengthDifference > 0 {
        var lastParticle: Particle;
        if |particles| > 0 {
          lastParticle := particles[|particles| - 1].Clone();
        } else {
          lastParticle := new Particle(0.0, 0.0, 0.0, 0.0);
        }
        assert lastParticle.State() == Template(before);
        var newParticles := CloneMany(lastParticle, lengthDifference);
        particles := particles + newParticles;
        assert States() == before + Copies(Cloned(Template(before)), lengthDifference);
      }
    }

    /** The `forEach` step of `pointsToParticles`: particle i gets a fresh
        copy of point i as its target, and nothing else changes. */
    method AimAt(points: seq<Vec2>)
      requires Valid() && |particles| == |points|
      modifies set p | p in particles
      ensures Valid()
      ensures States() == Retargeted(old(States()), points)
    {
      ghost var before := States();
      var i := 0;
      while i < |particles|
        invariant i <= |particles|
        invariant forall k :: 0 <= k < i ==>
                    particles[k].State() == before[k].(target := points[k])
        invariant forall k :: i <= k < |particles| ==> particles[k].State() == before[k]
      {
        var target := points[i];
        particles[i].target := Vec2(target.x, target.y);
        i := i + 1;
      }
      assert States() == Retargeted(before, points);
    }

    /** The index update of `showNextShape`. */
    method AdvanceShape()
      requires Valid()
      modifies this`currentShapeIndex
      ensures Valid()
      ensures currentShapeIndex == NextShapeIndex(old(currentShapeIndex), |shapes|)
    {
      currentShapeIndex := currentShapeIndex + 1;
      currentShapeIndex := currentShapeIndex % |shapes|;
    }

    /** One round of `showNextShape`: show the current shape, then (once its
        duration has passed) move on to the next one. */
    method ShowNextShape()
      requires Valid()
      modifies this, set p | p in particles
      ensures Valid()
      ensures States() == Reconciled(old(States()), shapes[old(currentShapeIndex)])
      ensures currentShapeIndex == NextShapeIndex(old(currentShapeIndex), |shapes|)
      ensures forall p :: p in particles ==> p in old(particles) || fresh(p)
      ensures forall i :: 0 <= i < |particles| && i < |old(particles)| ==>
                particles[i] == old(particles)[i]
      ensures forall i :: |old(particles)| <= i < |particles| ==> fresh(particles[i])
      ensures forall i :: |particles| <= i < |old(particles)| ==>
                unchanged(old(particles)[i])
    {
      PointsToParticles(shapes[currentShapeIndex]);
      AdvanceShape();
    }

    /** `rounds` rounds of `showNextShape`: the shapes are shown in cyclic
        order, and the population always matches the shape shown last, one
        particle per point with particle i aimed at point i. */
    method ShowShapes(rounds: nat)
      requires Valid()
      modifies this, set p | p in particles
      ensures Valid()
      ensures currentShapeIndex == AdvancedBy(old(currentShapeIndex), rounds, |shapes|)
      ensures 0 < rounds ==>
                |particles| == |shapes[AdvancedBy(old(currentShapeIndex), rounds - 1, |shapes|)]|
      ensures 0 < rounds ==> forall i :: 0 <= i < |particles| ==>
                particles[i].target == shapes[AdvancedBy(old(currentShapeIndex), rounds - 1, |shapes|)][i]
    {
      var round := 0;
      while round < rounds
        invariant round <= rounds
        invariant Valid()
        invariant currentShapeIndex == AdvancedBy(old(currentShapeIndex), round, |shapes|)
        invariant 0 < round ==>
                    |particles| == |shapes[AdvancedBy(old(currentShapeIndex), round - 1, |shapes|)]|
        invariant 0 < round ==> forall i :: 0 <= i < |particles| ==>
                    particles[i].target == shapes[AdvancedBy(old(currentShapeIndex), round - 1, |shapes|)][i]
        invariant forall p :: p in particles ==> p in old(particles) || fresh(p)
      {
        ShowNextShape();
        round := round + 1;
      }
    }
  }
}
