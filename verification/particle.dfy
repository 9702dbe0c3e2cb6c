/** The `Particle` class of particle.js: a position, a target and a speed,
    each a vector the particle owns. */
module Particles {
  import opened Vectors

  /** The observable state of one particle. */
  datatype ParticleState = ParticleState(position: Vec2, target: Vec2, speed: Vec2)

  /** State of `new Particle(x, y, targetX, targetY)`: at rest. */
  function Created(x: real, y: real, targetX: real, targetY: real): ParticleState
  {
    ParticleState(Vec2(x, y), Vec2(targetX, targetY), Zero)
  }

  /** State after `applyForce(f)`. */
  function Pushed(s: ParticleState, f: Vec2): ParticleState
  {
    s.(speed := Add(s.speed, f))
  }

  /** State after `update()`: one explicit Euler step of unit length. */
  function Moved(s: ParticleState): ParticleState
  {
    s.(position := Add(s.position, s.speed))
  }

  /** State of `clone()`: built through the constructor from the position and
      the target only, so the copy starts at rest. */
  function Cloned(s: ParticleState): ParticleState
  {
    Created(s.position.x, s.position.y, s.target.x, s.target.y)
  }

  /** A clone sits where the original sits, aims where it aims and has zero speed. */
  lemma ClonedKeepsPlaceAndAim(s: ParticleState)
    ensures Cloned(s).position == s.position && Cloned(s).target == s.target
    ensures Cloned(s).speed == Zero
    ensures Cloned(Cloned(s)) == Cloned(s)
  {
  }

  /** A zero force changes nothing. */
  lemma PushedByZero(s: ParticleState)
    ensures Pushed(s, Zero) == s
  {
  }

  /** Two forces in a row act as their sum. */
  lemma PushedTwice(s: ParticleState, f: Vec2, g: Vec2)
    ensures Pushed(Pushed(s, f), g) == Pushed(s, Add(f, g))
  {
  }

  /** A particle at rest stays where it is on `update()`. */
  lemma MovedAtRest(s: ParticleState)
    requires s.speed == Zero
    ensures Moved(s) == s
  {
  }

  class Particle {
    var position: Vec2
    var target: Vec2
    var speed: Vec2

    function State(): ParticleState
      reads this
    {
      ParticleState(position, target, speed)
    }

    constructor (x: real, y: real, targetX: real, targetY: real)
      ensures position == Vec2(x, y) && target == Vec2(targetX, targetY)
      ensures speed == Zero
      ensures State() == Created(x, y, targetX, targetY)
    {
      position := Vec2(x, y);
      target := Vec2(targetX, targetY);
      speed := Vec2(0.0, 0.0);
    }

    method ApplyForce(force: Vec2)
      modifies this
      ensures speed == Add(old(speed), force)
      ensures position == old(position) && target == old(target)
      ensures State() == Pushed(old(State()), force)
    {
      speed := Add(speed, force);
    }

    method Update()
      modifies this
      ensures position == Add(old(position), old(speed))
      ensures speed == old(speed) && target == old(target)
      ensures State() == Moved(old(State()))
    {
      position := Add(position, speed);
    }

    method Clone() returns (p: Particle)
      ensures fresh(p)
      ensures p.position == position && p.target == target && p.speed == Zero
      ensures p.State() == Cloned(State())
    {
      p := new Particle(position.x, position.y, target.x, target.y);
    }
  }
}
