/** The braking profile of `getAttraction` in script.js: the speed a particle
    wants to have, given its distance to its target. The distance is the
    magnitude of the vector to the target; computing it needs a square root
    and is not part of this model, so the distance is an input here. */
module Steering {

  /** `map(distance, 0, brakingDistance, 0, maxSpeed)` inside the braking
      radius, `maxSpeed` outside it. */
  function DesiredSpeed(distance: real, brakingDistance: real, maxSpeed: real): (r: real)
    requires 0.0 <= distance
    ensures brakingDistance <= distance ==> r == maxSpeed
    ensures distance < brakingDistance ==> r * brakingDistance == distance * maxSpeed
    ensures 0.0 <= maxSpeed ==> 0.0 <= r <= maxSpeed
  {
    if distance < brakingDistance then
      // p5's map(n, a, b, c, d) is (n - a) / (b - a) * (d - c) + c; here a = c = 0
      distance / brakingDistance * maxSpeed
    else
      maxSpeed
  }

  /** A particle on its target wants to stand still; one at the edge of the
      braking radius or beyond wants full speed, so the profile is continuous. */
  lemma DesiredSpeedEnds(brakingDistance: real, maxSpeed: real)
    requires 0.0 < brakingDistance
    ensures DesiredSpeed(0.0, brakingDistance, maxSpeed) == 0.0
    ensures DesiredSpeed(brakingDistance, brakingDistance, maxSpeed) == maxSpeed
  {
  }

  /** The farther from the target, the faster the particle wants to go. */
  lemma DesiredSpeedMonotone(d1: real, d2: real, brakingDistance: real, maxSpeed: real)
    requires 0.0 <= d1 <= d2
    requires 0.0 <= maxSpeed
    ensures DesiredSpeed(d1, brakingDistance, maxSpeed) <= DesiredSpeed(d2, brakingDistance, maxSpeed)
  {
  }
}
