/** What `pointsToParticles` in script.js does to the particle population,
    stated on particle states: resize the population to the number of points
    (truncate, or pad with clones), then aim particle i at point i. */
module Reconcile {
  import opened Vectors
  import opened Particles

  /** `k` copies of one particle state, in order. */
  function Copies(p: ParticleState, k: nat): (r: seq<ParticleState>)
    ensures |r| == k
    ensures forall i :: 0 <= i < k ==> r[i] == p
  {
    if k == 0 then [] else Copies(p, k - 1) + [p]
  }

  /** The `lastParticle` of the growth branch: a clone of the last particle,
      or a particle at the origin aimed at the origin when there is none. */
  function Template(s: seq<ParticleState>): ParticleState
  {
    if |s| > 0 then Cloned(s[|s| - 1]) else Created(0.0, 0.0, 0.0, 0.0)
  }

  /** The population after the `slice` / `concat` step: the first `n`
      particles when there are too many, otherwise the old particles followed
      by clones of the template. */
  function Resized(s: seq<ParticleState>, n: nat): seq<ParticleState>
  {
    if n < |s| then s[..n]
    else if n > |s| then s + Copies(Cloned(Template(s)), n - |s|)
    else s
  }

  /** The `forEach` step: particle i gets point i as its target. */
  function Retargeted(s: seq<ParticleState>, points: seq<Vec2>): seq<ParticleState>
    requires |s| == |points|
  {
    seq(|s|, i requires 0 <= i < |s| => s[i].(target := points[i]))
  }

  /** The population after `pointsToParticles(points)`. One particle per
      point, each aimed at its point; the particles that survive keep their
      position and speed; the added ones start, at rest, where the last old
      particle is, or at the origin when the population was empty. */
  function Reconciled(s: seq<ParticleState>, points: seq<Vec2>): (r: seq<ParticleState>)
    ensures |r| == |points|
    ensures forall i :: 0 <= i < |r| ==> r[i].target == points[i]
    ensures forall i :: 0 <= i < |r| && i < |s| ==>
              r[i].position == s[i].position && r[i].speed == s[i].speed
    ensures forall i :: |s| <= i < |r| ==>
              r[i].speed == Zero &&
              r[i].position == (if |s| > 0 then s[|s| - 1].position else Zero)
  {
    Retargeted(Resized(s, |points|), points)
  }

  /** Shrinking keeps exactly the first |points| particles, in order, and
      drops the rest; only their targets change. */
  lemma ReconciledShrinks(s: seq<ParticleState>, points: seq<Vec2>)
    requires |points| <= |s|
    ensures Reconciled(s, points) == Retargeted(s[..|points|], points)
  {
  }

  /** Growing keeps every old particle at the front, in order, with only its
      target changed, and appends |points| - |s| particles that are all the
      same state apart from their targets. */
  lemma ReconciledGrows(s: seq<ParticleState>, points: seq<Vec2>)
    requires |s| <= |points|
    ensures Reconciled(s, points)[..|s|] == Retargeted(s, points[..|s|])
    ensures forall i :: |s| <= i < |points| ==>
              Reconciled(s, points)[i] == Cloned(Template(s)).(target := points[i])
  {
  }

  /** Showing the same point list twice in a row changes nothing the second time. */
  lemma ReconciledIdempotent(s: seq<ParticleState>, points: seq<Vec2>)
    ensures Reconciled(Reconciled(s, points), points) == Reconciled(s, points)
  {
  }

  /** Passing through a shape with at least as many points leaves no trace:
      only the final point list matters. */
  lemma ReconciledThroughLarger(s: seq<ParticleState>, p: seq<Vec2>, q: seq<Vec2>)
    requires |q| <= |p|
    ensures Reconciled(Reconciled(s, p), q) == Reconciled(s, q)
  {
  }

  /** One particle at rest at the origin, reconciled with three points. */
  lemma ReconciledOneToThree()
    ensures var s := [Created(0.0, 0.0, 0.0, 0.0)];
            var pts := [Vec2(10.0, 0.0), Vec2(0.0, 10.0), Vec2(-10.0, 0.0)];
            Reconciled(s, pts) ==
              [Created(0.0, 0.0, 10.0, 0.0), Created(0.0, 0.0, 0.0, 10.0), Created(0.0, 0.0, -10.0, 0.0)]
  {
  }
}
