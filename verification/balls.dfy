/** The per-ball part of one simulation tick: a ball moves by its velocity
    scaled by the simulation factor, then bounces off at most one wall of the
    window by negating one velocity component. Coordinates are `real`, so
    sums are exact where the program's `f64` sums round. */
module Balls {

  /** A point or a velocity in window coordinates (y grows downwards). */
  datatype Vector2D = Vector2D(x: real, y: real)

  /** A ball is only its velocity and the location of its centre. */
  datatype Ball = Ball(velocity: Vector2D, location: Vector2D)

  /** The hard-coded ball radius of the bounds tests; it is also the
      half-size of the square the ball is drawn in. */
  const Radius: real := 50.0

  /** The point reached from `p` after `steps` unit moves at velocity `v`. */
  function Displace(p: Vector2D, v: Vector2D, steps: nat): Vector2D
  {
    Vector2D(p.x + v.x * steps as real, p.y + v.y * steps as real)
  }

  /** The ball reaches the bottom wall (inclusive) or the top wall (strict). */
  predicate OutsideY(p: Vector2D, height: real)
  {
    p.y + Radius >= height || p.y - Radius < 0.0
  }

  /** The ball reaches the right wall (inclusive) or the left wall (strict). */
  predicate OutsideX(p: Vector2D, width: real)
  {
    p.x + Radius >= width || p.x - Radius < 0.0
  }

  /** No wall test fires at `p`. */
  predicate InsideWalls(p: Vector2D, width: real, height: real)
  {
    !OutsideY(p, height) && !OutsideX(p, width)
  }

  function Abs(r: real): real
  {
    if r < 0.0 then -r else r
  }

  function SquaredSpeed(v: Vector2D): real
  {
    v.x * v.x + v.y * v.y
  }

  /** The bounce chain of one tick: bottom, top, right, left, tested in that
      order on the ball's new location `p`; the first test that fires negates
      its component and the rest are skipped. */
  function Reflect(v: Vector2D, p: Vector2D, width: real, height: real): (r: Vector2D)
    ensures InsideWalls(p, width, height) ==> r == v
    ensures OutsideY(p, height) ==> r == Vector2D(v.x, -v.y)
    ensures !OutsideY(p, height) && OutsideX(p, width) ==> r == Vector2D(-v.x, v.y)
    ensures r.x == v.x || r.y == v.y
    ensures Abs(r.x) == Abs(v.x) && Abs(r.y) == Abs(v.y)
    ensures SquaredSpeed(r) == SquaredSpeed(v)
  {
    if p.y + Radius >= height then Vector2D(v.x, -1.0 * v.y)
    else if p.y - Radius < 0.0 then Vector2D(v.x, -1.0 * v.y)
    else if p.x + Radius >= width then Vector2D(-1.0 * v.x, v.y)
    else if p.x - Radius < 0.0 then Vector2D(-1.0 * v.x, v.y)
    else v
  }

  /** One tick for one ball in a `width` by `height` window. */
  function StepBall(b: Ball, width: real, height: real, factor: nat): (r: Ball)
    ensures r.location.x == b.location.x + b.velocity.x * factor as real
    ensures r.location.y == b.location.y + b.velocity.y * factor as real
    ensures InsideWalls(r.location, width, height) ==> r.velocity == b.velocity
    ensures OutsideY(r.location, height) ==> r.velocity == Vector2D(b.velocity.x, -b.velocity.y)
    ensures !OutsideY(r.location, height) && OutsideX(r.location, width) ==>
              r.velocity == Vector2D(-b.velocity.x, b.velocity.y)
    ensures r.velocity.x == b.velocity.x || r.velocity.y == b.velocity.y
    ensures SquaredSpeed(r.velocity) == SquaredSpeed(b.velocity)
  {
    var moved := Displace(b.location, b.velocity, factor);
    Ball(Reflect(b.velocity, moved, width, height), moved)
  }

  /** The ball after `n` successive ticks. */
  function Run(b: Ball, width: real, height: real, factor: nat, n: nat): Ball
  {
    if n == 0 then b else StepBall(Run(b, width, height, factor, n - 1), width, height, factor)
  }

  /** Where the ball would be after `k` ticks if no wall ever turned it. */
  function FreePosition(b: Ball, factor: nat, k: nat): Vector2D
  {
    Displace(b.location, b.velocity, k * factor)
  }

  /** Moving `factor` more steps from the `k`-step point reaches the
      `k + 1`-step point. */
  lemma DisplaceAdds(p: Vector2D, v: Vector2D, k: nat, factor: nat)
    ensures Displace(Displace(p, v, k * factor), v, factor) == Displace(p, v, (k + 1) * factor)
  {
    assert (k + 1) * factor == k * factor + factor;
  }

  /** While no wall test fires, a ball keeps its velocity and travels in a
      straight line: after `n` ticks it is `n * factor` velocity-steps away. */
  lemma {:induction false} FreeFlight(b: Ball, width: real, height: real, factor: nat, n: nat)
    requires forall k :: 1 <= k <= n ==> InsideWalls(FreePosition(b, factor, k), width, height)
    ensures Run(b, width, height, factor, n) == Ball(b.velocity, FreePosition(b, factor, n))
  {
    if n == 0 {
      assert FreePosition(b, factor, 0) == b.location;
    } else {
      FreeFlight(b, width, height, factor, n - 1);
      DisplaceAdds(b.location, b.velocity, n - 1, factor);
      assert InsideWalls(FreePosition(b, factor, n), width, height);
    }
  }

  /** A ball with no vertical velocity whose centre lies within `Radius` of
      the bottom wall fires the bottom test on every tick; since the chain
      stops there, the side tests are never reached and the ball never turns
      horizontally, whatever walls it passes. */
  lemma {:induction false} FlatOnFloorNeverTurns(b: Ball, width: real, height: real, factor: nat, n: nat)
    requires b.velocity.y == 0.0
    requires b.location.y + Radius >= height
    ensures Run(b, width, height, factor, n) == Ball(b.velocity, FreePosition(b, factor, n))
  {
    if n == 0 {
      assert FreePosition(b, factor, 0) == b.location;
    } else {
      FlatOnFloorNeverTurns(b, width, height, factor, n - 1);
      DisplaceAdds(b.location, b.velocity, n - 1, factor);
      assert FreePosition(b, factor, n).y == b.location.y;
    }
  }

  /** A ball sliding right along the floor of a 1200 by 600 window leaves
      it through the right wall: after 20 ticks its left edge is past x = 1200. */
  lemma SlidingBallLeavesWindow()
    ensures var r := Run(Ball(Vector2D(10.0, 0.0), Vector2D(1100.0, 560.0)), 1200.0, 600.0, 1, 20);
            r.location == Vector2D(1300.0, 560.0) && r.location.x - Radius > 1200.0
            && r.velocity == Vector2D(10.0, 0.0)
  {
    FlatOnFloorNeverTurns(Ball(Vector2D(10.0, 0.0), Vector2D(1100.0, 560.0)), 1200.0, 600.0, 1, 20);
  }

  /** The bottom test is inclusive and the top test is strict: touching the
      floor exactly reverses the vertical velocity, touching the ceiling
      exactly does not. */
  lemma EdgeContact()
    ensures StepBall(Ball(Vector2D(0.0, 10.0), Vector2D(600.0, 540.0)), 1200.0, 600.0, 1).velocity
              == Vector2D(0.0, -10.0)
    ensures StepBall(Ball(Vector2D(0.0, -10.0), Vector2D(600.0, 60.0)), 1200.0, 600.0, 1).velocity
              == Vector2D(0.0, -10.0)
  {
  }
}
