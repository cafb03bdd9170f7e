/** The simulation state and its per-tick update over the whole ball
    collection, walked front to back and updated in place. */
module Sim {
  import opened Balls

  /** One tick over a whole collection, ball by ball in order. */
  function StepAll(s: seq<Ball>, width: real, height: real, factor: nat): (r: seq<Ball>)
    ensures |r| == |s|
  {
    if s == [] then [] else [StepBall(s[0], width, height, factor)] + StepAll(s[1..], width, height, factor)
  }

  /** Ball `i` after a tick is ball `i` before it, stepped on its own: no ball
      moves, disappears or is influenced by another. */
  lemma {:induction false} StepAllAt(s: seq<Ball>, width: real, height: real, factor: nat, i: nat)
    requires i < |s|
    ensures StepAll(s, width, height, factor)[i] == StepBall(s[i], width, height, factor)
  {
    if i > 0 {
      StepAllAt(s[1..], width, height, factor, i - 1);
    }
  }

  /** The collection after `n` successive ticks. */
  function RunAll(s: seq<Ball>, width: real, height: real, factor: nat, n: nat): (r: seq<Ball>)
    ensures |r| == |s|
  {
    if n == 0 then s else StepAll(RunAll(s, width, height, factor, n - 1), width, height, factor)
  }

  /** After `n` ticks of the whole collection, every ball is where `n` ticks
      of that ball alone would put it. */
  lemma {:induction false} RunAllAt(s: seq<Ball>, width: real, height: real, factor: nat, n: nat, i: nat)
    requires i < |s|
    ensures RunAll(s, width, height, factor, n)[i] == Run(s[i], width, height, factor, n)
  {
    if n > 0 {
      RunAllAt(s, width, height, factor, n - 1, i);
      StepAllAt(RunAll(s, width, height, factor, n - 1), width, height, factor, i);
    }
  }

  /** The physics state of the simulation: the balls, the window size
      (width, height) and the number of velocity steps per tick. The
      rendering handle is not part of it. */
  class Simulation {
    var balls: array<Ball>
    var resolution: (real, real)
    var simulationFactor: nat

    constructor (initial: seq<Ball>, width: real, height: real, factor: nat)
      ensures fresh(balls) && balls[..] == initial
      ensures resolution == (width, height) && simulationFactor == factor
    {
      balls := new Ball[|initial|](i requires 0 <= i < |initial| => initial[i]);
      resolution := (width, height);
      simulationFactor := factor;
    }

    /** One tick: each ball first moves, then the first wall test that fires
        on its new location negates one velocity component. Only the balls'
        contents change; the array, the window size and the factor stay. */
    method Update()
      modifies balls
      ensures forall i :: 0 <= i < balls.Length ==>
                balls[i] == StepBall(old(balls[i]), resolution.0, resolution.1, simulationFactor)
      ensures balls[..] == StepAll(old(balls[..]), resolution.0, resolution.1, simulationFactor)
    {
      var width, height := resolution.0, resolution.1;
      for i := 0 to balls.Length
        invariant forall k :: 0 <= k < i ==> balls[k] == StepBall(old(balls[k]), width, height, simulationFactor)
        invariant forall k :: i <= k < balls.Length ==> balls[k] == old(balls[k])
      {
        var ball := balls[i];
        ghost var start := ball;
        ball := ball.(location := Vector2D(
          ball.location.x + ball.velocity.x * simulationFactor as real,
          ball.location.y + ball.velocity.y * simulationFactor as real));
        if ball.location.y + Radius >= height {
          ball := ball.(velocity := Vector2D(ball.velocity.x, -1.0 * ball.velocity.y));
        } else if ball.location.y - Radius < 0.0 {
          ball := ball.(velocity := Vector2D(ball.velocity.x, -1.0 * ball.velocity.y));
        } else if ball.location.x + Radius >= width {
          ball := ball.(velocity := Vector2D(-1.0 * ball.velocity.x, ball.velocity.y));
        } else if ball.location.x - Radius < 0.0 {
          ball := ball.(velocity := Vector2D(-1.0 * ball.velocity.x, ball.velocity.y));
        }
        assert ball == StepBall(start, width, height, simulationFactor);
        balls[i] := ball;
      }
      ghost var before := old(balls[..]);
      forall k | 0 <= k < balls.Length
        ensures balls[..][k] == StepAll(before, width, height, simulationFactor)[k]
      {
        StepAllAt(before, width, height, simulationFactor, k);
      }
    }
  }

  /** The starting scene: one ball at (50, 50) moving at (1, 1) in a
      1200 by 600 window, one velocity step per tick. */
  function MainScene(): Ball
  {
    Ball(Vector2D(1.0, 1.0), Vector2D(50.0, 50.0))
  }

  /** The starting scene after its first update: the ball has moved to
      (51, 51) and kept its velocity. */
  method MainSceneFirstUpdate() returns (sim: Simulation)
    ensures sim.resolution == (1200.0, 600.0) && sim.simulationFactor == 1
    ensures sim.balls[..] == [Ball(Vector2D(1.0, 1.0), Vector2D(51.0, 51.0))]
  {
    sim := new Simulation([MainScene()], 1200.0, 600.0, 1);
    sim.Update();
    assert sim.balls[..] == StepAll([MainScene()], 1200.0, 600.0, 1);
  }

  /** The starting ball travels diagonally untouched for 499 ticks and on the
      500th reaches the bottom band (y + 50 >= 600), where its vertical
      velocity reverses; the right wall is still far away. The same holds of
      the one-ball collection the simulation holds. */
  lemma MainSceneFirstBounce()
    ensures Run(MainScene(), 1200.0, 600.0, 1, 499) == Ball(Vector2D(1.0, 1.0), Vector2D(549.0, 549.0))
    ensures Run(MainScene(), 1200.0, 600.0, 1, 500) == Ball(Vector2D(1.0, -1.0), Vector2D(550.0, 550.0))
    ensures RunAll([MainScene()], 1200.0, 600.0, 1, 500) == [Ball(Vector2D(1.0, -1.0), Vector2D(550.0, 550.0))]
  {
    var b := MainScene();
    forall k | 1 <= k <= 499
      ensures InsideWalls(FreePosition(b, 1, k), 1200.0, 600.0)
    {
      assert FreePosition(b, 1, k) == Vector2D(50.0 + k as real, 50.0 + k as real);
    }
    FreeFlight(b, 1200.0, 600.0, 1, 499);
    RunAllAt([b], 1200.0, 600.0, 1, 500, 0);
  }
}
