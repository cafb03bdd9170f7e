# Wall-bounce step of rust-physics-simulation

A model of the physics core of the `Simulation` in `src/main.rs`: a
collection of balls, a window resolution and a whole-number simulation
factor, and the `update` step that the event loop calls on every update
event. On each update every ball, in order and in place:

1. moves by its velocity times the simulation factor;
2. runs the wall tests on its new location, in the order bottom
   (`y + 50 >= height`), top (`y - 50 < 0`), right (`x + 50 >= width`),
   left (`x - 50 < 0`), where 50 is the hard-coded ball radius;
3. negates the vertical velocity on a bottom or top hit, or the horizontal
   velocity on a right or left hit. The tests form an `else if` chain, so at
   most one component flips per ball per update.

The location is never pulled back inside the window.

`balls.dfy` (module `Balls`) holds the value types `Vector2D` and `Ball`. It
defines the one-ball step `StepBall` and the repeated step `Run`, and proves
their properties. `simulation.dfy` (module `Sim`) holds the class
`Simulation`. Its fields are the ball array, the resolution and the factor.
Its `Update` method walks the array and rewrites each ball in place. It is
proved equal, element by element, to the whole-collection step `StepAll`.

The `f64` coordinates are modelled as `real`. Real arithmetic is exact where
the `f64` sums of the move round, so a wall test taken right at its threshold
can come out differently in the program (see "## Left out"). The `u32`
simulation factor is a `nat`.

The model also proves one consequence of the `else if` chain. Take a ball
with zero vertical velocity whose centre lies within 50 of the floor. It
fires the bottom test on every update, so the side tests are never reached.
If it is also moving sideways, it slides out through a side wall
(`FlatOnFloorNeverTurns`, `SlidingBallLeavesWindow`).

## Model

| member | source | states |
|---|---|---|
| `Balls.Reflect` | src/main.rs:67-75 | The velocity is unchanged when no wall test fires. A bottom or top hit negates only y, whichever side tests also fire. Otherwise a right or left hit negates only x. At most one component changes, and component magnitudes and speed are preserved. |
| `Balls.StepBall` | src/main.rs:63-75 | The new location is the old location plus velocity times factor, never clamped. The wall tests are taken on that new location. The velocity is unchanged inside the walls. A y hit takes precedence in a corner and negates only y. Otherwise an x hit negates only x. At most one component flips, and speed is preserved. |
| `Balls.FreeFlight` | src/main.rs:63-75 | While no wall test fires along the straight-line path, `n` updates keep the velocity. They leave the ball at its start plus velocity times `n * factor`. |
| `Balls.FlatOnFloorNeverTurns` | src/main.rs:67-75 | A ball with zero vertical velocity in the bottom band keeps its velocity for every number of updates. It moves in a straight line, because the bottom test always wins over the side tests. |
| `Balls.SlidingBallLeavesWindow` | src/main.rs:67-75 | Take a ball at (1100, 560) moving at (10, 0) in a 1200 by 600 window. After 20 updates it is at (1300, 560), entirely past the right wall, and still moving right. |
| `Balls.EdgeContact` | src/main.rs:67-70 | Landing exactly on `y + 50 == height` negates the vertical velocity (inclusive test). Landing exactly on `y - 50 == 0` does not (strict test). |
| `Sim.StepAll` | src/main.rs:62-76 | One update keeps the number of balls. |
| `Sim.StepAllAt` | src/main.rs:62-76 | Ball `i` after an update is ball `i` before it, stepped alone. Order is kept, and no ball influences another. |
| `Sim.RunAll` | src/main.rs:112-119 | Repeated updates keep the number of balls. |
| `Sim.RunAllAt` | src/main.rs:112-119 | After `n` updates of the collection, ball `i` is where `n` steps of that ball alone would put it. |
| `Sim.Simulation.constructor` | src/main.rs:104-109 | A new simulation holds exactly the given balls, resolution and factor in a fresh array. |
| `Sim.Simulation.Update` | src/main.rs:55-79 | Each array element becomes `StepBall` of its old value under the current resolution and factor. The whole array equals `StepAll` of the old array. Nothing else is modified: not the array reference, the resolution or the factor. |
| `Sim.MainSceneFirstUpdate` | src/main.rs:97-118 | The starting scene is one ball at (50, 50) with velocity (1, 1), a 1200 by 600 window and factor 1. After its first update the ball is at (51, 51) with velocity (1, 1). |
| `Sim.MainSceneFirstBounce` | src/main.rs:98-101 | The starting ball travels diagonally for 499 updates to (549, 549). On the 500th update it reaches (550, 550), where the bottom test fires and its velocity becomes (1, -1). This holds for the single ball and for the collection. |

## Left out

- `Simulation::render` (src/main.rs:30-53) is OpenGL drawing and is not modelled. Its square half-size of 50 is the same constant as `Balls.Radius`.
- The `gl: GlGraphics` rendering handle (src/main.rs:23) is a foreign resource and is not a field of the model.
- `main` (src/main.rs:82-121) creates a window and runs the event loop. That I/O is not modelled. Its constants appear in `MainScene`, and its repeated calls to `update` appear in `Run` and `RunAll`.
- The `UpdateArgs` argument of `update`, including `dt`, is never read by `update` and is not modelled.
- IEEE-754 rounding, NaN and infinities are abstracted away by `real`. The move at src/main.rs:64-65 rounds in `f64`, so a sum that lands within rounding distance of a wall threshold can fire a test (src/main.rs:67-73) that the exact sum does not, or the reverse; for example y = 549.0 plus vy = 1 - 2^-53 rounds to 550.0 and fires the bottom test in a 600-high window, while the model's exact sum does not.
- The commented-out lines in `render` and `update` are not modelled.
- `update` has no gravity, no ball-to-ball collisions, no speed cap, no position clamping, no mass and no per-ball radius. Walls reverse only velocity, the tests use a fixed radius of 50, and the `else if` chain (src/main.rs:67-75) flips at most one component.
