# Mass–spring toy: a Dafny model of the physics step

`main.js` animates a small 2D mass–spring system on a canvas:
- a fixed ball hangs at the top and a free ball is joined to it by one spring;
- every animation frame first runs each spring's Hooke's-law force;
- then, for each ball, the frame adds gravity and takes a semi-implicit Euler step;
- the run stops once the elapsed time exceeds a budget.

A small helper, `zeroPadding`, builds the names of exported frames.

The model has five modules:

- `Padding` (`padding.dfy`) is `zeroPadding` as a function on strings. The number's decimal text and JavaScript's `slice` with a negative start are written out.
- `Geometry` (`geometry.dfy`) holds two-component vectors and `getDistance`. `Math.sqrt` enters as a parameter `sqrt` that is only known to return the non-negative square root of a non-negative argument (`IsSqrt`). Symmetry, `d(p, p) == 0` and `d(p, q) == 0 <==> p == q` are proved from that, not assumed.
- `Mechanics` (`mechanics.dfy`) is the physics of one frame as functions on values. A ball is a `Body`; a spring is a `Link` that names its two balls by index. The module covers Ball's gravity and update, Spring's force, the spring pass, the ball pass and a whole frame (`StepScene`), with the lemmas about them.
- `Entities` (`entities.dfy`) holds the classes `Ball` and `Spring`. Their fields are arrays updated in place, as in the source. Each method is proved to compute the `Mechanics` function that describes it.
- `Driver` (`driver.dfy`) holds the module-level state (`balls`, `springs`, `start`) as the class `Simulation`:
  - `Init` is `init`;
  - `Loop` is the update part of `loop(timestamp)`, proved to move the balls exactly as `StepScene` says.

Numbers are mathematical reals. Every property proved here holds exactly over the reals, independent of floating-point rounding.

## Model

| member | source | states |
|---|---|---|
| Padding.NatText | main.js:15 | The decimal text of a natural number is non-empty, all digits, and has no leading zero unless the number is 0 |
| Padding.DecimalText | main.js:15 | The text of an integer starts with `-` exactly when it is negative, and is the plain digit text otherwise |
| Padding.NatTextValue | main.js:15 | Reading the decimal text back gives the number, and the number is below 10 to the power of the text length |
| Padding.SliceFrom | main.js:15 | `slice(start)` returns a suffix: the last `-start` characters (at most all) for a negative start, everything from `start` on otherwise |
| Padding.ZeroPadding | main.js:14-16 | The result is a suffix of the ten zeros followed by the number's text. Its length is `min(length, 10 + |text|)` for a positive `length`; it is the whole padded text for `length == 0`; a negative `length` drops that many characters from the front |
| Padding.ZeroPaddingValue | main.js:14-16 | For a natural number and a positive length, the result is all digits and denotes `num mod 10^length` |
| Padding.ZeroPaddingKeepsNumber | main.js:14-16 | With room for every digit (at most ten zeros added), the result has exactly `length` characters and still denotes `num`. The one call site (main.js:169, through main.js:19) passes a timestamp difference, which is generally fractional and so lies outside this integer domain |
| Geometry.SumOfSquares | main.js:27-30 | The sum `getDistance` accumulates before the root is never negative |
| Geometry.Distance | main.js:26-33 | The distance is non-negative and its square is the sum of squared axis differences |
| Geometry.SumOfSquaresZero | main.js:27-30 | The sum is zero exactly when the points agree on every summed axis |
| Geometry.DistanceSymmetric | main.js:26-33 | `getDistance(p, q) == getDistance(q, p)` |
| Geometry.DistanceToSelf | main.js:26-33 | `getDistance(p, p) == 0` |
| Geometry.DistanceZeroIff | main.js:26-33 | The distance is zero exactly when the two points coincide, the one case in which Spring's `calcForce` divides by zero |
| Mechanics.Mass | main.js:54 | `(4/3) * size^3 * density` is positive whenever size and density are |
| Mechanics.AddGravity | main.js:57-59 | Ball's `calcForce`: position, velocity, mass and fixedness are kept, and the net force grows by exactly the weight `GRAVITY * mass` |
| Mechanics.Integrate | main.js:60-68 | Ball's `update`: the force accumulator ends at zero and mass and fixedness are kept, whether or not the ball is fixed |
| Mechanics.StepBall | main.js:166-167 | One ball's turn in a frame (`calcForce`, then `update`): the accumulator ends at zero, and a fixed ball keeps its position and velocity in spite of its weight |
| Mechanics.SpringForce | main.js:92-94 | The force vector `calcForce` computes lies on the line through the two balls (its cross product with `p1 - p2` is zero) |
| Mechanics.LinkForce | main.js:90-94 | A spring's force in the scene is the zero vector when its current distance equals its rest length |
| Mechanics.BallPass | main.js:164-168 | The ball pass keeps the number of balls, and empties every accumulator while keeping each ball's mass and fixedness |
| Mechanics.StepScene | main.js:159-168 | A running frame keeps the number of balls and leaves every force accumulator at zero |
| Mechanics.GravityIsVertical | main.js:57-59 | Ball's `calcForce` adds `GRAVITY * mass` to `force[1]`; `force[0]`, position, velocity, mass and fixedness are untouched |
| Mechanics.FixedBallStays | main.js:60-68 | A fixed ball keeps its position and velocity, and its force is cleared |
| Mechanics.FreeBallSteps | main.js:61-67 | A free ball moves by the velocity from before the step, then its velocity grows by `force / mass * DELTA_T`, and its force is cleared |
| Mechanics.SpringForceAtRest | main.js:90-94 | At rest length (`distance == length`) the spring force is the zero vector |
| Mechanics.SpringPullsAlongLine | main.js:90-96 | The dot product of the first ball's share of the force with the displacement `p2 - p1` is `(distance - length) * k * distance`, so its component along the unit vector is `(distance - length) * k`: a stretched spring pulls the balls together, a compressed one pushes them apart |
| Mechanics.SpringForceMagnitude | main.js:90-94 | The squared magnitude of the spring force is `((distance - length) * k)^2`, which is Hooke's law |
| Mechanics.LinkDistance | main.js:90 | The distance of a spring whose balls do not coincide is positive |
| Mechanics.LinkForceKinematic | main.js:90-94 | The spring's distance and force depend only on the balls' positions |
| Mechanics.ApplyLink | main.js:87-98 | A spring's `calcForce` changes no position, velocity, mass or fixedness |
| Mechanics.ApplyLinkEqualAndOpposite | main.js:95-96 | The first ball's force loses exactly the vector the second ball's force gains; every other ball's force is unchanged |
| Mechanics.ApplyLinkAtRest | main.js:90-96 | A spring at its rest length leaves every accumulator as it was |
| Mechanics.ApplyLinkKeepsTotal | main.js:95-96 | One spring leaves the sum of all force accumulators unchanged, component by component |
| Mechanics.SpringPass | main.js:159-163 | The spring pass changes no position, velocity, mass or fixedness |
| Mechanics.SpringPassStep | main.js:159-163 | Running the springs in order: the pass over `j + 1` springs is spring `j` applied after the pass over the first `j`, and each spring's balls still do not coincide when its turn comes |
| Mechanics.SpringPassKeepsTotal | main.js:159-163 | The whole spring pass leaves the sum of all forces unchanged |
| Mechanics.StepSceneEffect | main.js:159-168 | After a running frame every force accumulator is zero, fixed balls keep position and velocity, and free balls have moved by their velocity from before the frame |
| Mechanics.StepSceneVelocity | main.js:159-168 | A free ball's new velocity is its old one plus (spring force + weight) / mass * `DELTA_T` |
| Mechanics.StepBallVelocity | main.js:57-65 | One ball's `calcForce` then `update`: its velocity grows by (force + weight) / mass * `DELTA_T` |
| Mechanics.WeightOnlyStep | main.js:57-67 | A free ball with an empty accumulator gains `GRAVITY * DELTA_T` downwards, because the mass cancels, and moves by its old velocity |
| Mechanics.Fall | main.js:164-168 | Repeated ball passes keep a ball's mass and fixedness |
| Mechanics.FreeFall | main.js:164-168 | A lone free ball dropped from rest has, after `n` frames, velocity `[0, n * GRAVITY * DELTA_T]` and has fallen `n(n-1)/2 * GRAVITY * DELTA_T^2`: the discrete semi-implicit recurrence |
| Entities.Ball.constructor | main.js:46-56 | The ball keeps the given position and velocity arrays, gets a fresh zero force accumulator and the mass `(4/3) * size^3 * density` |
| Entities.Ball.CalcForce | main.js:57-59 | The ball's new state is `AddGravity` of the old one: `force[1]` grows by the weight and nothing else changes |
| Entities.Ball.Update | main.js:60-68 | The ball's new state is `Integrate` of the old one: every force component is 0.0; a fixed ball keeps position and velocity; a free ball's position and velocity follow the semi-implicit Euler step |
| Entities.Spring.constructor | main.js:78-86 | The spring records its balls, rest length and constant, the black colour and the current distance of the balls |
| Entities.Spring.CalcForce | main.js:87-98 | The distance is recomputed (and is non-zero), the force vector is Hooke's force, and it is subtracted from the first ball and added to the second. Positions and velocities are untouched, the per-axis sum of the two accumulators is unchanged, and at rest length both accumulators stay as they were |
| Entities.Spring.Transfer | main.js:91-97 | The loop over the axes leaves the spring force in `force` and moves it from the first ball's accumulator to the second's |
| Entities.Spring.TransferAxis | main.js:92-96 | One axis: the force component is `(distance - length) * (p1 - p2) / distance * k`, taken from the first ball and given to the second; no other axis changes |
| Driver.CapturedStart | main.js:155 | The start after `if(!start) start = timestamp` is truthy unless the timestamp itself is 0, so the next frame keeps it |
| Driver.Proceeds | main.js:156-157 | Whether a frame does its work: the elapsed time since the captured start does not exceed `NUM_OF_STEPS`. Its meaning is stated by `FirstFrameProceeds`, `ProceedsWithin` and `StopIsFinal` |
| Driver.RgbText | main.js:131 | The free ball's colour text `"rgb(" + r + ", " + g + ", " + b + ")"`, with the colour components as parameters. It only feeds drawing, and `Init` states that the ball carries it |
| Driver.InitialBodies | main.js:117-133 | The two balls `init` builds: the first fixed and the second free, both of positive mass, both at rest with an empty accumulator |
| Driver.InitialLinks | main.js:135-140 | The one spring `init` builds joins ball 0 to ball 1, and its rest length is the initial distance of the two balls |
| Driver.FirstFrameProceeds | main.js:155-157 | The first frame of a run takes its own timestamp as the start and always proceeds |
| Driver.ProceedsWithin | main.js:155-157 | With a start recorded, a frame proceeds exactly when `timestamp - start <= NUM_OF_STEPS` |
| Driver.StopIsFinal | main.js:155-157 | Once a frame stops, every later frame stops too |
| Driver.InitialSceneFits | main.js:113-144 | The scene `init` builds can always be integrated. Its spring is well defined exactly when the balls do not start at the same point, that is unless the canvas is 0 wide and 20 high |
| Driver.FirstFrame | main.js:113-168 | The first frame after `init`: the spring is at rest and exerts nothing; the fixed ball stays; the free ball keeps its position and gains velocity `[0, GRAVITY * DELTA_T]` |
| Driver.NewBall | main.js:117-133 | A ball built from a position literal and a zero velocity literal has the matching state, a zero accumulator and fresh arrays |
| Driver.Simulation.Init | main.js:113-152 | `init` clears the start and builds, from newly allocated objects, two balls and one spring, with the positions, sizes, densities, fixedness and colours the source gives; the spring's rest length is the balls' initial distance and its constant is 10 |
| Driver.Simulation.Loop | main.js:154-171 | The start is captured (null or 0 is replaced by the timestamp). The frame schedules the next one exactly when the elapsed time is within the budget. A stopping frame changes no ball and no spring. A running frame leaves the balls in the state `StepScene` gives, and each spring holds the distance and force of the positions the frame started from |
| Driver.Simulation.RunSprings | main.js:159-163 | The spring pass: the balls end as `SpringPass` says, and every spring records its distance and force |
| Driver.Simulation.RunSpring | main.js:162 | One spring's `calcForce` inside the scene: the balls change as `ApplyLink` says and no other spring changes |
| Driver.Simulation.RunBalls | main.js:164-168 | The ball pass: the balls end as `BallPass` says |
| Driver.StartRun | main.js:173-178 | The start button: `init` followed by the first frame of `loop` on the scene it built. That frame always runs and records its timestamp as the start; the fixed ball stays, and the free ball keeps its position and gains velocity `[0, GRAVITY * DELTA_T]` |

## Left out

- Drawing is not modelled: `Ball.draw`, `Spring.draw`, `ctx.clearRect` and the canvas setup are canvas output with no effect on the state.
- Logging is not modelled: the `console.log` calls only print.
- Scheduling is not modelled: the model does not call `requestAnimationFrame`. `Loop` returns `scheduled` instead, which is true exactly when the source would ask for the next frame. So a second click on the start button during a run is not captured: the earlier run's pending `requestAnimationFrame(loop)` (main.js:170) stays alive, and after `init()` two `loop` chains step the new scene every display frame. `StartRun` models one clean chain on a fresh `Simulation`.
- The start-button handler's `console.log(is_saved)` is not modelled. `StartRun` models its `init()` and runs the first frame directly, with the timestamp as a parameter.
- Driver.StartRun: requires the two balls not to start at the same point (a canvas 0 wide and 20 high), where the first frame would divide by zero, as for `Loop`.
- `saveCanvas` is left out. It uses the DOM and downloads a file, and `is_saved` is never set to true, so it never runs. `zeroPadding` is modelled on its own.
- `getRandomInt` and `getRandomNum` are left out, because `Math.random` is host randomness. `Init` takes the three colour components as parameters.
- The canvas width and height are parameters of `Init`.
- `Math.sqrt` is a parameter, `sqrt`, constrained only by `IsSqrt`. It is not computed.
- Floating point is not modelled: numbers are reals, so IEEE rounding, `Infinity` and `NaN` are out of scope.
- Entities.Spring.CalcForce: requires that the two balls do not coincide. The source divides by the distance unguarded and would propagate `NaN`; that case is excluded, not modelled.
- Driver.Simulation.Loop: requires, for frames that proceed, that no spring's balls coincide, for the same reason.
- Entities.Ball.Update: requires a free ball to have a non-zero mass. With mass 0 the source would divide by zero and produce `Infinity`/`NaN`. Every ball `init` builds has a positive mass.
- Driver.Simulation.Init: `init` also empties the previous `balls` and `springs` lists. The model builds a fresh `Simulation` instead, so the reset is the construction itself.
- Driver.Simulation.Loop: the elapsed value compared with `NUM_OF_STEPS` is the timestamp difference as written, whatever unit the timestamp has. The unit mismatch is kept, not reconciled.
- The spring's `force` array starts with unspecified contents, as `Array(DIMENTION)` does; nothing reads it before the first `calcForce` writes it.
- `zeroPadding` is modelled for integer `num` and integer `length` only. A fractional or non-numeric argument has other text forms in JavaScript.
- Padding.NatText: it is JavaScript's `String(num)` only for safe integers, with `|num|` below 2^53. Above that, JavaScript prints the shortest digits that read back to the same double. For example, 2^64 prints as `18446744073709552000`, so `zeroPadding(2**64, 5)` is `"52000"` where the model gives `"51616"`. From 10^21 on, JavaScript writes an exponent (`1e+21`). Those texts are not modelled.
- A ball's mass is positive only for a positive size and density. The Ball constructor does not check them, so the model does not assume it: `Mechanics.Mass` proves positivity for positive inputs, and the invariant the model keeps is only "fixed, or non-zero mass".
