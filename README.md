# Fireworks particle simulation, modelled in Dafny

The repository draws an animated fireworks show on an HTML canvas. Its core
is a small particle simulation that appears twice, with the same logic: in
the hook-based component `src/Fireworks.tsx` and in the older class
component `src/index.js`. This project models that core:

- `times(n, f)`: the list f(0), ..., f(n-1). This is `Repeat.Times` in `times.dfy`.
- The particle factory: `initFirework`, `generateSparks` and
  `generateFireworks` (`particles.dfy`). The factory gives each firework a
  random column on the bottom edge and a fixed number of sparks. Each spark
  has a random velocity, weight and on/off colour flags.
- The state machine `update` over one firework (`simulation.dfy`).
  The machine has two phases:
  - a flying firework climbs 10 per update and detonates on a rare draw or
    once it is above y = 200;
  - an exploded firework ages by one per update and, once older than 100
    updates, is relaunched with probability 0.05.
- The renderer `draw` / `fill` / `toRGBA` (`render.dfy`):
  - the pure function `DrawCommands` gives the list of paint commands it
    issues;
  - the methods `Draw`, `DrawFlight`, `DrawExplosion` and `DrawTrail` issue
    those commands one at a time, in the source's loops, to a `Canvas`.
    The `Canvas` records what was painted.
- The animation frame (`driver.dfy`): each firework is drawn and then
  updated, in population order, and the population is replaced by the
  updated fireworks.
  - `Driver.Show` is the mounted component. Its method `Explode` is one
    frame. The frame's `map` is the method `Driver.DrawAndUpdate`, and
    its callback is `Driver.DrawThenUpdate`.
  - `Driver.Advance` and `Driver.FramePaint` say what one frame produces.

`Math.random()` is not ambient. An operation that draws reads a stream
`rnd: nat -> real` from a cursor `at`. Each modelled operation uses exactly
the draws its source code makes, in that code's order (for what the hook
component draws between frames, see "## Left out"):

| Operation | Draws used |
|---|---|
| one spark | 8 |
| one firework | 1 + 8 per spark, the column first |
| rising trail | 15, one jitter per square |
| explosion drawing | none |
| `update`, flying | 1 |
| `update`, young explosion | none, because `&&` short-circuits |
| `update`, old explosion that stays | 1 |
| `update`, relaunch | 2 |

That every draw lies in [0, 1) is the hypothesis `Uniform(rnd)` of the
lemmas. It is never a precondition of the operations. Numbers are Dafny
`real`s, and a column is the `int` floor of a draw times the width.

The two components differ in three places:

- **Phase test in `draw`.** `src/index.js` tests `phase === "explode"` and
  `src/Fireworks.tsx` tests `phase === "fly"`. With two phases the two tests
  take the same branch, so `DrawCommands` models both.
- **`toRGBA` defaults.** In `src/index.js` only the blue and alpha channels
  have defaults. This is `Render.ToRgbaLegacy`. With fewer than two channels the
  text has an empty channel field (`join` prints a missing value as
  nothing), which the canvas rejects; the model writes `None`. `Render.LegacyColoursAgree` proves
  that `draw` never triggers that case and that both variants paint the
  same colours.
- **Fixed configuration.** The class component fixes 5 fireworks of 50
  sparks (`Driver.Mount`). The hook component takes both numbers as props,
  so `Driver.Show`'s constructor takes them as parameters.

On a relaunch the code keeps the firework's old sparks. `initFirework`
returns only x, y, age and phase, and these are spread over the old
firework (src/Fireworks.tsx:107-108). A relaunched firework might be
expected to get a fresh spark set, but the model follows the code: the
relaunched firework has the same `sparks` as before.

## Model

| member | source | states |
|---|---|---|
| Repeat.Times | src/Fireworks.tsx:30-33 | exactly n elements, element i being f(i); the same helper is src/index.js:7-10 |
| Particles.InitFirework | src/Fireworks.tsx:35-42 | y is the height, age 0, phase fly; for a draw in [0,1) and a positive width the column satisfies 0 <= x < width (also src/index.js:12-19) |
| Particles.NewSpark | src/Fireworks.tsx:45-56 | from 8 draws in [0,1): abs(vx) and abs(vy) in [0.5, 5.5), weight in [0.03, 0.33), each colour flag 0 or 1; vx is negative iff its sign draw exceeds 0.5, likewise vy |
| Particles.GenerateSparks | src/Fireworks.tsx:44-58 | maxSparks sparks, spark i built from the i-th block of 8 draws (also src/index.js:21-35) |
| Particles.SparksInRange | src/Fireworks.tsx:44-58 | from a uniform stream every generated spark lies in the promised ranges |
| Particles.NewFirework | src/Fireworks.tsx:67-70 | one firework: the launch's column from the first draw, at the bottom edge, flying, age 0, with the maxSparks sparks generated from the draws that follow |
| Particles.GenerateFireworks | src/Fireworks.tsx:60-72 | maxFireworks fireworks, firework j a fresh launch with maxSparks sparks from the j-th block of 1 + 8·maxSparks draws, column first (also src/index.js:37-44) |
| Particles.NewFireworkFresh | src/Fireworks.tsx:66-71 | one generated firework is on the bottom edge, flying, age 0, in a valid column, with maxSparks in-range sparks |
| Particles.GeneratedAreFresh | src/Fireworks.tsx:60-72 | every firework of a generated population is fresh in that sense |
| Simulation.Update | src/Fireworks.tsx:105-113 | sparks are kept in every branch; the draws consumed are exactly UpdateDraws (1 flying, 0 for age <= 100, 1 or 2 when older) |
| Simulation.UpdateCases | src/Fireworks.tsx:105-113 | flying: y drops by 10, x and age kept, detonates iff the draw is < 0.001 or the old y < 200; exploded with age <= 100: only age + 1, no draw; older and draw < 0.05: relaunched flying at the bottom edge with age 0 and a new column from the next draw; older otherwise: only age + 1 (also src/index.js:76-84) |
| Simulation.FreshIsConsistent | src/Fireworks.tsx:35-42 | a factory-fresh firework satisfies the per-firework invariant |
| Simulation.UpdateKeepsConsistent | src/Fireworks.tsx:105-113 | update keeps the invariant: column on the canvas, spark count and ranges, y at most the height, a flying firework has age 0 and is at the bottom edge or at least at y = 190, an exploded one is at least 10 above the bottom |
| Simulation.PhaseChanges | src/Fireworks.tsx:105-113 | the only phase changes are fly to explode (after rising 10) and explode to a fresh flight (age 0, bottom edge); an explosion that stays ages by one in place |
| Simulation.Iterate | src/Fireworks.tsx:105-113 | n successive updates of one firework on consecutive draws (without the drawing draws a frame interleaves) keep its sparks and use between 0 and 2n draws |
| Simulation.YoungExplosionHolds | src/Fireworks.tsx:106-108 | for an explosion with age + k <= 101, k updates only add k to its age and consume no draw |
| Simulation.FlightRises | src/Fireworks.tsx:110-111 | for a flight with y - 10n >= 190 and n consecutive draws each >= 0.001, n updates keep it flying, lower y by exactly 10n and use n draws |
| Simulation.FlightEnds | src/Fireworks.tsx:105-113 | for a flight with age 0, 1 <= n <= 102 and y < 200 + 10(n-1), after n updates it has exploded, whatever the draws |
| Simulation.IterateSplit | src/Fireworks.tsx:105-113 | m + n updates are m updates followed by n updates |
| Render.ToRgba | src/Fireworks.tsx:74 | the colour's channels are the given ones, in order, then the defaults 0, 0, 0, 1 for those not given; channels past the fourth are ignored |
| Render.ToRgbaLegacy | src/index.js:46 | a colour exists iff red and green are given, and then it is the colour with the defaults blue 0 and alpha 1 |
| Render.LegacyColoursAgree | src/index.js:55-73 | the channel lists `draw` passes always give a colour, rising-trail colours are (index·50, i·17, 0, 1), and both toRGBA variants agree |
| Render.FlySquare | src/Fireworks.tsx:86 | square i of a rising trail has side 4, sits 4i below the firework and is coloured (index·50, i·17, 0, 1) |
| Render.FlyXNear | src/Fireworks.tsx:86 | for a draw in [0,1) the jittered column is within i/2 of the firework's |
| Render.FlyTrail | src/Fireworks.tsx:85-87 | 15 squares, square i jittered by the i-th draw |
| Render.TrailSquare | src/Fireworks.tsx:93-100 | one explosion square: side 4, opaque, channels red·fade, green·fade, blue·fade with fade = i·20 − age·2, at the spark's position age + i ticks into the explosion |
| Render.TrailCorner | src/Fireworks.tsx:97-98 | that position in product form: x + vx·trailAge and y + vy·trailAge + (weight·trailAge)² |
| Render.Trail | src/Fireworks.tsx:92-101 | 10 squares, square i being TrailSquare for i |
| Render.SparkTrails | src/Fireworks.tsx:91-102 | 10 squares per spark |
| Render.SparkTrailsAt | src/Fireworks.tsx:91-102 | spark-major order: square k is square k mod 10 of spark k div 10 |
| Render.DrawCommands | src/Fireworks.tsx:83-103 | flying: 15 squares of side 4, coloured (index·50, i·17, 0, 1), 4i below the firework; exploded: 10 per spark |
| Render.ExplodeOrder | src/Fireworks.tsx:91-102 | an explosion's command k is square k mod 10 of the trail of spark k div 10 |
| Render.ExplodeColours | src/Fireworks.tsx:93-99 | each explosion square is opaque with each channel 0 where the spark's flag is 0 and i·20 − age·2 where it is 1 |
| Render.FlyJitter | src/Fireworks.tsx:86 | every rising-trail square lies within i/2 of the firework's column |
| Render.ExplodeIgnoresDraws | src/Fireworks.tsx:91-102 | an explosion is drawn the same whatever its index and the draws |
| Render.Fill | src/Fireworks.tsx:76-81 | one square more is painted, with side 4 and the toRGBA colour |
| Render.DrawFlight | src/Fireworks.tsx:84-88 | the loop paints exactly the rising trail, in order |
| Render.DrawTrail | src/Fireworks.tsx:92-101 | the loop paints exactly one spark's trail, in order |
| Render.DrawExplosion | src/Fireworks.tsx:91-102 | the loop paints every spark's trail, spark after spark |
| Render.Draw | src/Fireworks.tsx:83-103 | paints exactly DrawCommands and uses 15 draws when flying, none when exploded |
| Driver.CursorStep | src/index.js:95-98 | the draw order of a frame: firework k is drawn from the cursor CursorAt(k), its update reads the draws right after its 15 (flying) or 0 (exploded) drawing draws, and firework k + 1 starts where that update left the cursor |
| Driver.CursorBounds | src/index.js:95-98 | before firework k a frame has read between 0 and 17k draws: 15 jitter draws and at most 2 update draws per firework |
| Driver.YoungExplosionsDrawNothing | src/index.js:95-98 | when every firework before k is an explosion of age <= 100, the frame has read no draw before firework k |
| Driver.Successors | src/index.js:95-98 | the first n updated fireworks, element k the update of firework k after it was drawn |
| Driver.Advance | src/index.js:95-98 | a frame keeps the population's length and order and every firework's sparks |
| Driver.FramePaint | src/index.js:95-98 | a frame paints 15 squares per flying firework and 10 per spark of an exploded one, firework after firework |
| Driver.AdvanceKeepsConsistent | src/index.js:95-98 | a frame keeps the invariant of every firework |
| Driver.GeneratedAreConsistent | src/index.js:91 | the first population satisfies the invariant |
| Driver.DrawThenUpdate | src/index.js:96-97 | the `map` callback for firework k: paints that firework's commands at the frame's cursor for k and returns its successor, whose cursor is the one firework k + 1 starts from |
| Driver.DrawAndUpdate | src/index.js:95-98 | the `map` loop: returns Advance's population and cursor and paints FramePaint's commands, firework after firework |
| Driver.Show.constructor | src/Fireworks.tsx:117-119 | the first population is the factory's, with the cursor past its draws, and the show is valid for a uniform stream and a positive width |
| Driver.Show.Explode | src/Fireworks.tsx:124-129 | one frame replaces the population by Advance's, paints FramePaint's commands and keeps the show valid (also src/index.js:93-98) |
| Driver.Mount | src/index.js:87-91 | the class component's show on the given canvas, size and stream: 5 fireworks of 50 sparks from the factory |
| Driver.ZeroDrawsDetonate | src/Fireworks.tsx:105-113 | on 800 × 500 with all draws 0: column 0 on the bottom edge, and one update gives y = 490 and an explosion |
| Driver.HighDrawsClimbToApex | src/Fireworks.tsx:110-111 | with all draws 0.999: y = 490 after one update, still flying at y = 190 after 31, exploded at y = 180 after 32 |

## Left out

- React plumbing is not modelled: `useRef`, `useState`, `useEffect`,
  `defaultProps`, JSX, `componentDidMount` and `document.getElementById`.
  `Driver.Show` stands for the mounted component and `Explode` for one frame.
- `requestAnimationFrame` scheduling is not modelled. A frame is one call
  of `Explode`.
- `clearRect` is not modelled, so `Canvas.painted` keeps every frame's
  commands one after another.
- The canvas calls `beginPath`, `rect`, `fill` and the `fillStyle`
  assignment are one `Paint` record per `fill`. The `rgba(...)` text built
  with `join` is kept as its four numbers.
- IEEE floating point is not modelled; positions, velocities and weights
  are exact reals. `Render.Scale` multiplies a real by a counter through
  repeated addition, and `ScaleIsProduct` proves this equal to the product.
- `Math.random()` is an explicit stream. Which values it returns is the
  hypothesis `Uniform`, not a claim about the browser.
- Draws between frames of the hook component: its `useState` argument
  `generateFireworks(...)` (src/Fireworks.tsx:117-119) is evaluated on every
  render, and each frame's state update causes one. Each frame therefore
  reads maxFireworks·(1 + 8·maxSparks) further draws whose result is thrown
  away. `Show.cursor` does not skip them. No proved property depends on
  where the next frame's draws start.
- Invalid counts: `Array(n)` throws a RangeError for a negative or
  fractional n (src/Fireworks.tsx:31, src/index.js:8). The model types every
  count as `nat`, so that error path is not modelled.
- Render.DrawCommands: the exact column of a rising-trail
  square depends on the jitter draw. It is bounded by `FlyJitter` and not
  stated further.
