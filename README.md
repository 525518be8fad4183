# LabQuest simulations in Dafny

A model of two of the LabQuest browser demos, with proofs about it.

- **Phase-state particle demo** (`LabQuest/chemSim.js`), in `chem_sim.dfy`, module `ChemSim`. A temperature in steps of 10 degrees selects solid (at or below 0), liquid (up to 100) or gas (above 100). When the phase changes, the 50 particles are rebuilt: a fixed 5 × 10 grid near the floor when solid, scattered at random otherwise. Every frame moves liquid and gas particles by a small random step and confines them to bounds that depend on the phase. A pressure value in [0.5, 2.0] moves in steps of 0.1. The page's mutable variables (`state`, `temperature`, `pressure`, `particles`) are the fields of class `PhaseDemo`. Its methods are `KeyDown` (the keydown handler), `CreateParticles` and `UpdateParticles`. Each method is proved against pure functions: `Press`, `Layout` and `Frame`.
- **Buoyancy simulator** (`LabQuest/simulation.js`), in `buoyancy.dfy`, module `Buoyancy`. One object of a chosen kind (ball, rock, wood, balloon) sits in a chosen liquid (water, oil, mercury). Each frame it compares the two densities. If the liquid is denser, the object rises one pixel, clamped at the equilibrium line. If the object is denser, it sinks one pixel, clamped at the floor line. If they are equal, it snaps to the liquid level. Class `BuoyancyObject` holds the object's fields, and `UpdatePosition` rewrites `y`. Class `Simulation` holds the selections and the current object. Its `KeyDown` rebuilds the object on a selection key and nudges the density on the arrow keys. `GetExplanation` and `LiquidColor` are pure functions.
- `util.dfy`, module `Util`: `Option` and JavaScript's two-argument `Math.max` / `Math.min`.

Modelling choices:
- `Math.random()` is an input. `createParticles` takes one `SpawnDraw` (two draws) per particle. `updateParticles` takes one `Jitter` (three draws) per particle. Every draw is a real in [0, 1).
- Key presses are the `event.key` strings, so keys the handlers ignore fall through unchanged.
- Particle coordinates, densities and pressure are exact reals. The buoyancy `y` is an integer: it starts at an integer offset from the integer canvas height and moves in whole steps.
- The buoyancy canvas size (`canvas.width`, `canvas.height`) is a constructor parameter of `Simulation`.
- The JavaScript field `type` is called `kind`, because `type` is a Dafny keyword.
- Particles are datatype values kept in a `seq` field, updated index by index. In the source nothing else holds a reference to a particle object, so no aliasing is lost.

Behaviours of the code that its comments do not suggest:
- The liquid-phase update has no lower wall. A liquid particle at the bottom bound BOTTOM = 520 (the container floor less one radius) can step below it (`LiquidHasNoFloor`), and nothing stops later frames from taking it further down, past the floor itself.
- Scattered particles are placed from `containerX`. That is one radius left of where the frame update confines them (`ScatterReachesWall`).
- A freshly built object starts at `HEIGHT - 50`, below the floor line `HEIGHT - 80`. So an object that "sinks" first moves up 30 pixels, onto that line (`SinkFromStart`).
- The temperature starts at 0 and moves in steps of exactly ±10, so it is always a multiple of 10. `WarmThenCoolScenario` proves 0 → 10 → … → 110 → 100: three phase changes and three regenerations.

## Model

| member | source | states |
|---|---|---|
| `ChemSim.Geometry` | LabQuest/chemSim.js:18-36 | The container is 400 × 450 at (200, 75). The grid has 10 columns and starts at (350, 475). The confinement bounds are x in [205, 595] and y in [80, 520], and the liquid surface is at y = 300. |
| `ChemSim.PhaseColor` | LabQuest/chemSim.js:7-9 | Solid is drawn blue, liquid green and gas red, each in both directions, so the three phases have distinct colours. |
| `ChemSim.Threshold` | LabQuest/chemSim.js:121-129 | The threshold phase is solid exactly when the temperature is at most 0, liquid exactly when it is in (0, 100], and gas exactly when it is above 100. |
| `ChemSim.Press` | LabQuest/chemSim.js:118-148 | ArrowUp/ArrowDown move the temperature by exactly +10/−10, set the state to its threshold phase and keep the pressure. ArrowLeft lowers the pressure by exactly 0.1 when that stays at or above 0.5, and otherwise sets it to 0.5; ArrowRight raises it by exactly 0.1 when that stays at or below 2.0, and otherwise sets it to 2.0; both keep temperature and state. Any other key changes nothing. Every key press keeps the conditions consistent: the state is the threshold phase of the temperature and the pressure is in [0.5, 2.0]. |
| `ChemSim.Transition` | LabQuest/chemSim.js:121-130 | The three guarded branches assign a new state exactly when the current state differs from the threshold phase of the new temperature, and the state assigned is that phase. |
| `ChemSim.RegeneratesOnlyAcrossThreshold` | LabQuest/chemSim.js:121-141 | From consistent conditions, a temperature key rebuilds the particles if and only if the step crosses a phase threshold. A step within one phase never rebuilds them. |
| `ChemSim.PressurePress` | LabQuest/chemSim.js:143-147 | Keys other than ArrowUp/ArrowDown change neither temperature nor state, and never rebuild the particles. ArrowLeft/ArrowRight keep the pressure inside [0.5, 2.0]. 0.5 is a fixpoint of ArrowLeft and 2.0 a fixpoint of ArrowRight. |
| `ChemSim.ReplayConsistent` | LabQuest/chemSim.js:14-16 | Starting from consistent conditions (the initial solid, 0, 1.0 are consistent), any sequence of key presses keeps the state equal to the temperature's threshold phase and the pressure in [0.5, 2.0]. |
| `ChemSim.PressureKeysOnly` | LabQuest/chemSim.js:143-147 | Any sequence of ArrowLeft/ArrowRight presses leaves the temperature and the state unchanged and never rebuilds the particles. |
| `ChemSim.WarmThenCoolScenario` | LabQuest/chemSim.js:119-142 | From the initial state, one ArrowUp gives liquid with one rebuild. Eleven ArrowUps give gas at 110. One more ArrowDown gives liquid at 100, with exactly 3 rebuilds in all, one per phase change. |
| `ChemSim.SolidGrid` | LabQuest/chemSim.js:27-36 | The solid layout has exactly 50 particles, all blue, each inside the solid placement bounds. |
| `ChemSim.SolidGridAt` | LabQuest/chemSim.js:27-36 | Particle i·10 + j of the solid layout is at (xStart + 10j, yStart + 10i) and is blue. |
| `ChemSim.Layout` | LabQuest/chemSim.js:24-50 | createParticles builds exactly PARTICLES_COUNT (50) particles, all in the current phase's colour, and each satisfies its phase's placement invariant. A liquid or gas particle starts with x in [200, 590). A liquid one starts with y in [300, 515), at or below the liquid surface; a gas one with y in [75, 515). |
| `ChemSim.Scatter` | LabQuest/chemSim.js:38-49 | One scattered liquid or gas particle has its phase's colour, satisfies the placement invariant, and lies in the spawn range: x in [containerX, containerX + containerWidth − 10), liquid y in [surface, surface + containerHeight/2 − 10), gas y in [containerY, containerY + containerHeight − 10). |
| `ChemSim.SolidLayoutDeterministic` | LabQuest/chemSim.js:26-37 | The solid layout does not depend on the random draws: it is always the fixed grid. |
| `ChemSim.ScatterReachesWall` | LabQuest/chemSim.js:40-46 | A scattered liquid or gas particle can start at x = containerX. That is left of the bound containerX + radius that the frame update enforces. |
| `ChemSim.Confine` | LabQuest/chemSim.js:62-64 | The guarded `max(lo, min(hi, v))` always yields a value in [lo, hi]. It leaves v alone when v is already inside, and otherwise moves it to the nearer bound. |
| `ChemSim.Move` | LabQuest/chemSim.js:54-81 | One frame keeps a particle's colour. A solid particle does not move. A liquid particle ends with x in [containerX+5, containerX+width−5] and y ≥ containerY + height/2. A gas particle ends with x in that range and y in [containerY+5, containerY+height−5]. The phase's placement invariant is preserved. |
| `ChemSim.MoveIsBounded` | LabQuest/chemSim.js:58-79 | A particle inside the x bounds moves at most 1 in x when liquid and at most 2 when gas. A gas particle inside the y bounds moves at most 2 in y. A liquid particle at or below the surface moves between −1 and 5 in y, where 5 is the reset below the surface. |
| `ChemSim.LiquidHasNoFloor` | LabQuest/chemSim.js:65-67 | The liquid update clamps y only from above. A liquid particle at the container's bottom bound can end below it. |
| `ChemSim.Frame` | LabQuest/chemSim.js:54-82 | One updateParticles frame keeps the particle count and every particle's colour. It is the identity when solid. It puts every liquid or gas particle in its phase's bounds and preserves each particle's placement. |
| `ChemSim.BuildGrid` | LabQuest/chemSim.js:26-37 | The nested row/column loops push exactly the solid grid, in row-major order. |
| `ChemSim.ScatterLiquid` | LabQuest/chemSim.js:38-43 | The liquid loop pushes exactly the liquid layout for the given draws. |
| `ChemSim.ScatterGas` | LabQuest/chemSim.js:44-49 | The gas loop pushes exactly the gas layout for the given draws. |
| `ChemSim.PhaseDemo.constructor` | LabQuest/chemSim.js:13-17 | The demo starts solid at 0 degrees and 1.0 atm, with the solid grid built, and its invariant holds. |
| `ChemSim.PhaseDemo.CreateParticles` | LabQuest/chemSim.js:24-51 | The particle list becomes the layout of the current state for the given draws. |
| `ChemSim.PhaseDemo.Reheat` | LabQuest/chemSim.js:120-130 | After setting a new temperature, the state is its threshold phase. The particles are rebuilt exactly when the state changed; otherwise they are unchanged. |
| `ChemSim.PhaseDemo.KeyDown` | LabQuest/chemSim.js:118-148 | The handler keeps the demo invariant. It moves the conditions as `Press` says. It reports a rebuild exactly when the state changed, and rebuilds the particles exactly then. |
| `ChemSim.PhaseDemo.UpdateParticles` | LabQuest/chemSim.js:54-82 | The particles become one `Frame` of the old particles, and the demo invariant (count, colours, placement, grid when solid) is kept. |
| `Buoyancy.LiquidDensity` | LabQuest/simulation.js:10 | Every liquid density in the table lies in [0.8, 13.6]. |
| `Buoyancy.ObjectDensity` | LabQuest/simulation.js:11 | Every object density in the table lies in [0.2, 2.5], above the 0.1 floor of the ArrowDown clamp. |
| `Buoyancy.ObjectColor` | LabQuest/simulation.js:12 | Each kind has one of red, gray, brown, yellow, and each colour belongs to exactly one kind. |
| `Buoyancy.FloatTable` | LabQuest/simulation.js:10-11 | Among the table pairs, an object sinks exactly when it is the rock in water or oil, or the ball in oil. Together with `NoTablePairIsNeutral`, every other pair floats. |
| `Buoyancy.LiquidKey` | LabQuest/simulation.js:109-120 | w/W select Water, o/O Oil and m/M Mercury, each in both directions; no other key selects a liquid. |
| `Buoyancy.ObjectKey` | LabQuest/simulation.js:122-137 | 1, 2, 3, 4 select Ball, Rock, Wood, Balloon, each in both directions; no other key selects an object. |
| `Buoyancy.LiquidColor` | LabQuest/simulation.js:99-105 | Oil is drawn orange and Mercury gray. Every other name is drawn blue, each in both directions. |
| `Buoyancy.LiquidColorsDistinct` | LabQuest/simulation.js:99-105 | The three selectable liquids are drawn in three distinct colours. |
| `Buoyancy.Lines` | LabQuest/simulation.js:17-20 | With radius 40 and water level HEIGHT−100: start at HEIGHT−50, equilibrium line at HEIGHT−180, floor line at HEIGHT−80, liquid level at HEIGHT−140. |
| `Buoyancy.UpdateBranch` | LabQuest/simulation.js:33-45 | updatePosition floats exactly when the object is less dense than the liquid, sinks exactly when it is denser, and is neutral exactly when the densities are equal. |
| `Buoyancy.NextY` | LabQuest/simulation.js:32-46 | Floating never ends above the equilibrium line: it steps up 1, or rests on the line. Sinking never ends below the floor line: it steps down 1, or rests on the line. Neutral puts y at the liquid level. The band [equilibrium line, start] is preserved. |
| `Buoyancy.GetExplanation` | LabQuest/simulation.js:72-80 | "Object floats!" appears exactly when updatePosition takes the float branch, "Object sinks!" exactly for the sink branch, and the neutral text exactly for the neutral branch. |
| `Buoyancy.NoTablePairIsNeutral` | LabQuest/simulation.js:10-11 | No liquid/object pair from the density tables has equal densities. |
| `Buoyancy.ClampFixpoints` | LabQuest/simulation.js:36-45 | With fixed densities, the equilibrium line is a fixpoint when floating, the floor line when sinking, and the liquid level when neutral. |
| `Buoyancy.NeutralIdempotent` | LabQuest/simulation.js:42-45 | Two neutral frames give the same y as one, from any starting y. |
| `Buoyancy.FloatFrames` | LabQuest/simulation.js:36-38 | After k floating frames from y0 at or below the equilibrium line, y = max(line, y0 − k). |
| `Buoyancy.SinkFrames` | LabQuest/simulation.js:39-41 | After k sinking frames from y0 at or above the floor line, y = min(floor, y0 + k). |
| `Buoyancy.FramesStayClamped` | LabQuest/simulation.js:32-46 | From any y, after one or more frames: a floating object is not above the equilibrium line, a sinking one is not below the floor line, and a neutral one is at the liquid level. |
| `Buoyancy.SinkFromStart` | LabQuest/simulation.js:29-41 | A sinking object built at HEIGHT−50 is at HEIGHT−80 after its first frame, and stays on the floor line after every later frame. |
| `Buoyancy.KeyGroupsDisjoint` | LabQuest/simulation.js:108-145 | No key both selects a liquid and selects an object, and no selection key is a density key. |
| `Buoyancy.DensityAfter` | LabQuest/simulation.js:140-145 | ArrowUp adds 0.01. ArrowDown subtracts 0.01, but never goes below 0.1. Other keys leave the density alone. |
| `Buoyancy.PressDownClamps` | LabQuest/simulation.js:143-145 | n ArrowDown presses from a density d ≥ 0.1 give max(0.1, d − 0.01·n), never below 0.1. |
| `Buoyancy.BuoyancyObject.constructor` | LabQuest/simulation.js:24-30 | A new object has the table density and colour of its kind, x = WIDTH/2 and y = HEIGHT − radius − 10. |
| `Buoyancy.BuoyancyObject.UpdatePosition` | LabQuest/simulation.js:32-46 | y becomes `NextY` of the liquid density, the object density and the old y. |
| `Buoyancy.Simulation.constructor` | LabQuest/simulation.js:14-58 | The simulation starts with Water and Ball and a freshly built ball, and its invariant holds. |
| `Buoyancy.Simulation.Frame` | LabQuest/simulation.js:83-96 | One frame applies `NextY` in the selected liquid and keeps the invariant. The invariant is: kind matches the selection, colour matches the kind, x is centred, density ≥ 0.1, and y is in the band. |
| `Buoyancy.Simulation.Explanation` | LabQuest/simulation.js:61-69 | The shown explanation names the branch the next frame takes in the selected liquid. |
| `Buoyancy.Simulation.KeyDown` | LabQuest/simulation.js:108-146 | A liquid or object key sets that selection and replaces the object with a fresh one. The fresh object has the table density and the start y. The arrow keys keep the same object, its y and both selections, and change only the density (ArrowDown no lower than 0.1). The invariant is kept. |

## Left out

- `LabQuest/astroSim.js` is not part of this model. Its orbit positions are floating-point cosines and sines of wall-clock time, and its only state is a display toggle.
- Canvas drawing is not modelled: `gameLoop`'s drawing, `draw`'s liquid rectangle, `BuoyancyObject.draw`, and the circle and rectangle primitives. It is presentation only.
- DOM text output is not modelled: `displayState`, and the text formatting in `updateInfo` (`toFixed`, capitalisation). `Simulation.Explanation` keeps only the chosen explanation.
- `requestAnimationFrame` and `addEventListener` are not modelled. A frame is an explicit method call (`PhaseDemo.UpdateParticles`, `Simulation.Frame`), and a key press is a call of `KeyDown`.
- `Math.random` is not modelled as a generator. Its draws are parameters in [0, 1). In the source, the third draw of a `Jitter` is taken only when a liquid particle is reset. Draw k feeds particle k, in the source's order. What is not modelled is that the reset draw is consumed only when it is needed, which shifts the later draws along the stream. Nothing is lost by that: every stream of draws corresponds to some sequence of `Jitter`s.
- IEEE-754 rounding is not modelled. The density steps of 0.01, the pressure steps of 0.1 and the particle coordinates are exact reals. In JavaScript, repeated 0.01 steps rarely land exactly on a table density, so the `===` neutral comparison in `getExplanation` and the zero test in `updatePosition` rarely hold there. The model treats them as exact.
- The unused global `objectY` of `LabQuest/simulation.js` has no counterpart.
