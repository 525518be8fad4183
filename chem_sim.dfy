/** The phase-state particle demo: a temperature selects solid, liquid or gas,
    a change of phase regenerates the 50 particles, and every frame moves the
    liquid and gas particles by a small random step and confines them to the
    container. `Math.random()` is an input: each draw is a real in [0, 1). */
module ChemSim {
  import opened Util

  // Canvas and particle constants.
  const WIDTH: real := 800.0
  const HEIGHT: real := 600.0
  const SOLID_COLOR: string := "blue"
  const LIQUID_COLOR: string := "green"
  const GAS_COLOR: string := "red"
  const PARTICLE_RADIUS: real := 5.0
  const PARTICLES_COUNT: nat := 50

  // Container geometry, with the source's own formulas.
  const CONTAINER_WIDTH: real := WIDTH / 2.0
  const CONTAINER_HEIGHT: real := HEIGHT - 150.0
  const CONTAINER_X: real := (WIDTH - CONTAINER_WIDTH) / 2.0
  const CONTAINER_Y: real := HEIGHT / 2.0 - CONTAINER_HEIGHT / 2.0

  // Solid grid: 5 rows of PARTICLES_COUNT / 5 columns, one diameter apart.
  const ROWS: nat := 5
  const COLUMNS: nat := PARTICLES_COUNT / ROWS
  const X_START: real := CONTAINER_X + (CONTAINER_WIDTH - COLUMNS as real * PARTICLE_RADIUS * 2.0) / 2.0
  const Y_START: real := CONTAINER_Y + CONTAINER_HEIGHT - ROWS as real * PARTICLE_RADIUS * 2.0

  // The bounds that the per-frame update confines particles to.
  const LEFT: real := CONTAINER_X + PARTICLE_RADIUS
  const RIGHT: real := CONTAINER_X + CONTAINER_WIDTH - PARTICLE_RADIUS
  const TOP: real := CONTAINER_Y + PARTICLE_RADIUS
  const BOTTOM: real := CONTAINER_Y + CONTAINER_HEIGHT - PARTICLE_RADIUS
  /** Upper edge of the bottom half of the container, the liquid's surface. */
  const SURFACE: real := CONTAINER_Y + CONTAINER_HEIGHT / 2.0

  // Pressure: starts at 1.0 atm, moves by 0.1, clamped to [0.5, 2.0].
  const INITIAL_PRESSURE: real := 1.0
  const PRESSURE_STEP: real := 0.1
  const MIN_PRESSURE: real := 0.5
  const MAX_PRESSURE: real := 2.0
  const TEMPERATURE_STEP: int := 10

  lemma Geometry()
    ensures CONTAINER_WIDTH == 400.0 && CONTAINER_HEIGHT == 450.0
    ensures CONTAINER_X == 200.0 && CONTAINER_Y == 75.0
    ensures COLUMNS == 10 && ROWS * COLUMNS == PARTICLES_COUNT
    ensures X_START == 350.0 && Y_START == 475.0
    ensures LEFT == 205.0 && RIGHT == 595.0 && TOP == 80.0 && BOTTOM == 520.0 && SURFACE == 300.0
  {
  }

  datatype Phase = Solid | Liquid | Gas

  /** The phase a temperature selects: solid up to 0, liquid up to 100, gas above. */
  function Threshold(temperature: int): (p: Phase)
    ensures p == Solid <==> temperature <= 0
    ensures p == Liquid <==> 0 < temperature <= 100
    ensures p == Gas <==> temperature > 100
  {
    if temperature <= 0 then Solid else if temperature <= 100 then Liquid else Gas
  }

  /** Each phase is drawn in its own colour. */
  function PhaseColor(s: Phase): (c: string)
    ensures c == SOLID_COLOR <==> s == Solid
    ensures c == LIQUID_COLOR <==> s == Liquid
    ensures c == GAS_COLOR <==> s == Gas
  {
    match s
    case Solid => SOLID_COLOR
    case Liquid => LIQUID_COLOR
    case Gas => GAS_COLOR
  }

  /** The guarded re-assignment of `state` after the temperature has moved:
      `Some(p)` when the handler sets the state to p and regenerates the
      particles, `None` when it leaves both alone. */
  function Transition(temperature: int, state: Phase): (next: Option<Phase>)
    ensures next.Some? <==> state != Threshold(temperature)
    ensures next.Some? ==> next.value == Threshold(temperature)
  {
    if temperature > 100 && state != Gas then Some(Gas)
    else if temperature <= 100 && temperature > 0 && state != Liquid then Some(Liquid)
    else if temperature <= 0 && state != Solid then Some(Solid)
    else None
  }

  // ---------------------------------------------------------------------
  // Key handling on the scalar conditions (state, temperature, pressure)

  datatype Conditions = Conditions(state: Phase, temperature: int, pressure: real)

  const INITIAL: Conditions := Conditions(Solid, 0, INITIAL_PRESSURE)

  /** The state and the temperature agree and the pressure is inside its clamp. */
  predicate Consistent(c: Conditions)
  {
    c.state == Threshold(c.temperature) && MIN_PRESSURE <= c.pressure <= MAX_PRESSURE
  }

  predicate IsTemperatureKey(key: string)
  {
    key == "ArrowUp" || key == "ArrowDown"
  }

  /** What one key press does to the conditions, stated against `Threshold`. */
  function Press(c: Conditions, key: string): (r: Conditions)
    ensures key == "ArrowUp" ==> r.temperature == c.temperature + 10
    ensures key == "ArrowDown" ==> r.temperature == c.temperature - 10
    ensures IsTemperatureKey(key) ==> r.state == Threshold(r.temperature) && r.pressure == c.pressure
    ensures !IsTemperatureKey(key) ==> r.temperature == c.temperature && r.state == c.state
    ensures key == "ArrowLeft" ==> MIN_PRESSURE <= r.pressure && (r.pressure == MIN_PRESSURE || r.pressure == c.pressure - PRESSURE_STEP)
    ensures key == "ArrowLeft" && c.pressure - PRESSURE_STEP >= MIN_PRESSURE ==> r.pressure == c.pressure - PRESSURE_STEP
    ensures key == "ArrowRight" ==> r.pressure <= MAX_PRESSURE && (r.pressure == MAX_PRESSURE || r.pressure == c.pressure + PRESSURE_STEP)
    ensures key == "ArrowRight" && c.pressure + PRESSURE_STEP <= MAX_PRESSURE ==> r.pressure == c.pressure + PRESSURE_STEP
    ensures !IsTemperatureKey(key) && key != "ArrowLeft" && key != "ArrowRight" ==> r == c
    ensures Consistent(c) ==> Consistent(r)
  {
    if key == "ArrowUp" then
      Conditions(Threshold(c.temperature + TEMPERATURE_STEP), c.temperature + TEMPERATURE_STEP, c.pressure)
    else if key == "ArrowDown" then
      Conditions(Threshold(c.temperature - TEMPERATURE_STEP), c.temperature - TEMPERATURE_STEP, c.pressure)
    else if key == "ArrowLeft" then
      c.(pressure := RMax(MIN_PRESSURE, c.pressure - PRESSURE_STEP))
    else if key == "ArrowRight" then
      c.(pressure := RMin(MAX_PRESSURE, c.pressure + PRESSURE_STEP))
    else
      c
  }

  /** Whether a key press regenerates the particles. */
  predicate Regenerates(c: Conditions, key: string)
  {
    Press(c, key).state != c.state
  }

  /** From consistent conditions, a temperature step regenerates exactly when
      it crosses a phase threshold. */
  lemma RegeneratesOnlyAcrossThreshold(c: Conditions, key: string)
    requires Consistent(c) && IsTemperatureKey(key)
    ensures Regenerates(c, key) <==> Threshold(Press(c, key).temperature) != Threshold(c.temperature)
  {
  }

  lemma PressurePress(c: Conditions, key: string)
    requires !IsTemperatureKey(key)
    ensures Press(c, key).temperature == c.temperature && Press(c, key).state == c.state
    ensures !Regenerates(c, key)
    ensures MIN_PRESSURE <= c.pressure <= MAX_PRESSURE ==> MIN_PRESSURE <= Press(c, key).pressure <= MAX_PRESSURE
    ensures key == "ArrowLeft" && c.pressure == MIN_PRESSURE ==> Press(c, key) == c
    ensures key == "ArrowRight" && c.pressure == MAX_PRESSURE ==> Press(c, key) == c
  {
  }

  /** The conditions after a sequence of key presses. */
  function Replay(c: Conditions, keys: seq<string>): Conditions
    decreases |keys|
  {
    if keys == [] then c else Replay(Press(c, keys[0]), keys[1..])
  }

  /** How many times a sequence of key presses regenerates the particles. */
  function Regenerations(c: Conditions, keys: seq<string>): nat
    decreases |keys|
  {
    if keys == [] then 0
    else (if Regenerates(c, keys[0]) then 1 else 0) + Regenerations(Press(c, keys[0]), keys[1..])
  }

  /** Every sequence of key presses keeps the conditions consistent: the state
      is the threshold phase of the temperature and the pressure stays in
      [0.5, 2.0]. */
  lemma {:induction false} ReplayConsistent(c: Conditions, keys: seq<string>)
    requires Consistent(c)
    ensures Consistent(Replay(c, keys))
    decreases |keys|
  {
    if keys != [] {
      ReplayConsistent(Press(c, keys[0]), keys[1..]);
    }
  }

  /** Pressing only ArrowLeft and ArrowRight never touches the temperature,
      the state or the particles. */
  lemma {:induction false} PressureKeysOnly(c: Conditions, keys: seq<string>)
    requires forall k :: 0 <= k < |keys| ==> keys[k] == "ArrowLeft" || keys[k] == "ArrowRight"
    ensures Replay(c, keys).temperature == c.temperature
    ensures Replay(c, keys).state == c.state
    ensures Regenerations(c, keys) == 0
    decreases |keys|
  {
    if keys != [] {
      PressureKeysOnly(Press(c, keys[0]), keys[1..]);
    }
  }

  /** Warming from 0 to 110 and cooling back to 100 crosses a threshold three
      times and so regenerates exactly three times, not once per key. */
  lemma WarmThenCoolScenario()
    ensures Replay(INITIAL, ["ArrowUp"]).state == Liquid
    ensures Regenerations(INITIAL, ["ArrowUp"]) == 1
    ensures Replay(INITIAL, seq(11, _ => "ArrowUp")) == Conditions(Gas, 110, INITIAL_PRESSURE)
    ensures Regenerations(INITIAL, seq(11, _ => "ArrowUp") + ["ArrowDown"]) == 3
    ensures Replay(INITIAL, seq(11, _ => "ArrowUp") + ["ArrowDown"]) == Conditions(Liquid, 100, INITIAL_PRESSURE)
  {
    var ups := seq(11, _ => "ArrowUp");
    var c := INITIAL;
    var regen := 0;
    var n := 0;
    while n < 11
      invariant 0 <= n <= 11
      invariant Replay(INITIAL, ups) == Replay(c, ups[n..])
      invariant Regenerations(INITIAL, ups + ["ArrowDown"]) == regen + Regenerations(c, ups[n..] + ["ArrowDown"])
      invariant c == Conditions(Threshold(10 * n), 10 * n, INITIAL_PRESSURE)
      invariant regen == (if n == 0 then 0 else if n <= 10 then 1 else 2)
    {
      assert ups[n..][0] == "ArrowUp" && ups[n..][1..] == ups[n + 1..];
      assert (ups[n..] + ["ArrowDown"])[0] == "ArrowUp";
      assert (ups[n..] + ["ArrowDown"])[1..] == ups[n + 1..] + ["ArrowDown"];
      regen := regen + (if Regenerates(c, "ArrowUp") then 1 else 0);
      c := Press(c, "ArrowUp");
      n := n + 1;
    }
    assert ups[11..] == [];
    assert Replay(INITIAL, ups + ["ArrowDown"]) == Replay(c, ups[11..] + ["ArrowDown"]) by {
      ReplayAppend(INITIAL, ups, ["ArrowDown"]);
    }
    assert [] + ["ArrowDown"] == ["ArrowDown"];
  }

  lemma {:induction false} ReplayAppend(c: Conditions, a: seq<string>, b: seq<string>)
    ensures Replay(c, a + b) == Replay(Replay(c, a), b)
    decreases |a|
  {
    if a == [] {
      assert a + b == b;
    } else {
      assert (a + b)[0] == a[0] && (a + b)[1..] == a[1..] + b;
      ReplayAppend(Press(c, a[0]), a[1..], b);
    }
  }

  // ---------------------------------------------------------------------
  // Particles and their layouts

  datatype Particle = Particle(x: real, y: real, color: string)

  predicate Unit(r: real)
  {
    0.0 <= r < 1.0
  }

  /** The two `Math.random()` draws createParticles makes for one particle. */
  datatype SpawnDraw = SpawnDraw(rx: real, ry: real)

  predicate SpawnDraws(draws: seq<SpawnDraw>)
  {
    |draws| == PARTICLES_COUNT &&
    forall k :: 0 <= k < |draws| ==> Unit(draws[k].rx) && Unit(draws[k].ry)
  }

  /** Where a particle of a phase may be: the solid and gas particles inside
      the container walls, the liquid particles in its lower half, with no
      bound below. */
  predicate Placed(s: Phase, p: Particle)
  {
    match s
    case Solid => LEFT <= p.x <= RIGHT && TOP <= p.y <= BOTTOM
    case Liquid => CONTAINER_X <= p.x <= RIGHT && SURFACE <= p.y
    case Gas => CONTAINER_X <= p.x <= RIGHT && CONTAINER_Y <= p.y <= BOTTOM
  }

  /** The solid particle in row i and column j. */
  function GridParticle(i: int, j: int): Particle
  {
    Particle(X_START + j as real * (PARTICLE_RADIUS * 2.0), Y_START + i as real * (PARTICLE_RADIUS * 2.0), SOLID_COLOR)
  }

  /** The solid layout: particle k is in row k / COLUMNS and column k % COLUMNS. */
  function SolidGrid(): (ps: seq<Particle>)
    ensures |ps| == PARTICLES_COUNT
    ensures forall k :: 0 <= k < |ps| ==> ps[k].color == SOLID_COLOR && Placed(Solid, ps[k])
  {
    assert forall k :: 0 <= k < PARTICLES_COUNT ==> 0 <= k / COLUMNS < ROWS && 0 <= k % COLUMNS < COLUMNS;
    seq(PARTICLES_COUNT, k => GridParticle(k / COLUMNS, k % COLUMNS))
  }

  lemma GridIndex(i: int, j: int)
    requires 0 <= i < ROWS && 0 <= j < COLUMNS
    ensures 0 <= i * COLUMNS + j < PARTICLES_COUNT
    ensures (i * COLUMNS + j) / COLUMNS == i && (i * COLUMNS + j) % COLUMNS == j
  {
  }

  /** Pushing the particle of row i, column j extends the grid's prefix by one. */
  lemma GridPrefix(i: int, j: int)
    requires 0 <= i < ROWS && 0 <= j < COLUMNS
    ensures 0 <= i * COLUMNS + j < PARTICLES_COUNT
    ensures SolidGrid()[..i * COLUMNS + j + 1] == SolidGrid()[..i * COLUMNS + j] + [GridParticle(i, j)]
  {
    GridIndex(i, j);
    var n := i * COLUMNS + j;
    assert SolidGrid()[n] == GridParticle(i, j);
    assert SolidGrid()[..n + 1] == SolidGrid()[..n] + [SolidGrid()[n]];
  }

  /** Particle number i * 10 + j of the solid layout sits at
      (X_START + 10 j, Y_START + 10 i). */
  lemma SolidGridAt(i: int, j: int)
    requires 0 <= i < ROWS && 0 <= j < COLUMNS
    ensures 0 <= i * COLUMNS + j < PARTICLES_COUNT
    ensures SolidGrid()[i * COLUMNS + j] == Particle(X_START + 10.0 * j as real, Y_START + 10.0 * i as real, SOLID_COLOR)
  {
    GridIndex(i, j);
  }

  /** The range a random draw places a particle in: x in [containerX,
      containerX + 390) for both phases, y in [surface, surface + 215) when
      liquid and in [containerY, containerY + 440) when gas. */
  predicate Spawned(s: Phase, p: Particle)
  {
    CONTAINER_X <= p.x < CONTAINER_X + (CONTAINER_WIDTH - PARTICLE_RADIUS * 2.0) &&
    match s
    case Liquid => SURFACE <= p.y < SURFACE + (CONTAINER_HEIGHT / 2.0 - 10.0)
    case Gas => CONTAINER_Y <= p.y < CONTAINER_Y + (CONTAINER_HEIGHT - PARTICLE_RADIUS * 2.0)
    case Solid => false
  }

  /** A liquid or gas particle placed at random. */
  function Scatter(s: Phase, d: SpawnDraw): (p: Particle)
    requires s != Solid && Unit(d.rx) && Unit(d.ry)
    ensures p.color == PhaseColor(s) && Placed(s, p) && Spawned(s, p)
  {
    assert CONTAINER_WIDTH - PARTICLE_RADIUS * 2.0 == 390.0;
    assert CONTAINER_HEIGHT / 2.0 - 10.0 == 215.0 && CONTAINER_HEIGHT - PARTICLE_RADIUS * 2.0 == 440.0;
    assert d.rx * (CONTAINER_WIDTH - PARTICLE_RADIUS * 2.0) == d.rx * 390.0;
    assert d.ry * (CONTAINER_HEIGHT / 2.0 - 10.0) == d.ry * 215.0;
    assert d.ry * (CONTAINER_HEIGHT - PARTICLE_RADIUS * 2.0) == d.ry * 440.0;
    assert 0.0 <= d.rx * 390.0 < 390.0 && 0.0 <= d.ry * 215.0 < 215.0 && 0.0 <= d.ry * 440.0 < 440.0;
    if s == Liquid then
      Particle(CONTAINER_X + d.rx * (CONTAINER_WIDTH - PARTICLE_RADIUS * 2.0),
               CONTAINER_Y + CONTAINER_HEIGHT / 2.0 + d.ry * (CONTAINER_HEIGHT / 2.0 - 10.0),
               LIQUID_COLOR)
    else
      Particle(d.rx * (CONTAINER_WIDTH - PARTICLE_RADIUS * 2.0) + CONTAINER_X,
               d.ry * (CONTAINER_HEIGHT - PARTICLE_RADIUS * 2.0) + CONTAINER_Y,
               GAS_COLOR)
  }

  /** What createParticles builds for a phase from a sequence of draws. */
  function Layout(s: Phase, draws: seq<SpawnDraw>): (ps: seq<Particle>)
    requires s == Solid || SpawnDraws(draws)
    ensures |ps| == PARTICLES_COUNT
    ensures forall k :: 0 <= k < |ps| ==> ps[k].color == PhaseColor(s) && Placed(s, ps[k])
    ensures s != Solid ==> forall k :: 0 <= k < |ps| ==> Spawned(s, ps[k])
  {
    if s == Solid then
      SolidGrid()
    else
      seq(PARTICLES_COUNT, k requires 0 <= k < PARTICLES_COUNT => Scatter(s, draws[k]))
  }

  /** The solid layout does not depend on the random draws. */
  lemma SolidLayoutDeterministic(d1: seq<SpawnDraw>, d2: seq<SpawnDraw>)
    ensures Layout(Solid, d1) == Layout(Solid, d2) == SolidGrid()
  {
  }

  /** A scattered particle may touch the left wall: the spawn range starts at
      CONTAINER_X, one radius left of where the frame update confines it. */
  lemma ScatterReachesWall()
    ensures Scatter(Liquid, SpawnDraw(0.0, 0.0)).x == CONTAINER_X < LEFT
    ensures Scatter(Gas, SpawnDraw(0.0, 0.0)).x == CONTAINER_X < LEFT
  {
  }

  // ---------------------------------------------------------------------
  // The per-frame update

  /** The `Math.random()` draws updateParticles makes for one particle: one
      per axis, and a third for the liquid's reset below the surface (the
      source draws it only when the reset happens). */
  datatype Jitter = Jitter(dx: real, dy: real, reset: real)

  predicate Jitters(js: seq<Jitter>, n: nat)
  {
    |js| == n && forall k :: 0 <= k < |js| ==> Unit(js[k].dx) && Unit(js[k].dy) && Unit(js[k].reset)
  }

  /** `if (v < lo || v > hi) v = Math.max(lo, Math.min(hi, v))`. */
  function Confine(v: real, lo: real, hi: real): (r: real)
    requires lo <= hi
    ensures lo <= r <= hi
    ensures lo <= v <= hi ==> r == v
    ensures v < lo ==> r == lo
    ensures v > hi ==> r == hi
  {
    if v < lo || v > hi then RMax(lo, RMin(hi, v)) else v
  }

  /** One frame's move of one particle. */
  function Move(s: Phase, p: Particle, j: Jitter): (q: Particle)
    requires Unit(j.dx) && Unit(j.dy) && Unit(j.reset)
    ensures q.color == p.color
    ensures s == Solid ==> q == p
    ensures s == Liquid ==> LEFT <= q.x <= RIGHT && SURFACE <= q.y
    ensures s == Gas ==> LEFT <= q.x <= RIGHT && TOP <= q.y <= BOTTOM
    ensures Placed(s, p) ==> Placed(s, q)
  {
    match s
    case Solid => p
    case Liquid =>
      var x := p.x + (j.dx * 2.0 - 1.0);
      var y := p.y + (j.dy * 2.0 - 1.0);
      Particle(Confine(x, LEFT, RIGHT), if y < SURFACE then SURFACE + j.reset * 5.0 else y, p.color)
    case Gas =>
      var x := p.x + (j.dx * 4.0 - 2.0);
      var y := p.y + (j.dy * 4.0 - 2.0);
      Particle(Confine(x, LEFT, RIGHT), Confine(y, TOP, BOTTOM), p.color)
  }

  /** A particle already inside the confinement bounds moves by at most one
      unit per axis in the liquid (up to five when it is put back below the
      surface) and two in the gas. */
  lemma MoveIsBounded(s: Phase, p: Particle, j: Jitter)
    requires Unit(j.dx) && Unit(j.dy) && Unit(j.reset)
    requires LEFT <= p.x <= RIGHT
    ensures s == Liquid ==> -1.0 <= Move(s, p, j).x - p.x <= 1.0
    ensures s == Liquid && SURFACE <= p.y ==> -1.0 <= Move(s, p, j).y - p.y < 5.0
    ensures s == Gas ==> -2.0 <= Move(s, p, j).x - p.x <= 2.0
    ensures s == Gas && TOP <= p.y <= BOTTOM ==> -2.0 <= Move(s, p, j).y - p.y <= 2.0
  {
  }

  /** The liquid update has no lower wall: a particle at the container's
      bottom bound can drift past it. */
  lemma LiquidHasNoFloor()
    ensures Placed(Liquid, Particle(400.0, BOTTOM, LIQUID_COLOR))
    ensures Move(Liquid, Particle(400.0, BOTTOM, LIQUID_COLOR), Jitter(0.5, 0.75, 0.0)).y == BOTTOM + 0.5
  {
  }

  /** One frame of updateParticles over the whole particle list. */
  function Frame(s: Phase, ps: seq<Particle>, js: seq<Jitter>): (r: seq<Particle>)
    requires Jitters(js, |ps|)
    ensures |r| == |ps|
    ensures forall k :: 0 <= k < |r| ==> r[k].color == ps[k].color
    ensures s == Solid ==> r == ps
    ensures s == Liquid ==> forall k :: 0 <= k < |r| ==> LEFT <= r[k].x <= RIGHT && SURFACE <= r[k].y
    ensures s == Gas ==> forall k :: 0 <= k < |r| ==> LEFT <= r[k].x <= RIGHT && TOP <= r[k].y <= BOTTOM
    ensures forall k :: 0 <= k < |r| && Placed(s, ps[k]) ==> Placed(s, r[k])
  {
    seq(|ps|, k requires 0 <= k < |ps| => Move(s, ps[k], js[k]))
  }

  /** The particle list the demo keeps for a phase: 50 particles of the
      phase's colour where the phase places them, on the grid when solid. */
  predicate Populated(s: Phase, ps: seq<Particle>)
  {
    |ps| == PARTICLES_COUNT &&
    (forall k :: 0 <= k < |ps| ==> ps[k].color == PhaseColor(s) && Placed(s, ps[k])) &&
    (s == Solid ==> ps == SolidGrid())
  }

  /** A frame keeps a phase's particle list populated: the count, the
      colours, the placement and, when solid, the grid. */
  lemma FramePopulated(s: Phase, ps: seq<Particle>, js: seq<Jitter>)
    requires Populated(s, ps) && Jitters(js, |ps|)
    ensures Populated(s, Frame(s, ps, js))
  {
    var r := Frame(s, ps, js);
    forall k | 0 <= k < |r|
      ensures r[k].color == PhaseColor(s) && Placed(s, r[k])
    {
      assert r[k].color == ps[k].color && Placed(s, ps[k]);
    }
  }

  // ---------------------------------------------------------------------
  // The three branches of createParticles, each pushing one particle at a time

  /** The solid branch: nested loops over the rows and the columns. */
  method BuildGrid() returns (ps: seq<Particle>)
    ensures ps == SolidGrid()
  {
    ps := [];
    var i := 0;
    while i < ROWS
      invariant 0 <= i <= ROWS
      invariant ps == SolidGrid()[..i * COLUMNS]
    {
      var j := 0;
      while j < COLUMNS
        invariant 0 <= j <= COLUMNS
        invariant ps == SolidGrid()[..i * COLUMNS + j]
      {
        var x := X_START + j as real * (PARTICLE_RADIUS * 2.0);
        var y := Y_START + i as real * (PARTICLE_RADIUS * 2.0);
        GridPrefix(i, j);
        ps := ps + [Particle(x, y, SOLID_COLOR)];
        j := j + 1;
      }
      assert i * COLUMNS + COLUMNS == (i + 1) * COLUMNS;
      i := i + 1;
    }
    assert SolidGrid()[..ROWS * COLUMNS] == SolidGrid();
  }

  /** The liquid branch: PARTICLES_COUNT particles in the lower half. */
  method ScatterLiquid(draws: seq<SpawnDraw>) returns (ps: seq<Particle>)
    requires SpawnDraws(draws)
    ensures ps == Layout(Liquid, draws)
  {
    ps := [];
    var i := 0;
    while i < PARTICLES_COUNT
      invariant 0 <= i <= PARTICLES_COUNT
      invariant ps == Layout(Liquid, draws)[..i]
    {
      var x := CONTAINER_X + draws[i].rx * (CONTAINER_WIDTH - PARTICLE_RADIUS * 2.0);
      var y := CONTAINER_Y + CONTAINER_HEIGHT / 2.0 + draws[i].ry * (CONTAINER_HEIGHT / 2.0 - 10.0);
      assert Layout(Liquid, draws)[..i + 1] == Layout(Liquid, draws)[..i] + [Particle(x, y, LIQUID_COLOR)];
      ps := ps + [Particle(x, y, LIQUID_COLOR)];
      i := i + 1;
    }
    assert Layout(Liquid, draws)[..PARTICLES_COUNT] == Layout(Liquid, draws);
  }

  /** The gas branch: PARTICLES_COUNT particles anywhere in the container. */
  method ScatterGas(draws: seq<SpawnDraw>) returns (ps: seq<Particle>)
    requires SpawnDraws(draws)
    ensures ps == Layout(Gas, draws)
  {
    ps := [];
    var i := 0;
    while i < PARTICLES_COUNT
      invariant 0 <= i <= PARTICLES_COUNT
      invariant ps == Layout(Gas, draws)[..i]
    {
      var x := draws[i].rx * (CONTAINER_WIDTH - PARTICLE_RADIUS * 2.0) + CONTAINER_X;
      var y := draws[i].ry * (CONTAINER_HEIGHT - PARTICLE_RADIUS * 2.0) + CONTAINER_Y;
      assert Layout(Gas, draws)[..i + 1] == Layout(Gas, draws)[..i] + [Particle(x, y, GAS_COLOR)];
      ps := ps + [Particle(x, y, GAS_COLOR)];
      i := i + 1;
    }
    assert Layout(Gas, draws)[..PARTICLES_COUNT] == Layout(Gas, draws);
  }

  // ---------------------------------------------------------------------
  // The demo's mutable state

  class PhaseDemo {
    var state: Phase
    var temperature: int
    var pressure: real
    var particles: seq<Particle>

    ghost function Current(): Conditions
      reads this
    {
      Conditions(state, temperature, pressure)
    }

    ghost predicate Valid()
      reads this
    {
      Consistent(Current()) && Populated(state, particles)
    }

    /** The initial solid state at 0 degrees and 1.0 atm, then createParticles(). */
    constructor ()
      ensures Valid()
      ensures Current() == INITIAL
      ensures particles == SolidGrid()
    {
      state := Solid;
      temperature := 0;
      pressure := INITIAL_PRESSURE;
      particles := [];
      new;
      CreateParticles([]);
    }

    /** Rebuilds the particle list for the current state. */
    method CreateParticles(draws: seq<SpawnDraw>)
      requires state == Solid || SpawnDraws(draws)
      modifies this`particles
      ensures particles == Layout(state, draws)
    {
      particles := [];
      if state == Solid {
        particles := BuildGrid();
      } else if state == Liquid {
        particles := ScatterLiquid(draws);
      } else {
        particles := ScatterGas(draws);
      }
    }

    /** Moves the temperature by one step and, when the phase changes,
        switches the state and regenerates the particles. */
    method Reheat(newTemperature: int, draws: seq<SpawnDraw>) returns (regenerated: bool)
      requires SpawnDraws(draws)
      modifies this`temperature, this`state, this`particles
      ensures temperature == newTemperature && state == Threshold(newTemperature)
      ensures regenerated == (state != old(state))
      ensures particles == if regenerated then Layout(state, draws) else old(particles)
    {
      temperature := newTemperature;
      var next := Transition(temperature, state);
      regenerated := next.Some?;
      if next.Some? {
        state := next.value;
        CreateParticles(draws);
      }
    }

    /** The keydown handler. `draws` are the random draws a regeneration
        would use; the result says whether createParticles ran. */
    method KeyDown(key: string, draws: seq<SpawnDraw>) returns (regenerated: bool)
      requires Valid()
      requires SpawnDraws(draws)
      modifies this
      ensures Valid()
      ensures Current() == Press(old(Current()), key)
      ensures regenerated == Regenerates(old(Current()), key)
      ensures regenerated == (state != old(state))
      ensures particles == if regenerated then Layout(state, draws) else old(particles)
    {
      regenerated := false;
      if key == "ArrowUp" {
        regenerated := Reheat(temperature + TEMPERATURE_STEP, draws);
      } else if key == "ArrowDown" {
        regenerated := Reheat(temperature - TEMPERATURE_STEP, draws);
      } else if key == "ArrowLeft" {
        pressure := RMax(MIN_PRESSURE, pressure - PRESSURE_STEP);
      } else if key == "ArrowRight" {
        pressure := RMin(MAX_PRESSURE, pressure + PRESSURE_STEP);
      }
    }

    /** updateParticles: one frame of motion; `jitters` holds one particle's
        draws per particle. */
    method UpdateParticles(jitters: seq<Jitter>)
      requires Valid()
      requires Jitters(jitters, |particles|)
      modifies this`particles
      ensures Valid()
      ensures particles == Frame(state, old(particles), jitters)
    {
      FramePopulated(state, particles, jitters);
      ghost var ps := particles;
      var n := |particles|;
      if state == Solid {
        // Solid particles keep their positions.
      } else if state == Liquid {
        var i := 0;
        while i < n
          invariant 0 <= i <= n == |particles|
          invariant forall k :: 0 <= k < i ==> particles[k] == Move(Liquid, ps[k], jitters[k])
          invariant forall k :: i <= k < n ==> particles[k] == ps[k]
        {
          var p := particles[i];
          var x := p.x + (jitters[i].dx * 2.0 - 1.0);
          var y := p.y + (jitters[i].dy * 2.0 - 1.0);
          if x < LEFT || x > RIGHT {
            x := RMax(LEFT, RMin(RIGHT, x));
          }
          if y < SURFACE {
            y := SURFACE + jitters[i].reset * 5.0;
          }
          assert Particle(x, y, p.color) == Move(Liquid, ps[i], jitters[i]);
          particles := particles[i := Particle(x, y, p.color)];
          i := i + 1;
        }
      } else {
        var i := 0;
        while i < n
          invariant 0 <= i <= n == |particles|
          invariant forall k :: 0 <= k < i ==> particles[k] == Move(Gas, ps[k], jitters[k])
          invariant forall k :: i <= k < n ==> particles[k] == ps[k]
        {
          var p := particles[i];
          var x := p.x + (jitters[i].dx * 4.0 - 2.0);
          var y := p.y + (jitters[i].dy * 4.0 - 2.0);
          if x < LEFT || x > RIGHT {
            x := RMax(LEFT, RMin(RIGHT, x));
          }
          if y < TOP || y > BOTTOM {
            y := RMax(TOP, RMin(BOTTOM, y));
          }
          assert Particle(x, y, p.color) == Move(Gas, ps[i], jitters[i]);
          particles := particles[i := Particle(x, y, p.color)];
          i := i + 1;
        }
      }
      assert particles == Frame(state, ps, jitters);
    }
  }
}
