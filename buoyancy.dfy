/** The buoyancy simulator: one object of a chosen kind sits in a chosen
    liquid; every frame it rises one step towards the equilibrium line, sinks
    one step towards the floor line, or snaps to the liquid level, by the sign
    of liquid density minus object density. Keys choose the liquid and the
    object (rebuilding the object) and nudge the object's density.

    Vertical positions are canvas pixels (y grows downwards) and integers: the
    canvas height is an integer and every step and offset is one. Densities
    are exact reals. */
module Buoyancy {
  import opened Util

  datatype Liquid = Water | Oil | Mercury
  datatype ObjectKind = Ball | Rock | Wood | Balloon

  function LiquidName(l: Liquid): string
  {
    match l
    case Water => "Water"
    case Oil => "Oil"
    case Mercury => "Mercury"
  }

  /** The liquid density table, in g/cm3. */
  function LiquidDensity(l: Liquid): (d: real)
    ensures 0.8 <= d <= 13.6
  {
    match l
    case Water => 1.0
    case Oil => 0.8
    case Mercury => 13.6
  }

  /** The object density table, in g/cm3. Every entry is above the 0.1
      floor that ArrowDown clamps to. */
  function ObjectDensity(k: ObjectKind): (d: real)
    ensures 0.2 <= d <= 2.5 && d > MIN_DENSITY
  {
    match k
    case Ball => 0.9
    case Rock => 2.5
    case Wood => 0.4
    case Balloon => 0.2
  }

  /** The object colour table; distinct kinds get distinct colours. */
  function ObjectColor(k: ObjectKind): (c: string)
    ensures c in {"red", "gray", "brown", "yellow"}
    ensures c == "red" <==> k == Ball
    ensures c == "gray" <==> k == Rock
    ensures c == "brown" <==> k == Wood
    ensures c == "yellow" <==> k == Balloon
  {
    match k
    case Ball => "red"
    case Rock => "gray"
    case Wood => "brown"
    case Balloon => "yellow"
  }

  /** The colour the liquid is drawn in, by liquid name; any name other than
      Oil and Mercury is drawn as water. */
  function LiquidColor(name: string): (c: string)
    ensures c == "orange" <==> name == "Oil"
    ensures c == "gray" <==> name == "Mercury"
    ensures c == "blue" <==> name != "Oil" && name != "Mercury"
  {
    if name == "Oil" then "orange"
    else if name == "Mercury" then "gray"
    else "blue"
  }

  /** Each selectable liquid is drawn in its own colour. */
  lemma LiquidColorsDistinct(a: Liquid, b: Liquid)
    ensures LiquidColor(LiquidName(a)) == LiquidColor(LiquidName(b)) <==> a == b
  {
  }

  const OBJECT_RADIUS: int := 40
  const STEP_SIZE: int := 1
  const DENSITY_STEP: real := 0.01
  const MIN_DENSITY: real := 0.1

  /** The top of the liquid, 100 pixels above the canvas bottom. */
  function WaterLevel(height: int): int { height - 100 }

  /** The y a freshly built object starts at. */
  function StartY(height: int): int { height - OBJECT_RADIUS - 10 }

  /** The equilibrium line a floating object rises to and stops at. */
  function FloatLine(height: int): int { WaterLevel(height) - OBJECT_RADIUS * 2 }

  /** The floor line a sinking object stops at. */
  function FloorLine(height: int): int { height - OBJECT_RADIUS * 2 }

  /** Where a neutrally buoyant object is put: the liquid level. */
  function NeutralY(height: int): int { WaterLevel(height) - OBJECT_RADIUS }

  /** The band an object's y stays in: from the equilibrium line down to the start. */
  predicate InBand(height: int, y: int)
  {
    FloatLine(height) <= y <= StartY(height)
  }

  lemma Lines(height: int)
    ensures StartY(height) == height - 50
    ensures FloatLine(height) == height - 180
    ensures FloorLine(height) == height - 80
    ensures NeutralY(height) == height - 140
  {
  }

  // ---------------------------------------------------------------------
  // The frame update and the explanation

  /** The three branches of updatePosition. */
  datatype Branch = Float | Sink | Neutral

  /** The branch updatePosition takes, by the sign of the buoyant force
      liquidDensity - density. */
  function UpdateBranch(liquidDensity: real, density: real): (b: Branch)
    ensures b == Float <==> density < liquidDensity
    ensures b == Sink <==> density > liquidDensity
    ensures b == Neutral <==> density == liquidDensity
  {
    var buoyantForce := liquidDensity - density;
    if buoyantForce > 0.0 then Float else if buoyantForce < 0.0 then Sink else Neutral
  }

  /** The y after one frame. */
  function NextY(liquidDensity: real, density: real, y: int, height: int): (r: int)
    ensures UpdateBranch(liquidDensity, density) == Float ==>
              FloatLine(height) <= r && (r == FloatLine(height) || r == y - STEP_SIZE)
    ensures UpdateBranch(liquidDensity, density) == Float && y > FloatLine(height) ==> r == y - STEP_SIZE
    ensures UpdateBranch(liquidDensity, density) == Float && y >= FloatLine(height) ==> y - STEP_SIZE <= r <= y
    ensures UpdateBranch(liquidDensity, density) == Sink ==>
              r <= FloorLine(height) && (r == FloorLine(height) || r == y + STEP_SIZE)
    ensures UpdateBranch(liquidDensity, density) == Sink && y < FloorLine(height) ==> r == y + STEP_SIZE
    ensures UpdateBranch(liquidDensity, density) == Neutral ==> r == NeutralY(height)
    ensures InBand(height, y) ==> InBand(height, r)
  {
    match UpdateBranch(liquidDensity, density)
    case Float => Max(FloatLine(height), y - STEP_SIZE)
    case Sink => Min(FloorLine(height), y + STEP_SIZE)
    case Neutral => NeutralY(height)
  }

  const FLOATS: string := "Object floats!"
  const NEUTRAL: string := "Object is neutrally buoyant."
  const SINKS: string := "Object sinks!"

  /** getExplanation: the text shown, which names the branch updatePosition takes. */
  function GetExplanation(objectDensity: real, liquidDensity: real): (s: string)
    ensures s == FLOATS <==> UpdateBranch(liquidDensity, objectDensity) == Float
    ensures s == SINKS <==> UpdateBranch(liquidDensity, objectDensity) == Sink
    ensures s == NEUTRAL <==> UpdateBranch(liquidDensity, objectDensity) == Neutral
  {
    if objectDensity < liquidDensity then FLOATS
    else if objectDensity == liquidDensity then NEUTRAL
    else SINKS
  }

  /** Which table object floats in which table liquid: wood and balloons
      float everywhere, a ball floats in water and mercury but sinks in oil, a
      rock sinks in water and oil and floats in mercury. */
  lemma FloatTable(l: Liquid, k: ObjectKind)
    ensures UpdateBranch(LiquidDensity(l), ObjectDensity(k)) == Sink <==>
              (k == Rock && l != Mercury) || (k == Ball && l == Oil)
  {
  }

  /** No pair from the two density tables is neutrally buoyant: before any
      density adjustment the object either floats or sinks. */
  lemma NoTablePairIsNeutral(l: Liquid, k: ObjectKind)
    ensures UpdateBranch(LiquidDensity(l), ObjectDensity(k)) != Neutral
  {
  }

  /** y after k frames with the densities held fixed. */
  function Frames(liquidDensity: real, density: real, y: int, height: int, k: nat): int
    decreases k
  {
    if k == 0 then y else Frames(liquidDensity, density, NextY(liquidDensity, density, y, height), height, k - 1)
  }

  /** A y on the equilibrium line (floating) or the floor line (sinking), or
      at the liquid level (neutral), is a fixpoint of the frame update. */
  lemma ClampFixpoints(liquidDensity: real, density: real, height: int)
    ensures UpdateBranch(liquidDensity, density) == Float ==>
              NextY(liquidDensity, density, FloatLine(height), height) == FloatLine(height)
    ensures UpdateBranch(liquidDensity, density) == Sink ==>
              NextY(liquidDensity, density, FloorLine(height), height) == FloorLine(height)
    ensures UpdateBranch(liquidDensity, density) == Neutral ==>
              NextY(liquidDensity, density, NeutralY(height), height) == NeutralY(height)
  {
  }

  /** The neutral update is idempotent: two frames give what one does, whatever the start. */
  lemma NeutralIdempotent(liquidDensity: real, density: real, y: int, height: int)
    requires UpdateBranch(liquidDensity, density) == Neutral
    ensures NextY(liquidDensity, density, NextY(liquidDensity, density, y, height), height)
            == NextY(liquidDensity, density, y, height)
  {
  }

  /** After k floating frames from at or below the equilibrium line, y is
      max(line, y0 - k): one step up per frame until the line, then rest. */
  lemma {:induction false} FloatFrames(liquidDensity: real, density: real, y: int, height: int, k: nat)
    requires UpdateBranch(liquidDensity, density) == Float
    requires y >= FloatLine(height)
    ensures Frames(liquidDensity, density, y, height, k) == Max(FloatLine(height), y - k)
    decreases k
  {
    if k > 0 {
      var y' := NextY(liquidDensity, density, y, height);
      FloatFrames(liquidDensity, density, y', height, k - 1);
    }
  }

  /** After k sinking frames from at or above the floor line, y is min(floor, y0 + k). */
  lemma {:induction false} SinkFrames(liquidDensity: real, density: real, y: int, height: int, k: nat)
    requires UpdateBranch(liquidDensity, density) == Sink
    requires y <= FloorLine(height)
    ensures Frames(liquidDensity, density, y, height, k) == Min(FloorLine(height), y + k)
    decreases k
  {
    if k > 0 {
      var y' := NextY(liquidDensity, density, y, height);
      SinkFrames(liquidDensity, density, y', height, k - 1);
    }
  }

  /** Whatever the start, after one or more frames a floating object is never
      above the equilibrium line and a sinking one never below the floor line. */
  lemma {:induction false} FramesStayClamped(liquidDensity: real, density: real, y: int, height: int, k: nat)
    requires k >= 1
    ensures UpdateBranch(liquidDensity, density) == Float ==>
              Frames(liquidDensity, density, y, height, k) >= FloatLine(height)
    ensures UpdateBranch(liquidDensity, density) == Sink ==>
              Frames(liquidDensity, density, y, height, k) <= FloorLine(height)
    ensures UpdateBranch(liquidDensity, density) == Neutral ==>
              Frames(liquidDensity, density, y, height, k) == NeutralY(height)
    decreases k
  {
    if k > 1 {
      FramesStayClamped(liquidDensity, density, NextY(liquidDensity, density, y, height), height, k - 1);
    }
  }

  /** A freshly built object that sinks starts below the floor line: its first
      frame moves it up 30 pixels onto the line, where it then stays. */
  lemma {:induction false} SinkFromStart(liquidDensity: real, density: real, height: int, k: nat)
    requires UpdateBranch(liquidDensity, density) == Sink
    requires k >= 1
    ensures NextY(liquidDensity, density, StartY(height), height) == height - 80
    ensures Frames(liquidDensity, density, StartY(height), height, k) == FloorLine(height)
  {
    SinkFrames(liquidDensity, density, FloorLine(height), height, k - 1);
  }

  // ---------------------------------------------------------------------
  // Keys

  /** The liquid a key selects, if any. */
  function LiquidKey(key: string): (r: Option<Liquid>)
    ensures r == Some(Water) <==> key == "w" || key == "W"
    ensures r == Some(Oil) <==> key == "o" || key == "O"
    ensures r == Some(Mercury) <==> key == "m" || key == "M"
    ensures r.Some? ==> |key| == 1
  {
    if key == "w" || key == "W" then Some(Water)
    else if key == "o" || key == "O" then Some(Oil)
    else if key == "m" || key == "M" then Some(Mercury)
    else None
  }

  /** The object a key selects, if any. */
  function ObjectKey(key: string): (r: Option<ObjectKind>)
    ensures r == Some(Ball) <==> key == "1"
    ensures r == Some(Rock) <==> key == "2"
    ensures r == Some(Wood) <==> key == "3"
    ensures r == Some(Balloon) <==> key == "4"
    ensures r.Some? ==> |key| == 1
  {
    if key == "1" then Some(Ball)
    else if key == "2" then Some(Rock)
    else if key == "3" then Some(Wood)
    else if key == "4" then Some(Balloon)
    else None
  }

  /** Whether a key rebuilds the object. */
  predicate Resets(key: string)
  {
    LiquidKey(key).Some? || ObjectKey(key).Some?
  }

  /** A key selects at most one thing: a liquid, an object, or a density nudge. */
  lemma KeyGroupsDisjoint(key: string)
    ensures !(LiquidKey(key).Some? && ObjectKey(key).Some?)
    ensures Resets(key) ==> key != "ArrowUp" && key != "ArrowDown"
  {
  }

  /** The object's density after a key press that does not rebuild it. */
  function DensityAfter(density: real, key: string): (d: real)
    ensures key == "ArrowUp" ==> d == density + DENSITY_STEP
    ensures key == "ArrowDown" ==> d >= MIN_DENSITY && (d == MIN_DENSITY || d == density - DENSITY_STEP)
    ensures key == "ArrowDown" && density - DENSITY_STEP >= MIN_DENSITY ==> d == density - DENSITY_STEP
    ensures key != "ArrowUp" && key != "ArrowDown" ==> d == density
  {
    if key == "ArrowUp" then density + DENSITY_STEP
    else if key == "ArrowDown" then RMax(MIN_DENSITY, density - DENSITY_STEP)
    else density
  }

  /** The density after n ArrowDown presses. */
  function PressDown(density: real, n: nat): real
    decreases n
  {
    if n == 0 then density else PressDown(DensityAfter(density, "ArrowDown"), n - 1)
  }

  /** n ArrowDown presses lower the density by 0.01 each, down to 0.1 and no
      further. */
  lemma {:induction false} PressDownClamps(density: real, n: nat)
    requires density >= MIN_DENSITY
    ensures PressDown(density, n) == RMax(MIN_DENSITY, density - n as real * DENSITY_STEP)
    ensures PressDown(density, n) >= MIN_DENSITY
    decreases n
  {
    if n > 0 {
      PressDownClamps(DensityAfter(density, "ArrowDown"), n - 1);
    }
  }

  // ---------------------------------------------------------------------
  // The mutable state

  class BuoyancyObject {
    const kind: ObjectKind
    var density: real
    const color: string
    const x: real
    var y: int

    /** A fresh object of a kind, centred horizontally at its start height. */
    constructor (kind: ObjectKind, width: nat, height: nat)
      ensures this.kind == kind && density == ObjectDensity(kind) && color == ObjectColor(kind)
      ensures x == width as real / 2.0 && y == StartY(height)
    {
      this.kind := kind;
      density := ObjectDensity(kind);
      color := ObjectColor(kind);
      x := width as real / 2.0;
      y := height - OBJECT_RADIUS - 10;
    }

    /** updatePosition: one frame's move in a liquid of the given density. */
    method UpdatePosition(liquidDensity: real, height: int)
      modifies this`y
      ensures y == NextY(liquidDensity, density, old(y), height)
    {
      var buoyantForce := liquidDensity - density;
      if buoyantForce > 0.0 {
        y := Max(WaterLevel(height) - OBJECT_RADIUS * 2, y - STEP_SIZE);
      } else if buoyantForce < 0.0 {
        y := Min(height - OBJECT_RADIUS * 2, y + STEP_SIZE);
      } else {
        y := WaterLevel(height) - OBJECT_RADIUS;
      }
    }
  }

  class Simulation {
    const width: nat
    const height: nat
    var selectedLiquid: Liquid
    var selectedObject: ObjectKind
    var obj: BuoyancyObject

    /** The object is of the selected kind, keeps its kind's colour, is
        centred, has density at least 0.1 and stays in its band. */
    ghost predicate Valid()
      reads this, obj
    {
      obj.kind == selectedObject && obj.color == ObjectColor(obj.kind) &&
      obj.x == width as real / 2.0 && obj.density >= MIN_DENSITY && InBand(height, obj.y)
    }

    /** Water and a ball, freshly built. */
    constructor (width: nat, height: nat)
      ensures Valid() && fresh(obj)
      ensures this.width == width && this.height == height
      ensures selectedLiquid == Water && selectedObject == Ball
      ensures obj.density == ObjectDensity(Ball) && obj.y == StartY(height)
    {
      this.width := width;
      this.height := height;
      selectedLiquid := Water;
      selectedObject := Ball;
      obj := new BuoyancyObject(Ball, width, height);
    }

    /** One frame of draw(): the object's position update. */
    method Frame()
      requires Valid()
      modifies obj`y
      ensures Valid()
      ensures obj.y == NextY(LiquidDensity(selectedLiquid), obj.density, old(obj.y), height)
    {
      obj.UpdatePosition(LiquidDensity(selectedLiquid), height);
    }

    /** The explanation updateInfo shows for the current state. */
    function Explanation(): (s: string)
      reads this, obj
      ensures s == FLOATS <==> UpdateBranch(LiquidDensity(selectedLiquid), obj.density) == Float
      ensures s == SINKS <==> UpdateBranch(LiquidDensity(selectedLiquid), obj.density) == Sink
      ensures s == NEUTRAL <==> UpdateBranch(LiquidDensity(selectedLiquid), obj.density) == Neutral
    {
      GetExplanation(obj.density, LiquidDensity(selectedLiquid))
    }

    /** The keydown handler. */
    method KeyDown(key: string)
      requires Valid()
      modifies this, obj
      ensures Valid()
      ensures selectedLiquid == if LiquidKey(key).Some? then LiquidKey(key).value else old(selectedLiquid)
      ensures selectedObject == if ObjectKey(key).Some? then ObjectKey(key).value else old(selectedObject)
      ensures Resets(key) ==>
                fresh(obj) && obj.kind == selectedObject &&
                obj.density == ObjectDensity(selectedObject) && obj.y == StartY(height)
      ensures !Resets(key) ==>
                obj == old(obj) && obj.y == old(obj.y) && obj.density == DensityAfter(old(obj.density), key)
    {
      var liquid := LiquidKey(key);
      if liquid.Some? {
        selectedLiquid := liquid.value;
        obj := new BuoyancyObject(selectedObject, width, height);
      }
      var kind := ObjectKey(key);
      if kind.Some? {
        selectedObject := kind.value;
        obj := new BuoyancyObject(selectedObject, width, height);
      }
      if key == "ArrowUp" {
        obj.density := obj.density + DENSITY_STEP;
      }
      if key == "ArrowDown" {
        obj.density := RMax(MIN_DENSITY, obj.density - DENSITY_STEP);
      }
    }
  }
}
