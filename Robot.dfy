/** The robots of Lecture4/Solution/Task2.rb. A BasicRobot has a position, one of four
    orientations and a step size; it turns by moving through the list
    [north, east, south, west] and walks `step` units the way it faces. An AdvancedRobot
    adds a charge and a one-shot turbo that doubles the step for exactly one walk.

    Dafny has no subclassing here, so AdvancedRobot holds its BasicRobot part as `body`
    and its `walk` calls `body.Walk()` where the source calls `super`. Each method is
    specified by a pure function on the robot's state (`Pose`, `Advanced`), and the
    properties are proved about those functions. */
module Robot {

  datatype Orientation = North | East | South | West

  /** ORIENTATIONS, in clockwise order. */
  const Orientations: seq<Orientation> := [North, East, South, West]

  /** `ORIENTATIONS.index(o)`. */
  function IndexOf(o: Orientation): (i: nat)
    ensures i < |Orientations| && Orientations[i] == o
  {
    match o
    case North => 0
    case East => 1
    case South => 2
    case West => 3
  }

  /** The orientation after `turn_clockWise`. */
  function Clockwise(o: Orientation): Orientation
  {
    Orientations[(IndexOf(o) + 1) % 4]
  }

  /** The orientation after `turn_antiClockWise`. Ruby's `%` never returns a negative
      value for a positive divisor, like Dafny's, so index 0 - 1 wraps to 3. */
  function Anticlockwise(o: Orientation): Orientation
  {
    Orientations[(IndexOf(o) - 1) % 4]
  }

  /** The unit vector (dx, dy) of the way a robot faces; north is +y, east is +x. */
  function Direction(o: Orientation): (int, int)
  {
    match o
    case North => (0, 1)
    case East => (1, 0)
    case South => (0, -1)
    case West => (-1, 0)
  }

  /** The state of a BasicRobot as a value. */
  datatype Pose = Pose(x: int, y: int, orientation: Orientation, step: int)

  /** The pose after the basic `walk`. */
  function Walked(p: Pose): Pose
  {
    match p.orientation
    case North => p.(y := p.y + p.step)
    case East => p.(x := p.x + p.step)
    case South => p.(y := p.y - p.step)
    case West => p.(x := p.x - p.step)
  }

  /** Four clockwise turns restore the orientation, and each of them is a quarter turn to
      the right: the direction vector (dx, dy) becomes (dy, -dx). */
  lemma ClockwiseCycle(o: Orientation)
    ensures Clockwise(Clockwise(Clockwise(Clockwise(o)))) == o
    ensures Clockwise(o) != o
    ensures Direction(Clockwise(o)) == (Direction(o).1, -Direction(o).0)
  {
  }

  /** turn_antiClockWise undoes turn_clockWise and the other way round; north goes to west. */
  lemma AnticlockwiseInverse(o: Orientation)
    ensures Anticlockwise(Clockwise(o)) == o
    ensures Clockwise(Anticlockwise(o)) == o
    ensures Anticlockwise(North) == West
  {
  }

  /** walk moves the robot `step` units along its direction and changes nothing else: one
      coordinate changes by ±step, the other stays. */
  lemma WalkFollowsDirection(p: Pose)
    ensures var q := Walked(p);
            q.x == p.x + p.step * Direction(p.orientation).0 &&
            q.y == p.y + p.step * Direction(p.orientation).1 &&
            q.orientation == p.orientation && q.step == p.step
    ensures var q := Walked(p);
            (q.x == p.x && (q.y - p.y == p.step || p.y - q.y == p.step)) ||
            (q.y == p.y && (q.x - p.x == p.step || p.x - q.x == p.step))
  {
  }

  /** Walking, turning clockwise twice and walking again brings the robot back to where
      it started. */
  lemma {:induction false} WalkTurnAroundWalk(p: Pose)
    ensures var q := Walked(p);
            var r := Walked(q.(orientation := Clockwise(Clockwise(q.orientation))));
            r.x == p.x && r.y == p.y
  {
    var q := Walked(p);
    WalkFollowsDirection(p);
    ClockwiseCycle(p.orientation);
    ClockwiseCycle(Clockwise(p.orientation));
    WalkFollowsDirection(q.(orientation := Clockwise(Clockwise(q.orientation))));
  }

  /** The state of an AdvancedRobot as a value. */
  datatype Advanced = Advanced(pose: Pose, charge: int, turbo: bool)

  /** The invariant the class's own methods keep: the step is 2 exactly while turbo is
      armed, and turbo is armed only with charge left to pay for it. */
  predicate AdvancedValid(a: Advanced)
  {
    a.pose.step == (if a.turbo then 2 else 1) && (a.turbo ==> a.charge > 0)
  }

  /** The state after `turbo`: armed only when there is charge. */
  function Turboed(a: Advanced): Advanced
  {
    if a.charge > 0 then a.(turbo := true, pose := a.pose.(step := 2)) else a
  }

  /** The state after the overriding `walk`: a turbo walk spends one charge, walks, then
      resets the step to 1 and disarms turbo; any other walk is the basic one. */
  function AdvancedWalked(a: Advanced): Advanced
  {
    if a.turbo then Advanced(Walked(a.pose).(step := 1), a.charge - 1, false)
    else a.(pose := Walked(a.pose))
  }

  /** turbo arms the robot exactly when it has charge, and otherwise changes nothing. */
  lemma TurboArmsOnlyWithCharge(a: Advanced)
    requires AdvancedValid(a)
    ensures AdvancedValid(Turboed(a))
    ensures Turboed(a).turbo <==> a.turbo || a.charge > 0
    ensures a.charge <= 0 ==> Turboed(a) == a
    ensures Turboed(a).charge == a.charge && Turboed(a).pose.x == a.pose.x &&
            Turboed(a).pose.y == a.pose.y
  {
  }

  /** A turbo walk moves two units along the robot's direction, costs exactly one charge
      and leaves a disarmed robot with step 1; a walk without turbo moves one unit and
      costs nothing. */
  lemma {:induction false} AdvancedWalkCost(a: Advanced)
    requires AdvancedValid(a)
    ensures var b := AdvancedWalked(a);
            var (dx, dy) := Direction(a.pose.orientation);
            var d := if a.turbo then 2 else 1;
            AdvancedValid(b) && !b.turbo && b.pose.step == 1 &&
            b.pose.orientation == a.pose.orientation &&
            b.pose.x == a.pose.x + d * dx && b.pose.y == a.pose.y + d * dy &&
            b.charge == a.charge - (if a.turbo then 1 else 0)
  {
    WalkFollowsDirection(a.pose);
  }

  /** What a caller can do to an AdvancedRobot through the class's own methods. */
  datatype Command = TurnClockwise | TurnAnticlockwise | Walk | Turbo

  function Execute(a: Advanced, c: Command): Advanced
  {
    match c
    case TurnClockwise => a.(pose := a.pose.(orientation := Clockwise(a.pose.orientation)))
    case TurnAnticlockwise => a.(pose := a.pose.(orientation := Anticlockwise(a.pose.orientation)))
    case Walk => AdvancedWalked(a)
    case Turbo => Turboed(a)
  }

  function Run(a: Advanced, cs: seq<Command>): Advanced
    decreases |cs|
  {
    if cs == [] then a else Run(Execute(a, cs[0]), cs[1..])
  }

  /** Through the robot's own methods the invariant holds forever, the charge never grows,
      and a non-negative charge stays non-negative. */
  lemma {:induction false} RunKeepsCharge(a: Advanced, cs: seq<Command>)
    requires AdvancedValid(a)
    ensures AdvancedValid(Run(a, cs))
    ensures Run(a, cs).charge <= a.charge
    ensures a.charge >= 0 ==> Run(a, cs).charge >= 0
    decreases |cs|
  {
    if cs != [] {
      var b := Execute(a, cs[0]);
      if cs[0] == Walk {
        AdvancedWalkCost(a);
      } else if cs[0] == Turbo {
        TurboArmsOnlyWithCharge(a);
      }
      RunKeepsCharge(b, cs[1..]);
    }
  }

  /** BasicRobot. `id` is fixed; x, y, orientation and step change through its methods. */
  class BasicRobot {
    const id: string
    var x: int
    var y: int
    var orientation: Orientation
    var step: int

    function State(): Pose
      reads this
    {
      Pose(x, y, orientation, step)
    }

    /** A new robot faces north with step 1 at (x, y). */
    constructor (id: string, x: int, y: int)
      ensures this.id == id && State() == Pose(x, y, North, 1)
    {
      this.id := id;
      this.x := x;
      this.y := y;
      orientation := North;
      step := 1;
    }

    /** `turn_clockWise`: only the orientation changes. */
    method TurnClockwise()
      modifies this
      ensures State() == old(State()).(orientation := Clockwise(old(orientation)))
    {
      var currentIndex := IndexOf(orientation);
      orientation := Orientations[(currentIndex + 1) % 4];
    }

    /** `turn_antiClockWise`: only the orientation changes. */
    method TurnAnticlockwise()
      modifies this
      ensures State() == old(State()).(orientation := Anticlockwise(old(orientation)))
    {
      var currentIndex: int := IndexOf(orientation);
      orientation := Orientations[(currentIndex - 1) % 4];
    }

    /** `walk`: `step` units the way the robot faces. */
    method Walk()
      modifies this
      ensures State() == Walked(old(State()))
    {
      match orientation
      case North => y := y + step;
      case East => x := x + step;
      case South => y := y - step;
      case West => x := x - step;
    }
  }

  /** AdvancedRobot, with its BasicRobot part in `body`. */
  class AdvancedRobot {
    const body: BasicRobot
    var charge: int
    var turboState: bool

    function State(): Advanced
      reads this, body
    {
      Advanced(body.State(), charge, turboState)
    }

    ghost predicate Valid()
      reads this, body
    {
      AdvancedValid(State())
    }

    /** A new robot: the basic robot at (x, y) with the given charge and turbo off. */
    constructor (id: string, x: int, y: int, charge: int)
      ensures fresh(body) && body.id == id
      ensures State() == Advanced(Pose(x, y, North, 1), charge, false)
      ensures Valid()
    {
      body := new BasicRobot(id, x, y);
      this.charge := charge;
      turboState := false;
    }

    /** `turbo`. */
    method Turbo()
      modifies this, body
      ensures State() == Turboed(old(State()))
      ensures old(Valid()) ==> Valid()
    {
      if charge > 0 {
        turboState := true;
        body.step := 2;
      }
    }

    /** The overriding `walk`, around a call of the basic one. */
    method Walk()
      modifies this, body
      ensures State() == AdvancedWalked(old(State()))
      ensures old(Valid()) ==> Valid() && (old(charge) >= 0 ==> charge >= 0)
    {
      if turboState {
        charge := charge - 1;
        body.Walk();
        body.step := 1;
        turboState := false;
      } else {
        body.Walk();
      }
      if old(Valid()) {
        AdvancedWalkCost(old(State()));
      }
    }
  }

  /** The source's demo driver, as a client of the contracts above. */
  method Demo()
  {
    var basic := new BasicRobot("R2D2", 0, 0);
    basic.Walk();
    assert basic.x == 0 && basic.y == 1;
    basic.TurnClockwise();
    basic.Walk();
    assert basic.x == 1 && basic.y == 1 && basic.orientation == East;

    var advanced := new AdvancedRobot("C3PO", 0, 0, 5);
    advanced.Turbo();
    advanced.Walk();
    assert advanced.body.x == 0 && advanced.body.y == 2;
    assert advanced.charge == 4 && !advanced.turboState;
  }
}
