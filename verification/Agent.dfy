/**
 * The two-wheeled Braitenberg agent: a pose, two motors, and two light sensors mounted at
 * radius 1 and at -45 and +45 degrees from the heading.
 */
module Agents {
  import opened Wrappers
  import opened Numerics
  import opened Destinations

  /** Speed gain: velocity = Alpha * (LM + RM). */
  const Alpha: real := 1.0
  /** Turning gain: the heading changes by Beta * (RM - LM) per update. */
  const Beta: real := 0.1
  /** Distance of each sensor from the agent's centre. */
  const SensorRadius: real := 1.0

  /** Angular offset of each sensor from the heading: pi/4. */
  function SensOffset(lib: Math): real { lib.pi / 4.0 }

  /** Normalisation range of the sensors, the diagonal of the 100 x 100 arena. */
  function MaxDistance(lib: Math): (r: real)
    ensures Lawful(lib) ==> 0.0 < r
  {
    lib.sqrt(100.0 * 100.0 + 100.0 * 100.0)
  }

  /** The neural controller's forward pass: input vector to a matrix of outputs. */
  type Network = seq<real> -> seq<seq<real>>

  datatype Pose = Pose(x: real, y: real, direction: real)

  function Position(p: Pose): Point { Point(p.x, p.y) }

  function Velocity(lm: real, rm: real): real { Alpha * (lm + rm) }

  /** The pose after one differential-drive update: turn first, then translate along the new heading. */
  function Advance(lib: Math, p: Pose, lm: real, rm: real): Pose {
    var heading := p.direction + Beta * (rm - lm);
    var v := Velocity(lm, rm);
    Pose(p.x + v * lib.cos(heading), p.y + v * lib.sin(heading), heading)
  }

  function LeftSensorLoc(lib: Math, p: Pose): Point {
    Point(p.x + SensorRadius * lib.cos(p.direction - SensOffset(lib)),
          p.y + SensorRadius * lib.sin(p.direction - SensOffset(lib)))
  }

  function RightSensorLoc(lib: Math, p: Pose): Point {
    Point(p.x + SensorRadius * lib.cos(p.direction + SensOffset(lib)),
          p.y + SensorRadius * lib.sin(p.direction + SensOffset(lib)))
  }

  /** A sensor's activation: 1 minus its distance to the flag over MaxDistance, not clamped. */
  function Activation(lib: Math, loc: Point, flag: Destination): real
    requires 0.0 < MaxDistance(lib)
  {
    1.0 - Norm(lib, loc.y - flag.ypos, loc.x - flag.xpos) / MaxDistance(lib)
  }

  class Agent {
    const lib: Math
    var x: real
    var y: real
    var direction: real
    var velocity: real
    var LM: real
    var RM: real
    var leftSensor: real
    var rightSensor: real
    var leftSensLocX: real
    var leftSensLocY: real
    var rightSensLocX: real
    var rightSensLocY: real

    function CurrentPose(): Pose
      reads this
    {
      Pose(x, y, direction)
    }

    /** The sensor locations are those of the current pose. */
    ghost predicate Valid()
      reads this
    {
      && Point(leftSensLocX, leftSensLocY) == LeftSensorLoc(lib, CurrentPose())
      && Point(rightSensLocX, rightSensLocY) == RightSensorLoc(lib, CurrentPose())
    }

    /** Every agent starts at the origin facing angle 0; `start` is overwritten. */
    constructor (lib: Math, start: Point)
      ensures this.lib == lib
      ensures CurrentPose() == Pose(0.0, 0.0, 0.0) && velocity == 0.0
      ensures LM == 0.0 && RM == 0.0 && leftSensor == 0.0 && rightSensor == 0.0
      ensures Valid()
    {
      this.lib := lib;
      x, y := start.x, start.y;
      x := 0.0;
      y := 0.0;
      RM := 0.0;
      LM := 0.0;
      leftSensor := 0.0;
      rightSensor := 0.0;
      direction := 0.0;
      velocity := 0.0;
      leftSensLocX := SensorRadius * lib.cos(0.0 - SensOffset(lib));
      leftSensLocY := SensorRadius * lib.sin(0.0 - SensOffset(lib));
      rightSensLocX := SensorRadius * lib.cos(SensOffset(lib) + 0.0);
      rightSensLocY := SensorRadius * lib.sin(SensOffset(lib) + 0.0);
    }

    /** Sets both sensor activations and reports whether the agent's own position is captured. */
    method Sense(flag: Destination) returns (reached: int)
      requires 0.0 < MaxDistance(lib)
      modifies this`leftSensor, this`rightSensor, flag`distFromDest
      ensures leftSensor == Activation(lib, Point(leftSensLocX, leftSensLocY), flag)
      ensures rightSensor == Activation(lib, Point(rightSensLocX, rightSensLocY), flag)
      ensures reached == flag.Verdict(x, y)
      ensures flag.distFromDest == Some(flag.DistanceTo(x, y))
    {
      var maxDistance := MaxDistance(lib);
      var leftDist := Norm(lib, leftSensLocY - flag.ypos, leftSensLocX - flag.xpos);
      var rightDist := Norm(lib, rightSensLocY - flag.ypos, rightSensLocX - flag.xpos);
      leftSensor := 1.0 - leftDist / maxDistance;
      rightSensor := 1.0 - rightDist / maxDistance;
      reached := flag.DestinationReached(x, y);
    }

    /** Reads the motor pair from the first output row of the controller, then updates once. */
    method Move(net: Network, inputs: seq<real>)
      requires |net(inputs)| > 0 && |net(inputs)[0]| == 2
      modifies this
      ensures LM == net(inputs)[0][0] && RM == net(inputs)[0][1]
      ensures CurrentPose() == Advance(lib, old(CurrentPose()), LM, RM)
      ensures velocity == Velocity(LM, RM)
      ensures leftSensor == old(leftSensor) && rightSensor == old(rightSensor)
      ensures Valid()
    {
      var motorVals := net(inputs);
      LM, RM := motorVals[0][0], motorVals[0][1];
      Update();
    }

    method Update()
      modifies this
      ensures CurrentPose() == Advance(lib, old(CurrentPose()), LM, RM)
      ensures velocity == Velocity(LM, RM)
      ensures LM == old(LM) && RM == old(RM)
      ensures leftSensor == old(leftSensor) && rightSensor == old(rightSensor)
      ensures Valid()
    {
      var v := Velocity(LM, RM);
      var next := Advance(lib, CurrentPose(), LM, RM);
      var left, right := LeftSensorLoc(lib, next), RightSensorLoc(lib, next);
      velocity, direction, x, y := v, next.direction, next.x, next.y;
      leftSensLocX, leftSensLocY := left.x, left.y;
      rightSensLocX, rightSensLocY := right.x, right.y;
    }
  }

  /** One update moves the agent by exactly |velocity|, whatever the heading. */
  lemma StepLength(lib: Math, p: Pose, lm: real, rm: real)
    requires Lawful(lib)
    ensures Dist(lib, Position(Advance(lib, p, lm, rm)), Position(p)) == Abs(Velocity(lm, rm))
  {
    var q := Advance(lib, p, lm, rm);
    var v := Velocity(lm, rm);
    var c, s := lib.cos(q.direction), lib.sin(q.direction);
    assert c * c + s * s == 1.0;
    var dx, dy := q.x - p.x, q.y - p.y;
    assert dx == v * c && dy == v * s;
    calc {
      dx * dx + dy * dy;
      (v * c) * (v * c) + (v * s) * (v * s);
      v * v * (c * c + s * s);
      v * v;
    }
    assert v * v == Abs(v) * Abs(v);
    NormIs(lib, dx, dy, Abs(v));
  }

  /** Equal motor commands leave the heading alone and move the agent 2*Alpha*v along it. */
  lemma EqualMotorsDriveStraight(lib: Math, p: Pose, v: real)
    requires Lawful(lib)
    ensures Advance(lib, p, v, v).direction == p.direction
    ensures Advance(lib, p, v, v).x == p.x + 2.0 * Alpha * v * lib.cos(p.direction)
    ensures Advance(lib, p, v, v).y == p.y + 2.0 * Alpha * v * lib.sin(p.direction)
    ensures Dist(lib, Position(Advance(lib, p, v, v)), Position(p)) == Abs(2.0 * Alpha * v)
  {
    StepLength(lib, p, v, v);
  }

  /** Both sensors sit exactly SensorRadius away from the agent's position. */
  lemma SensorsAtFixedRadius(lib: Math, p: Pose)
    requires Lawful(lib)
    ensures Dist(lib, LeftSensorLoc(lib, p), Position(p)) == SensorRadius
    ensures Dist(lib, RightSensorLoc(lib, p), Position(p)) == SensorRadius
  {
    var a, b := p.direction - SensOffset(lib), p.direction + SensOffset(lib);
    assert lib.cos(a) * lib.cos(a) + lib.sin(a) * lib.sin(a) == 1.0;
    assert lib.cos(b) * lib.cos(b) + lib.sin(b) * lib.sin(b) == 1.0;
    var l, r := LeftSensorLoc(lib, p), RightSensorLoc(lib, p);
    assert l.x - p.x == lib.cos(a) && l.y - p.y == lib.sin(a);
    assert r.x - p.x == lib.cos(b) && r.y - p.y == lib.sin(b);
    NormIs(lib, l.x - p.x, l.y - p.y, 1.0);
    NormIs(lib, r.x - p.x, r.y - p.y, 1.0);
  }

  /** A sensor reads exactly 1 precisely when it sits on the flag. */
  lemma ActivationIsOneIffAtFlag(lib: Math, loc: Point, flag: Destination)
    requires Lawful(lib)
    ensures Activation(lib, loc, flag) == 1.0 <==> loc == Point(flag.xpos, flag.ypos)
  {
    var n := Norm(lib, loc.y - flag.ypos, loc.x - flag.xpos);
    NormFacts(lib, loc.y - flag.ypos, loc.x - flag.xpos);
    var m := MaxDistance(lib);
    assert Activation(lib, loc, flag) == 1.0 - n / m;
    assert n / m == 0.0 <==> n == 0.0;
  }

  /** A sensor at the full normalisation range from the flag reads 0. */
  lemma ActivationIsZeroAtMaxRange(lib: Math, loc: Point, flag: Destination)
    requires Lawful(lib)
    requires Norm(lib, loc.y - flag.ypos, loc.x - flag.xpos) == MaxDistance(lib)
    ensures Activation(lib, loc, flag) == 0.0
  {
    assert 0.0 < MaxDistance(lib);
  }

  /** The pose after k equal-motor updates (v, v) from the origin facing angle 0. */
  function StraightPose(lib: Math, v: real, k: nat): Pose {
    if k == 0 then Pose(0.0, 0.0, 0.0) else Advance(lib, StraightPose(lib, v, k - 1), v, v)
  }

  /** Equal-motor updates keep heading 0 and advance 2*Alpha*v along it each time. */
  lemma {:induction false} StraightPoseClosedForm(lib: Math, v: real, k: nat)
    ensures StraightPose(lib, v, k)
      == Pose(k as real * (2.0 * Alpha * v) * lib.cos(0.0), k as real * (2.0 * Alpha * v) * lib.sin(0.0), 0.0)
  {
    if k > 0 {
      StraightPoseClosedForm(lib, v, k - 1);
      var d, c, sn := 2.0 * Alpha * v, lib.cos(0.0), lib.sin(0.0);
      var j := (k - 1) as real;
      assert Velocity(v, v) == d;
      assert j * d * c + d * c == (j + 1.0) * d * c;
      assert j * d * sn + d * sn == (j + 1.0) * d * sn;
    }
  }

  /** Each equal-motor update moves the agent by exactly |2*Alpha*v|. */
  lemma StraightStepLength(lib: Math, v: real, k: nat)
    requires Lawful(lib)
    ensures Dist(lib, Position(StraightPose(lib, v, k + 1)), Position(StraightPose(lib, v, k))) == Abs(2.0 * Alpha * v)
  {
    StepLength(lib, StraightPose(lib, v, k), v, v);
    assert Velocity(v, v) == 2.0 * Alpha * v;
  }

  /** Every recorded position is that of the matching number of equal-motor updates. */
  ghost predicate OnStraightLine(lib: Math, v: real, t: seq<Point>) {
    forall k :: 0 <= k < |t| ==> t[k] == Position(StraightPose(lib, v, k))
  }
}
