/**
 * The goal flag: a point with a capture radius.  Capture is strict: an agent exactly at
 * the radius has not reached it.
 */
module Destinations {
  import opened Wrappers
  import opened Numerics

  const DestReached: int := 1
  const DestNotReached: int := 0

  class Destination {
    const lib: Math
    const xpos: real
    const ypos: real
    const radius: real
    const maxPoints: int
    /** The distance computed by the most recent capture check; absent before the first one. */
    var distFromDest: Option<real>

    constructor (lib: Math, xpos: real, ypos: real, radius: real)
      ensures this.lib == lib && this.xpos == xpos && this.ypos == ypos && this.radius == radius
      ensures maxPoints == 10
      ensures distFromDest == None
    {
      this.lib := lib;
      this.xpos := xpos;
      this.ypos := ypos;
      this.radius := radius;
      this.maxPoints := 10;
      this.distFromDest := None;
    }

    /** Distance from the flag to the agent at (agentX, agentY). */
    function DistanceTo(agentX: real, agentY: real): real {
      Norm(lib, xpos - agentX, ypos - agentY)
    }

    /** The capture verdict for an agent at (agentX, agentY). */
    function Verdict(agentX: real, agentY: real): (r: int)
      ensures r == DestReached || r == DestNotReached
      ensures r == DestReached <==> DistanceTo(agentX, agentY) < radius
    {
      if DistanceTo(agentX, agentY) < radius then DestReached else DestNotReached
    }

    method DestinationReached(agentX: real, agentY: real) returns (r: int)
      modifies this`distFromDest
      ensures distFromDest == Some(DistanceTo(agentX, agentY))
      ensures r == Verdict(agentX, agentY)
    {
      distFromDest := Some(Norm(lib, xpos - agentX, ypos - agentY));
      if distFromDest.value < radius {
        return DestReached;
      } else {
        return DestNotReached;
      }
    }
  }

  /** Capture stated on squared distance: for a non-negative radius, d < r exactly when d*d < r*r. */
  lemma CaptureBySquaredDistance(flag: Destination, agentX: real, agentY: real)
    requires Lawful(flag.lib) && 0.0 <= flag.radius
    ensures flag.Verdict(agentX, agentY) == DestReached
        <==> (flag.xpos - agentX) * (flag.xpos - agentX) + (flag.ypos - agentY) * (flag.ypos - agentY)
             < flag.radius * flag.radius
  {
    NormFacts(flag.lib, flag.xpos - agentX, flag.ypos - agentY);
    LessIffSquaresLess(flag.DistanceTo(agentX, agentY), flag.radius);
  }

  /** Strictness: the point at exactly `radius` east of the flag is not captured. */
  lemma BoundaryIsNotReached(flag: Destination)
    requires Lawful(flag.lib) && 0.0 <= flag.radius
    ensures flag.DistanceTo(flag.xpos + flag.radius, flag.ypos) == flag.radius
    ensures flag.Verdict(flag.xpos + flag.radius, flag.ypos) == DestNotReached
  {
    var r := flag.radius;
    var dx, dy := flag.xpos - (flag.xpos + r), flag.ypos - flag.ypos;
    assert dx * dx + dy * dy == r * r;
    NormIs(flag.lib, dx, dy, r);
  }
}
