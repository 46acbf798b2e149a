/**
 * The experiment driver: the network layer widths it derives from the checkpoints, and the
 * search for the evaluation with the highest fitness among those the controller recorded.
 */
module HybridControllerSim {
  import opened Wrappers
  import opened Numerics
  import opened Agents
  import opened Episodes
  import opened HybridControllers

  /** Layer widths of the network: the controller input, one hidden layer of 4, the two motors. */
  function Layers(checkpoints: seq<Point>): seq<int> {
    [4 + 2 * |checkpoints|, 4, 2]
  }

  /** The input layer is exactly as wide as the vector the evaluation feeds the network. */
  lemma LayersMatchControllerInput(s: Scene, p: Pose)
    requires 0.0 < MaxDistance(s.lib) && |s.target| > 0
    ensures |Layers(s.checkpoints)| == 3
    ensures Layers(s.checkpoints)[0] == |ControllerInput(s, p)|
    ensures Layers(s.checkpoints)[2] == 2
  {
    ControllerInputLayout(s, p);
  }

  /**
   * The index of the first strictly largest positive fitness; None when no fitness is positive,
   * the empty history included.
   */
  method FindIndexOfBestInd(sim: HybridController) returns (bestIndex: Option<nat>)
    ensures bestIndex.None? <==> forall j :: 0 <= j < |sim.fitnesses| ==> sim.fitnesses[j] <= 0.0
    ensures bestIndex.Some? ==>
      && bestIndex.value < |sim.fitnesses|
      && 0.0 < sim.fitnesses[bestIndex.value]
      && (forall j :: 0 <= j < |sim.fitnesses| ==> sim.fitnesses[j] <= sim.fitnesses[bestIndex.value])
      && (forall j :: 0 <= j < bestIndex.value ==> sim.fitnesses[j] < sim.fitnesses[bestIndex.value])
    ensures bestIndex.Some? && sim.Valid() ==> bestIndex.value < |sim.agentPaths|
  {
    var fitnesses := sim.fitnesses;
    var bestFitness := 0.0;
    bestIndex := None;
    var i := 0;
    while i < |fitnesses|
      invariant 0 <= i <= |fitnesses|
      invariant bestIndex.None? ==> bestFitness == 0.0
      invariant bestIndex.Some? ==> bestIndex.value < i && bestFitness == fitnesses[bestIndex.value] && 0.0 < bestFitness
      invariant forall j :: 0 <= j < i ==> fitnesses[j] <= bestFitness
      invariant bestIndex.Some? ==> forall j :: 0 <= j < bestIndex.value ==> fitnesses[j] < bestFitness
    {
      var f := fitnesses[i];
      if f > bestFitness {
        bestFitness := f;
        bestIndex := Some(i);
      }
      i := i + 1;
    }
  }
}
