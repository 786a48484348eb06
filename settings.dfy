/**
 * The compile-time constants of the tag simulator that the engine's
 * behaviour depends on: simulation size, game length and immunity, agent
 * radius and tag cooldown, the network shape and the mutation defaults.
 */
module Settings {
  import opened Utility

  /** Number of games played side by side in one generation. */
  const ParallelGames: nat := 100
  /** A save is written every this many generations (when autosave is on). */
  const AutoSaveFreq: nat := 250

  /** The play area: a circle of radius 350 centred in the 800x800 window. */
  const WindowSize := Vec2(800.0, 800.0)
  const Bounds := CircularBorder(Vec2(400.0, 400.0), 350.0)

  const AgentsPerGame: nat := 2
  const GameFrameLength: nat := 2000
  const GameStartImmunity: nat := 50

  const MaxSpeed: real := 16.5
  const Radius: real := 30.0
  const TagCooldownAmount: nat := 50

  /** NN_dims: 5 inputs per agent, two hidden layers of 18, 2 outputs. */
  const NetworkLayers: nat := 4
  const NNDims: seq<nat> := [AgentsPerGame * 5, 18, 18, 2]
  const LargestLayer: nat := 18

  const WeightMutationRate: real := 0.5
  const WeightMutationRange: real := 0.5
  const BiasMutationRate: real := 0.5
  const BiasMutationRange: real := 0.5
}
