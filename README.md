# Ai-Tag-RL training engine in Dafny

This project models the training engine of Ai-Tag-RL. Ai-Tag-RL evolves networks that play two-agent tag in a
circular arena. Each generation, a hundred games run for 2000 frames each. Game by game, a learner agent is "it" from
the start and plays an opponent taken from a self-play snapshot ring. The learner with the lowest score wins. The next
generation's learners are mutations of the winner, and every 250th generation the winner is stored in the ring.

The model is split into eight modules:

| file | module | what it models |
|---|---|---|
| `utility.dfy` | `Utility` | Small helpers: vectors, squared distance, `clipToGrid`, `speed_limit`, the decision of `border`, `dot`, `addToVector`, `dotNetwork`, the frame-rate ring `BetterFrameRates` and the bounded `container_vector`. |
| `settings.dfy` | `Settings` | The constants of the settings header. |
| `layers.dfy` | `Layers` | The generic `Layer`/`Network` with its constructors, `addLayer`, `execute` and both `getParametersCount` overloads. |
| `neural9.dfy` | `Neural9` | The fixed-shape `Neural9Network` the agents use: `mutate`, `mutate_value`, `compute_output` and the constructor. It also holds the shape-restricted copy that loading a save performs. |
| `selfplay.dfy` | `SelfPlay` | The snapshot ring `ReinforcementLearning`: ten slots, cursor, fill count and cached opponent. |
| `agent.dfy` | `Agents` | An agent: `reset`, `update`, `setNetworkInputs`, `agentCollisions`, `agentCollision` and `tagLogistics`. |
| `game.dfy` | `Games` | A game: `initiliseGame` and `tick`, plus `runGame`. |
| `simulation.dfy` | `Simulations` | The generation loop: `getTopNet`, `prepareNextAgents`, `resetGames`, `tickGames`, `endOfGenStats`, `saveNetworkData`, `loadNetworkData` and `printNetworkInfo`. |

## Design

- **Numbers.** `float` values are `real`. Sizes and counters are `nat`.
- **State.**
  - Objects whose fields the program updates are classes: `Agent`, `Game`, `Net9`, `ReinforcementLearning`, `Simulation`, `FrameRates` and `ContainerVector`.
  - The network's fixed C arrays are `seq` fields that the methods reassign.
  - The frame-rate buffer is an `array`.
  - Object identity carries the aliasing of the source. The winner pointer of `prepareNextAgents` is game t's own learner network.
- **Outside computations.** Randomness, `tanh`, `sqrt` and the border's radial projection all come from the caller as arguments:
  - the mutation draws are a `Draws` oracle holding a coin in [0, 1) and an offset for every weight and bias position;
  - `get_network`'s roll and pick are arguments;
  - spawn points and start positions are arguments.
- **Ring quirks, kept as written.**
  - `get_network` overwrites its random choice at once, so a re-selection always lands on the cursor's slot. That slot holds the oldest retained snapshot (`SelfPlay.ChosenIsOldest`), or one never written (`SelfPlay.ChosenIsUnwritten`).
  - Its random pick can be 10, one past the last slot, and is stored before being overwritten (`SelfPlay.RandomPickCanOverrun`).
- **Behaviour of the code worth knowing:**
  - The opponent is the cursor's slot, which holds the oldest snapshot, not the newest (`NeuralNetwork.hpp:268-270`).
  - A save lists all ten slots, twice, whatever the fill count (`simulation/other.cpp:71-91`).
  - `mutate` and loading touch only the entries inside the `NN_dims` shape, not every weight and bias of the fixed arrays (`NeuralNetwork.hpp:190-212` for `mutate`, `simulation/other.cpp:110-124` for loading).
  - The winner's network is mutated in place (see Findings).

## Model

| member | source | states |
|---|---|---|
| Utility.DistSquared | Ai-Tag-RL/src/utility.hpp:145-149 | The squared distance is never negative and is zero for coincident points. |
| Utility.DistSquaredSymmetric | Ai-Tag-RL/src/utility.hpp:145-149 | The squared distance does not depend on the order of the two points. |
| Utility.ClipToGrid | Ai-Tag-RL/src/utility.hpp:138-142 | With non-zero tile sizes, each coordinate is a multiple of its tile size, at most the input, and within one tile of it. |
| Utility.SnapDown | Ai-Tag-RL/src/utility.hpp:140-141 | Integer division followed by multiplication gives the largest multiple of the tile not above the value. |
| Utility.SpeedLimit | Ai-Tag-RL/src/utility.hpp:432-441 | Both components end in [-max, max] when max >= 0. Components already in range are untouched, components above max become max, components below -max (and not above max) become -max, and the result is true exactly when the vector changed. |
| Utility.Border | Ai-Tag-RL/src/utility.hpp:444-458 | Reports a correction exactly when the squared distance to the centre exceeds (R - r)^2. Without a correction the position is unchanged; with one it is the supplied projection. |
| Utility.DotProduct | Ai-Tag-RL/src/utility.hpp:69-79 | The accumulation loop computes the sum of v1[i] * v2[i] over v1's length. |
| Utility.DotPrefix | Ai-Tag-RL/src/utility.hpp:69-79 | `dot` reads only the first \|v1\| entries of v2. |
| Utility.DotZeroLeft | Ai-Tag-RL/src/utility.hpp:69-79 | The dot product of a zero vector is zero. |
| Utility.DotPairwise | Ai-Tag-RL/src/utility.hpp:69-89 | The dot product of a vector after `addToVector` is the sum of the two vectors' dot products. |
| Utility.AddToVector | Ai-Tag-RL/src/utility.hpp:81-89 | The vector keeps its length, and element i becomes old[i] + add[i]. |
| Utility.DotNetwork | Ai-Tag-RL/src/utility.hpp:94-109 | For each weight row i, writeTo[i] = dot(row i, inputs) + bias[i]. Entries past the rows are untouched. |
| Utility.FrameRates.constructor | Ai-Tag-RL/src/utility.hpp:13-18 | All slots start zeroed, with size and counter at 0 and no sample retained. |
| Utility.FrameRates.GetFrameRate | Ai-Tag-RL/src/utility.hpp:20-27 | Returns 0 before any sample; otherwise the integer mean of the retained samples, because unfilled slots are zero. |
| Utility.FrameRates.SumSlots | Ai-Tag-RL/src/utility.hpp:24-25 | The summing loop adds every slot. |
| Utility.FrameRates.RingSum | Ai-Tag-RL/src/utility.hpp:16-27 | The sum over all slots equals the sum of the retained samples. |
| Utility.FrameRates.UpdateFrameRates | Ai-Tag-RL/src/utility.hpp:29-36 | `size` grows by one until it reaches `resolution`, then stays there. The counter wraps to 0 before writing, so every write lands below `resolution`. Once the ring is full, the slot written holds the oldest sample, which is dropped. The ring invariant is kept. |
| Utility.FrameRates.GrowingRingAfterWrite | Ai-Tag-RL/src/utility.hpp:34-35 | While filling, a write at the first free slot appends the sample and leaves the later slots zero. |
| Utility.FrameRates.FullRingAfterWrite | Ai-Tag-RL/src/utility.hpp:31-35 | On a full ring, overwriting the cursor's slot drops the oldest sample and appends the new one in ring order. |
| Utility.ContainerVector.constructor | Ai-Tag-RL/src/utility.hpp:343-347 | The container starts empty: all slots are null. |
| Utility.ContainerVector.Add | Ai-Tag-RL/src/utility.hpp:349-353 | Below capacity, the value is appended and size grows by one. At capacity, nothing changes. |
| Utility.ContainerVector.At | Ai-Tag-RL/src/utility.hpp:355 | Returns the element added at that index, or null (`None`) for a slot not yet filled. |
| Layers.NewLayer | Ai-Tag-RL/src/NeuralNetwork.hpp:14-22 | A new layer has neurons_count zeroed weight rows of prev_count entries each, plus zeroed values and biases. |
| Layers.Process | Ai-Tag-RL/src/NeuralNetwork.hpp:34-48 | Only `values` changes. Neuron i gets act(4 * (bias[i] + its weighted sum of the inputs)). |
| Layers.Propagate | Ai-Tag-RL/src/NeuralNetwork.hpp:103-115 | A full pass keeps the number of layers and changes only neuron values, keeping each layer's neuron count. |
| Layers.PropagateKeepsParameters | Ai-Tag-RL/src/NeuralNetwork.hpp:103-115 | A pass leaves every layer's weights and biases as they were. |
| Layers.PropagateFirst | Ai-Tag-RL/src/NeuralNetwork.hpp:107 | The first layer's values are the layer output on the input itself. |
| Layers.PropagateStep | Ai-Tag-RL/src/NeuralNetwork.hpp:109-111 | Each later layer's values are the layer output on the previous layer's fresh values. |
| Layers.PropagateExtends | Ai-Tag-RL/src/NeuralNetwork.hpp:108-111 | A pass over one more layer is the shorter pass followed by that layer run on the values the shorter pass left last. |
| Layers.PropagateOpening | Ai-Tag-RL/src/NeuralNetwork.hpp:107 | Processing the first layer alone is the one-layer pass followed by the untouched remaining layers. |
| Layers.RunLayers | Ai-Tag-RL/src/NeuralNetwork.hpp:106-112 | The layer loop of `execute` computes the full pass `Propagate`. |
| Layers.ChainedAppend | Ai-Tag-RL/src/NeuralNetwork.hpp:93-101 | A layer whose rows are as wide as the last layer (or the input) keeps every row width matching its predecessor. |
| Layers.ParamsAgree | Ai-Tag-RL/src/NeuralNetwork.hpp:117-133 | For a network built from `layers_sizes`, the instance parameter count equals the static count. |
| Layers.ParametersCountOf | Ai-Tag-RL/src/NeuralNetwork.hpp:126-133 | The static loop computes the sum of sizes[i] * (1 + sizes[i - 1]) over i >= 1. |
| Layers.Network.Empty | Ai-Tag-RL/src/NeuralNetwork.hpp:74-77 | No inputs, no layers and an empty last input. |
| Layers.Network.WithInputSize | Ai-Tag-RL/src/NeuralNetwork.hpp:79-82 | No layers, with a zeroed last input of the given size. |
| Layers.Network.FromSizes | Ai-Tag-RL/src/NeuralNetwork.hpp:84-91 | There are \|sizes\| - 1 layers. Layer i has sizes[i + 1] neurons and rows sizes[i] wide, so each layer is fed by the one before. |
| Layers.Network.AddLayer | Ai-Tag-RL/src/NeuralNetwork.hpp:93-101 | Appends a zeroed layer whose rows are as wide as the previous last layer, or the input for the first layer. Nothing else changes. |
| Layers.Network.Execute | Ai-Tag-RL/src/NeuralNetwork.hpp:103-115 | Always records the input. Runs the full pass only when the input has the expected size. Returns the last layer's values, whose length is that layer's neuron count. |
| Layers.Network.ParametersCount | Ai-Tag-RL/src/NeuralNetwork.hpp:117-124 | The instance loop computes the sum of bias.size() * (1 + row width) over the layers. |
| Neural9.MutateValueZeroRate | Ai-Tag-RL/src/NeuralNetwork.hpp:152-158 | With a rate of 0 or below, the value is never perturbed, because the coin is never below 0. |
| Neural9.MutateValueBound | Ai-Tag-RL/src/NeuralNetwork.hpp:152-158 | With an offset drawn within [-range, range], the value moves by at most the range. |
| Neural9.Mutated | Ai-Tag-RL/src/NeuralNetwork.hpp:190-212 | The parameters `mutate` leaves keep the fixed 3 x 18 x 18 / 3 x 18 layout. |
| Neural9.CopyWithZeroRates | Ai-Tag-RL/src/NeuralNetwork.hpp:190-211 | With all rates 0, each entry inside the shape equals the source's, and each entry outside it keeps the target's. |
| Neural9.MutateWithinRange | Ai-Tag-RL/src/NeuralNetwork.hpp:190-211 | With offsets within range, each weight and bias inside the shape differs from the source's by at most its range. |
| Neural9.CopyOntoItself | Ai-Tag-RL/src/NeuralNetwork.hpp:190-212 | A zero-rate mutate of a network onto itself changes nothing. |
| Neural9.CopyAgreesInShape | Ai-Tag-RL/src/NeuralNetwork.hpp:190-212 | After a zero-rate mutate, the target agrees with the source on every entry the shape uses. |
| Neural9.Overlay | Ai-Tag-RL/src/simulation/other.cpp:110-123 | The loaded parameters keep the fixed layout. |
| Neural9.WellShapedCovers | Ai-Tag-RL/src/simulation/other.cpp:107-123 | A record written from a network has an entry at every position the loader reads. |
| Neural9.OverlayIsCopy | Ai-Tag-RL/src/simulation/other.cpp:110-123 | Loading a record into a slot is the same as a zero-rate mutate from it. |
| Neural9.OverlayOwn | Ai-Tag-RL/src/simulation/other.cpp:110-123 | Loading a slot's own parameters back into it changes nothing. |
| Neural9.Forward | Ai-Tag-RL/src/NeuralNetwork.hpp:168-187 | The result of `compute_output` keeps the 18-entry width. Its contents are stated by ForwardOutputs and ForwardIgnoresScratch. |
| Neural9.ForwardIgnoresScratch | Ai-Tag-RL/src/NeuralNetwork.hpp:168-187 | The outputs depend only on the first ten inputs. Scratch values left by an earlier call do not matter. |
| Neural9.ForwardOutputs | Ai-Tag-RL/src/NeuralNetwork.hpp:172-186 | Outputs 0 and 1 are act(2 * dotted) of the last layer's two nodes. Entries 2 to 17 still hold the second hidden layer. |
| Neural9.Net9.constructor | Ai-Tag-RL/src/NeuralNetwork.hpp:162-166 | The network is its initial contents mutated onto itself with all four rates at 0.4, with zeroed input, output and scratch arrays. |
| Neural9.Net9.Mutate | Ai-Tag-RL/src/NeuralNetwork.hpp:190-212 | The target ends with `Mutated` of this network's parameters over its own. The target may be this network itself. Its input, output and scratch arrays are untouched. |
| Neural9.Net9.ComputeOutput | Ai-Tag-RL/src/NeuralNetwork.hpp:168-187 | Outputs and scratch both end equal to the three-layer forward pass. Parameters and inputs are unchanged. |
| Neural9.ComputeLayer | Ai-Tag-RL/src/NeuralNetwork.hpp:174-184 | The node loop fills the shape's nodes with act(2 * (bias + dot)) and keeps the rest of the scratch. |
| Neural9.MutateInto | Ai-Tag-RL/src/NeuralNetwork.hpp:195-211 | The three loops write exactly `Mutated` of the source over the target's old parameters. |
| Neural9.MutateLayerWeights | Ai-Tag-RL/src/NeuralNetwork.hpp:197-204 | After one layer's node and weight loops, that layer's weights are mutated and later layers are untouched. |
| Neural9.MutateLayerBiases | Ai-Tag-RL/src/NeuralNetwork.hpp:206-210 | After one layer's bias loop, that layer's biases are mutated and later layers are untouched. |
| Neural9.CopyShape | Ai-Tag-RL/src/simulation/other.cpp:110-124 | The loading loops write exactly `Overlay`: the shape's entries come from the record, and every other entry is kept. |
| Neural9.CopyLayerWeights | Ai-Tag-RL/src/simulation/other.cpp:112-118 | The node and weight loops copy each in-shape weight of one layer and keep the rest. |
| SelfPlay.Push | Ai-Tag-RL/src/NeuralNetwork.hpp:259-260 | An accepted add keeps the cursor below 10 and the fill count at most 10. |
| SelfPlay.Pushes | Ai-Tag-RL/src/NeuralNetwork.hpp:253-261 | Any sequence of accepted adds keeps the ring invariant. |
| SelfPlay.SlotOf | Ai-Tag-RL/src/NeuralNetwork.hpp:280 | The cursor position after n advances from 0 is below 10. |
| SelfPlay.SlotOfIsMod | Ai-Tag-RL/src/NeuralNetwork.hpp:280 | After n advances from 0, the cursor is n mod 10. |
| SelfPlay.SlotOfSucc | Ai-Tag-RL/src/NeuralNetwork.hpp:280 | One more advance moves the cursor by one, wrapping 9 to 0. |
| SelfPlay.SlotsDistinct | Ai-Tag-RL/src/NeuralNetwork.hpp:277-281 | Any ten consecutive adds write ten different slots. |
| SelfPlay.PushesFromReset | Ai-Tag-RL/src/NeuralNetwork.hpp:239-281 | After n accepted adds from a reset ring: the cursor is n mod 10, the fill count is min(n, 10), snapshot k of the last ten sits in slot k mod 10, and unreached slots keep their contents. |
| SelfPlay.ChosenIsOldest | Ai-Tag-RL/src/NeuralNetwork.hpp:264-273 | Once ten snapshots were taken, the cursor's slot, which `get_network` always selects, holds the oldest retained snapshot. |
| SelfPlay.CursorHoldsOldest | Ai-Tag-RL/src/NeuralNetwork.hpp:277-281 | With snapshot k in slot k mod 10, the slot at the cursor holds snapshot n - 10. |
| SelfPlay.ChosenIsUnwritten | Ai-Tag-RL/src/NeuralNetwork.hpp:264-273 | Before ten snapshots, the cursor's slot still holds its initial, never-added network. |
| SelfPlay.ReinforcementLearning.constructor | Ai-Tag-RL/src/NeuralNetwork.hpp:244-250 | Ten slots, slot 0 holding the fresh network, cursor 1, fill count 1 and no opponent cached. |
| SelfPlay.ReinforcementLearning.AddNeuralNetwork | Ai-Tag-RL/src/NeuralNetwork.hpp:253-261 | Nothing changes unless the generation is a multiple of 250. Otherwise the network goes into the cursor's slot and the ring advances. |
| SelfPlay.ReinforcementLearning.Increment | Ai-Tag-RL/src/NeuralNetwork.hpp:277-281 | The fill count grows only while below the policy size, and the cursor advances, wrapping 9 to 0. |
| SelfPlay.ReinforcementLearning.GetNetwork | Ai-Tag-RL/src/NeuralNetwork.hpp:264-273 | The pick lies in randRange's inclusive range [0, actual_size]. Keeps the cached opponent unless none is cached or the generation is a multiple of 5. On a re-selection with roll > 0.5 and more than one snapshot, the pick is stored first (`tentative`); a re-selection always ends on the cursor's slot, whatever the draws. The result is always a valid slot. |
| SelfPlay.ReinforcementLearning.ResetInformation | Ai-Tag-RL/src/NeuralNetwork.hpp:276 | Both counters become 0 and the opponent is forgotten. The slots keep their contents. |
| SelfPlay.RandomPickCanOverrun | Ai-Tag-RL/src/NeuralNetwork.hpp:264-270 | On a full ring, at a re-selection with roll > 0.5, every allowed pick becomes get_network's tentative choice, and the allowed pick 10 makes that choice slot 10, one past the last slot. `GetNetwork` then overwrites it with the cursor's slot. |
| Agents.Features | Ai-Tag-RL/src/Agent.hpp:50-55 | Each agent contributes five inputs. The fifth is +1 when tagged and -1 otherwise. |
| Agents.Differing | Ai-Tag-RL/src/Agent.hpp:59-61 | The number of agents standing elsewhere is at most the number of agents. |
| Agents.OthersFeaturesLength | Ai-Tag-RL/src/Agent.hpp:58-69 | The others' inputs are five per agent standing elsewhere. |
| Agents.InputPrefixLength | Ai-Tag-RL/src/Agent.hpp:47-70 | The written inputs number 5 + 5 x (agents elsewhere), so at most 5 + 5n. |
| Agents.TwoAgentInputs | Ai-Tag-RL/src/Agent.hpp:47-70 | In a two-agent game, the network's ten inputs are its own five then the opponent's five, in either list order. |
| Agents.CoincidentAgentsHideEachOther | Ai-Tag-RL/src/Agent.hpp:61 | An opponent on the same spot is skipped like the agent itself, so only the first five inputs are written. |
| Agents.WrittenInputs | Ai-Tag-RL/src/Agent.hpp:47-70 | The inputs after the write: the written prefix, then the previous values beyond it. |
| Agents.PushHalvesOverlap | Ai-Tag-RL/src/Agent.hpp:115-122 | The equal and opposite pushes scale the line of centres to the mean of the old distance and 2r, removing half the overlap. |
| Agents.CountUpdate | Ai-Tag-RL/src/Agent.hpp:90-100 | Changing one tagged flag changes the number tagged by the difference. |
| Agents.CountTwo | Ai-Tag-RL/src/Agent.hpp:90-100 | Two distinct tagged agents make at least two tagged. |
| Agents.HandOver | Ai-Tag-RL/src/Agent.hpp:90-100 | Moving the tag from a tagged caller to an untagged peer keeps the number tagged. |
| Agents.FlagsAfterMeeting | Ai-Tag-RL/src/Agent.hpp:73-87 | With at most one agent tagged, a meeting either changes no flag or hands the tag on, so the count is kept. |
| Agents.Normalised | Ai-Tag-RL/src/Agent.hpp:81-82 | The squared distance over the squared arena diameter is never negative. |
| Agents.Agent.constructor | Ai-Tag-RL/src/Agent.hpp:14 | The agent stands at the given position, with everything else at its default. |
| Agents.Agent.Reset | Ai-Tag-RL/src/Agent.hpp:17-21 | aliveTime, score and cooldown become 0, the tag and velocity are cleared, and the agent moves to the spawn point. |
| Agents.Agent.TagLogistics | Ai-Tag-RL/src/Agent.hpp:90-100 | A tagged caller with no cooldown past the 50-frame immunity tags the peer, sets the peer's cooldown to 50 and clears its own tag. Otherwise no tag or cooldown changes. Nothing else changes. |
| Agents.Agent.AgentCollision | Ai-Tag-RL/src/Agent.hpp:103-125 | Reports a hit exactly when the squared distance is at most (2r)^2. Without a hit nothing moves and no tag passes. With a hit, the tag rule applies once, then the two move by equal and opposite displacements. |
| Agents.Agent.AgentCollisions | Ai-Tag-RL/src/Agent.hpp:73-87 | With at most one agent tagged, the number tagged is kept. The own score never drops. An agent still tagged at the end has gained at least 0.5 for each of the `met` agents standing elsewhere, and an untagged agent gains nothing. The own tag can only be lost, and the other agents' scores and clocks are untouched. |
| Agents.Agent.Meet | Ai-Tag-RL/src/Agent.hpp:77-84 | One meeting keeps the number tagged and can only clear the own tag. The score grows by exactly distNorm + 0.5 when the agent is still tagged after the collision, and by nothing otherwise. |
| Agents.Agent.SetNetworkInputs | Ai-Tag-RL/src/Agent.hpp:47-70 | The inputs become the agent's own five values, then five for each agent standing elsewhere, with the rest kept. The network's parameters are untouched. |
| Agents.Agent.Update | Ai-Tag-RL/src/Agent.hpp:24-43 | Feeds and runs the network without changing its parameters, and keeps the number tagged. aliveTime grows by exactly one. The score grows by at least one point when the agent ends tagged. The cooldown drops only while tagged and positive. |
| Agents.Agent.Steer | Ai-Tag-RL/src/Agent.hpp:27-29 | The inputs are written and the outputs computed. The step is five times the first two outputs, and no agent changes. |
| Agents.Agent.Move | Ai-Tag-RL/src/Agent.hpp:29-42 | After the step, the collisions and the frame's bookkeeping, the number tagged is kept and the clock grows by one. A tagged agent gains at least 1 plus 0.5 for each agent met; an agent untagged from the start gains nothing. The cooldown follows the tagged rules. |
| Agents.Agent.Bookkeep | Ai-Tag-RL/src/Agent.hpp:33-42 | After the border, the clock grows by one and the score by one point if tagged. The cooldown drops only while tagged and positive, so it never wraps. |
| Games.Game.constructor | Ai-Tag-RL/src/game.hpp:11-19 | The game holds its two agents and networks with the full 2000-frame budget. |
| Games.Game.Initialise | Ai-Tag-RL/src/game.hpp:21-34 | The counter is back at 2000. Agent 0 is tagged and agent 1 is not, both with zeroed counters, score and velocity. Agent i stands at starting position i, and exactly one agent is tagged. |
| Games.Game.ResetAgents | Ai-Tag-RL/src/game.hpp:26-29 | Both agents are reset, each to its own spawn point. |
| Games.TagAndPlace | Ai-Tag-RL/src/game.hpp:31-33 | Agent 0 becomes "it", and the two agents move to the given positions. |
| Games.Game.Tick | Ai-Tag-RL/src/game.hpp:36-43 | The counter drops by exactly one, and the result is true exactly when it reaches 0. Each agent ages one frame, no score drops, the number tagged is kept, and no network's parameters change. |
| Games.Game.TickAgent | Ai-Tag-RL/src/game.hpp:38-41 | Agent i updates with network i against both agents. Only agent i ages, and no network's parameters change. |
| Games.RunGame | Ai-Tag-RL/src/simulation/physics.cpp:4-10 | 2000 ticks: the counter drops by 2000, and tick i reports the end exactly when the counter started at i + 1. Each agent ages 2000 frames. |
| Games.PlayOne | Ai-Tag-RL/src/game.hpp:21-43 | From `initiliseGame`, ticks 1 to 1999 report false and tick 2000 reports true. The counter ends at 0 with exactly one agent "it". |
| Simulations.ScanScoresFindsFirstMinimum | Ai-Tag-RL/src/simulation/physics.cpp:138-154 | The scan finds the first game with the smallest learner score below 100000. It finds none exactly when no score is below 100000. |
| Simulations.Simulation.LearnerScores | Ai-Tag-RL/src/simulation/physics.cpp:143-144 | Game g's entry is its learner's score. |
| Simulations.Simulation.GetTopNet | Ai-Tag-RL/src/simulation/physics.cpp:135-158 | The recorded winner and score are those of the scan. The winner's two start positions are recorded. With no winner, the recorded positions stay as they were. |
| Simulations.Simulation.FindWinner | Ai-Tag-RL/src/simulation/physics.cpp:135-154 | When some learner scores below 100000, the winner is a game index. The recorded best score is the scan's minimum, and the recorded positions are the winner's two start positions. No network or score changes. |
| Simulations.RingTurn | Ai-Tag-RL/src/simulation/physics.cpp:69-73 | The winner is offered to the ring first. The opponent is then the chosen slot's network. |
| Simulations.Simulation.Offer | Ai-Tag-RL/src/simulation/physics.cpp:68-73 | Game t's learner network is offered to the ring, then the opponent is chosen. The games' networks are untouched. |
| Simulations.Simulation.ChooseNets | Ai-Tag-RL/src/simulation/physics.cpp:67-73 | The winner is the scan's choice, offered to the ring before the opponent is chosen. The recorded best score is the scan's minimum, and the recorded positions are the winner's two start positions. No network changes. |
| Simulations.Source | Ai-Tag-RL/src/simulation/physics.cpp:75-82 | The source network is the winner up to its own game, and the winner mutated onto itself after that. |
| Simulations.LearnersAfter | Ai-Tag-RL/src/simulation/physics.cpp:75-82 | The learners' parameters after the loop and the closing copy keep the fixed layout. |
| Simulations.LearnerAfter | Ai-Tag-RL/src/simulation/physics.cpp:75-82 | Each learner's parameters keep the fixed layout. |
| Simulations.TrainersAfter | Ai-Tag-RL/src/simulation/physics.cpp:75-83 | The trainers' parameters after the loop and the closing copy keep the fixed layout. |
| Simulations.TrainerAfter | Ai-Tag-RL/src/simulation/physics.cpp:75-83 | Each trainer's parameters keep the fixed layout. |
| Simulations.TrainersTakeOpponent | Ai-Tag-RL/src/simulation/physics.cpp:75-83 | Every trainer ends up agreeing with the opponent on every entry the shape uses. |
| Simulations.FirstLearnerTakesSource | Ai-Tag-RL/src/simulation/physics.cpp:82 | Game 0's learner agrees with the source network as it stands after the loop. |
| Simulations.IntendedSpread | Ai-Tag-RL/src/simulation/physics.cpp:75-82 | With the winner read once, every learner is the winner mutated, and game 0's learner is the winner itself. |
| Simulations.SelfMutationDrifts | Ai-Tag-RL/src/NeuralNetwork.hpp:190-212 | A network mutated onto itself with the default rates need not be the network it was. |
| Simulations.WrittenSpreadDrifts | Ai-Tag-RL/src/simulation/physics.cpp:68-82 | As written, game 0's learner and the source used after the winner's game need not be the winner. |
| Simulations.SpreadNets | Ai-Tag-RL/src/simulation/physics.cpp:75-83 | The loop and the closing copies leave the learners and trainers exactly as `LearnersAfter` and `TrainersAfter` state. |
| Simulations.SpreadAll | Ai-Tag-RL/src/simulation/physics.cpp:75-79 | After the loop, each learner is mutated from the source as it stood at its turn, and each trainer takes the opponent. |
| Simulations.SpreadStep | Ai-Tag-RL/src/simulation/physics.cpp:75-79 | One more game's learner and trainer are written as the loop writes them. |
| Simulations.StepLearner | Ai-Tag-RL/src/simulation/physics.cpp:77 | Game g's learner is mutated from the source. The source is game t's learner as written, or the winner's parameters as intended. |
| Simulations.StepTrainer | Ai-Tag-RL/src/simulation/physics.cpp:78 | Game g's trainer takes a zero-rate copy of the opponent. |
| Simulations.FinishFirst | Ai-Tag-RL/src/simulation/physics.cpp:82-83 | The closing copies complete `Spread`. |
| Simulations.FinishLearner | Ai-Tag-RL/src/simulation/physics.cpp:82 | Game 0's learner takes a zero-rate copy of the source. The trainers are untouched. |
| Simulations.FinishTrainer | Ai-Tag-RL/src/simulation/physics.cpp:83 | Game 0's trainer takes a zero-rate copy of the opponent. The learners are untouched. |
| Simulations.Simulation.Propagate | Ai-Tag-RL/src/simulation/physics.cpp:75-83 | All networks end as `Spread` states, and the simulation stays consistent. |
| Simulations.Simulation.PrepareNextAgents | Ai-Tag-RL/src/simulation/physics.cpp:65-84 | As written: the winner is the scan's choice and goes to the ring before the opponent is chosen. The recorded score and start positions are the winner's, as `getTopNet` leaves them. The learners are spread from game t's own, in-place mutated network, and the trainers take the opponent. |
| Simulations.Simulation.PrepareNextAgentsIntended | Ai-Tag-RL/src/simulation/physics.cpp:65-84 | As intended: the same winner, recorded score, recorded start positions and ring step, with every learner mutated from the winner's parameters read once. |
| Simulations.PlaceAgents | Ai-Tag-RL/src/simulation/physics.cpp:123-127 | A started game's two agents are moved to new positions, and it stays started and valid. |
| Simulations.MarkStart | Ai-Tag-RL/src/simulation/physics.cpp:129-131 | Each agent of the game records its position as its start. |
| Simulations.Simulation.ResetGames | Ai-Tag-RL/src/simulation/physics.cpp:112-132 | Every game is started with the same positions, except that game 0 takes the recorded winner's positions when the learner position is not the origin. Every agent's start is its position. |
| Simulations.Simulation.InitStep | Ai-Tag-RL/src/simulation/physics.cpp:118-121 | Game g is started, and the games before it stay started. |
| Simulations.Simulation.PlaceWinner | Ai-Tag-RL/src/simulation/physics.cpp:123-127 | Game 0 moves to the recorded positions, and every game is started at its own start positions. |
| Simulations.Simulation.MarkStep | Ai-Tag-RL/src/simulation/physics.cpp:129-131 | Game g's agents record their starts, and the other games stay as they were. |
| Simulations.TickOnce | Ai-Tag-RL/src/simulation/physics.cpp:91-92 | A game's tick lowers its counter by one and changes neither network. |
| Simulations.Ticked | Ai-Tag-RL/src/simulation/physics.cpp:91-92 | Every counter is one lower. |
| Simulations.TickOne | Ai-Tag-RL/src/simulation/physics.cpp:91-92 | Ticking game g after games 0..g-1 ticks the counters up to g + 1. |
| Simulations.TickedInStep | Ai-Tag-RL/src/simulation/physics.cpp:87-94 | Counters that agree still agree after a tick each, so the last game's report stands for all. |
| Simulations.Simulation.TickGames | Ai-Tag-RL/src/simulation/physics.cpp:87-94 | When paused, the games, agents and networks are all unchanged and `stop` is kept. Otherwise every counter drops by one and `stop` is the last game's report, which, from synchronised counters, means every game ended. No network changes. |
| Simulations.Simulation.TickAll | Ai-Tag-RL/src/simulation/physics.cpp:91-92 | The loop ticks every game once, and `stop` is the last game's report. |
| Simulations.Simulation.TickStep | Ai-Tag-RL/src/simulation/physics.cpp:92 | Game g ticks and the other games are untouched. |
| Simulations.Simulation.EndOfGenStats | Ai-Tag-RL/src/simulation/physics.cpp:96-110 | The generation count grows by exactly one. The ring is saved exactly when autosave is on and the new count is a multiple of 250. |
| Simulations.Simulation.constructor | Ai-Tag-RL/src/simulation/simulation.hpp:31-50 | A hundred games and the ring, with generation 1, zero run time, switches off and no winner recorded. |
| Simulations.SavedNets | Ai-Tag-RL/src/simulation/other.cpp:75-80 | The save lists 20 records: record k and record k + 10 are both policy slot k. |
| Simulations.CollectNets | Ai-Tag-RL/src/simulation/other.cpp:75-80 | The two nested loops produce `SavedNets`. |
| Simulations.Simulation.SaveNetworkData | Ai-Tag-RL/src/simulation/other.cpp:71-91 | The file gets the generation, the run time and every slot, once per agent. Nothing else changes. |
| Simulations.Restored | Ai-Tag-RL/src/simulation/other.cpp:105-127 | The restored slots keep the fixed layout. |
| Simulations.LoadRing | Ai-Tag-RL/src/simulation/other.cpp:103-127 | After ten write-and-increment steps from a reset ring, record k is in slot k, the fill count is 10 and the cursor is back at 0. |
| Simulations.SaveThenLoad | Ai-Tag-RL/src/simulation/other.cpp:71-127 | A save can be loaded, and loading it restores every slot's parameters in order. |
| Simulations.Simulation.RestorePolicy | Ai-Tag-RL/src/simulation/other.cpp:93-127 | A readable save restores the generation, the run time and the ten slots, and forgets the opponent. An unreadable one changes nothing and reports false. |
| Simulations.Simulation.LoadNetworkData | Ai-Tag-RL/src/simulation/other.cpp:93-129 | After restoring, the next generation is prepared from the restored ring, and the winner's score and start positions are recorded. Failure changes nothing, including the recorded winner. |
| Simulations.PairsAndBiasesAreParams | Ai-Tag-RL/src/NeuralNetwork.hpp:126-133 | The weights over consecutive pairs plus one bias per non-input neuron give the static parameter count. |
| Simulations.PrintNetworkInfo | Ai-Tag-RL/src/simulation/other.cpp:14-33 | As written: neurons 48, weights 540 and params 588. That is the static parameter count plus the input width. |
| Simulations.NetworkInfo | Ai-Tag-RL/src/simulation/other.cpp:14-33 | As intended: neurons 48, biases 38, weights 540 and params 578, which is the static parameter count. |
| Simulations.NNDimsCounts | Ai-Tag-RL/src/settings.hpp:57-58 | For NN_dims = {10, 18, 18, 2}: the neuron sum is 48, the non-input neuron sum 38, the pair products 540 and the parameter count 578. |

## Left out

- Rendering and windowing are not modelled: rendering.cpp, `run`, `uihandeling`, `endFrame`, `initDebugGraphics` and the SFML parts of utility.hpp. They are drawing, event polling and the wall-clock main loop.
- `initGames` is not modelled; the `Simulation` constructor receives the games instead. It only creates games at random points.
- Console output is left out: `printNetworkInfo` returns its counts, and the prints in `getTopNet`, `add_neural_network`, `endOfGenStats` (generation 1000) and `saveNetworkData` are dropped.
- Randomness comes from the caller: `RandomDist` draws, `randPointInCircle`/`randPointOutCircle` and `rearrangePositions` are arguments. This covers the mutation draws, roll and pick, spawn points and start positions.
- `tanh`, `sqrt` and the radial projection of `border` are function arguments; their numeric values are not modelled.
- JSON and file I/O are left out. A save is a `SaveData` value, and `jsonFormat`/`loadJsonData` are not modelled.
- Float rounding and unsigned widths are not modelled: counters are unbounded `nat` and `float` is `real`. Only the 8-bit counters of `BetterFrameRates` and `container_vector` are bounded, by requiring capacities up to 255.
- The numeric helpers (`normalise`, `length`, `sigmoid`, `accurate_speed_limit`, `roundToNearestN`, the array `dot` and the identifier hashes) are left out. `getLargestValue` and `addArray` are also left out: they are ill-formed if instantiated and are never called.
- Value semantics of the networks are not modelled: the source copies networks by value, while the model uses `Net9` objects with `seq` fields. Slots and files hold `Params` values.
- Utility.Contains and Utility.RelativePosToCircle are plain definitions without contracts of their own; the agent inputs are stated through them.
- Agents.Agent.Update: the score is stated as growing by at least the tagged point, not its exact amount. The distance terms depend on `sqrt` positions.
- Agents.Agent.AgentCollisions: the gain is stated as at least 0.5 per agent met, not the exact sum of distNorm + 0.5. Each distance is taken after that meeting's collision has moved the agent, so the exact sum depends on the `sqrt` positions.
- Agents.Agent.Move: the score gain is stated as at least 1 plus 0.5 per agent met, for the same reason as AgentCollisions.
- Agents.Agent.AgentCollision: requires the two positions to differ, as the only caller ensures. At equal positions the source divides by a zero distance.
- Agents.Agent.SetNetworkInputs: requires the written inputs to fit in the 18 slots. Beyond that the source writes past the array.
- Games.Game.Tick: states each agent's clock, score bound and the tag count, not the agents' new positions.
- Games.RunGame: `reports`, the list of tick results, is an added output; the source discards them.
- Simulations.Simulation.PrepareNextAgents: requires some learner to score below 100000. Otherwise the source dereferences a null winner pointer.
- Simulations.Simulation.RestorePolicy: an unreadable save is an error path of its own in the model: it reports false and changes nothing. In the source, missing records or keys make the JSON conversion throw, and nothing catches it. By then the generation, the run time and the ring's counters were already overwritten (other.cpp:97-103). Arrays shorter than NN_dims are read out of bounds at other.cpp:116 and 122, which is undefined behaviour.
- Simulations.Simulation.LoadNetworkData: prepares the next generation with the corrected `PrepareNextAgentsIntended` (see Findings).
- Layers.Network.FromSizes: requires at least one size; the source reads `layers_sizes[0]`, undefined on an empty vector.
- Layers.Network.Execute: requires at least one layer; the source calls `front()`/`back()` on the layers.
- Layers.Network.ParametersCount: requires every layer to have a weight row; the source calls `front()` on them.
- Utility.ClipToGrid: requires non-zero tile sizes, where the source would divide by zero.

## Findings

| source | as written | input that shows it | evidently intended | confidence | as-written member | corrected member |
|---|---|---|---|---|---|---|
| Ai-Tag-RL/src/simulation/physics.cpp:65-84 | `bestNetwork` points at the winning game t's own learner network (line 149). At game t the loop mutates that network onto itself, so games after t, and game 0's "unmutated" copy, draw from mutated weights. | Any winner t, with every mutation coin below 0.5 and every offset +0.25. Game 0's learner ends with its first weight 0.25 above the winner's. | Each learner is a mutation of the winner, and game 0 gets the winner unchanged. | high; not executed | Simulations.Simulation.PrepareNextAgents, Simulations.WrittenSpreadDrifts | Simulations.Simulation.PrepareNextAgentsIntended, Simulations.IntendedSpread |
| Ai-Tag-RL/src/simulation/other.cpp:14-33 | Biases are printed as the sum over all of NN_dims, counting the 10 inputs. So params prints 588. | NN_dims = {10, 18, 18, 2} | Biases 38 and params 578, matching `getParametersCount`. | medium; not executed | Simulations.PrintNetworkInfo | Simulations.NetworkInfo, Simulations.NNDimsCounts |
