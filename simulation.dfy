/**
 * The generation loop around the hundred parallel games: picking the
 * generation's winning learner, feeding it to the snapshot ring, spreading
 * its mutations and the chosen opponent into every game, restarting the
 * games, and saving and restoring the ring.  Files are values: a save is a
 * `SaveData` record whose `nets` list stands for the JSON array.
 */
module Simulations {
  import opened Utility
  import opened Settings
  import opened Neural9
  import opened SelfPlay
  import opened Agents
  import opened Games
  import Layers

  /** best_net_info: the winner's score, the two start positions of its game, and which game's learner network. */
  datatype BestNetworkInfo = BestNetworkInfo(score: real, learnerPosition: Vec2, trainerPosition: Vec2, network: Option<nat>)

  /** The saved file: generation, run time and the list of (weights, biases) records. */
  datatype SaveData = SaveData(gen: nat, time: real, nets: seq<Params>)

  /** The score getTopNet starts from: only a learner scoring below it can win. */
  const ScoreCeiling: real := 100000.0

  /** The running record of getTopNet's scan: the winner so far and its score. */
  datatype Scan = Scan(best: Option<nat>, score: real)

  /** getTopNet's scan over the learners' scores, as a value: a strictly lower score replaces the winner. */
  function ScanScores(scores: seq<real>, ceiling: real): Scan
  {
    if |scores| == 0 then Scan(None, ceiling)
    else
      var r := ScanScores(scores[..|scores| - 1], ceiling);
      if scores[|scores| - 1] < r.score then Scan(Some(|scores| - 1), scores[|scores| - 1]) else r
  }

  /**
   * The scan finds the first game with the smallest score below the ceiling,
   * and finds none exactly when no score is below it.
   */
  lemma {:induction false} ScanScoresFindsFirstMinimum(scores: seq<real>, ceiling: real)
    ensures var r := ScanScores(scores, ceiling);
      r.score <= ceiling &&
      (r.best.None? <==> forall i :: 0 <= i < |scores| ==> scores[i] >= ceiling) &&
      (r.best.None? ==> r.score == ceiling) &&
      (r.best.Some? ==>
        r.best.value < |scores| && r.score == scores[r.best.value] && r.score < ceiling &&
        (forall i :: 0 <= i < |scores| ==> r.score <= scores[i]) &&
        (forall i :: 0 <= i < r.best.value ==> r.score < scores[i]))
  {
    if |scores| > 0 {
      var n := |scores| - 1;
      var prefix := scores[..n];
      ScanScoresFindsFirstMinimum(prefix, ceiling);
      assert forall i :: 0 <= i < n ==> prefix[i] == scores[i];
    }
  }

  /** The save's list of records: the ten policy slots, once for each of the two agents. */
  function SavedNets(policy: seq<Params>): (nets: seq<Params>)
    ensures |nets| == 2 * |policy|
    ensures forall k :: 0 <= k < |policy| ==> nets[k] == policy[k] && nets[k + |policy|] == policy[k]
  {
    policy + policy
  }

  /** A save the loader can read: ten records, each with an entry at every position of the shape. */
  predicate Loadable(data: SaveData)
  {
    |data.nets| >= SnapshotWindow && forall k :: 0 <= k < SnapshotWindow ==> Covers(data.nets[k])
  }

  /**
   * The ten slots after loadNetworkData's loop: record k, within the fixed
   * shape, written over slot k.
   */
  function Restored(before: seq<Params>, nets: seq<Params>): (ps: seq<Params>)
    requires |before| == SnapshotWindow && |nets| >= SnapshotWindow
    requires forall k :: 0 <= k < SnapshotWindow ==> WellShaped(before[k]) && Covers(nets[k])
    ensures |ps| == SnapshotWindow && forall k :: 0 <= k < SnapshotWindow ==> WellShaped(ps[k])
  {
    seq(SnapshotWindow, k requires 0 <= k < SnapshotWindow => Overlay(before[k], nets[k]))
  }

  /**
   * Saving a ring of well-shaped slots and loading the save back gives every
   * slot its own parameters again (the load writes record k into slot k).
   */
  lemma SaveThenLoad(policy: seq<Params>, gen: nat, time: real, draws: Draws)
    requires |policy| == SnapshotWindow && forall k :: 0 <= k < |policy| ==> WellShaped(policy[k])
    ensures Loadable(SaveData(gen, time, SavedNets(policy)))
    ensures Restored(policy, SavedNets(policy)) == policy
  {
    forall k | 0 <= k < SnapshotWindow
      ensures Covers(SavedNets(policy)[k]) && Overlay(policy[k], SavedNets(policy)[k]) == policy[k]
    {
      OverlayOwn(policy[k], draws);
    }
  }

  /**
   * loadNetworkData's loop over the ten records, on a ring just reset: each
   * record is copied into the cursor's slot and the cursor advanced, so the
   * ring ends full with its cursor back at slot 0.
   */
  method LoadRing(rl: ReinforcementLearning, nets: seq<Params>)
    requires rl.Valid() && rl.currentIndex == 0 && rl.actualSize == 0 && rl.chosenNetwork == None
    requires |nets| >= SnapshotWindow && forall k :: 0 <= k < SnapshotWindow ==> Covers(nets[k])
    modifies rl
    ensures rl.Valid() && rl.chosenNetwork == None
    ensures rl.State() == Ring(Restored(old(rl.policy), nets), 0, SnapshotWindow)
  {
    ghost var before := rl.policy;
    for k := 0 to SnapshotWindow
      invariant rl.Valid() && rl.chosenNetwork == None && rl.actualSize == k
      invariant rl.currentIndex == if k == SnapshotWindow then 0 else k
      invariant forall j :: 0 <= j < SnapshotWindow ==>
        rl.policy[j] == if j < k then Overlay(before[j], nets[j]) else before[j]
    {
      var slot := CopyShape(rl.policy[rl.currentIndex], nets[k]);
      rl.policy := rl.policy[rl.currentIndex := slot];
      rl.Increment();
    }
    assert rl.policy == Restored(before, nets);
  }

  /** saveNetworkData's loops: for each of the two agents, every policy slot in order. */
  method CollectNets(policy: seq<Params>) returns (nets: seq<Params>)
    ensures nets == SavedNets(policy)
  {
    nets := [];
    for agent := 0 to AgentsPerGame
      invariant nets == if agent == 0 then [] else if agent == 1 then policy else policy + policy
    {
      ghost var start := nets;
      for k := 0 to |policy|
        invariant nets == start + policy[..k]
      {
        assert policy[..k + 1] == policy[..k] + [policy[k]];
        nets := nets + [policy[k]];
      }
      assert policy[..|policy|] == policy;
    }
  }

  /** Σ dims[i] * dims[i + 1] over consecutive pairs. */
  function PairProducts(dims: seq<nat>): nat
  {
    if |dims| <= 1 then 0 else PairProducts(dims[..|dims| - 1]) + dims[|dims| - 2] * dims[|dims| - 1]
  }

  /**
   * Weights over consecutive pairs plus one bias per non-input neuron is the
   * static parameter count of a network built from the same sizes.
   */
  lemma {:induction false} PairsAndBiasesAreParams(dims: seq<nat>)
    requires |dims| >= 1
    ensures PairProducts(dims) + Sum(dims[1..]) == Layers.SizesParams(dims)
  {
    if |dims| > 1 {
      var k := |dims| - 1;
      var prefix := dims[..k];
      PairsAndBiasesAreParams(prefix);
      assert dims[1..] == prefix[1..] + [dims[k]];
      SumConcat(prefix[1..], [dims[k]]);
      assert Sum([dims[k]]) == dims[k] by {
        assert [dims[k]][..0] == [];
      }
    }
  }

  /**
   * printNetworkInfo's loop: neurons summed over all of NN_dims (and printed
   * again as the bias count), weights over consecutive pairs, params their sum.
   * The input layer has no biases, so this is the static parameter count plus
   * the input width: 588 against 578.
   */
  method PrintNetworkInfo() returns (neurons: nat, weights: nat, params: nat)
    ensures neurons == Sum(NNDims) && weights == PairProducts(NNDims) && params == weights + neurons
    ensures params == Layers.SizesParams(NNDims) + NNDims[0]
    ensures neurons == 48 && weights == 540 && params == 588
  {
    neurons, weights := 0, 0;
    for i := 0 to NetworkLayers
      invariant neurons == Sum(NNDims[..i])
      invariant weights == PairProducts(NNDims[..Min(i + 1, NetworkLayers)])
    {
      neurons := neurons + NNDims[i];
      if i < NetworkLayers - 1 {
        weights := weights + NNDims[i] * NNDims[i + 1];
        assert NNDims[..i + 2][..i + 1] == NNDims[..i + 1];
      }
      assert NNDims[..i + 1][..i] == NNDims[..i];
    }
    assert NNDims[..NetworkLayers] == NNDims;
    params := weights + neurons;
    PairsAndBiasesAreParams(NNDims);
    assert NNDims == [NNDims[0]] + NNDims[1..];
    SumConcat([NNDims[0]], NNDims[1..]);
    assert Sum([NNDims[0]]) == NNDims[0] by {
      assert [NNDims[0]][..0] == [];
    }
    NNDimsCounts();
  }

  /**
   * The counts printNetworkInfo evidently means: biases only on the layers
   * after the input, so the parameter total is the static getParametersCount.
   */
  function NetworkInfo(): (r: (nat, nat, nat, nat))
    ensures r.3 == r.1 + r.2 && r.3 == Layers.SizesParams(NNDims)
    ensures r == (48, 38, 540, 578)
  {
    PairsAndBiasesAreParams(NNDims);
    NNDimsCounts();
    (Sum(NNDims), Sum(NNDims[1..]), PairProducts(NNDims), PairProducts(NNDims) + Sum(NNDims[1..]))
  }

  /** The sums over NN_dims = {10, 18, 18, 2}. */
  lemma NNDimsCounts()
    ensures Sum(NNDims) == 48 && Sum(NNDims[1..]) == 38 && PairProducts(NNDims) == 540
    ensures Layers.SizesParams(NNDims) == 578
  {
    var d := NNDims;
    assert d == [10, 18, 18, 2];
    assert d[..3] == [10, 18, 18] && d[..3][..2] == [10, 18] && d[..3][..2][..1] == [10] && [10][..0] == [];
    assert Sum([10]) == 10 && Sum([10, 18]) == 28 && Sum([10, 18, 18]) == 46 && Sum(d) == 48;
    assert d[1..] == [18, 18, 2] && [18, 18, 2][..2] == [18, 18] && [18, 18][..1] == [18] && [18][..0] == [];
    assert Sum([18]) == 18 && Sum([18, 18]) == 36 && Sum([18, 18, 2]) == 38;
    assert PairProducts([10]) == 0 && PairProducts([10, 18]) == 180 && PairProducts([10, 18, 18]) == 504;
    assert PairProducts(d) == 540;
    assert Layers.SizesParams([10]) == 0 && Layers.SizesParams([10, 18]) == 198;
    assert Layers.SizesParams([10, 18, 18]) == 540 && Layers.SizesParams(d) == 578;
  }

  /**
   * Game by game pairs (a learner's and a trainer's network, or agent): no
   * element is both a first and a second, or the first (or second) of two games.
   */
  ghost predicate PairsApart<T>(firsts: seq<T>, seconds: seq<T>)
  {
    |firsts| == |seconds| &&
    (forall g, h :: 0 <= g < h < |firsts| ==> firsts[g] != firsts[h] && seconds[g] != seconds[h]) &&
    (forall g, h :: 0 <= g < |firsts| && 0 <= h < |firsts| ==> firsts[g] != seconds[h])
  }

  /** Every learner and trainer network keeps its arrays at their fixed sizes. */
  ghost predicate AllValid(learners: seq<Net9>, trainers: seq<Net9>)
    requires |learners| == |trainers|
    reads learners, trainers
  {
    forall h :: 0 <= h < |learners| ==> learners[h].Valid() && trainers[h].Valid()
  }

  /** The parameters of the networks `nets` (the learners' or the trainers'), game by game. */
  function ParamsOf(nets: seq<Net9>): (ps: seq<Params>)
    reads nets
    ensures |ps| == |nets| && forall g :: 0 <= g < |nets| ==> ps[g] == nets[g].Parameters()
  {
    seq(|nets|, g requires 0 <= g < |nets| reads nets => nets[g].Parameters())
  }

  /** Networks holding `ps`, one by one, hold them as a whole. */
  lemma ParamsAre(nets: seq<Net9>, ps: seq<Params>)
    requires |nets| == |ps| && forall h :: 0 <= h < |nets| ==> nets[h].Parameters() == ps[h]
    ensures ParamsOf(nets) == ps
  {
  }

  /** Every parameter set in `ps` has the fixed shape. */
  ghost predicate AllShaped(ps: seq<Params>)
  {
    forall g :: 0 <= g < |ps| ==> WellShaped(ps[g])
  }

  /**
   * What the loop's source network holds when game g is reached, when it
   * held `b0` at the start and is itself the learner network of game t: `b0`
   * up to its own game, `b0` once mutated onto itself after that.  With t
   * past the last game the source is never written and is `b0` throughout.
   */
  function Source(b0: Params, t: nat, g: nat, draws: nat -> Draws): (p: Params)
    requires WellShaped(b0)
    ensures WellShaped(p)
    ensures g <= t ==> p == b0
  {
    if g <= t then b0 else Mutated(b0, b0, DefaultRates, draws(t))
  }

  /**
   * The learners' parameters after prepareNextAgents, from their parameters
   * `n0` before it and the source `b0`, which is game t's own learner (no
   * game's, when t is the number of games): each learner is the source at
   * its turn mutated into it with the default rates, and game 0's learner
   * then takes the source as it stands after the loop with zero rates.
   */
  ghost function LearnersAfter(b0: Params, t: nat, n0: seq<Params>, draws: nat -> Draws): (ps: seq<Params>)
    requires WellShaped(b0) && AllShaped(n0) && |n0| > 0
    ensures |ps| == |n0| && AllShaped(ps)
  {
    seq(|n0|, g requires 0 <= g < |n0| => LearnerAfter(b0, t, n0, draws, g))
  }

  /** Game g's learner in `LearnersAfter`. */
  ghost function LearnerAfter(b0: Params, t: nat, n0: seq<Params>, draws: nat -> Draws, g: nat): (p: Params)
    requires WellShaped(b0) && AllShaped(n0) && g < |n0|
    ensures WellShaped(p)
  {
    if g == 0 then Mutated(Source(b0, t, |n0|, draws), Mutated(b0, n0[0], DefaultRates, draws(0)), CopyRates, draws(0))
    else Mutated(Source(b0, t, g, draws), n0[g], DefaultRates, draws(g))
  }

  /**
   * The trainers' parameters after prepareNextAgents: each takes the
   * opponent with zero rates, game 0's twice.
   */
  ghost function TrainersAfter(opponent: Params, n1: seq<Params>, draws: nat -> Draws): (ps: seq<Params>)
    requires WellShaped(opponent) && AllShaped(n1) && |n1| > 0
    ensures |ps| == |n1| && AllShaped(ps)
  {
    seq(|n1|, g requires 0 <= g < |n1| => TrainerAfter(opponent, n1, draws, g))
  }

  /** Game g's trainer in `TrainersAfter`. */
  ghost function TrainerAfter(opponent: Params, n1: seq<Params>, draws: nat -> Draws, g: nat): (p: Params)
    requires WellShaped(opponent) && AllShaped(n1) && g < |n1|
    ensures WellShaped(p)
  {
    if g == 0 then Mutated(opponent, Mutated(opponent, n1[0], CopyRates, draws(0)), CopyRates, draws(0))
    else Mutated(opponent, n1[g], CopyRates, draws(g))
  }

  /**
   * The learners hold `learners` and the trainers `trainers` after
   * prepareNextAgents spread source `b0` (game t's learner) and `opponent`
   * over networks that held `n0` and `n1`.
   */
  ghost predicate Spread(learners: seq<Params>, trainers: seq<Params>, b0: Params, t: nat, opponent: Params,
                         draws: nat -> Draws, n0: seq<Params>, n1: seq<Params>)
  {
    |n0| == |n1| > 0 && WellShaped(b0) && WellShaped(opponent) && AllShaped(n0) && AllShaped(n1) &&
    learners == LearnersAfter(b0, t, n0, draws) && trainers == TrainersAfter(opponent, n1, draws)
  }

  /** Every trainer ends up agreeing with the opponent on every entry the shape uses. */
  lemma {:induction false} TrainersTakeOpponent(opponent: Params, n1: seq<Params>, draws: nat -> Draws)
    requires WellShaped(opponent) && AllShaped(n1) && |n1| > 0
    ensures forall g :: 0 <= g < |n1| ==> SameInShape(TrainersAfter(opponent, n1, draws)[g], opponent)
  {
    var ps := TrainersAfter(opponent, n1, draws);
    forall g | 0 <= g < |n1|
      ensures SameInShape(ps[g], opponent)
    {
      if g == 0 {
        CopyAgreesInShape(opponent, Mutated(opponent, n1[0], CopyRates, draws(0)), draws(0));
      } else {
        CopyAgreesInShape(opponent, n1[g], draws(g));
      }
    }
  }

  /**
   * Game 0's learner ends up agreeing, on every entry the shape uses, with
   * the source as it stands after the loop; every other learner is the
   * source at its turn mutated into that learner's old parameters.
   */
  lemma {:induction false} FirstLearnerTakesSource(b0: Params, t: nat, n0: seq<Params>, draws: nat -> Draws)
    requires WellShaped(b0) && AllShaped(n0) && |n0| > 0
    ensures SameInShape(LearnersAfter(b0, t, n0, draws)[0], Source(b0, t, |n0|, draws))
  {
    CopyAgreesInShape(Source(b0, t, |n0|, draws), Mutated(b0, n0[0], DefaultRates, draws(0)), draws(0));
  }

  /**
   * With the winner read once (no game's network as source), every learner
   * is the winner mutated into its old parameters and game 0's learner
   * agrees with the winner itself.
   */
  lemma {:induction false} IntendedSpread(b0: Params, n0: seq<Params>, draws: nat -> Draws)
    requires WellShaped(b0) && AllShaped(n0) && |n0| > 0
    ensures forall g :: 1 <= g < |n0| ==> LearnersAfter(b0, |n0|, n0, draws)[g] == Mutated(b0, n0[g], DefaultRates, draws(g))
    ensures SameInShape(LearnersAfter(b0, |n0|, n0, draws)[0], b0)
  {
    FirstLearnerTakesSource(b0, |n0|, n0, draws);
  }

  /**
   * Draws whose coins always fall below the rate and whose offsets are half
   * the range, values randRange(-range, range) can return.
   */
  const HalfNudge := Draws((l: nat, n: nat, w: nat) => Draw(0.0, WeightMutationRange / 2.0), (l: nat, n: nat) => Draw(0.0, BiasMutationRange / 2.0))

  /**
   * A network mutated onto itself with the default rates is in general no
   * longer the network it was: with every coin below the rate, the first
   * weight moves by half the range.
   */
  lemma SelfMutationDrifts(p: Params)
    requires WellShaped(p)
    ensures Mutated(p, p, DefaultRates, HalfNudge).weights[0][0][0] == p.weights[0][0][0] + WeightMutationRange / 2.0
    ensures !SameInShape(Mutated(p, p, DefaultRates, HalfNudge), p)
  {
    var r := Mutated(p, p, DefaultRates, HalfNudge);
    assert InShape(0, 0, 0);
    assert r.weights[0][0][0] == NewWeight(p, p, DefaultRates, HalfNudge, 0, 0, 0);
  }

  /**
   * With the source being game t's own learner, as written, game 0's learner
   * does not end up with the winner `b0`: under half nudges its first weight
   * is off by half the mutation range, and the source the games after t
   * draw from is no longer the winner.
   */
  lemma WrittenSpreadDrifts(b0: Params, t: nat, n0: seq<Params>)
    requires WellShaped(b0) && AllShaped(n0) && t < |n0|
    ensures LearnersAfter(b0, t, n0, _ => HalfNudge)[0].weights[0][0][0] == b0.weights[0][0][0] + WeightMutationRange / 2.0
    ensures !SameInShape(LearnersAfter(b0, t, n0, _ => HalfNudge)[0], b0)
    ensures !SameInShape(Source(b0, t, t + 1, _ => HalfNudge), b0)
  {
    var draws: nat -> Draws := _ => HalfNudge;
    var drifted := Mutated(b0, b0, DefaultRates, HalfNudge);
    SelfMutationDrifts(b0);
    FirstLearnerTakesSource(b0, t, n0, draws);
    assert Source(b0, t, |n0|, draws) == drifted;
    assert InShape(0, 0, 0);
  }

  /**
   * The learners' side of the spreading loop before game g: the learners of
   * games before g have been mutated from what the source network held when
   * their game was reached (`Source`), the others still hold `n0`.
   */
  ghost predicate LearnersUpTo(learners: seq<Net9>, g: nat, b0: Params, t: nat, draws: nat -> Draws, n0: seq<Params>)
    requires |n0| == |learners| && g <= |learners| && WellShaped(b0) && AllShaped(n0)
    reads learners
  {
    (forall h :: 0 <= h < g ==> learners[h].Parameters() == Mutated(Source(b0, t, h, draws), n0[h], DefaultRates, draws(h))) &&
    (forall h :: g <= h < |learners| ==> learners[h].Parameters() == n0[h])
  }

  /** The trainers' side before game g: the trainers before g have taken the opponent, the others still hold `n1`. */
  ghost predicate TrainersUpTo(trainers: seq<Net9>, g: nat, opponent: Params, draws: nat -> Draws, n1: seq<Params>)
    requires |n1| == |trainers| && g <= |trainers| && WellShaped(opponent) && AllShaped(n1)
    reads trainers
  {
    (forall h :: 0 <= h < g ==> trainers[h].Parameters() == Mutated(opponent, n1[h], CopyRates, draws(h))) &&
    (forall h :: g <= h < |trainers| ==> trainers[h].Parameters() == n1[h])
  }

  /**
   * prepareNextAgents' loop over the games and its closing copies, with the
   * source being game t's learner network as written (t < |learners|), or
   * the winner's parameters `b0` read once as intended (t == |learners|).
   */
  method SpreadNets(learners: seq<Net9>, trainers: seq<Net9>, b0: Params, t: nat, opponent: Params, draws: nat -> Draws)
    requires PairsApart(learners, trainers) && 0 < |learners| && t <= |learners|
    requires WellShaped(b0) && WellShaped(opponent) && AllValid(learners, trainers)
    requires t < |learners| ==> learners[t].Parameters() == b0
    modifies learners, trainers
    ensures AllValid(learners, trainers)
    ensures Spread(ParamsOf(learners), ParamsOf(trainers), b0, t, opponent, draws, old(ParamsOf(learners)), old(ParamsOf(trainers)))
  {
    ghost var n0, n1 := ParamsOf(learners), ParamsOf(trainers);
    SpreadAll(learners, trainers, b0, t, opponent, draws, n0, n1);
    FinishFirst(learners, trainers, b0, t, opponent, draws, n0, n1);
  }

  /**
   * prepareNextAgents' loop over the games: each game's learner is mutated
   * from the source in turn (from game t's learner as written, which is
   * mutated onto itself at game t; from `b0` as intended); each trainer
   * copies the opponent.
   */
  method SpreadAll(learners: seq<Net9>, trainers: seq<Net9>, b0: Params, t: nat, opponent: Params, draws: nat -> Draws,
                   ghost n0: seq<Params>, ghost n1: seq<Params>)
    requires PairsApart(learners, trainers) && t <= |learners| && WellShaped(b0) && WellShaped(opponent)
    requires n0 == ParamsOf(learners) && n1 == ParamsOf(trainers) && AllShaped(n0) && AllShaped(n1)
    requires t < |learners| ==> n0[t] == b0
    requires AllValid(learners, trainers)
    modifies learners, trainers
    ensures AllValid(learners, trainers)
    ensures LearnersUpTo(learners, |learners|, b0, t, draws, n0)
    ensures TrainersUpTo(trainers, |trainers|, opponent, draws, n1)
  {
    for g := 0 to |learners|
      invariant AllValid(learners, trainers)
      invariant LearnersUpTo(learners, g, b0, t, draws, n0) && TrainersUpTo(trainers, g, opponent, draws, n1)
    {
      SpreadStep(learners, trainers, g, b0, t, opponent, draws, n0, n1);
    }
  }

  /** One turn of the loop over the games, at game g. */
  method SpreadStep(learners: seq<Net9>, trainers: seq<Net9>, g: nat, b0: Params, t: nat, opponent: Params, draws: nat -> Draws,
                    ghost n0: seq<Params>, ghost n1: seq<Params>)
    requires PairsApart(learners, trainers) && g < |learners| && t <= |learners| && WellShaped(b0) && WellShaped(opponent)
    requires |n0| == |learners| && |n1| == |learners| && AllShaped(n0) && AllShaped(n1)
    requires t < |learners| ==> n0[t] == b0
    requires AllValid(learners, trainers)
    requires LearnersUpTo(learners, g, b0, t, draws, n0) && TrainersUpTo(trainers, g, opponent, draws, n1)
    modifies learners[g], trainers[g]
    ensures AllValid(learners, trainers)
    ensures LearnersUpTo(learners, g + 1, b0, t, draws, n0) && TrainersUpTo(trainers, g + 1, opponent, draws, n1)
  {
    StepLearner(learners, g, b0, t, draws, n0);
    StepTrainer(trainers, g, opponent, draws, n1);
  }

  /**
   * bestNetwork->mutate(&game.networks[0]) for game g: from game t's
   * learner as written, from `b0` when t is past the last game.
   */
  method StepLearner(learners: seq<Net9>, g: nat, b0: Params, t: nat, draws: nat -> Draws, ghost n0: seq<Params>)
    requires g < |learners| == |n0| && t <= |learners| && WellShaped(b0) && AllShaped(n0)
    requires t < |learners| ==> n0[t] == b0
    requires forall h :: 0 <= h < |learners| ==> learners[h].Valid()
    requires forall h :: 0 <= h < |learners| && h != g ==> learners[h] != learners[g]
    requires LearnersUpTo(learners, g, b0, t, draws, n0)
    modifies learners[g]
    ensures forall h :: 0 <= h < |learners| ==> learners[h].Valid()
    ensures LearnersUpTo(learners, g + 1, b0, t, draws, n0)
  {
    if t < |learners| {
      learners[t].Mutate(learners[g], DefaultRates, draws(g));
    } else {
      MutateInto(b0, learners[g], DefaultRates, draws(g));
    }
  }

  /** newPastNetwork->mutate(&game.networks[1], 0.0, 0.0, 0.0, 0.0) for game g. */
  method StepTrainer(trainers: seq<Net9>, g: nat, opponent: Params, draws: nat -> Draws, ghost n1: seq<Params>)
    requires g < |trainers| == |n1| && WellShaped(opponent) && AllShaped(n1)
    requires forall h :: 0 <= h < |trainers| ==> trainers[h].Valid()
    requires forall h :: 0 <= h < |trainers| && h != g ==> trainers[h] != trainers[g]
    requires TrainersUpTo(trainers, g, opponent, draws, n1)
    modifies trainers[g]
    ensures forall h :: 0 <= h < |trainers| ==> trainers[h].Valid()
    ensures TrainersUpTo(trainers, g + 1, opponent, draws, n1)
  {
    MutateInto(opponent, trainers[g], CopyRates, draws(g));
  }

  /**
   * The closing copies of prepareNextAgents: game 0's learner takes the
   * source (game t's learner as written, `b0` as intended) with zero rates,
   * and game 0's trainer the opponent.
   */
  method FinishFirst(learners: seq<Net9>, trainers: seq<Net9>, b0: Params, t: nat, opponent: Params, draws: nat -> Draws,
                     ghost n0: seq<Params>, ghost n1: seq<Params>)
    requires PairsApart(learners, trainers) && 0 < |learners| && t <= |learners| && WellShaped(b0) && WellShaped(opponent)
    requires |n0| == |learners| && |n1| == |learners| && AllShaped(n0) && AllShaped(n1)
    requires t < |learners| ==> n0[t] == b0
    requires AllValid(learners, trainers)
    requires LearnersUpTo(learners, |learners|, b0, t, draws, n0)
    requires TrainersUpTo(trainers, |trainers|, opponent, draws, n1)
    modifies learners[0], trainers[0]
    ensures AllValid(learners, trainers)
    ensures Spread(ParamsOf(learners), ParamsOf(trainers), b0, t, opponent, draws, n0, n1)
  {
    FinishLearner(learners, trainers, b0, t, draws, n0);
    FinishTrainer(learners, trainers, opponent, draws, n1);
  }

  /** The learner's half of the closing copies: game 0's learner takes the source with zero rates. */
  method FinishLearner(learners: seq<Net9>, trainers: seq<Net9>, b0: Params, t: nat, draws: nat -> Draws, ghost n0: seq<Params>)
    requires PairsApart(learners, trainers) && 0 < |learners| && t <= |learners| && WellShaped(b0)
    requires |n0| == |learners| && AllShaped(n0)
    requires t < |learners| ==> n0[t] == b0
    requires AllValid(learners, trainers)
    requires LearnersUpTo(learners, |learners|, b0, t, draws, n0)
    modifies learners[0]
    ensures AllValid(learners, trainers)
    ensures ParamsOf(learners) == LearnersAfter(b0, t, n0, draws) && ParamsOf(trainers) == old(ParamsOf(trainers))
  {
    if t < |learners| {
      assert learners[t].Parameters() == Source(b0, t, |learners|, draws);
      learners[t].Mutate(learners[0], CopyRates, draws(0));
    } else {
      MutateInto(b0, learners[0], CopyRates, draws(0));
    }
    assert ParamsOf(learners) == LearnersAfter(b0, t, n0, draws);
  }

  /** The trainer's half of the closing copies: game 0's trainer takes the opponent with zero rates. */
  method FinishTrainer(learners: seq<Net9>, trainers: seq<Net9>, opponent: Params, draws: nat -> Draws, ghost n1: seq<Params>)
    requires PairsApart(learners, trainers) && 0 < |trainers| && WellShaped(opponent)
    requires |n1| == |trainers| && AllShaped(n1)
    requires AllValid(learners, trainers)
    requires TrainersUpTo(trainers, |trainers|, opponent, draws, n1)
    modifies trainers[0]
    ensures AllValid(learners, trainers)
    ensures ParamsOf(trainers) == TrainersAfter(opponent, n1, draws) && ParamsOf(learners) == old(ParamsOf(learners))
  {
    MutateInto(opponent, trainers[0], CopyRates, draws(0));
    assert ParamsOf(trainers) == TrainersAfter(opponent, n1, draws);
  }

  /**
   * The ring's part of prepareNextAgents at generation `gen`: the winner `b0`
   * is stored only on every 250th generation, and the opponent is re-chosen
   * (always the cursor's slot) when none was cached or on every fifth
   * generation, and otherwise kept.
   */
  ghost predicate RingStep(before: Ring, after: Ring, chosenBefore: Option<nat>, chosenAfter: Option<nat>, gen: nat, b0: Params)
    requires RingValid(before)
  {
    after == (if gen % SnapshotFrequency == 0 then Push(before, b0) else before) &&
    chosenAfter.Some? && chosenAfter.value < SnapshotWindow &&
    (chosenBefore.None? || gen % SwapSteps == 0 ==> chosenAfter == Some(after.current)) &&
    (chosenBefore.Some? && gen % SwapSteps != 0 ==> chosenAfter == chosenBefore)
  }

  /**
   * The ring's part of prepareNextAgents: `winner` is offered to the ring
   * at generation `gen`, then the opponent is taken from the slot the ring
   * chooses.
   */
  method RingTurn(rl: ReinforcementLearning, winner: Params, gen: nat, roll: Coin, pick: nat) returns (opponent: Params)
    requires rl.Valid() && WellShaped(winner) && InPickRange(pick, OfferedSize(rl.State(), gen))
    modifies rl
    ensures rl.Valid()
    ensures RingStep(old(rl.State()), rl.State(), old(rl.chosenNetwork), rl.chosenNetwork, gen, winner)
    ensures opponent == rl.policy[rl.chosenNetwork.value] && WellShaped(opponent)
  {
    rl.AddNeuralNetwork(winner, gen);
    var slot, _ := rl.GetNetwork(gen, roll, pick);
    opponent := rl.policy[slot];
  }

  /** A started game's two agents put at `p0` and `p1` instead of `q0` and `q1`. */
  method PlaceAgents(game: Game, p0: Vec2, p1: Vec2, ghost q0: Vec2, ghost q1: Vec2)
    requires game.Valid() && game.Started(q0, q1)
    modifies game.agents
    ensures game.Valid() && game.Started(p0, p1)
    ensures forall k :: 0 <= k < AgentsPerGame ==> game.agents[k].gameStartPos == old(game.agents[k].gameStartPos)
  {
    game.Outside();
    game.agents[0].position := p0;
    game.agents[1].position := p1;
    assert Flags(game.agents) == old(Flags(game.agents));
  }

  /** One game's tick as tickGames sees it: the counter drops by one and neither network changes. */
  method TickOnce(game: Game, act: real -> real, sqrt: real -> real, project: Vec2 -> Vec2) returns (over: bool)
    requires game.Valid()
    modifies game, game.agents, game.networks
    ensures game.Valid() && game.timeRemaining == old(game.timeRemaining) - 1 && (over <==> game.timeRemaining == 0)
    ensures game.networks[0].Parameters() == old(game.networks[0].Parameters())
    ensures game.networks[1].Parameters() == old(game.networks[1].Parameters())
  {
    over := game.Tick(act, sqrt, project);
  }

  /** Every counter one lower: each game's tick. */
  function Ticked(timers: seq<int>): (after: seq<int>)
    ensures |after| == |timers| && forall g :: 0 <= g < |timers| ==> after[g] == timers[g] - 1
  {
    seq(|timers|, g requires 0 <= g < |timers| => timers[g] - 1)
  }

  /** All the counters agree. */
  predicate Synchronised(timers: seq<int>)
  {
    forall g :: 0 <= g < |timers| ==> timers[g] == timers[0]
  }

  /** Ticking counter g of `before`, with the counters before g already ticked, ticks the prefix up to g + 1. */
  lemma TickOne(timers: seq<int>, g: nat, before: seq<int>, after: seq<int>)
    requires g < |timers| && before == Ticked(timers[..g]) + timers[g..]
    requires |after| == |before| && after[g] == before[g] - 1
    requires forall h :: 0 <= h < |before| && h != g ==> after[h] == before[h]
    ensures after == Ticked(timers[..g + 1]) + timers[g + 1..]
  {
    var want := Ticked(timers[..g + 1]) + timers[g + 1..];
    forall h | 0 <= h < |after|
      ensures after[h] == want[h]
    {
      if h < g {
        assert before[h] == Ticked(timers[..g])[h];
      }
    }
  }

  /** Ticking every counter before the end ticks them all. */
  lemma TickedWhole(timers: seq<int>)
    ensures Ticked(timers[..|timers|]) + timers[|timers|..] == Ticked(timers)
  {
    assert timers[..|timers|] == timers;
  }

  /** Counters that agree still agree after a tick each, so any one of them reaching zero means all did. */
  lemma TickedInStep(timers: seq<int>)
    requires Synchronised(timers) && |timers| > 0
    ensures Synchronised(Ticked(timers))
    ensures Ticked(timers)[|timers| - 1] == 0 <==> forall g :: 0 <= g < |timers| ==> Ticked(timers)[g] == 0
  {
  }

  /** resetGames' last pass over one game: each agent records its position as where it started. */
  method MarkStart(game: Game, ghost p0: Vec2, ghost p1: Vec2)
    requires game.Valid() && game.Started(p0, p1)
    modifies game.agents
    ensures game.Valid() && game.Started(p0, p1)
    ensures forall k :: 0 <= k < AgentsPerGame ==> game.agents[k].gameStartPos == game.agents[k].position
  {
    game.Outside();
    for k := 0 to AgentsPerGame
      invariant game.Valid() && game.Started(p0, p1)
      invariant forall j :: 0 <= j < k ==> game.agents[j].gameStartPos == game.agents[j].position
    {
      game.agents[k].gameStartPos := game.agents[k].position;
    }
  }

  class Simulation {
    const games: seq<Game>
    const rl: ReinforcementLearning
    /** Each game's learner and trainer agents and networks, as fixed when the games were made. */
    ghost const learnerAgents: seq<Agent>
    ghost const trainerAgents: seq<Agent>
    ghost const learnerNets: seq<Net9>
    ghost const trainerNets: seq<Net9>
    var best: BestNetworkInfo
    var generationCount: nat
    var totalRunTime: real
    var autoSave: bool
    var paused: bool
    /** The last file written by saveNetworkData, if any. */
    var savedFile: Option<SaveData>

    /** The sizes fixed at construction: a hundred games of two agents and two networks each. */
    ghost predicate Shaped()
    {
      |games| == ParallelGames &&
      |learnerAgents| == |trainerAgents| == |learnerNets| == |trainerNets| == |games| &&
      forall g :: 0 <= g < |games| ==>
        games[g].agents == [learnerAgents[g], trainerAgents[g]] && games[g].networks == [learnerNets[g], trainerNets[g]]
    }

    /** No game, agent or network is shared between two games or two roles. */
    ghost predicate Apart()
    {
      (forall g, h :: 0 <= g < h < |games| ==> games[g] != games[h]) &&
      PairsApart(learnerAgents, trainerAgents) && PairsApart(learnerNets, trainerNets)
    }

    ghost predicate Valid()
      reads rl, games, learnerAgents, trainerAgents, learnerNets, trainerNets
    {
      Shaped() && Apart() && rl.Valid() && GamesValid()
    }

    /** Every game is consistent on its own. */
    ghost predicate GamesValid()
      requires Shaped()
      reads games, learnerAgents, trainerAgents, learnerNets, trainerNets
    {
      forall g :: 0 <= g < |games| ==> games[g].Valid()
    }

    /**
     * Simulation(): the games made by initGames and the snapshot ring, with
     * the counters at their initial values and no winner recorded yet.  The
     * ghost arguments name each game's agents and networks.
     */
    constructor (gameList: seq<Game>, learning: ReinforcementLearning,
                 ghost learnerList: seq<Agent>, ghost trainerList: seq<Agent>, ghost learnerNetList: seq<Net9>, ghost trainerNetList: seq<Net9>)
      requires |gameList| == ParallelGames && learning.Valid()
      requires |learnerList| == |trainerList| == |learnerNetList| == |trainerNetList| == |gameList|
      requires forall g :: 0 <= g < |gameList| ==>
        gameList[g].agents == [learnerList[g], trainerList[g]] && gameList[g].networks == [learnerNetList[g], trainerNetList[g]]
      requires forall g :: 0 <= g < |gameList| ==> gameList[g].Valid()
      requires forall g, h :: 0 <= g < h < |gameList| ==> gameList[g] != gameList[h]
      requires PairsApart(learnerList, trainerList) && PairsApart(learnerNetList, trainerNetList)
      ensures Valid() && games == gameList && rl == learning
      ensures learnerAgents == learnerList && trainerAgents == trainerList
      ensures learnerNets == learnerNetList && trainerNets == trainerNetList
      ensures generationCount == 1 && totalRunTime == 0.0 && !autoSave && !paused && savedFile == None
      ensures best == BestNetworkInfo(0.0, Origin, Origin, None)
    {
      games, rl := gameList, learning;
      learnerAgents, trainerAgents, learnerNets, trainerNets := learnerList, trainerList, learnerNetList, trainerNetList;
      best := BestNetworkInfo(0.0, Origin, Origin, None);
      generationCount, totalRunTime, autoSave, paused, savedFile := 1, 0.0, false, false, None;
    }

    /** The run's bookkeeping: generation count, run time, the two switches and the last save. */
    function Run(): (nat, real, bool, bool, Option<SaveData>)
      reads this
    {
      (generationCount, totalRunTime, autoSave, paused, savedFile)
    }

    /** The learners' scores, game by game. */
    function LearnerScores(): (s: seq<real>)
      requires Shaped()
      reads learnerAgents
      ensures |s| == |games| && forall g :: 0 <= g < |games| ==> s[g] == games[g].agents[0].score
    {
      seq(|games|, g requires 0 <= g < |games| reads learnerAgents => games[g].agents[0].score)
    }

    /**
     * getTopNet: the winner is the first game whose learner has the lowest
     * score below 100000; its two start positions are recorded.  With no such
     * game there is no winner and the recorded positions stay as they were.
     */
    method GetTopNet()
      requires Shaped()
      modifies this
      ensures Run() == old(Run())
      ensures var scan := ScanScores(LearnerScores(), ScoreCeiling);
        best.network == scan.best && best.score == scan.score
      ensures best.network.Some? ==> (best.network.value < |games| &&
        best.learnerPosition == games[best.network.value].agents[0].gameStartPos &&
        best.trainerPosition == games[best.network.value].agents[1].gameStartPos)
      ensures best.network.None? ==>
        best.learnerPosition == old(best.learnerPosition) && best.trainerPosition == old(best.trainerPosition)
    {
      ghost var scores := LearnerScores();
      var info := best.(score := ScoreCeiling, network := None);
      for i := 0 to |games|
        invariant var scan := ScanScores(scores[..i], ScoreCeiling); info.network == scan.best && info.score == scan.score
        invariant info.network.Some? ==> (info.network.value < i &&
          info.learnerPosition == games[info.network.value].agents[0].gameStartPos &&
          info.trainerPosition == games[info.network.value].agents[1].gameStartPos)
        invariant info.network.None? ==>
          info.learnerPosition == best.learnerPosition && info.trainerPosition == best.trainerPosition
      {
        assert scores[..i + 1][..i] == scores[..i];
        var score := games[i].agents[0].score;
        if score < info.score {
          info := BestNetworkInfo(score, games[i].agents[0].gameStartPos, games[i].agents[1].gameStartPos, Some(i));
        }
      }
      assert scores[..|games|] == scores;
      best := info;
      assert LearnerScores() == scores;
    }

    /**
     * prepareNextAgents, with the winner's network aliased as in the source:
     * the winner is offered to the ring, the opponent is chosen, then every
     * game's learner is mutated from the winner's network and every trainer
     * copies the opponent; game 0 finally copies both again.  The loop
     * mutates the winner's network in place when it reaches the winner's own
     * game t, so the later games and game 0 draw from the mutated weights
     * (`Spread` with source game t).  Without a learner scoring below 100000
     * the source dereferences a null pointer, hence the precondition.
     */
    method PrepareNextAgents(roll: Coin, pick: nat, draws: nat -> Draws)
      requires Valid()
      requires InPickRange(pick, OfferedSize(rl.State(), generationCount))
      requires exists g :: 0 <= g < |games| && games[g].agents[0].score < ScoreCeiling
      modifies this, rl, learnerNets, trainerNets
      ensures Valid() && Run() == old(Run())
      ensures best.network.Some? && best.network.value < |games|
      ensures var t := best.network.value; WinnerRecorded(t, old(LearnerScores()), old(StartsOf(t)))
      ensures RingStep(old(rl.State()), rl.State(), old(rl.chosenNetwork), rl.chosenNetwork, generationCount,
                       old(ParamsOf(learnerNets))[best.network.value])
      ensures var t := best.network.value; var n0 := old(ParamsOf(learnerNets));
        Spread(ParamsOf(learnerNets), ParamsOf(trainerNets), n0[t], t, rl.policy[rl.chosenNetwork.value], draws,
               n0, old(ParamsOf(trainerNets)))
    {
      var t, b0, opponent := ChooseNets(roll, pick);
      Propagate(b0, t, opponent, draws);
      assert best.network == Some(t);
    }

    /**
     * prepareNextAgents as evidently intended: the winner's parameters are
     * read once, before any network is written, so every game's learner is
     * mutated from the winner itself and game 0 gets the winner unchanged
     * (`Spread` with no game's network as source).
     */
    method PrepareNextAgentsIntended(roll: Coin, pick: nat, draws: nat -> Draws)
      requires Valid()
      requires InPickRange(pick, OfferedSize(rl.State(), generationCount))
      requires exists g :: 0 <= g < |games| && games[g].agents[0].score < ScoreCeiling
      modifies this, rl, learnerNets, trainerNets
      ensures Valid() && Run() == old(Run())
      ensures best.network.Some? && best.network.value < |games|
      ensures var t := best.network.value; WinnerRecorded(t, old(LearnerScores()), old(StartsOf(t)))
      ensures RingStep(old(rl.State()), rl.State(), old(rl.chosenNetwork), rl.chosenNetwork, generationCount,
                       old(ParamsOf(learnerNets))[best.network.value])
      ensures var t := best.network.value; var n0 := old(ParamsOf(learnerNets));
        Spread(ParamsOf(learnerNets), ParamsOf(trainerNets), n0[t], |games|, rl.policy[rl.chosenNetwork.value], draws,
               n0, old(ParamsOf(trainerNets)))
    {
      var t, b0, opponent := ChooseNets(roll, pick);
      Propagate(b0, |games|, opponent, draws);
      assert best.network == Some(t);
    }

    /** The parts of Valid, put back together. */
    lemma ValidFrom()
      requires Shaped() && Apart() && rl.Valid() && GamesValid()
      ensures Valid()
    {
    }

    /** The simulation and its ring are no game, agent or network, and no agent is a network. */
    lemma Outside()
      requires Shaped()
      ensures forall g :: 0 <= g < |games| ==>
        games[g] as object != this && games[g] as object != rl &&
        learnerAgents[g] as object != this && learnerAgents[g] as object != rl &&
        trainerAgents[g] as object != this && trainerAgents[g] as object != rl &&
        learnerNets[g] as object != this && learnerNets[g] as object != rl &&
        trainerNets[g] as object != this && trainerNets[g] as object != rl
      ensures forall g, h :: 0 <= g < |games| && 0 <= h < |games| ==>
        learnerAgents[g] as object != learnerNets[h] as object && learnerAgents[g] as object != trainerNets[h] as object &&
        trainerAgents[g] as object != learnerNets[h] as object && trainerAgents[g] as object != trainerNets[h] as object
    {
    }

    /** Valid games have valid networks of fixed shape. */
    lemma NetsValid()
      requires Shaped() && GamesValid()
      ensures AllValid(learnerNets, trainerNets)
      ensures forall g :: 0 <= g < |games| ==> WellShaped(learnerNets[g].Parameters()) && WellShaped(trainerNets[g].Parameters())
    {
      forall g | 0 <= g < |games|
        ensures learnerNets[g].Valid() && trainerNets[g].Valid()
      {
        assert games[g].Valid();
      }
    }

    /**
     * The first half of prepareNextAgents: find the winner, offer its network
     * to the ring, and let the ring choose the opponent.
     */
    method ChooseNets(roll: Coin, pick: nat) returns (t: nat, b0: Params, opponent: Params)
      requires Valid()
      requires InPickRange(pick, OfferedSize(rl.State(), generationCount))
      requires exists g :: 0 <= g < |games| && games[g].agents[0].score < ScoreCeiling
      modifies this, rl
      ensures Valid() && Run() == old(Run())
      ensures ParamsOf(learnerNets) == old(ParamsOf(learnerNets)) && ParamsOf(trainerNets) == old(ParamsOf(trainerNets))
      ensures t < |games| && WinnerRecorded(t, old(LearnerScores()), old(StartsOf(t)))
      ensures RingStep(old(rl.State()), rl.State(), old(rl.chosenNetwork), rl.chosenNetwork, generationCount,
                       old(ParamsOf(learnerNets))[t])
      ensures opponent == rl.policy[rl.chosenNetwork.value] && WellShaped(opponent)
      ensures b0 == old(ParamsOf(learnerNets))[t] == learnerNets[t].Parameters() && WellShaped(b0)
    {
      NetsValid();
      t := FindWinner();
      opponent := Offer(t, roll, pick);
      b0 := games[t].networks[0].Parameters();
    }

    /** The ring's turn in prepareNextAgents: game t's learner network is offered, then the opponent chosen. */
    method Offer(t: nat, roll: Coin, pick: nat) returns (opponent: Params)
      requires Valid() && AllValid(learnerNets, trainerNets) && t < |games|
      requires InPickRange(pick, OfferedSize(rl.State(), generationCount))
      modifies rl
      ensures Valid()
      ensures ParamsOf(learnerNets) == old(ParamsOf(learnerNets)) && ParamsOf(trainerNets) == old(ParamsOf(trainerNets))
      ensures RingStep(old(rl.State()), rl.State(), old(rl.chosenNetwork), rl.chosenNetwork, generationCount,
                       old(ParamsOf(learnerNets))[t])
      ensures opponent == rl.policy[rl.chosenNetwork.value] && WellShaped(opponent)
    {
      var bestNet := games[t].networks[0];
      opponent := RingTurn(rl, bestNet.Parameters(), generationCount, roll, pick);
      Outside();
      FootprintKept();
      ValidFrom();
    }

    /** The start positions game t's learner and trainer recorded. */
    ghost function StartsOf(t: nat): (Vec2, Vec2)
      requires Shaped() && t < |games|
      reads learnerAgents, trainerAgents
    {
      (games[t].agents[0].gameStartPos, games[t].agents[1].gameStartPos)
    }

    /**
     * What getTopNet records for the winner t, given the learners' scores
     * and t's start positions: the scan's choice and minimum, and those
     * two positions.
     */
    ghost predicate WinnerRecorded(t: nat, scores: seq<real>, starts: (Vec2, Vec2))
      reads this
    {
      best.network == ScanScores(scores, ScoreCeiling).best == Some(t) &&
      best.score == ScanScores(scores, ScoreCeiling).score &&
      (best.learnerPosition, best.trainerPosition) == starts
    }

    /** getTopNet, when some learner scores below the ceiling: the winner's game t. */
    method FindWinner() returns (t: nat)
      requires Valid()
      requires exists g :: 0 <= g < |games| && games[g].agents[0].score < ScoreCeiling
      modifies this
      ensures Run() == old(Run()) && LearnerScores() == old(LearnerScores())
      ensures best.network == ScanScores(LearnerScores(), ScoreCeiling).best == Some(t) && t < |games|
      ensures best.score == ScanScores(LearnerScores(), ScoreCeiling).score
      ensures best.learnerPosition == games[t].agents[0].gameStartPos && best.trainerPosition == games[t].agents[1].gameStartPos
      ensures Valid()
      ensures ParamsOf(learnerNets) == old(ParamsOf(learnerNets)) && ParamsOf(trainerNets) == old(ParamsOf(trainerNets))
    {
      ghost var scores := LearnerScores();
      Outside();
      GetTopNet();
      FootprintKept();
      assert LearnerScores() == scores;
      ScanScoresFindsFirstMinimum(scores, ScoreCeiling);
      t := best.network.value;
    }

    /** Nothing in the footprint changed, so nothing read through it did either. */
    twostate lemma FootprintKept()
      requires Shaped() && old(GamesValid())
      requires unchanged(games) && unchanged(learnerAgents) && unchanged(trainerAgents)
      requires unchanged(learnerNets) && unchanged(trainerNets)
      ensures GamesValid()
      ensures ParamsOf(learnerNets) == old(ParamsOf(learnerNets)) && ParamsOf(trainerNets) == old(ParamsOf(trainerNets))
    {
    }

    /** The learners' networks, game by game. */
    function Learners(): (ns: seq<Net9>)
      requires Shaped()
      ensures ns == learnerNets
    {
      seq(|games|, g requires 0 <= g < |games| => games[g].networks[0])
    }

    /** The trainers' networks, game by game. */
    function Trainers(): (ns: seq<Net9>)
      requires Shaped()
      ensures ns == trainerNets
    {
      seq(|games|, g requires 0 <= g < |games| => games[g].networks[1])
    }

    /**
     * prepareNextAgents' loop over the games and its closing copies, given
     * the source (game t's learner, holding `b0`, or `b0` alone when t is the
     * number of games) and the opponent's parameters.
     */
    method Propagate(b0: Params, t: nat, opponent: Params, draws: nat -> Draws)
      requires Valid() && t <= |games| && WellShaped(b0) && WellShaped(opponent)
      requires t < |games| ==> learnerNets[t].Parameters() == b0
      modifies learnerNets, trainerNets
      ensures Valid()
      ensures Spread(ParamsOf(learnerNets), ParamsOf(trainerNets), b0, t, opponent, draws,
                     old(ParamsOf(learnerNets)), old(ParamsOf(trainerNets)))
    {
      NetsValid();
      var learners, trainers := Learners(), Trainers();
      SpreadNets(learners, trainers, b0, t, opponent, draws);
      Outside();
      KeptGamesValid();
      ValidFrom();
    }

    /** Rewriting networks in place keeps every game valid: the agents are not touched. */
    twostate lemma KeptGamesValid()
      requires Shaped() && old(GamesValid())
      requires AllValid(learnerNets, trainerNets)
      requires forall g :: 0 <= g < |games| ==> unchanged(learnerAgents[g], trainerAgents[g])
      ensures GamesValid()
    {
      forall g | 0 <= g < |games|
        ensures games[g].Valid()
      {
        assert old(games[g].Valid());
        assert Flags(games[g].agents) == old(Flags(games[g].agents));
      }
    }

    /**
     * saveNetworkData: the file gets the generation, the run time and every
     * policy slot, written once for each of the two agents.
     */
    method SaveNetworkData()
      modifies this
      ensures savedFile == Some(SaveData(generationCount, totalRunTime, SavedNets(rl.policy)))
      ensures best == old(best) && generationCount == old(generationCount) && totalRunTime == old(totalRunTime)
      ensures autoSave == old(autoSave) && paused == old(paused)
    {
      var nets := CollectNets(rl.policy);
      savedFile := Some(SaveData(generationCount, totalRunTime, nets));
    }

    /**
     * endOfGenStats: the generation count goes up by one, and the ring is
     * saved when autosave is on and the new count is a multiple of 250.
     */
    method EndOfGenStats()
      modifies this
      ensures generationCount == old(generationCount) + 1
      ensures autoSave && generationCount % AutoSaveFreq == 0 ==>
        savedFile == Some(SaveData(generationCount, totalRunTime, SavedNets(rl.policy)))
      ensures !(autoSave && generationCount % AutoSaveFreq == 0) ==> savedFile == old(savedFile)
      ensures best == old(best) && totalRunTime == old(totalRunTime) && autoSave == old(autoSave) && paused == old(paused)
    {
      generationCount := generationCount + 1;
      if autoSave && generationCount % AutoSaveFreq == 0 {
        SaveNetworkData();
      }
    }

    /**
     * The restoring part of loadNetworkData: generation and run time are
     * taken from the save, the ring is reset and its ten slots are loaded
     * from the first ten records.  A save the loader cannot read leaves
     * everything as it was and reports false.
     */
    method RestorePolicy(data: SaveData) returns (ok: bool)
      requires rl.Valid()
      modifies this, rl
      ensures ok == Loadable(data) && rl.Valid()
      ensures best == old(best) && autoSave == old(autoSave) && paused == old(paused) && savedFile == old(savedFile)
      ensures !ok ==> (generationCount == old(generationCount) && totalRunTime == old(totalRunTime) &&
        rl.State() == old(rl.State()) && rl.chosenNetwork == old(rl.chosenNetwork))
      ensures ok ==> (generationCount == data.gen && totalRunTime == data.time && rl.chosenNetwork == None &&
        rl.State() == Ring(Restored(old(rl.policy), data.nets), 0, SnapshotWindow))
    {
      if !Loadable(data) {
        return false;
      }
      generationCount, totalRunTime := data.gen, data.time;
      rl.ResetInformation();
      LoadRing(rl, data.nets);
      ok := true;
    }

    /**
     * loadNetworkData: restore the ring from the save, then prepare the next
     * generation's networks (with the winner read once, as intended).  When
     * the restored generation is a multiple of 250 the winner is written over
     * the restored slot 0.
     */
    method LoadNetworkData(data: SaveData, roll: Coin, pick: nat, draws: nat -> Draws) returns (ok: bool)
      requires Valid()
      requires InPickRange(pick, SnapshotWindow)
      requires exists g :: 0 <= g < |games| && games[g].agents[0].score < ScoreCeiling
      modifies this, rl, learnerNets, trainerNets
      ensures Valid() && ok == Loadable(data)
      ensures !ok ==> (generationCount == old(generationCount) && totalRunTime == old(totalRunTime) &&
        rl.State() == old(rl.State()) && rl.chosenNetwork == old(rl.chosenNetwork) &&
        ParamsOf(learnerNets) == old(ParamsOf(learnerNets)) && ParamsOf(trainerNets) == old(ParamsOf(trainerNets)))
      ensures ok ==> generationCount == data.gen && totalRunTime == data.time
      ensures ok ==> best.network.Some? && best.network.value < |games|
      ensures ok ==> var t := best.network.value; WinnerRecorded(t, old(LearnerScores()), old(StartsOf(t)))
      ensures !ok ==> best == old(best)
      ensures ok ==>
        RingStep(Ring(Restored(old(rl.policy), data.nets), 0, SnapshotWindow), rl.State(), None, rl.chosenNetwork,
                 data.gen, old(ParamsOf(learnerNets))[best.network.value])
      ensures ok ==>
        Spread(ParamsOf(learnerNets), ParamsOf(trainerNets), old(ParamsOf(learnerNets))[best.network.value], |games|,
               rl.policy[rl.chosenNetwork.value], draws, old(ParamsOf(learnerNets)), old(ParamsOf(trainerNets)))
    {
      ghost var scores := LearnerScores();
      ok := RestorePolicy(data);
      Outside();
      FootprintKept();
      assert LearnerScores() == scores;
      if ok {
        PrepareNextAgentsIntended(roll, pick, draws);
      }
    }

    /**
     * The start positions resetGames gives game g: the recorded winner's for
     * game 0 when the recorded learner position is not the origin, the
     * shared positions otherwise.
     */
    function StartOf(g: nat, positions: seq<Vec2>): (Vec2, Vec2)
      requires |positions| >= AgentsPerGame
      reads this
    {
      if g == 0 && best.learnerPosition != Origin then (best.learnerPosition, best.trainerPosition)
      else (positions[0], positions[1])
    }

    /** The games before g have been started at `p0` and `p1`. */
    ghost predicate StartedUpTo(g: nat, p0: Vec2, p1: Vec2)
      requires Shaped()
      reads games, learnerAgents, trainerAgents
    {
      forall h :: 0 <= h < g && h < |games| ==> games[h].Started(p0, p1)
    }

    /** Every game has been started at its own start positions. */
    ghost predicate AllStarted(positions: seq<Vec2>)
      requires Shaped() && |positions| >= AgentsPerGame
      reads this, games, learnerAgents, trainerAgents
    {
      forall h :: 0 <= h < |games| ==> games[h].Started(StartOf(h, positions).0, StartOf(h, positions).1)
    }

    /** The agents of the games before g have recorded their positions as their starts. */
    ghost predicate MarkedUpTo(g: nat)
      requires Shaped()
      reads learnerAgents, trainerAgents
    {
      forall h :: 0 <= h < g && h < |games| ==>
        learnerAgents[h].gameStartPos == learnerAgents[h].position && trainerAgents[h].gameStartPos == trainerAgents[h].position
    }

    /**
     * resetGames: every game is started at the same fresh positions (the
     * agents first reset to their own random points `spawns`); game 0 is then
     * moved to the recorded winner's positions when the recorded learner
     * position is not the origin; finally every agent records where it starts.
     */
    method ResetGames(positions: seq<Vec2>, spawns: seq<seq<Vec2>>)
      requires Valid() && |positions| >= AgentsPerGame
      requires |spawns| == |games| && forall g :: 0 <= g < |spawns| ==> |spawns[g]| >= AgentsPerGame
      modifies games, learnerAgents, trainerAgents
      ensures Valid() && AllStarted(positions) && MarkedUpTo(|games|)
    {
      Outside();
      for g := 0 to |games|
        invariant GamesValid() && StartedUpTo(g, positions[0], positions[1])
      {
        InitStep(g, positions, spawns[g]);
      }
      if best.learnerPosition != Origin {
        PlaceWinner(positions);
      }
      for g := 0 to |games|
        invariant GamesValid() && AllStarted(positions) && MarkedUpTo(g)
      {
        MarkStep(g, positions);
      }
    }

    /** initiliseGame for game g, inside resetGames' first pass. */
    method InitStep(g: nat, positions: seq<Vec2>, spawns: seq<Vec2>)
      requires Shaped() && Apart() && GamesValid() && g < |games| && |positions| >= AgentsPerGame && |spawns| >= AgentsPerGame
      requires StartedUpTo(g, positions[0], positions[1])
      modifies games[g], learnerAgents[g], trainerAgents[g]
      ensures GamesValid() && StartedUpTo(g + 1, positions[0], positions[1])
    {
      Outside();
      games[g].Initialise(positions, spawns);
      OthersKept(g);
    }

    /**
     * Only game g and its agents changed: every other game is as valid and as
     * started as it was, and its agents' positions and recorded starts are kept.
     */
    twostate lemma OthersKept(g: nat)
      requires Shaped() && Apart() && g < |games| && unchanged(this)
      requires forall h :: 0 <= h < |games| && h != g ==>
        unchanged(games[h], learnerAgents[h], trainerAgents[h]) && unchanged(learnerNets[h], trainerNets[h])
      ensures forall h :: 0 <= h < |games| && h != g ==>
        (old(games[h].Valid()) ==> games[h].Valid()) && games[h].timeRemaining == old(games[h].timeRemaining) &&
        learnerNets[h].Parameters() == old(learnerNets[h].Parameters()) &&
        trainerNets[h].Parameters() == old(trainerNets[h].Parameters()) &&
        learnerAgents[h].gameStartPos == old(learnerAgents[h].gameStartPos) &&
        learnerAgents[h].position == old(learnerAgents[h].position) &&
        trainerAgents[h].gameStartPos == old(trainerAgents[h].gameStartPos) &&
        trainerAgents[h].position == old(trainerAgents[h].position)
      ensures forall h, p0, p1 :: 0 <= h < |games| && h != g && old(games[h].Started(p0, p1)) ==> games[h].Started(p0, p1)
      ensures old(GamesValid()) && games[g].Valid() ==> GamesValid()
      ensures (games[g].networks[0].Parameters() == old(games[g].networks[0].Parameters()) &&
               games[g].networks[1].Parameters() == old(games[g].networks[1].Parameters())) ==>
        forall h :: 0 <= h < |games| ==>
          learnerNets[h].Parameters() == old(learnerNets[h].Parameters()) &&
          trainerNets[h].Parameters() == old(trainerNets[h].Parameters())
    {
      forall h | 0 <= h < |games| && h != g
        ensures old(games[h].Valid()) ==> games[h].Valid()
      {
        assert Flags(games[h].agents) == old(Flags(games[h].agents));
      }
    }

    /** Game 0's two agents move to the recorded winner's start positions. */
    method PlaceWinner(positions: seq<Vec2>)
      requires Shaped() && Apart() && GamesValid() && |positions| >= AgentsPerGame && best.learnerPosition != Origin
      requires StartedUpTo(|games|, positions[0], positions[1])
      modifies learnerAgents[0], trainerAgents[0]
      ensures GamesValid() && AllStarted(positions)
    {
      Outside();
      PlaceAgents(games[0], best.learnerPosition, best.trainerPosition, positions[0], positions[1]);
      OthersKept(0);
    }

    /** resetGames' last pass, at game g. */
    method MarkStep(g: nat, positions: seq<Vec2>)
      requires Shaped() && Apart() && GamesValid() && g < |games| && |positions| >= AgentsPerGame
      requires AllStarted(positions) && MarkedUpTo(g)
      modifies learnerAgents[g], trainerAgents[g]
      ensures GamesValid() && AllStarted(positions) && MarkedUpTo(g + 1)
    {
      Outside();
      var start := StartOf(g, positions);
      MarkStart(games[g], start.0, start.1);
      OthersKept(g);
    }

    /** Every game's frame counter, game by game. */
    function Timers(): (ts: seq<int>)
      reads games
      ensures |ts| == |games| && forall g :: 0 <= g < |games| ==> ts[g] == games[g].timeRemaining
    {
      seq(|games|, g requires 0 <= g < |games| reads games => games[g].timeRemaining)
    }

    /**
     * The games before g have ticked once (their counters one below
     * `timers`), the others not yet; no network has changed.
     */
    ghost predicate TickedUpTo(g: nat, timers: seq<int>, n0: seq<Params>, n1: seq<Params>)
      requires g <= |timers|
      reads games, learnerNets, trainerNets
    {
      |n0| == |n1| == |learnerNets| == |trainerNets| && Timers() == Ticked(timers[..g]) + timers[g..] &&
      forall h :: 0 <= h < |learnerNets| ==> learnerNets[h].Parameters() == n0[h] && trainerNets[h].Parameters() == n1[h]
    }

    /**
     * tickGames: unless paused, every game ticks once, in order, and `stop`
     * is what the last game's tick reported; paused, nothing moves and `stop`
     * keeps its value.  No network changes.  When all the counters agreed
     * before (as they do after resetGames), they agree afterwards, so the
     * last game's report stands for every game.
     */
    method TickGames(stop0: bool, act: real -> real, sqrt: real -> real, project: Vec2 -> Vec2) returns (stop: bool)
      requires Valid()
      modifies games, learnerAgents, trainerAgents, learnerNets, trainerNets
      ensures Valid()
      ensures ParamsOf(learnerNets) == old(ParamsOf(learnerNets)) && ParamsOf(trainerNets) == old(ParamsOf(trainerNets))
      ensures paused ==> stop == stop0 && Timers() == old(Timers())
      ensures paused ==> (unchanged(games) && unchanged(learnerAgents) && unchanged(trainerAgents) &&
                          unchanged(learnerNets) && unchanged(trainerNets))
      ensures !paused ==> Timers() == Ticked(old(Timers())) && (stop <==> Timers()[|games| - 1] == 0)
      ensures !paused && Synchronised(old(Timers())) ==>
        Synchronised(Timers()) && (stop <==> forall g :: 0 <= g < |games| ==> Timers()[g] == 0)
    {
      if paused {
        return stop0;
      }
      ghost var timers := Timers();
      stop := TickAll(act, sqrt, project);
      ValidAgain();
      if Synchronised(timers) {
        TickedInStep(timers);
      }
    }

    /** The games still valid, with the ring and the fields untouched, keep the simulation valid. */
    twostate lemma ValidAgain()
      requires old(Valid()) && unchanged(this, rl) && GamesValid()
      ensures Valid()
    {
    }

    /** tickGames' loop over the games, with its result as the last game's report. */
    method TickAll(act: real -> real, sqrt: real -> real, project: Vec2 -> Vec2) returns (stop: bool)
      requires Shaped() && Apart() && GamesValid()
      modifies games, learnerAgents, trainerAgents, learnerNets, trainerNets
      ensures GamesValid() && Timers() == Ticked(old(Timers())) && (stop <==> Timers()[|games| - 1] == 0)
      ensures ParamsOf(learnerNets) == old(ParamsOf(learnerNets)) && ParamsOf(trainerNets) == old(ParamsOf(trainerNets))
    {
      ghost var timers, n0, n1 := Timers(), ParamsOf(learnerNets), ParamsOf(trainerNets);
      stop := false;
      for g := 0 to |games|
        invariant GamesValid() && TickedUpTo(g, timers, n0, n1)
        invariant g > 0 ==> (stop <==> timers[g - 1] - 1 == 0)
      {
        stop := TickStep(g, timers, n0, n1, act, sqrt, project);
      }
      TickedWhole(timers);
      ParamsAre(learnerNets, n0);
      ParamsAre(trainerNets, n1);
    }

    /** tick for game g, inside tickGames' loop. */
    method TickStep(g: nat, ghost timers: seq<int>, ghost n0: seq<Params>, ghost n1: seq<Params>,
                    act: real -> real, sqrt: real -> real, project: Vec2 -> Vec2) returns (over: bool)
      requires Shaped() && Apart() && GamesValid() && g < |games| && |timers| == |n0| == |n1| == |games|
      requires TickedUpTo(g, timers, n0, n1)
      modifies games[g], learnerAgents[g], trainerAgents[g], learnerNets[g], trainerNets[g]
      ensures GamesValid() && TickedUpTo(g + 1, timers, n0, n1) && (over <==> timers[g] - 1 == 0)
    {
      ghost var before := Timers();
      over := TickOnce(games[g], act, sqrt, project);
      Outside();
      OthersKept(g);
      TickOne(timers, g, before, Timers());
    }
  }
}
