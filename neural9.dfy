/**
 * The fixed-shape network the agents use (`Neural9Network`): weights and
 * biases stored in 18-wide arrays of which only the `NNDims` shape
 * (10 -> 18 -> 18 -> 2) is used, plus 18-wide input, output and scratch
 * arrays.  Randomness is an injected oracle: each weight and bias position
 * has its own `Draw`, a coin in [0, 1) and an offset (the value `randRange`
 * would return).  The activation (`tanh`) is a parameter; the source applies
 * it to twice the weighted sum.
 */
module Neural9 {
  import opened Utility
  import opened Settings

  type Coin = c: real | 0.0 <= c < 1.0

  datatype Draw = Draw(coin: Coin, offset: real)

  /** One draw per weight position (layer, node, weight) and per bias position (layer, node). */
  datatype Draws = Draws(weight: (nat, nat, nat) -> Draw, bias: (nat, nat) -> Draw)

  /** The four arguments of `mutate`: rate and range for weights, then for biases. */
  datatype Rates = Rates(wRate: real, wRange: real, bRate: real, bRange: real)

  /** The default arguments of `mutate` and the ones the constructor uses. */
  const DefaultRates := Rates(WeightMutationRate, WeightMutationRange, BiasMutationRate, BiasMutationRange)
  const InitialRates := Rates(0.4, 0.4, 0.4, 0.4)
  const CopyRates := Rates(0.0, 0.0, 0.0, 0.0)

  /** The parameters of a network: 3 layers of 18x18 weights and 3 layers of 18 biases. */
  datatype Params = Params(weights: seq<seq<seq<real>>>, biases: seq<seq<real>>)

  const WeightLayers: nat := NetworkLayers - 1

  predicate WellShaped(p: Params)
  {
    |p.weights| == WeightLayers && |p.biases| == WeightLayers &&
    (forall l :: 0 <= l < WeightLayers ==> |p.weights[l]| == LargestLayer && |p.biases[l]| == LargestLayer) &&
    (forall l, n :: 0 <= l < WeightLayers && 0 <= n < LargestLayer ==> |p.weights[l][n]| == LargestLayer)
  }

  /** Weight (l, n, w) feeds node n of layer l + 1 from node w of layer l. */
  predicate InShape(l: nat, n: nat, w: nat)
  {
    l < WeightLayers && n < NNDims[l + 1] && w < NNDims[l]
  }

  predicate BiasInShape(l: nat, n: nat)
  {
    l < WeightLayers && n < NNDims[l + 1]
  }

  /** mutate_value: adds the draw's offset when its coin falls below the rate. */
  function MutateValue(value: real, rate: real, d: Draw): real
  {
    if d.coin < rate then value + d.offset else value
  }

  /** A zero (or negative) rate never perturbs, since the coin is never below 0. */
  lemma MutateValueZeroRate(value: real, rate: real, d: Draw)
    requires rate <= 0.0
    ensures MutateValue(value, rate, d) == value
  {
  }

  /** An offset within the range moves the value by at most the range. */
  lemma MutateValueBound(value: real, rate: real, range: real, d: Draw)
    requires -range <= d.offset <= range
    ensures value - range <= MutateValue(value, rate, d) <= value + range
  {
  }

  /** The new weight at (l, n, w): mutated from the source inside the shape, the target's own outside it. */
  function NewWeight(src: Params, dst: Params, rates: Rates, draws: Draws, l: nat, n: nat, w: nat): real
    requires WellShaped(src) && WellShaped(dst)
    requires l < WeightLayers && n < LargestLayer && w < LargestLayer
  {
    if InShape(l, n, w) then MutateValue(src.weights[l][n][w], rates.wRate, draws.weight(l, n, w))
    else dst.weights[l][n][w]
  }

  function NewBias(src: Params, dst: Params, rates: Rates, draws: Draws, l: nat, n: nat): real
    requires WellShaped(src) && WellShaped(dst)
    requires l < WeightLayers && n < LargestLayer
  {
    if BiasInShape(l, n) then MutateValue(src.biases[l][n], rates.bRate, draws.bias(l, n))
    else dst.biases[l][n]
  }

  /** Every draw's offset lies within the range `randRange(-range, range)` would keep it in. */
  ghost predicate DrawsWithin(draws: Draws, rates: Rates)
  {
    (forall l, n, w :: -rates.wRange <= draws.weight(l, n, w).offset <= rates.wRange) &&
    (forall l, n :: -rates.bRange <= draws.bias(l, n).offset <= rates.bRange)
  }

  /** A mutate with all rates zero is a copy of the shape's entries; entries outside the shape are the target's. */
  lemma CopyWithZeroRates(src: Params, dst: Params, draws: Draws, l: nat, n: nat, w: nat)
    requires WellShaped(src) && WellShaped(dst)
    requires l < WeightLayers && n < LargestLayer && w < LargestLayer
    ensures NewWeight(src, dst, CopyRates, draws, l, n, w) == if InShape(l, n, w) then src.weights[l][n][w] else dst.weights[l][n][w]
    ensures NewBias(src, dst, CopyRates, draws, l, n) == if BiasInShape(l, n) then src.biases[l][n] else dst.biases[l][n]
  {
    MutateValueZeroRate(src.biases[l][n], 0.0, draws.bias(l, n));
  }

  /** With offsets within range, each mutated entry stays within its range of the source's. */
  lemma MutateWithinRange(src: Params, dst: Params, rates: Rates, draws: Draws, l: nat, n: nat, w: nat)
    requires WellShaped(src) && WellShaped(dst) && DrawsWithin(draws, rates)
    requires InShape(l, n, w) && n < LargestLayer && w < LargestLayer
    ensures src.weights[l][n][w] - rates.wRange <= NewWeight(src, dst, rates, draws, l, n, w) <= src.weights[l][n][w] + rates.wRange
    ensures src.biases[l][n] - rates.bRange <= NewBias(src, dst, rates, draws, l, n) <= src.biases[l][n] + rates.bRange
  {
    MutateValueBound(src.weights[l][n][w], rates.wRate, rates.wRange, draws.weight(l, n, w));
    MutateValueBound(src.biases[l][n], rates.bRate, rates.bRange, draws.bias(l, n));
  }

  /** The whole parameter set `mutate` leaves in the target: NewWeight and NewBias at every position. */
  function Mutated(src: Params, dst: Params, rates: Rates, draws: Draws): (r: Params)
    requires WellShaped(src) && WellShaped(dst)
    ensures WellShaped(r)
  {
    Params(
      seq(WeightLayers, l requires 0 <= l < WeightLayers =>
        seq(LargestLayer, n requires 0 <= n < LargestLayer =>
          seq(LargestLayer, w requires 0 <= w < LargestLayer => NewWeight(src, dst, rates, draws, l, n, w)))),
      seq(WeightLayers, l requires 0 <= l < WeightLayers =>
        seq(LargestLayer, n requires 0 <= n < LargestLayer => NewBias(src, dst, rates, draws, l, n))))
  }

  /** Two well-shaped parameter sets that agree at every position are equal. */
  lemma ParamsEqual(p: Params, q: Params)
    requires WellShaped(p) && WellShaped(q)
    requires forall l, n, w :: 0 <= l < WeightLayers && 0 <= n < LargestLayer && 0 <= w < LargestLayer ==>
      p.weights[l][n][w] == q.weights[l][n][w]
    requires forall l, n :: 0 <= l < WeightLayers && 0 <= n < LargestLayer ==> p.biases[l][n] == q.biases[l][n]
    ensures p == q
  {
    forall l | 0 <= l < WeightLayers
      ensures p.weights[l] == q.weights[l] && p.biases[l] == q.biases[l]
    {
      forall n | 0 <= n < LargestLayer
        ensures p.weights[l][n] == q.weights[l][n]
      {
      }
    }
  }

  /** Copying a network onto itself with all rates zero leaves it as it was. */
  lemma CopyOntoItself(p: Params, draws: Draws)
    requires WellShaped(p)
    ensures Mutated(p, p, CopyRates, draws) == p
  {
    var r := Mutated(p, p, CopyRates, draws);
    forall l, n, w | 0 <= l < WeightLayers && 0 <= n < LargestLayer && 0 <= w < LargestLayer
      ensures r.weights[l][n][w] == p.weights[l][n][w] && r.biases[l][n] == p.biases[l][n]
    {
      CopyWithZeroRates(p, p, draws, l, n, w);
    }
    ParamsEqual(r, p);
  }

  /** The entries the shape uses agree; entries outside it are never read by the forward pass. */
  ghost predicate SameInShape(p: Params, q: Params)
    requires WellShaped(p) && WellShaped(q)
  {
    (forall l: nat, n: nat, w: nat :: InShape(l, n, w) ==> p.weights[l][n][w] == q.weights[l][n][w]) &&
    (forall l: nat, n: nat :: BiasInShape(l, n) ==> p.biases[l][n] == q.biases[l][n])
  }

  /** A zero-rate mutate makes the target agree with the source on every entry the shape uses. */
  lemma CopyAgreesInShape(src: Params, dst: Params, draws: Draws)
    requires WellShaped(src) && WellShaped(dst)
    ensures SameInShape(Mutated(src, dst, CopyRates, draws), src)
  {
    var r := Mutated(src, dst, CopyRates, draws);
    forall l: nat, n: nat, w: nat | InShape(l, n, w)
      ensures r.weights[l][n][w] == src.weights[l][n][w]
    {
      CopyWithZeroRates(src, dst, draws, l, n, w);
    }
    forall l: nat, n: nat | BiasInShape(l, n)
      ensures r.biases[l][n] == src.biases[l][n]
    {
      CopyWithZeroRates(src, dst, draws, l, n, 0);
    }
  }

  /** A parameter record read back from a save that has an entry at every position the shape uses. */
  predicate Covers(p: Params)
  {
    |p.weights| >= WeightLayers && |p.biases| >= WeightLayers &&
    (forall l :: 0 <= l < WeightLayers ==> |p.weights[l]| >= NNDims[l + 1] && |p.biases[l]| >= NNDims[l + 1]) &&
    (forall l, n :: 0 <= l < WeightLayers && 0 <= n < NNDims[l + 1] ==> |p.weights[l][n]| >= NNDims[l])
  }

  lemma WellShapedCovers(p: Params)
    requires WellShaped(p)
    ensures Covers(p)
  {
  }

  /** The loading loops: the shape's entries taken from `src`, every other entry left as `dst` has it. */
  function Overlay(dst: Params, src: Params): (r: Params)
    requires WellShaped(dst) && Covers(src)
    ensures WellShaped(r)
  {
    Params(
      seq(WeightLayers, l requires 0 <= l < WeightLayers =>
        seq(LargestLayer, n requires 0 <= n < LargestLayer =>
          seq(LargestLayer, w requires 0 <= w < LargestLayer =>
            if InShape(l, n, w) then src.weights[l][n][w] else dst.weights[l][n][w]))),
      seq(WeightLayers, l requires 0 <= l < WeightLayers =>
        seq(LargestLayer, n requires 0 <= n < LargestLayer =>
          if BiasInShape(l, n) then src.biases[l][n] else dst.biases[l][n])))
  }

  /** Loading a well-shaped record is the same as a zero-rate mutate from it. */
  lemma OverlayIsCopy(dst: Params, src: Params, draws: Draws)
    requires WellShaped(dst) && WellShaped(src)
    ensures Covers(src) && Overlay(dst, src) == Mutated(src, dst, CopyRates, draws)
  {
    var a, b := Overlay(dst, src), Mutated(src, dst, CopyRates, draws);
    forall l, n, w | 0 <= l < WeightLayers && 0 <= n < LargestLayer && 0 <= w < LargestLayer
      ensures a.weights[l][n][w] == b.weights[l][n][w] && a.biases[l][n] == b.biases[l][n]
    {
      CopyWithZeroRates(src, dst, draws, l, n, w);
    }
    ParamsEqual(a, b);
  }

  /** Loading a slot's own parameters back into it changes nothing. */
  lemma OverlayOwn(p: Params, draws: Draws)
    requires WellShaped(p)
    ensures Covers(p) && Overlay(p, p) == p
  {
    OverlayIsCopy(p, p, draws);
    CopyOntoItself(p, draws);
  }

  /** The dot product of layer l's node n over the first NNDims[l] entries of `prev`, plus its bias. */
  function Dotted(p: Params, prev: seq<real>, l: nat, n: nat): real
    requires WellShaped(p) && l < WeightLayers && n < LargestLayer && |prev| == LargestLayer
  {
    p.biases[l][n] + Dot(prev[..NNDims[l]], p.weights[l][n])
  }

  /** One layer of compute_output: the shape's nodes of `temp` get act(2 * dotted), the rest keep their value. */
  function LayerPass(p: Params, prev: seq<real>, temp: seq<real>, l: nat, act: real -> real): (t: seq<real>)
    requires WellShaped(p) && l < WeightLayers && |prev| == LargestLayer && |temp| == LargestLayer
    ensures |t| == LargestLayer
  {
    seq(LargestLayer, n requires 0 <= n < LargestLayer =>
      if n < NNDims[l + 1] then act(Dotted(p, prev, l, n) * 2.0) else temp[n])
  }

  /** compute_output: the outputs (and the scratch array, which ends equal to them) after the three layers. */
  function Forward(p: Params, inputs: seq<real>, temp: seq<real>, act: real -> real): (o: seq<real>)
    requires WellShaped(p) && |inputs| == LargestLayer && |temp| == LargestLayer
    ensures |o| == LargestLayer
  {
    var t1 := LayerPass(p, inputs, temp, 0, act);
    var t2 := LayerPass(p, t1, t1, 1, act);
    LayerPass(p, t2, t2, 2, act)
  }

  /** Only the shape's ten inputs matter, and the scratch left by the previous call does not. */
  lemma ForwardIgnoresScratch(p: Params, in1: seq<real>, in2: seq<real>, t1: seq<real>, t2: seq<real>, act: real -> real)
    requires WellShaped(p) && |in1| == |in2| == |t1| == |t2| == LargestLayer
    requires in1[..NNDims[0]] == in2[..NNDims[0]]
    ensures Forward(p, in1, t1, act) == Forward(p, in2, t2, act)
  {
    assert LayerPass(p, in1, t1, 0, act) == LayerPass(p, in2, t2, 0, act);
  }

  /** The two network outputs come from the last layer; entries 2..17 still hold the second hidden layer. */
  lemma ForwardOutputs(p: Params, inputs: seq<real>, temp: seq<real>, act: real -> real)
    requires WellShaped(p) && |inputs| == |temp| == LargestLayer
    ensures var t2 := LayerPass(p, LayerPass(p, inputs, temp, 0, act), LayerPass(p, inputs, temp, 0, act), 1, act);
      Forward(p, inputs, temp, act)[0] == act(Dotted(p, t2, 2, 0) * 2.0) &&
      Forward(p, inputs, temp, act)[1] == act(Dotted(p, t2, 2, 1) * 2.0) &&
      Forward(p, inputs, temp, act)[2..] == t2[2..]
  {
  }

  class Net9 {
    var weights: seq<seq<seq<real>>>
    var biases: seq<seq<real>>
    var inputs: seq<real>
    var outputs: seq<real>
    var temp: seq<real>

    ghost predicate Valid()
      reads this
    {
      WellShaped(Params(weights, biases)) &&
      |inputs| == LargestLayer && |outputs| == LargestLayer && |temp| == LargestLayer
    }

    function Parameters(): Params
      reads this
    {
      Params(weights, biases)
    }

    /**
     * Neural9Network(): the arrays start with whatever `initial` holds (the
     * source leaves them uninitialised) and the network then mutates itself
     * with all four rates at 0.4.
     */
    constructor (initial: Params, draws: Draws)
      requires WellShaped(initial)
      ensures Valid() && Parameters() == Mutated(initial, initial, InitialRates, draws)
      ensures inputs == outputs == temp == seq(LargestLayer, _ => 0.0)
    {
      weights, biases := initial.weights, initial.biases;
      inputs, outputs, temp := seq(LargestLayer, _ => 0.0), seq(LargestLayer, _ => 0.0), seq(LargestLayer, _ => 0.0);
      new;
      MutateInto(initial, this, InitialRates, draws);
    }

    /**
     * mutate: writes into `net` every weight and bias of the shape, each
     * copied from this network and perturbed by its draw.  `net` may be this
     * network itself: every entry is read before it is written and no entry
     * is read after it was written, so reading a snapshot is the same.
     */
    method Mutate(net: Net9, rates: Rates, draws: Draws)
      requires Valid() && net.Valid()
      modifies net
      ensures net.Valid()
      ensures net.Parameters() == Mutated(old(Parameters()), old(net.Parameters()), rates, draws)
      ensures net.inputs == old(net.inputs) && net.outputs == old(net.outputs) && net.temp == old(net.temp)
    {
      MutateInto(Parameters(), net, rates, draws);
    }

    /** compute_output: runs the three layers from the inputs through the scratch array into the outputs. */
    method ComputeOutput(act: real -> real)
      requires Valid()
      modifies this
      ensures Valid()
      ensures weights == old(weights) && biases == old(biases) && inputs == old(inputs)
      ensures outputs == temp == Forward(Parameters(), inputs, old(temp), act)
    {
      outputs := inputs;
      ghost var t1 := LayerPass(Parameters(), inputs, temp, 0, act);
      ghost var t2 := LayerPass(Parameters(), t1, t1, 1, act);
      for layer := 0 to WeightLayers
        invariant Valid() && weights == old(weights) && biases == old(biases) && inputs == old(inputs)
        invariant layer == 0 ==> outputs == inputs && temp == old(temp)
        invariant layer == 1 ==> outputs == temp == t1
        invariant layer == 2 ==> outputs == temp == t2
        invariant layer == 3 ==> outputs == temp == LayerPass(Parameters(), t2, t2, 2, act)
      {
        temp := ComputeLayer(Parameters(), outputs, temp, layer, act);
        outputs := temp;
      }
    }
  }

  /** The node and weight loops of one layer of compute_output, filling the scratch array. */
  method ComputeLayer(p: Params, outputs: seq<real>, temp: seq<real>, layer: nat, act: real -> real) returns (t: seq<real>)
    requires WellShaped(p) && layer < WeightLayers && |outputs| == LargestLayer && |temp| == LargestLayer
    ensures t == LayerPass(p, outputs, temp, layer, act)
  {
    t := temp;
    for node := 0 to NNDims[layer + 1]
      invariant |t| == LargestLayer
      invariant forall k :: 0 <= k < node ==> t[k] == act(Dotted(p, outputs, layer, k) * 2.0)
      invariant forall k :: node <= k < LargestLayer ==> t[k] == temp[k]
    {
      var dotted := p.biases[layer][node];
      for weight := 0 to NNDims[layer]
        invariant dotted == p.biases[layer][node] + Dot(outputs[..weight], p.weights[layer][node])
      {
        assert outputs[..weight + 1][..weight] == outputs[..weight];
        dotted := dotted + p.weights[layer][node][weight] * outputs[weight];
      }
      assert outputs[..NNDims[layer]][..NNDims[layer]] == outputs[..NNDims[layer]];
      t := t[node := act(dotted * 2.0)];
    }
  }

  /** The three loops of mutate, reading the source parameters `src`. */
  method MutateInto(src: Params, net: Net9, rates: Rates, draws: Draws)
    requires WellShaped(src) && net.Valid()
    modifies net
    ensures net.Valid()
    ensures net.Parameters() == Mutated(src, old(net.Parameters()), rates, draws)
    ensures net.inputs == old(net.inputs) && net.outputs == old(net.outputs) && net.temp == old(net.temp)
  {
    ghost var dst := net.Parameters();
    for layer := 0 to WeightLayers
      invariant net.Valid()
      invariant net.inputs == old(net.inputs) && net.outputs == old(net.outputs) && net.temp == old(net.temp)
      invariant forall l, n, w :: 0 <= l < WeightLayers && 0 <= n < LargestLayer && 0 <= w < LargestLayer ==>
        net.weights[l][n][w] == if l < layer then NewWeight(src, dst, rates, draws, l, n, w) else dst.weights[l][n][w]
      invariant forall l, n :: 0 <= l < WeightLayers && 0 <= n < LargestLayer ==>
        net.biases[l][n] == if l < layer then NewBias(src, dst, rates, draws, l, n) else dst.biases[l][n]
    {
      MutateLayerWeights(src, dst, net, rates, draws, layer);
      MutateLayerBiases(src, dst, net, rates, draws, layer);
    }
    ParamsEqual(net.Parameters(), Mutated(src, dst, rates, draws));
  }

  /** The node and weight loops of one layer of mutate. */
  method MutateLayerWeights(src: Params, ghost dst: Params, net: Net9, rates: Rates, draws: Draws, layer: nat)
    requires WellShaped(src) && WellShaped(dst) && net.Valid() && layer < WeightLayers
    requires forall l, n, w :: 0 <= l < WeightLayers && 0 <= n < LargestLayer && 0 <= w < LargestLayer ==>
      net.weights[l][n][w] == if l < layer then NewWeight(src, dst, rates, draws, l, n, w) else dst.weights[l][n][w]
    modifies net
    ensures net.Valid() && net.biases == old(net.biases)
    ensures net.inputs == old(net.inputs) && net.outputs == old(net.outputs) && net.temp == old(net.temp)
    ensures forall l, n, w :: 0 <= l < WeightLayers && 0 <= n < LargestLayer && 0 <= w < LargestLayer ==>
      net.weights[l][n][w] == if l <= layer then NewWeight(src, dst, rates, draws, l, n, w) else dst.weights[l][n][w]
  {
    for node := 0 to NNDims[layer + 1]
      invariant net.Valid() && net.biases == old(net.biases)
      invariant net.inputs == old(net.inputs) && net.outputs == old(net.outputs) && net.temp == old(net.temp)
      invariant forall l, n, w :: 0 <= l < WeightLayers && 0 <= n < LargestLayer && 0 <= w < LargestLayer ==>
        net.weights[l][n][w] == if l < layer || (l == layer && n < node) then NewWeight(src, dst, rates, draws, l, n, w) else dst.weights[l][n][w]
    {
      var row := net.weights[layer][node];
      for weight := 0 to NNDims[layer]
        invariant |row| == LargestLayer
        invariant forall w :: 0 <= w < LargestLayer ==>
          row[w] == if w < weight then NewWeight(src, dst, rates, draws, layer, node, w) else dst.weights[layer][node][w]
      {
        row := row[weight := MutateValue(src.weights[layer][node][weight], rates.wRate, draws.weight(layer, node, weight))];
      }
      net.weights := net.weights[layer := net.weights[layer][node := row]];
    }
  }

  /** The bias loop of one layer of mutate. */
  method MutateLayerBiases(src: Params, ghost dst: Params, net: Net9, rates: Rates, draws: Draws, layer: nat)
    requires WellShaped(src) && WellShaped(dst) && net.Valid() && layer < WeightLayers
    requires forall l, n :: 0 <= l < WeightLayers && 0 <= n < LargestLayer ==>
      net.biases[l][n] == if l < layer then NewBias(src, dst, rates, draws, l, n) else dst.biases[l][n]
    modifies net
    ensures net.Valid() && net.weights == old(net.weights)
    ensures net.inputs == old(net.inputs) && net.outputs == old(net.outputs) && net.temp == old(net.temp)
    ensures forall l, n :: 0 <= l < WeightLayers && 0 <= n < LargestLayer ==>
      net.biases[l][n] == if l <= layer then NewBias(src, dst, rates, draws, l, n) else dst.biases[l][n]
  {
    var row := net.biases[layer];
    for bias := 0 to NNDims[layer + 1]
      invariant |row| == LargestLayer
      invariant forall n :: 0 <= n < LargestLayer ==>
        row[n] == if n < bias then NewBias(src, dst, rates, draws, layer, n) else dst.biases[layer][n]
    {
      row := row[bias := MutateValue(src.biases[layer][bias], rates.bRate, draws.bias(layer, bias))];
    }
    net.biases := net.biases[layer := row];
  }

  /** The layer, node and weight loops of loading one network record into a policy slot. */
  method CopyShape(dst: Params, src: Params) returns (r: Params)
    requires WellShaped(dst) && Covers(src)
    ensures r == Overlay(dst, src)
  {
    r := dst;
    for layer := 0 to WeightLayers
      invariant WellShaped(r)
      invariant forall l, n, w :: 0 <= l < WeightLayers && 0 <= n < LargestLayer && 0 <= w < LargestLayer ==>
        r.weights[l][n][w] == if l < layer then Overlay(dst, src).weights[l][n][w] else dst.weights[l][n][w]
      invariant forall l, n :: 0 <= l < WeightLayers && 0 <= n < LargestLayer ==>
        r.biases[l][n] == if l < layer then Overlay(dst, src).biases[l][n] else dst.biases[l][n]
    {
      var rows := CopyLayerWeights(r.weights[layer], src, layer);
      var biases := r.biases[layer];
      for bias := 0 to NNDims[layer + 1]
        invariant |biases| == LargestLayer
        invariant forall n :: 0 <= n < LargestLayer ==> biases[n] == if n < bias then src.biases[layer][n] else r.biases[layer][n]
      {
        biases := biases[bias := src.biases[layer][bias]];
      }
      r := Params(r.weights[layer := rows], r.biases[layer := biases]);
    }
    ParamsEqual(r, Overlay(dst, src));
  }

  /** The node and weight loops of loading one layer's weights. */
  method CopyLayerWeights(rows: seq<seq<real>>, src: Params, layer: nat) returns (out: seq<seq<real>>)
    requires layer < WeightLayers && Covers(src)
    requires |rows| == LargestLayer && forall n :: 0 <= n < LargestLayer ==> |rows[n]| == LargestLayer
    ensures |out| == LargestLayer && forall n :: 0 <= n < LargestLayer ==> |out[n]| == LargestLayer
    ensures forall n, w :: 0 <= n < LargestLayer && 0 <= w < LargestLayer ==>
      out[n][w] == if InShape(layer, n, w) then src.weights[layer][n][w] else rows[n][w]
  {
    out := rows;
    for node := 0 to NNDims[layer + 1]
      invariant |out| == LargestLayer && forall n :: 0 <= n < LargestLayer ==> |out[n]| == LargestLayer
      invariant forall n, w :: 0 <= n < LargestLayer && 0 <= w < LargestLayer ==>
        out[n][w] == if n < node && InShape(layer, n, w) then src.weights[layer][n][w] else rows[n][w]
    {
      var row := out[node];
      for weight := 0 to NNDims[layer]
        invariant |row| == LargestLayer
        invariant forall w :: 0 <= w < LargestLayer ==> row[w] == if w < weight then src.weights[layer][node][w] else rows[node][w]
      {
        row := row[weight := src.weights[layer][node][weight]];
      }
      out := out[node := row];
    }
  }
}
