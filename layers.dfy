/**
 * The generic, vector-sized feed-forward network of the simulator's network
 * header: a `Layer` holds one weight row and one bias per neuron plus the
 * neuron values of the last pass; a `Network` holds an input size, its layers
 * and the last input it was given.  The activation (`tanh` in the source) is
 * a parameter; the source applies it to four times the weighted sum.
 */
module Layers {
  import opened Utility

  datatype Layer = Layer(weights: seq<seq<real>>, values: seq<real>, bias: seq<real>)

  /** One weight row, one value and one bias per neuron. */
  predicate LayerShaped(l: Layer)
  {
    |l.weights| == |l.values| == |l.bias|
  }

  /** Every weight row of the layer is `width` wide. */
  predicate RowsWide(l: Layer, width: nat)
  {
    forall i {:trigger l.weights[i]} :: 0 <= i < |l.weights| ==> |l.weights[i]| == width
  }

  function Zeros(n: nat): (z: seq<real>)
    ensures |z| == n && forall i :: 0 <= i < n ==> z[i] == 0.0
  {
    seq(n, _ => 0.0)
  }

  /** Layer(neurons_count, prev_count): zeroed neurons, each with a zeroed row of prev_count weights. */
  function NewLayer(neurons: nat, prev: nat): (l: Layer)
    ensures LayerShaped(l) && RowsWide(l, prev) && |l.bias| == neurons
    ensures forall i, j :: 0 <= i < neurons && 0 <= j < prev ==> l.weights[i][j] == 0.0
    ensures forall i :: 0 <= i < neurons ==> l.values[i] == 0.0 && l.bias[i] == 0.0
  {
    Layer(seq(neurons, _ => Zeros(prev)), Zeros(neurons), Zeros(neurons))
  }

  /** What `process` leaves in `values`: act(4 * (bias + weighted sum of the inputs)) per neuron. */
  function LayerOutput(l: Layer, inputs: seq<real>, act: real -> real): (v: seq<real>)
    requires LayerShaped(l)
    requires forall i :: 0 <= i < |l.weights| ==> |inputs| <= |l.weights[i]|
  {
    seq(|l.bias|, i requires 0 <= i < |l.bias| => act(4.0 * (l.bias[i] + Dot(inputs, l.weights[i]))))
  }

  /** process: the nested loop over neurons and inputs. */
  method Process(l: Layer, inputs: seq<real>, act: real -> real) returns (r: Layer)
    requires LayerShaped(l)
    requires forall i :: 0 <= i < |l.weights| ==> |inputs| <= |l.weights[i]|
    ensures r == l.(values := LayerOutput(l, inputs, act))
  {
    var values := l.values;
    for i := 0 to |l.bias|
      invariant |values| == |l.bias|
      invariant forall k :: 0 <= k < i ==> values[k] == LayerOutput(l, inputs, act)[k]
      invariant forall k :: i <= k < |values| ==> values[k] == l.values[k]
    {
      var result := l.bias[i];
      for j := 0 to |inputs|
        invariant result == l.bias[i] + Dot(inputs[..j], l.weights[i])
      {
        assert inputs[..j + 1][..j] == inputs[..j];
        result := result + l.weights[i][j] * inputs[j];
      }
      assert inputs[..|inputs|] == inputs;
      values := values[i := act(4.0 * result)];
    }
    r := l.(values := values);
  }

  /** Each layer's rows are as wide as the layer before it (the first: `inputSize`). */
  ghost predicate Chained(ls: seq<Layer>, inputSize: nat)
  {
    (forall i :: 0 <= i < |ls| ==> LayerShaped(ls[i])) &&
    (|ls| > 0 ==> RowsWide(ls[0], inputSize)) &&
    (forall i, j {:trigger ls[i], ls[j]} :: 0 <= i < j < |ls| && j == i + 1 ==> RowsWide(ls[j], |ls[i].bias|))
  }

  lemma ChainedPrefix(ls: seq<Layer>, n: nat, k: nat)
    requires Chained(ls, n) && k <= |ls|
    ensures Chained(ls[..k], n)
  {
    var ps := ls[..k];
    forall i, j | 0 <= i < j < |ps| && j == i + 1
      ensures RowsWide(ps[j], |ps[i].bias|)
    {
      assert ps[j] == ls[j] && ps[i] == ls[i];
    }
  }

  lemma ChainedAppend(ls: seq<Layer>, n: nat, l: Layer)
    requires Chained(ls, n) && LayerShaped(l)
    requires RowsWide(l, if |ls| == 0 then n else |ls[|ls| - 1].bias|)
    ensures Chained(ls + [l], n)
  {
    var ms := ls + [l];
    forall i, j | 0 <= i < j < |ms| && j == i + 1
      ensures RowsWide(ms[j], |ms[i].bias|)
    {
      if j < |ls| {
        assert ms[j] == ls[j] && ms[i] == ls[i];
      } else {
        assert ms[j] == l && ms[i] == ls[|ls| - 1];
      }
    }
  }

  /** Replacing only the neuron values (keeping their count) keeps the chain. */
  lemma ChainedValues(ls: seq<Layer>, ms: seq<Layer>, n: nat)
    requires Chained(ls, n) && |ms| == |ls|
    requires forall i :: 0 <= i < |ls| ==> ms[i] == ls[i].(values := ms[i].values) && |ms[i].values| == |ls[i].bias|
    ensures Chained(ms, n)
  {
    forall i, j | 0 <= i < j < |ms| && j == i + 1
      ensures RowsWide(ms[j], |ms[i].bias|)
    {
      assert ms[j].weights == ls[j].weights && ms[i].bias == ls[i].bias;
    }
  }

  /** The layers after a full pass of `execute` on `x`: each processes the previous one's fresh values. */
  function Propagate(ls: seq<Layer>, x: seq<real>, act: real -> real): (r: seq<Layer>)
    requires Chained(ls, |x|)
    ensures |r| == |ls|
    ensures forall i :: 0 <= i < |ls| ==> r[i] == ls[i].(values := r[i].values) && |r[i].values| == |ls[i].bias|
  {
    if |ls| == 0 then []
    else
      var k := |ls| - 1;
      ChainedPrefix(ls, |x|, k);
      var p := Propagate(ls[..k], x, act);
      var inp := if k == 0 then x else p[k - 1].values;
      assert k > 0 ==> ls[..k][k - 1] == ls[k - 1] && |p[k - 1].values| == |ls[k - 1].bias|;
      assert RowsWide(ls[k], |inp|);
      p + [ls[k].(values := LayerOutput(ls[k], inp, act))]
  }

  /** A pass over one more layer: the shorter pass, then that layer run on the values it left last. */
  lemma PropagateExtends(ls: seq<Layer>, x: seq<real>, act: real -> real, i: nat)
    requires Chained(ls, |x|) && 0 < i < |ls|
    ensures Chained(ls[..i], |x|) && Chained(ls[..i + 1], |x|)
    ensures var p := Propagate(ls[..i], x, act);
      RowsWide(ls[i], |p[i - 1].values|) &&
      Propagate(ls[..i + 1], x, act) == p + [ls[i].(values := LayerOutput(ls[i], p[i - 1].values, act))]
  {
    ChainedPrefix(ls, |x|, i);
    ChainedPrefix(ls, |x|, i + 1);
    var q := ls[..i + 1];
    assert q[..i] == ls[..i] && q[i] == ls[i] && |q| - 1 == i;
    assert ls[..i][i - 1] == ls[i - 1];
  }

  /** The layer loop of `execute`: the first layer reads the input, each later one its predecessor's values. */
  method RunLayers(ls: seq<Layer>, x: seq<real>, act: real -> real) returns (ms: seq<Layer>)
    requires Chained(ls, |x|) && |ls| > 0
    ensures ms == Propagate(ls, x, act)
  {
    var first := Process(ls[0], x, act);
    PropagateOpening(ls, x, act);
    ms := ls[0 := first];
    for i := 1 to |ls|
      invariant Chained(ls[..i], |x|)
      invariant ms == Propagate(ls[..i], x, act) + ls[i..]
    {
      PropagateExtends(ls, x, act, i);
      ghost var p := Propagate(ls[..i], x, act);
      assert ms[i - 1] == p[i - 1] && ms[i] == ls[i];
      var next := Process(ms[i], ms[i - 1].values, act);
      ReplaceFirstOfRest(p, ls[i..], next);
      assert ls[i..][1..] == ls[i + 1..];
      ms := ms[i := next];
    }
    assert ls[..|ls|] == ls;
  }

  /** The pass over the first layer alone, followed by the untouched rest. */
  lemma PropagateOpening(ls: seq<Layer>, x: seq<real>, act: real -> real)
    requires Chained(ls, |x|) && |ls| > 0
    ensures Chained(ls[..1], |x|)
    ensures ls[0 := ls[0].(values := LayerOutput(ls[0], x, act))] == Propagate(ls[..1], x, act) + ls[1..]
  {
    ChainedPrefix(ls, |x|, 1);
    assert ls[..1][..0] == [];
  }

  /** Overwriting the element just past `p` in `p + rest`. */
  lemma ReplaceFirstOfRest<T>(p: seq<T>, rest: seq<T>, v: T)
    requires |rest| > 0
    ensures (p + rest)[|p| := v] == p + [v] + rest[1..]
  {
  }

  /** Σ bias.size() * (1 + weights.front().size()) over the layers. */
  function LayerParams(ls: seq<Layer>): nat
    requires forall i :: 0 <= i < |ls| ==> |ls[i].weights| > 0
  {
    if |ls| == 0 then 0
    else LayerParams(ls[..|ls| - 1]) + |ls[|ls| - 1].bias| * (1 + |ls[|ls| - 1].weights[0]|)
  }

  /** Σ layers_sizes[i] * (1 + layers_sizes[i - 1]) for i from 1. */
  function SizesParams(sizes: seq<nat>): nat
  {
    if |sizes| <= 1 then 0
    else SizesParams(sizes[..|sizes| - 1]) + sizes[|sizes| - 1] * (1 + sizes[|sizes| - 2])
  }

  /**
   * A network built from `sizes` has a layer per size after the first, layer i
   * with sizes[i + 1] neurons and rows sizes[i] wide.  With no empty layer its
   * instance parameter count is the static one.
   */
  lemma {:induction false} ParamsAgree(ls: seq<Layer>, sizes: seq<nat>)
    requires |sizes| >= 1 && |ls| == |sizes| - 1
    requires forall i {:trigger ls[i]} :: 0 <= i < |ls| ==>
      |ls[i].bias| == sizes[i + 1] && |ls[i].weights| == sizes[i + 1] && sizes[i + 1] > 0 && RowsWide(ls[i], sizes[i])
    ensures LayerParams(ls) == SizesParams(sizes)
  {
    if |ls| > 0 {
      var k := |ls| - 1;
      assert ls[k].weights[0] in ls[k].weights;
      var ps, qs := ls[..k], sizes[..k + 1];
      forall i {:trigger ls[i]} | 0 <= i < k
        ensures ps[i] == ls[i] && qs[i] == sizes[i] && qs[i + 1] == sizes[i + 1]
      {
      }
      ParamsAgree(ps, qs);
      assert sizes[..k + 1] == sizes[..|sizes| - 1];
    }
  }

  /** The static getParametersCount: the source's accumulation loop. */
  method ParametersCountOf(sizes: seq<nat>) returns (count: nat)
    ensures count == SizesParams(sizes)
  {
    count := 0;
    var i := 1;
    while i < |sizes|
      invariant |sizes| > 0 ==> 1 <= i <= |sizes| && count == SizesParams(sizes[..i])
      invariant |sizes| == 0 ==> count == 0
    {
      assert sizes[..i + 1][..i] == sizes[..i];
      count := count + sizes[i] * (1 + sizes[i - 1]);
      i := i + 1;
    }
    if |sizes| > 0 {
      assert sizes[..i] == sizes;
    }
  }

  class Network {
    var inputSize: nat
    var layers: seq<Layer>
    var lastInput: seq<real>

    ghost predicate Valid()
      reads this
    {
      Chained(layers, inputSize)
    }

    /** Network(): no inputs, no layers. */
    constructor Empty()
      ensures Valid() && inputSize == 0 && layers == [] && lastInput == []
    {
      inputSize, layers, lastInput := 0, [], [];
    }

    /** Network(input_size): no layers yet, a zeroed last input of that size. */
    constructor WithInputSize(n: nat)
      ensures Valid() && inputSize == n && layers == [] && lastInput == Zeros(n)
    {
      inputSize, layers, lastInput := n, [], Zeros(n);
    }

    /** Network(layers_sizes): one layer per size after the first, each fed by the one before. */
    constructor FromSizes(sizes: seq<nat>)
      requires |sizes| >= 1
      ensures Valid() && inputSize == sizes[0] && lastInput == Zeros(sizes[0])
      ensures |layers| == |sizes| - 1
      ensures forall i :: 0 <= i < |layers| ==>
        |layers[i].bias| == sizes[i + 1] && RowsWide(layers[i], sizes[i])
    {
      inputSize, layers, lastInput := sizes[0], [], Zeros(sizes[0]);
      new;
      for i := 1 to |sizes|
        invariant Valid() && inputSize == sizes[0] && lastInput == Zeros(sizes[0])
        invariant |layers| == i - 1
        invariant forall k :: 0 <= k < |layers| ==>
          |layers[k].bias| == sizes[k + 1] && RowsWide(layers[k], sizes[k])
      {
        AddLayer(sizes[i]);
      }
    }

    /** addLayer: a new last layer whose rows are as wide as the previous last layer (or the input). */
    method AddLayer(neurons: nat)
      requires Valid()
      modifies this
      ensures Valid() && inputSize == old(inputSize) && lastInput == old(lastInput)
      ensures layers == old(layers) + [NewLayer(neurons, if old(layers) == [] then inputSize else |old(layers)[|old(layers)| - 1].bias|)]
    {
      var width := if layers != [] then |layers[|layers| - 1].bias| else inputSize;
      ChainedAppend(layers, inputSize, NewLayer(neurons, width));
      if layers != [] {
        layers := layers + [NewLayer(neurons, |layers[|layers| - 1].bias|)];
      } else {
        layers := layers + [NewLayer(neurons, inputSize)];
      }
    }

    /**
     * execute: records the input, runs every layer in order only when the
     * input has the expected size, and returns the last layer's values.
     */
    method Execute(input: seq<real>, act: real -> real) returns (output: seq<real>)
      requires Valid() && |layers| > 0
      modifies this
      ensures Valid() && inputSize == old(inputSize) && lastInput == input
      ensures |input| == inputSize ==> layers == Propagate(old(layers), input, act)
      ensures |input| != inputSize ==> layers == old(layers)
      ensures |layers| == |old(layers)|
      ensures output == layers[|layers| - 1].values
      ensures |output| == |layers[|layers| - 1].bias|
    {
      lastInput := input;
      if |input| == inputSize {
        ghost var start := layers;
        layers := RunLayers(layers, input, act);
        ChainedValues(start, layers, inputSize);
      }
      output := layers[|layers| - 1].values;
    }

    /** The instance getParametersCount: the source's loop over the layers. */
    method ParametersCount() returns (count: nat)
      requires forall i :: 0 <= i < |layers| ==> |layers[i].weights| > 0
      ensures count == LayerParams(layers)
    {
      count := 0;
      for i := 0 to |layers|
        invariant count == LayerParams(layers[..i])
      {
        assert layers[..i + 1][..i] == layers[..i];
        count := count + |layers[i].bias| * (1 + |layers[i].weights[0]|);
      }
      assert layers[..|layers|] == layers;
    }
  }

  /** A pass changes only the neuron values: every layer keeps its weights and biases. */
  lemma PropagateKeepsParameters(ls: seq<Layer>, x: seq<real>, act: real -> real, i: nat)
    requires Chained(ls, |x|) && i < |ls|
    ensures Propagate(ls, x, act)[i].weights == ls[i].weights
    ensures Propagate(ls, x, act)[i].bias == ls[i].bias
  {
  }

  /** The first layer of a pass holds the layer output of the input itself. */
  lemma {:induction false} PropagateFirst(ls: seq<Layer>, x: seq<real>, act: real -> real)
    requires Chained(ls, |x|) && |ls| > 0
    ensures Propagate(ls, x, act)[0].values == LayerOutput(ls[0], x, act)
  {
    if |ls| > 1 {
      PropagateFirst(ls[..|ls| - 1], x, act);
    }
  }

  /** Each later layer of a pass holds the layer output of the previous layer's fresh values. */
  lemma {:induction false} PropagateStep(ls: seq<Layer>, x: seq<real>, act: real -> real, i: nat)
    requires Chained(ls, |x|) && 0 < i < |ls|
    ensures Propagate(ls, x, act)[i].values == LayerOutput(ls[i], Propagate(ls, x, act)[i - 1].values, act)
  {
    if i < |ls| - 1 {
      PropagateStep(ls[..|ls| - 1], x, act, i);
    }
  }
}
