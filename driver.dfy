/**
 * The training driver of the root package (main.go) over the `metal`
 * network: the 8 x 8 network with random parameters, the two input
 * patterns that alternate every 50 ticks, the 100-tick training loop with
 * learning rate 0.05, and the clipWeights helper.
 *
 * Every rand.Float64 and rand.Intn(3) result is a parameter; loading and
 * saving the JSON state, the CSV trace and the console output are not
 * modelled.
 */
module Driver {
  import opened Synapse
  import opened MetalNeuron
  import opened MetalLayer
  import opened MetalNetwork

  // ---------------------------------------------------------------------
  // clipWeights

  /** One weight through the two sequential tests of clipWeights: first
      raised to min, then lowered to max. */
  function ClipWeight(w: real, min: real, max: real): real
  {
    var raised := if w < min then min else w;
    if raised > max then max else raised
  }

  /** With ordered bounds the clip is the clamp into [min, max]. */
  lemma ClipWeightIsClamp(w: real, min: real, max: real)
    requires min <= max
    ensures ClipWeight(w, min, max) == Clamp(w, min, max)
    ensures min <= ClipWeight(w, min, max) <= max
    ensures min <= w <= max ==> ClipWeight(w, min, max) == w
  {
  }

  /** With min > max every weight ends at max, where clamp would send a
      weight below min to min instead. */
  lemma ClipWeightInvertedBounds(w: real, min: real, max: real)
    requires min > max
    ensures ClipWeight(w, min, max) == max
    ensures w < min ==> Clamp(w, min, max) == min != ClipWeight(w, min, max)
  {
  }

  /** Clipping twice is clipping once, whatever the bounds. */
  lemma ClipWeightIdempotent(w: real, min: real, max: real)
    ensures ClipWeight(ClipWeight(w, min, max), min, max) == ClipWeight(w, min, max)
  {
  }

  /** Every connection of the sequence with its weight clipped. */
  function ClipAll(cs: seq<Connection>, min: real, max: real): seq<Connection>
  {
    seq(|cs|, i requires 0 <= i < |cs| => cs[i].(weight := ClipWeight(cs[i].weight, min, max)))
  }

  /** Clipping keeps the number of connections and their spike stamps, and
      with ordered bounds leaves every weight in [min, max], an in-range
      weight unchanged; clipping again changes nothing. */
  lemma ClipAllProperties(cs: seq<Connection>, min: real, max: real)
    ensures |ClipAll(cs, min, max)| == |cs|
    ensures forall i :: 0 <= i < |cs| ==>
      ClipAll(cs, min, max)[i].lastPreSpike == cs[i].lastPreSpike &&
      ClipAll(cs, min, max)[i].lastPostSpike == cs[i].lastPostSpike
    ensures min <= max ==> WeightsWithin(ClipAll(cs, min, max), min, max)
    ensures min <= max ==> forall i :: 0 <= i < |cs| && min <= cs[i].weight <= max ==> ClipAll(cs, min, max)[i] == cs[i]
    ensures ClipAll(ClipAll(cs, min, max), min, max) == ClipAll(cs, min, max)
  {
    var once := ClipAll(cs, min, max);
    forall i | 0 <= i < |cs|
      ensures ClipAll(once, min, max)[i] == once[i]
    {
      ClipWeightIdempotent(cs[i].weight, min, max);
    }
  }

  /** clipWeights(n, min, max): clips the weight of every connection of n in
      place; every other field of n keeps its value. */
  method ClipWeights(n: SpikingNeuron, min: real, max: real)
    modifies n
    ensures n.State() == old(n.State()).(connections := ClipAll(old(n.connections), min, max))
  {
    ghost var c0 := n.connections;
    for i := 0 to |n.connections|
      invariant |n.connections| == |c0|
      invariant forall k :: 0 <= k < i ==> n.connections[k] == c0[k].(weight := ClipWeight(c0[k].weight, min, max))
      invariant forall k :: i <= k < |c0| ==> n.connections[k] == c0[k]
      invariant n.State() == old(n.State()).(connections := n.connections)
    {
      if n.connections[i].weight < min {
        n.connections := n.connections[i := n.connections[i].(weight := min)];
      }
      if n.connections[i].weight > max {
        n.connections := n.connections[i := n.connections[i].(weight := max)];
      }
    }
    assert n.connections == ClipAll(c0, min, max);
  }

  // ---------------------------------------------------------------------
  // The input schedule

  const TimeSteps: nat := 100
  const PatternSwitchInterval: nat := 50
  const LearningRate: real := 0.05

  /** Left side active. */
  const PatternA: seq<real> := [1.0, 1.0, 1.0, 1.0, 0.1, 0.1, 0.1, 0.1]
  /** Alternating strong and weak lines. */
  const PatternB: seq<real> := [0.1, 1.0, 0.1, 1.0, 0.1, 1.0, 0.1, 1.0]

  /** Tick t shows pattern A while t / 50 is even. */
  predicate UsesPatternA(t: nat)
  {
    (t / PatternSwitchInterval) % 2 == 0
  }

  /** The input of tick t. */
  function Pattern(t: nat): (input: seq<real>)
    ensures |input| == 8
  {
    if UsesPatternA(t) then PatternA else PatternB
  }

  /** The patternLabel of tick t. */
  function Label(t: nat): string
  {
    if UsesPatternA(t) then "A" else "B"
  }

  /** The label names the pattern that is fed. */
  lemma LabelNamesPattern(t: nat)
    ensures Label(t) == "A" <==> Pattern(t) == PatternA
    ensures Label(t) == "B" <==> Pattern(t) == PatternB
  {
    assert PatternA[0] != PatternB[0];
  }

  /** Over the 100 training ticks, pattern A is shown for ticks 0 .. 49 and
      pattern B for ticks 50 .. 99. */
  lemma ScheduleOfTraining(t: nat)
    requires t < TimeSteps
    ensures UsesPatternA(t) <==> t < 50
  {
  }

  /** Fifty ticks later the other pattern is shown. */
  lemma PatternsAlternate(t: nat)
    ensures UsesPatternA(t + PatternSwitchInterval) <==> !UsesPatternA(t)
  {
    assert (t + 50) / 50 == t / 50 + 1;
  }

  // ---------------------------------------------------------------------
  // createNewNetwork

  const NumLayers: nat := 8
  const NeuronsPerLayer: nat := 8
  /** The input width of layer 0, and of the later layers (the width of the
      layer before). */
  const InputSize: nat := 8

  /** The random draws createNewNetwork makes for one neuron: one
      rand.Float64 per connection weight, one each for bias, threshold and
      decay, and one rand.Intn(3). */
  datatype NeuronDraws = NeuronDraws(weights: seq<real>, bias: real, threshold: real, decay: real, refractory: int)

  predicate NeuronDrawsOk(d: NeuronDraws)
  {
    |d.weights| == InputSize && AllDraws(d.weights) &&
    IsDraw(d.bias) && IsDraw(d.threshold) && IsDraw(d.decay) && 0 <= d.refractory < 3
  }

  /** One draw record for each neuron of each layer. */
  predicate NetworkDrawsOk(draws: seq<seq<NeuronDraws>>)
  {
    |draws| == NumLayers &&
    forall a :: 0 <= a < NumLayers ==>
      (|draws[a]| == NeuronsPerLayer && forall j :: 0 <= j < NeuronsPerLayer ==> NeuronDrawsOk(draws[a][j]))
  }

  /** Connections with weight 0.1 + u * 0.4 and zero spike stamps. */
  function DrawnConnections(ws: seq<real>): seq<Connection>
  {
    seq(|ws|, k requires 0 <= k < |ws| => Connection(0.1 + ws[k] * 0.4, 0, 0))
  }

  /** The struct literal of createNewNetwork: the fields not named are Go's
      zero value, so the bias bounds are both 0. */
  function InitialNeuron(d: NeuronDraws): NeuronState
  {
    NeuronState(0.0, 1.0 + d.threshold * 0.5, 0.0, 0.7 + d.decay * 0.2, -0.3 + d.bias * 0.6,
                DrawnConnections(d.weights), 2 + d.refractory, 0, 0, -1.5, 1.5, false, 0.0, 0.0)
  }

  function InitialLayer(row: seq<NeuronDraws>): seq<NeuronState>
  {
    seq(|row|, j requires 0 <= j < |row| => InitialNeuron(row[j]))
  }

  function InitialStates(draws: seq<seq<NeuronDraws>>): seq<seq<NeuronState>>
  {
    seq(|draws|, a requires 0 <= a < |draws| => InitialLayer(draws[a]))
  }

  /** The initial parameters lie in the ranges the comments of
      createNewNetwork give: weights in [0.1, 0.5), bias in [-0.3, 0.3),
      threshold in [1.0, 1.5), decay in [0.7, 0.9), refractory period 2 to 4
      ticks, and every weight within the weight bounds [-1.5, 1.5]. */
  lemma InitialNeuronRanges(d: NeuronDraws)
    requires NeuronDrawsOk(d)
    ensures var n := InitialNeuron(d);
      && |n.connections| == InputSize
      && (forall k :: 0 <= k < |n.connections| ==> 0.1 <= n.connections[k].weight < 0.5)
      && WeightsWithin(n.connections, n.minWeight, n.maxWeight)
      && -0.3 <= n.bias < 0.3 && 1.0 <= n.threshold < 1.5 && 0.7 <= n.decay < 0.9
      && 2 <= n.refractoryPeriod <= 4 && n.refractoryTimer == 0 && n.membranePotential == 0.0
  {
  }

  /** The network built is 8 layers of 8 neurons, each with 8 input lines
      and a non-zero weight bound, so it accepts the 8-line patterns. */
  lemma InitialNetworkChained(draws: seq<seq<NeuronDraws>>)
    requires NetworkDrawsOk(draws)
    ensures |InitialStates(draws)| == NumLayers
    ensures forall a :: 0 <= a < NumLayers ==> |InitialStates(draws)[a]| == NeuronsPerLayer
    ensures Chain(InitialStates(draws), InputSize)
  {
    var ls := InitialStates(draws);
    forall a | 0 <= a < |ls|
      ensures Accepts(ls[a], FanIn(ls, InputSize, a))
    {
      assert FanIn(ls, InputSize, a) == InputSize;
    }
  }

  /** Because the bias bounds are left at zero, every tick outside the
      refractory period clamps the bias to 0: the random initial bias lasts
      only until a neuron's first tick. */
  lemma BiasCollapses(n: NeuronState, inputs: seq<real>, currentTime: int, learningRate: real, u: real)
    requires Admits(n, inputs) && IsDraw(u)
    requires n.minBias == 0.0 && n.maxBias == 0.0
    ensures n.refractoryTimer <= 0 ==> Step(n, inputs, currentTime, learningRate, u).next.bias == 0.0
    ensures n.refractoryTimer > 0 ==> Step(n, inputs, currentTime, learningRate, u).next.bias == n.bias
  {
  }

  /** A neuron of createNewNetwork has bias 0 after its first tick. */
  lemma FirstTickClearsBias(d: NeuronDraws, inputs: seq<real>, currentTime: int, learningRate: real, u: real)
    requires NeuronDrawsOk(d) && |inputs| == InputSize && IsDraw(u)
    ensures Step(InitialNeuron(d), inputs, currentTime, learningRate, u).next.bias == 0.0
  {
    BiasCollapses(InitialNeuron(d), inputs, currentTime, learningRate, u);
  }

  /** One neuron of createNewNetwork: the connection loop, then the struct. */
  method CreateNeuron(d: NeuronDraws) returns (n: SpikingNeuron)
    ensures fresh(n) && n.State() == InitialNeuron(d)
  {
    var connections := seq(|d.weights|, _ => Connection(0.0, 0, 0));
    for k := 0 to |d.weights|
      invariant |connections| == |d.weights|
      invariant forall i :: 0 <= i < k ==> connections[i] == Connection(0.1 + d.weights[i] * 0.4, 0, 0)
      invariant forall i :: k <= i < |d.weights| ==> connections[i] == Connection(0.0, 0, 0)
    {
      connections := connections[k := Connection(0.1 + d.weights[k] * 0.4, 0, 0)];
    }
    n := new SpikingNeuron.FromState(NeuronState(0.0, 1.0 + d.threshold * 0.5, 0.0, 0.7 + d.decay * 0.2,
      -0.3 + d.bias * 0.6, connections, 2 + d.refractory, 0, 0, -1.5, 1.5, false, 0.0, 0.0));
  }

  /** One layer of createNewNetwork: its neurons appended one by one, then
      NewLayer. */
  method CreateLayer(row: seq<NeuronDraws>) returns (layer: Layer)
    ensures fresh(layer) && layer.Valid()
    ensures forall j :: 0 <= j < |layer.neurons| ==> fresh(layer.neurons[j])
    ensures layer.States() == InitialLayer(row)
  {
    var neurons: seq<SpikingNeuron> := [];
    for j := 0 to |row|
      invariant |neurons| == j
      invariant forall i :: 0 <= i < j ==> fresh(neurons[i])
      invariant forall i, i' :: 0 <= i < i' < j ==> neurons[i] != neurons[i']
      invariant forall i :: 0 <= i < j ==> neurons[i].State() == InitialNeuron(row[i])
    {
      var n := CreateNeuron(row[j]);
      neurons := neurons + [n];
    }
    layer := new Layer.NewLayer(neurons);
  }

  /** createNewNetwork with its random draws given: 8 layers of 8 neurons,
      no neuron shared, each in the initial state of its draws. */
  method CreateNewNetwork(draws: seq<seq<NeuronDraws>>) returns (net: Network)
    requires NetworkDrawsOk(draws)
    ensures fresh(net) && fresh(net.Repr()) && net.Valid()
    ensures net.States() == InitialStates(draws)
  {
    var layers: seq<Layer> := [];
    for i := 0 to NumLayers
      invariant |layers| == i
      invariant forall a :: 0 <= a < i ==> fresh(layers[a]) && layers[a].Valid()
      invariant forall a, j :: 0 <= a < i && 0 <= j < |layers[a].neurons| ==> fresh(layers[a].neurons[j])
      invariant forall a, b, j, k :: 0 <= a < b < i && 0 <= j < |layers[a].neurons| && 0 <= k < |layers[b].neurons| ==>
        layers[a].neurons[j] != layers[b].neurons[k]
      invariant forall a :: 0 <= a < i ==> layers[a].States() == InitialLayer(draws[a])
    {
      var layer := CreateLayer(draws[i]);
      layers := layers + [layer];
    }
    net := new Network.NewNetwork(layers);
  }

  // ---------------------------------------------------------------------
  // The training loop of main

  /** The layer states after some ticks, and what Forward returned at each. */
  datatype Trace = Trace(states: seq<seq<NeuronState>>, outputs: seq<seq<int>>)

  /** Two networks with the same number of layers and of neurons per layer. */
  predicate SameShape(ls: seq<seq<NeuronState>>, ms: seq<seq<NeuronState>>)
  {
    |ls| == |ms| && forall a :: 0 <= a < |ls| ==> |ls[a]| == |ms[a]|
  }

  /** Noise draws for every tick: one vector per layer. */
  predicate TickDraws(ls: seq<seq<NeuronState>>, us: seq<seq<seq<real>>>)
  {
    forall t :: 0 <= t < |us| ==> NetDraws(ls, us[t])
  }

  /** The draws of the first k ticks. */
  lemma TickDrawsPrefix(ls: seq<seq<NeuronState>>, us: seq<seq<seq<real>>>, k: nat)
    requires TickDraws(ls, us) && k <= |us|
    ensures TickDraws(ls, us[..k])
  {
    forall j | 0 <= j < k
      ensures NetDraws(ls, us[..k][j])
    {
      assert us[..k][j] == us[j];
    }
  }

  /** The draws per layer depend only on the shape of the network. */
  lemma DrawsFollowShape(ls: seq<seq<NeuronState>>, ms: seq<seq<NeuronState>>, u: seq<seq<real>>)
    requires SameShape(ls, ms) && NetDraws(ls, u)
    ensures NetDraws(ms, u)
  {
  }

  /** The ticks 0 .. |us| - 1 of the loop of main: tick t feeds Pattern(t)
      at time t with learning rate 0.05 and the draws us[t]. */
  function Train(ls: seq<seq<NeuronState>>, us: seq<seq<seq<real>>>): (r: Trace)
    requires Chain(ls, InputSize) && TickDraws(ls, us)
    ensures Chain(r.states, InputSize) && SameShape(ls, r.states) && |r.outputs| == |us|
    decreases |us|
  {
    if us == [] then Trace(ls, [])
    else
      var t := |us| - 1;
      TickDrawsPrefix(ls, us, t);
      var prev := Train(ls, us[..t]);
      DrawsFollowShape(ls, prev.states, us[t]);
      NetFoldKeepsChain(prev.states, Pattern(t), t, LearningRate, us[t]);
      Trace(NetFold(prev.states, Pattern(t), t, LearningRate, us[t]).next,
            prev.outputs + [NetForward(prev.states, Pattern(t), t, LearningRate, us[t])])
  }

  /** The last tick of a trace: its output is Forward on the states the
      earlier ticks left. */
  lemma TrainStep(ls: seq<seq<NeuronState>>, us: seq<seq<seq<real>>>)
    requires Chain(ls, InputSize) && TickDraws(ls, us) && |us| > 0
    ensures TickDraws(ls, us[..|us| - 1])
    ensures var t := |us| - 1;
      var prev := Train(ls, us[..t]);
      && SameShape(ls, prev.states) && NetDraws(prev.states, us[t]) && Chain(prev.states, |Pattern(t)|)
      && Train(ls, us).outputs == prev.outputs + [NetForward(prev.states, Pattern(t), t, LearningRate, us[t])]
  {
    var t := |us| - 1;
    TickDrawsPrefix(ls, us, t);
    DrawsFollowShape(ls, Train(ls, us[..t]).states, us[t]);
  }

  /** What Forward returns is one 0/1 entry per neuron of the last layer. */
  lemma NetForwardIsSpikes(ls: seq<seq<NeuronState>>, input: seq<real>, currentTime: int, learningRate: real, us: seq<seq<real>>)
    requires Chain(ls, |input|) && NetDraws(ls, us) && |ls| > 0
    ensures |NetForward(ls, input, currentTime, learningRate, us)| == |ls[|ls| - 1]|
    ensures forall i :: 0 <= i < |ls[|ls| - 1]| ==>
      NetForward(ls, input, currentTime, learningRate, us)[i] == 0 || NetForward(ls, input, currentTime, learningRate, us)[i] == 1
  {
    NetForwardShape(ls, input, currentTime, learningRate, us);
  }

  /** Each recorded output is one 0/1 entry per neuron of the last layer. */
  lemma {:induction false} TrainOutputsAreSpikes(ls: seq<seq<NeuronState>>, us: seq<seq<seq<real>>>)
    requires Chain(ls, InputSize) && TickDraws(ls, us) && |ls| > 0
    ensures forall t, i :: 0 <= t < |us| && 0 <= i < |Train(ls, us).outputs[t]| ==>
      Train(ls, us).outputs[t][i] == 0 || Train(ls, us).outputs[t][i] == 1
    ensures forall t :: 0 <= t < |us| ==> |Train(ls, us).outputs[t]| == |ls[|ls| - 1]|
    decreases |us|
  {
    if us != [] {
      var t := |us| - 1;
      TrainStep(ls, us);
      TrainOutputsAreSpikes(ls, us[..t]);
      var prev := Train(ls, us[..t]);
      NetForwardIsSpikes(prev.states, Pattern(t), t, LearningRate, us[t]);
    }
  }

  /** The loop of main over the ticks 0 .. |us| - 1: Forward on the
      pattern of each tick, each output recorded. */
  method TrainNetwork(net: Network, us: seq<seq<seq<real>>>) returns (outputs: seq<seq<int>>)
    requires net.Valid() && Chain(net.States(), InputSize) && TickDraws(net.States(), us)
    modifies net.Repr()
    ensures net.States() == Train(old(net.States()), us).states
    ensures outputs == Train(old(net.States()), us).outputs
  {
    ghost var s0 := net.States();
    outputs := [];
    for t := 0 to |us|
      invariant TickDraws(s0, us[..t])
      invariant Train(s0, us[..t]) == Trace(net.States(), outputs)
    {
      assert us[..t + 1][..t] == us[..t] && us[..t + 1][t] == us[t];
      TickDrawsPrefix(s0, us, t + 1);
      DrawsFollowShape(s0, net.States(), us[t]);
      var input := Pattern(t);
      var output := net.Forward(input, t, LearningRate, us[t]);
      outputs := outputs + [output];
    }
    assert us[..|us|] == us;
  }

  /** main without its file output: a fresh network (when no saved state
      is loaded) trained for 100 ticks. */
  method TrainFreshNetwork(draws: seq<seq<NeuronDraws>>, us: seq<seq<seq<real>>>) returns (net: Network, outputs: seq<seq<int>>)
    requires NetworkDrawsOk(draws) && |us| == TimeSteps && TickDraws(InitialStates(draws), us)
    ensures net.Valid()
    ensures net.States() == Train(InitialStates(draws), us).states
    ensures outputs == Train(InitialStates(draws), us).outputs
  {
    net := CreateNewNetwork(draws);
    InitialNetworkChained(draws);
    outputs := TrainNetwork(net, us);
  }
}
