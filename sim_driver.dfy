/**
 * The simulation driver of go/sim (go/sim/main.go) over the sim network:
 * three layers of 32 neurons, two Poisson-like spike trains of 50 rows
 * generated from firing-rate patterns, and 500 ticks that each run Forward
 * and then the STDP update with learning rate 0.01.
 *
 * Every rand.Float64 result and math.Exp are parameters; the CSV record
 * and the console output are not modelled.
 */
module SimDriver {
  import opened Synapse
  import opened SimNeuron
  import opened SimLayer
  import opened SimNetwork

  // ---------------------------------------------------------------------
  // generateSpikeTrain

  /** Row t of the spike train has a spike on line i exactly when the draw
      for (t, i) falls below that line's rate. */
  function SpikeTrain(pattern: seq<real>, draws: seq<seq<real>>): seq<seq<real>>
    requires forall t :: 0 <= t < |draws| ==> |draws[t]| == |pattern|
  {
    seq(|draws|, t requires 0 <= t < |draws| =>
      seq(|pattern|, i requires 0 <= i < |pattern| => if draws[t][i] < pattern[i] then 1.0 else 0.0))
  }

  /** The draws of a train: one rand.Float64 per tick and line. */
  predicate TrainDraws(pattern: seq<real>, draws: seq<seq<real>>)
  {
    forall t :: 0 <= t < |draws| ==> |draws[t]| == |pattern| && AllDraws(draws[t])
  }

  /** A spike train has one row of |pattern| entries per tick and holds
      only 0.0 and 1.0; a rate of at least 1 spikes on every tick and a rate
      of at most 0 never does. */
  lemma SpikeTrainShape(pattern: seq<real>, draws: seq<seq<real>>)
    requires TrainDraws(pattern, draws)
    ensures var train := SpikeTrain(pattern, draws);
      && |train| == |draws|
      && (forall t :: 0 <= t < |draws| ==> |train[t]| == |pattern|)
      && (forall t, i :: 0 <= t < |draws| && 0 <= i < |pattern| ==>
            && (train[t][i] == 0.0 || train[t][i] == 1.0)
            && (pattern[i] >= 1.0 ==> train[t][i] == 1.0)
            && (pattern[i] <= 0.0 ==> train[t][i] == 0.0))
  {
    var train := SpikeTrain(pattern, draws);
    forall t, i | 0 <= t < |draws| && 0 <= i < |pattern|
      ensures pattern[i] >= 1.0 ==> train[t][i] == 1.0
      ensures pattern[i] <= 0.0 ==> train[t][i] == 0.0
    {
      assert IsDraw(draws[t][i]);
    }
  }

  /** generateSpikeTrain(pattern, timesteps): a zeroed row is allocated per
      tick and a 1.0 written where the draw falls below the rate. */
  method GenerateSpikeTrain(pattern: seq<real>, timesteps: nat, draws: seq<seq<real>>) returns (train: seq<seq<real>>)
    requires |draws| == timesteps && TrainDraws(pattern, draws)
    ensures train == SpikeTrain(pattern, draws)
  {
    var spikeTrain := new seq<real>[timesteps](_ => []);
    for t := 0 to timesteps
      invariant forall k :: 0 <= k < t ==> spikeTrain[k] == SpikeTrain(pattern, draws)[k]
    {
      var spikes := new real[|pattern|](_ => 0.0);
      for i := 0 to |pattern|
        modifies spikes
        invariant forall j :: 0 <= j < i ==> spikes[j] == (if draws[t][j] < pattern[j] then 1.0 else 0.0)
        invariant forall j :: i <= j < |pattern| ==> spikes[j] == 0.0
      {
        if draws[t][i] < pattern[i] {
          spikes[i] := 1.0;
        }
      }
      assert spikes[..] == SpikeTrain(pattern, draws)[t];
      spikeTrain[t] := spikes[..];
    }
    train := spikeTrain[..];
  }

  // ---------------------------------------------------------------------
  // The input schedule

  const Timesteps: nat := 500
  const PatternDuration: nat := 50
  const NumPatterns: nat := 2
  const LearningRate: real := 0.01

  /** The firing rates of pattern A and pattern B. */
  const RatesA: seq<real> := [0.8, 0.1, 0.8, 0.1, 0.1, 0.8, 0.1, 0.8]
  const RatesB: seq<real> := [0.1, 0.8, 0.1, 0.8, 0.8, 0.1, 0.8, 0.1]

  /** patternIdx of tick t. */
  function PatternIndex(t: nat): nat
  {
    (t / PatternDuration) % NumPatterns
  }

  /** The row of the selected train that tick t feeds. */
  function Row(t: nat): nat
  {
    t % PatternDuration
  }

  /** The two generated trains, 50 rows of 8 lines each. */
  predicate PatternsOk(patterns: seq<seq<seq<real>>>)
  {
    |patterns| == NumPatterns &&
    forall p :: 0 <= p < NumPatterns ==>
      (|patterns[p]| == PatternDuration && forall r :: 0 <= r < PatternDuration ==> |patterns[p][r]| == 8)
  }

  /** The input of tick t: row t % 50 of train (t / 50) % 2. */
  function Input(patterns: seq<seq<seq<real>>>, t: nat): (input: seq<real>)
    requires PatternsOk(patterns)
    ensures |input| == 8
  {
    patterns[PatternIndex(t)][Row(t)]
  }

  /** The indices always fall inside the two trains, and fifty ticks later
      the same row of the other train is fed. */
  lemma ScheduleAlternates(t: nat)
    ensures PatternIndex(t) < NumPatterns && Row(t) < PatternDuration
    ensures PatternIndex(t + PatternDuration) != PatternIndex(t)
    ensures Row(t + PatternDuration) == Row(t)
  {
    assert (t + 50) / 50 == t / 50 + 1;
    assert (t + 50) % 50 == t % 50;
  }

  /** The trains of the two patterns, as main generates them. */
  lemma GeneratedPatternsOk(drawsA: seq<seq<real>>, drawsB: seq<seq<real>>)
    requires |drawsA| == PatternDuration && TrainDraws(RatesA, drawsA)
    requires |drawsB| == PatternDuration && TrainDraws(RatesB, drawsB)
    ensures PatternsOk([SpikeTrain(RatesA, drawsA), SpikeTrain(RatesB, drawsB)])
  {
    SpikeTrainShape(RatesA, drawsA);
    SpikeTrainShape(RatesB, drawsB);
  }

  // ---------------------------------------------------------------------
  // createNewNetwork

  const NumLayers: nat := 3
  const NeuronsPerLayer: nat := 32
  const InputSize: nat := 8

  /** The number of input lines of the neurons of layer i. */
  function LayerInputSize(i: nat): nat
  {
    if i == 0 then InputSize else NeuronsPerLayer
  }

  /** One rand.Float64 per weight of every neuron of every layer. */
  predicate WeightDrawsOk(draws: seq<seq<seq<real>>>)
  {
    |draws| == NumLayers &&
    forall a :: 0 <= a < NumLayers ==>
      (|draws[a]| == NeuronsPerLayer &&
       forall j :: 0 <= j < NeuronsPerLayer ==> |draws[a][j]| == LayerInputSize(a) && AllDraws(draws[a][j]))
  }

  /** Connections with weight 0.5 + u * 0.5 and zero spike stamps. */
  function DrawnConnections(ws: seq<real>): seq<Connection>
  {
    seq(|ws|, k requires 0 <= k < |ws| => Connection(0.5 + ws[k] * 0.5, 0, 0))
  }

  /** The struct literal of createNewNetwork; the fields not named are Go's
      zero value. */
  function InitialNeuron(ws: seq<real>): NeuronState
  {
    NeuronState(0.0, 1.0, 0.95, 0.1, DrawnConnections(ws), 1, 0, 0, -1.0, 2.0, false, 0.0)
  }

  function InitialLayer(row: seq<seq<real>>): seq<NeuronState>
  {
    seq(|row|, j requires 0 <= j < |row| => InitialNeuron(row[j]))
  }

  function InitialStates(draws: seq<seq<seq<real>>>): seq<seq<NeuronState>>
  {
    seq(|draws|, a requires 0 <= a < |draws| => InitialLayer(draws[a]))
  }

  /** Every initial weight lies in [0.5, 1.0), inside the bounds [-1, 2],
      and every spike stamp is 0. */
  lemma InitialNeuronRanges(ws: seq<real>)
    requires AllDraws(ws)
    ensures var n := InitialNeuron(ws);
      && |n.connections| == |ws|
      && WeightsWithin(n.connections, n.minWeight, n.maxWeight)
      && forall k :: 0 <= k < |ws| ==>
           && 0.5 <= n.connections[k].weight < 1.0
           && n.connections[k].lastPreSpike == 0 && n.connections[k].lastPostSpike == 0
  {
  }

  /** The network built is 3 layers of 32 neurons taking 8, 32 and 32 input
      lines, so it accepts a row of a spike train. */
  lemma InitialNetworkChained(draws: seq<seq<seq<real>>>)
    requires WeightDrawsOk(draws)
    ensures |InitialStates(draws)| == NumLayers
    ensures forall a :: 0 <= a < NumLayers ==> |InitialStates(draws)[a]| == NeuronsPerLayer
    ensures Chain(InitialStates(draws), InputSize)
  {
    var ls := InitialStates(draws);
    forall a | 0 <= a < |ls|
      ensures Accepts(ls[a], FanIn(ls, InputSize, a))
    {
      assert FanIn(ls, InputSize, a) == LayerInputSize(a);
    }
  }

  /** On the first tick every spike stamp is and stays 0, so the STDP time
      difference is 0 and a weight within its bounds comes out of Forward
      and UpdateWeights unchanged. */
  lemma FirstTickKeepsWeights(n: NeuronState, inputs: seq<real>, u: real, learningRate: real, exp: real -> real)
    requires |inputs| == |n.connections| && IsDraw(u)
    requires WeightsWithin(n.connections, n.minWeight, n.maxWeight)
    requires forall k :: 0 <= k < |n.connections| ==> n.connections[k].lastPreSpike == 0 && n.connections[k].lastPostSpike == 0
    ensures Weights(Update(Step(n, inputs, 0, u), 0, learningRate, exp).connections) == Weights(n.connections)
  {
    var m := Step(n, inputs, 0, u);
    if n.refractoryTimer <= 0 {
      StepStampsActiveLines(n, inputs, 0, u);
    }
    forall k | 0 <= k < |n.connections|
      ensures Update(m, 0, learningRate, exp).connections[k].weight == n.connections[k].weight
    {
      assert m.connections[k].weight == Weights(m.connections)[k] == Weights(n.connections)[k];
      assert DeltaT(m.connections[k]) == 0.0;
    }
  }

  /** One neuron of createNewNetwork: the connection loop, then the struct. */
  method CreateNeuron(ws: seq<real>) returns (n: SpikingNeuron)
    ensures fresh(n) && n.State() == InitialNeuron(ws)
  {
    var connections := seq(|ws|, _ => Connection(0.0, 0, 0));
    for k := 0 to |ws|
      invariant |connections| == |ws|
      invariant forall i :: 0 <= i < k ==> connections[i] == Connection(0.5 + ws[i] * 0.5, 0, 0)
      invariant forall i :: k <= i < |ws| ==> connections[i] == Connection(0.0, 0, 0)
    {
      connections := connections[k := Connection(0.5 + ws[k] * 0.5, 0, 0)];
    }
    n := new SpikingNeuron.FromState(NeuronState(0.0, 1.0, 0.95, 0.1, connections, 1, 0, 0, -1.0, 2.0, false, 0.0));
  }

  /** One layer of createNewNetwork: its neurons appended one by one, then
      NewLayer. */
  method CreateLayer(row: seq<seq<real>>) returns (layer: Layer)
    ensures fresh(layer) && layer.Valid()
    ensures forall j :: 0 <= j < |layer.neurons| ==> fresh(layer.neurons[j])
    ensures layer.States() == InitialLayer(row)
  {
    var neurons: seq<SpikingNeuron> := [];
    for j := 0 to |row|
      invariant |neurons| == j
      invariant forall i :: 0 <= i < j ==> fresh(neurons[i])
      invariant forall i, i' :: 0 <= i < i' < j ==> neurons[i] != neurons[i']
      invariant forall i :: 0 <= i < j ==> neurons[i].State() == InitialNeuron(row[i])
    {
      var n := CreateNeuron(row[j]);
      neurons := neurons + [n];
    }
    layer := new Layer.NewLayer(neurons);
  }

  /** createNewNetwork with its weight draws given: no neuron shared, each
      in the initial state of its draws. */
  method CreateNewNetwork(draws: seq<seq<seq<real>>>) returns (net: Network)
    requires WeightDrawsOk(draws)
    ensures fresh(net) && fresh(net.Repr()) && net.Valid()
    ensures net.States() == InitialStates(draws)
  {
    var layers: seq<Layer> := [];
    for i := 0 to NumLayers
      invariant |layers| == i
      invariant forall a :: 0 <= a < i ==> fresh(layers[a]) && layers[a].Valid()
      invariant forall a, j :: 0 <= a < i && 0 <= j < |layers[a].neurons| ==> fresh(layers[a].neurons[j])
      invariant forall a, b, j, k :: 0 <= a < b < i && 0 <= j < |layers[a].neurons| && 0 <= k < |layers[b].neurons| ==>
        layers[a].neurons[j] != layers[b].neurons[k]
      invariant forall a :: 0 <= a < i ==> layers[a].States() == InitialLayer(draws[a])
    {
      var layer := CreateLayer(draws[i]);
      layers := layers + [layer];
    }
    net := new Network.NewNetwork(layers);
  }

  // ---------------------------------------------------------------------
  // The simulation loop of main

  /** The layer states after some ticks, and what Forward returned at each. */
  datatype Trace = Trace(states: seq<seq<NeuronState>>, outputs: seq<seq<real>>)

  /** Two networks with the same number of layers and of neurons per layer. */
  predicate SameShape(ls: seq<seq<NeuronState>>, ms: seq<seq<NeuronState>>)
  {
    |ls| == |ms| && forall a :: 0 <= a < |ls| ==> |ls[a]| == |ms[a]|
  }

  /** Noise draws for every tick: one vector per layer. */
  predicate TickDraws(ls: seq<seq<NeuronState>>, us: seq<seq<seq<real>>>)
  {
    forall t :: 0 <= t < |us| ==> NetDraws(ls, us[t])
  }

  /** The draws per layer depend only on the shape of the network. */
  lemma DrawsFollowShape(ls: seq<seq<NeuronState>>, ms: seq<seq<NeuronState>>, u: seq<seq<real>>)
    requires SameShape(ls, ms) && NetDraws(ls, u)
    ensures NetDraws(ms, u)
  {
  }

  /** One tick of the loop: Forward on the input, then UpdateWeights at the
      same tick; the result is chained and shaped as before. */
  function Tick(ls: seq<seq<NeuronState>>, input: seq<real>, t: nat, u: seq<seq<real>>, exp: real -> real): (r: NetTick)
    requires Chain(ls, |input|) && NetDraws(ls, u)
    ensures Chain(r.next, |input|) && SameShape(ls, r.next)
    ensures r.out == NetFold(ls, input, t, u).out
  {
    var fwd := NetFold(ls, input, t, u);
    NetFoldKeepsChain(ls, input, t, u);
    NetUpdateKeepsBoundsAndChain(fwd.next, |input|, t, LearningRate, exp);
    NetTick(NetUpdate(fwd.next, t, LearningRate, exp), fwd.out)
  }

  /** After a tick every neuron whose weight bounds are ordered has all its
      weights within them: Forward keeps the weights and UpdateWeights
      clamps them. */
  lemma TickKeepsBounds(ls: seq<seq<NeuronState>>, input: seq<real>, t: nat, u: seq<seq<real>>, exp: real -> real)
    requires Chain(ls, |input|) && NetDraws(ls, u)
    ensures var fwd := NetFold(ls, input, t, u).next;
      var r := Tick(ls, input, t, u, exp).next;
      forall a, i :: 0 <= a < |fwd| && 0 <= i < |fwd[a]| && fwd[a][i].minWeight <= fwd[a][i].maxWeight ==>
        WeightsWithin(r[a][i].connections, fwd[a][i].minWeight, fwd[a][i].maxWeight)
  {
    NetUpdateKeepsBoundsAndChain(NetFold(ls, input, t, u).next, |input|, t, LearningRate, exp);
  }

  /** The first n ticks of the loop of main: tick t feeds Input(patterns, t)
      at time t with the draws us[t]. */
  function Simulation(ls: seq<seq<NeuronState>>, patterns: seq<seq<seq<real>>>, us: seq<seq<seq<real>>>, exp: real -> real, n: nat): (r: Trace)
    requires PatternsOk(patterns) && Chain(ls, InputSize) && TickDraws(ls, us) && n <= |us|
    ensures Chain(r.states, InputSize) && SameShape(ls, r.states) && |r.outputs| == n
  {
    if n == 0 then Trace(ls, [])
    else
      var t := n - 1;
      var prev := Simulation(ls, patterns, us, exp, t);
      DrawsFollowShape(ls, prev.states, us[t]);
      var tick := Tick(prev.states, Input(patterns, t), t, us[t], exp);
      Trace(tick.next, prev.outputs + [tick.out])
  }

  /** The last of n ticks: Forward on the states the first n - 1 ticks
      left, then UpdateWeights; its output is Forward's. */
  lemma SimulationStep(ls: seq<seq<NeuronState>>, patterns: seq<seq<seq<real>>>, us: seq<seq<seq<real>>>, exp: real -> real, n: nat)
    requires PatternsOk(patterns) && Chain(ls, InputSize) && TickDraws(ls, us) && 0 < n <= |us|
    ensures var prev := Simulation(ls, patterns, us, exp, n - 1);
      && SameShape(ls, prev.states) && NetDraws(prev.states, us[n - 1])
      && var fwd := NetFold(prev.states, Input(patterns, n - 1), n - 1, us[n - 1]);
         && Simulation(ls, patterns, us, exp, n).states == NetUpdate(fwd.next, n - 1, LearningRate, exp)
         && Simulation(ls, patterns, us, exp, n).outputs == prev.outputs + [fwd.out]
  {
    DrawsFollowShape(ls, Simulation(ls, patterns, us, exp, n - 1).states, us[n - 1]);
  }

  /** Every output vector has width entries, each 0 or 1. */
  predicate AllSpikes(outs: seq<seq<real>>, width: nat)
  {
    forall t :: 0 <= t < |outs| ==>
      |outs[t]| == width && forall i :: 0 <= i < |outs[t]| ==> outs[t][i] == 0.0 || outs[t][i] == 1.0
  }

  lemma AppendSpikes(outs: seq<seq<real>>, o: seq<real>, width: nat)
    requires AllSpikes(outs, width) && |o| == width
    requires forall i :: 0 <= i < |o| ==> o[i] == 0.0 || o[i] == 1.0
    ensures AllSpikes(outs + [o], width)
  {
    forall t | 0 <= t < |outs + [o]|
      ensures |(outs + [o])[t]| == width
      ensures forall i :: 0 <= i < |(outs + [o])[t]| ==> (outs + [o])[t][i] == 0.0 || (outs + [o])[t][i] == 1.0
    {
      if t < |outs| {
        assert (outs + [o])[t] == outs[t];
      }
    }
  }

  /** Each recorded output is one 0/1 entry per neuron of the last layer. */
  lemma {:induction false} SimulationOutputsAreSpikes(ls: seq<seq<NeuronState>>, patterns: seq<seq<seq<real>>>, us: seq<seq<seq<real>>>, exp: real -> real, n: nat)
    requires PatternsOk(patterns) && Chain(ls, InputSize) && TickDraws(ls, us) && n <= |us| && |ls| > 0
    ensures AllSpikes(Simulation(ls, patterns, us, exp, n).outputs, |ls[|ls| - 1]|)
  {
    if n > 0 {
      SimulationOutputsAreSpikes(ls, patterns, us, exp, n - 1);
      SimulationStep(ls, patterns, us, exp, n);
      var prev := Simulation(ls, patterns, us, exp, n - 1);
      var fwd := NetFold(prev.states, Input(patterns, n - 1), n - 1, us[n - 1]);
      AppendSpikes(prev.outputs, fwd.out, |ls[|ls| - 1]|);
    }
  }

  /** One iteration of the loop of main: Forward on row t % 50 of train
      (t / 50) % 2, then UpdateWeights at tick t. */
  method SimulateTick(net: Network, ghost s0: seq<seq<NeuronState>>, patterns: seq<seq<seq<real>>>, us: seq<seq<seq<real>>>, exp: real -> real, t: nat)
    returns (output: seq<real>)
    requires PatternsOk(patterns) && Chain(s0, InputSize) && TickDraws(s0, us) && t < |us|
    requires net.Valid() && net.States() == Simulation(s0, patterns, us, exp, t).states
    modifies net.Repr()
    ensures net.States() == Simulation(s0, patterns, us, exp, t + 1).states
    ensures Simulation(s0, patterns, us, exp, t + 1).outputs == Simulation(s0, patterns, us, exp, t).outputs + [output]
  {
    SimulationStep(s0, patterns, us, exp, t + 1);
    var patternIdx := (t / PatternDuration) % NumPatterns;
    var pattern := patterns[patternIdx][t % PatternDuration];
    assert pattern == Input(patterns, t);
    output := net.Forward(pattern, t, us[t]);
    net.UpdateWeights(t, LearningRate, exp);
  }

  /** The loop of main over the ticks 0 .. |us| - 1, each output recorded. */
  method Simulate(net: Network, patterns: seq<seq<seq<real>>>, us: seq<seq<seq<real>>>, exp: real -> real) returns (outputs: seq<seq<real>>)
    requires PatternsOk(patterns)
    requires net.Valid() && Chain(net.States(), InputSize) && TickDraws(net.States(), us)
    modifies net.Repr()
    ensures net.States() == Simulation(old(net.States()), patterns, us, exp, |us|).states
    ensures outputs == Simulation(old(net.States()), patterns, us, exp, |us|).outputs
  {
    ghost var s0 := net.States();
    outputs := [];
    for t := 0 to |us|
      invariant net.States() == Simulation(s0, patterns, us, exp, t).states
      invariant outputs == Simulation(s0, patterns, us, exp, t).outputs
    {
      var output := SimulateTick(net, s0, patterns, us, exp, t);
      outputs := outputs + [output];
    }
  }

  /** main without its file output: the network, the two spike trains and
      500 ticks of simulation. */
  method SimulateFresh(weightDraws: seq<seq<seq<real>>>, drawsA: seq<seq<real>>, drawsB: seq<seq<real>>,
                       us: seq<seq<seq<real>>>, exp: real -> real)
    returns (net: Network, patterns: seq<seq<seq<real>>>, outputs: seq<seq<real>>)
    requires WeightDrawsOk(weightDraws)
    requires |drawsA| == PatternDuration && TrainDraws(RatesA, drawsA)
    requires |drawsB| == PatternDuration && TrainDraws(RatesB, drawsB)
    requires |us| == Timesteps && TickDraws(InitialStates(weightDraws), us)
    ensures patterns == [SpikeTrain(RatesA, drawsA), SpikeTrain(RatesB, drawsB)] && PatternsOk(patterns)
    ensures net.Valid() && Chain(InitialStates(weightDraws), InputSize)
    ensures outputs == Simulation(InitialStates(weightDraws), patterns, us, exp, Timesteps).outputs
    ensures net.States() == Simulation(InitialStates(weightDraws), patterns, us, exp, Timesteps).states
  {
    net := CreateNewNetwork(weightDraws);
    InitialNetworkChained(weightDraws);
    patterns := GeneratePatterns(drawsA, drawsB);
    outputs := Simulate(net, patterns, us, exp);
  }

  /** The two spike trains of main, for pattern A and pattern B. */
  method GeneratePatterns(drawsA: seq<seq<real>>, drawsB: seq<seq<real>>) returns (patterns: seq<seq<seq<real>>>)
    requires |drawsA| == PatternDuration && TrainDraws(RatesA, drawsA)
    requires |drawsB| == PatternDuration && TrainDraws(RatesB, drawsB)
    ensures patterns == [SpikeTrain(RatesA, drawsA), SpikeTrain(RatesB, drawsB)] && PatternsOk(patterns)
  {
    var trainA := GenerateSpikeTrain(RatesA, PatternDuration, drawsA);
    var trainB := GenerateSpikeTrain(RatesB, PatternDuration, drawsB);
    GeneratedPatternsOk(drawsA, drawsB);
    patterns := [trainA, trainB];
  }
}
