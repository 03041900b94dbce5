/**
 * The spiking neuron of the root `metal` package (metal/neuron.go): a
 * leaky integrate-and-fire unit with refractory countdown, an adaptive
 * threshold and plasticity embedded in its update rule.
 *
 * `NeuronState` is a value snapshot of every field of the Go struct;
 * `Step` is the update rule on snapshots, and the class `SpikingNeuron`
 * performs the same update in place, field by field and loop by loop.
 */
module MetalNeuron {
  import opened Synapse

  datatype NeuronState = NeuronState(
    membranePotential: real,
    threshold: real,
    adaptiveThreshold: real,
    decay: real,
    bias: real,
    connections: seq<Connection>,
    refractoryPeriod: int,
    refractoryTimer: int,
    lastSpikeTime: int,
    minWeight: real,
    maxWeight: real,
    fired: bool,
    minBias: real,
    maxBias: real)

  /** The new state after one call of Forward and the value it returns. */
  datatype Tick = Tick(next: NeuronState, spike: int)

  /** Step is defined when the input has one line per connection (otherwise
      the source panics) and the weight bound used as a divisor is non-zero. */
  predicate Admits(n: NeuronState, inputs: seq<real>)
  {
    |inputs| == |n.connections| && n.maxWeight != 0.0
  }

  /** The parameters Forward never writes. */
  predicate SameParameters(n: NeuronState, m: NeuronState)
  {
    && m.threshold == n.threshold
    && m.decay == n.decay
    && m.refractoryPeriod == n.refractoryPeriod
    && m.minWeight == n.minWeight
    && m.maxWeight == n.maxWeight
    && m.minBias == n.minBias
    && m.maxBias == n.maxBias
  }

  function Abs(x: real): real
  {
    if x < 0.0 then -x else x
  }

  /** The symmetry-breaking term (rand.Float64() - 0.5) * 0.05 for a draw u. */
  function Noise(u: real): (r: real)
    requires IsDraw(u)
    ensures -0.025 <= r < 0.025
  {
    (u - 0.5) * 0.05
  }

  /** The sum of input[i] * weight[i] over all input lines, accumulated left
      to right as the source does. */
  function WeightedSum(inputs: seq<real>, cs: seq<Connection>): real
    requires |inputs| == |cs|
  {
    if |inputs| == 0 then 0.0
    else WeightedSum(inputs[..|inputs| - 1], cs[..|cs| - 1]) + inputs[|inputs| - 1] * cs[|cs| - 1].weight
  }

  /** Every line that carries no input contributes nothing. */
  lemma {:induction false} WeightedSumOfSilence(inputs: seq<real>, cs: seq<Connection>)
    requires |inputs| == |cs|
    requires forall i :: 0 <= i < |inputs| ==> inputs[i] == 0.0
    ensures WeightedSum(inputs, cs) == 0.0
  {
    if |inputs| > 0 {
      WeightedSumOfSilence(inputs[..|inputs| - 1], cs[..|cs| - 1]);
    }
  }

  /** The membrane potential after decay, integration, bias and noise. */
  function Integrated(n: NeuronState, inputs: seq<real>, u: real): real
    requires |inputs| == |n.connections| && IsDraw(u)
  {
    n.membranePotential * n.decay + (WeightedSum(inputs, n.connections) + n.bias) + Noise(u)
  }

  /** The saturation guard 1 - |w| / maxWeight. */
  function Scale(w: real, maxWeight: real): real
    requires maxWeight != 0.0
  {
    1.0 - Abs(w) / maxWeight
  }

  /** With maxWeight > 0 and |w| <= maxWeight the guard lies in [0, 1]. */
  lemma ScaleInUnitInterval(w: real, maxWeight: real)
    requires maxWeight > 0.0 && Abs(w) <= maxWeight
    ensures 0.0 <= Scale(w, maxWeight) <= 1.0
  {
    var q := Abs(w) / maxWeight;
    assert q * maxWeight == Abs(w);
    if q > 1.0 {
      assert q * maxWeight > 1.0 * maxWeight;
    }
  }

  /** Every connection's last presynaptic tick becomes t. */
  function StampPre(cs: seq<Connection>, t: int): (r: seq<Connection>)
    ensures |r| == |cs|
    ensures forall i :: 0 <= i < |cs| ==> r[i] == cs[i].(lastPreSpike := t)
  {
    seq(|cs|, i requires 0 <= i < |cs| => cs[i].(lastPreSpike := t))
  }

  /** One connection on a firing tick: potentiated (and clamped) when its
      input was positive, and stamped with the postsynaptic tick t. */
  function Potentiated(c: Connection, input: real, learningRate: real, minWeight: real, maxWeight: real, t: int): Connection
    requires maxWeight != 0.0
  {
    var w := if input > 0.0
      then Clamp(c.weight + learningRate * 0.5 * Scale(c.weight, maxWeight), minWeight, maxWeight)
      else c.weight;
    c.(weight := w, lastPostSpike := t)
  }

  /** One connection on a silent tick: depressed (and clamped) when its input
      was positive. */
  function Depressed(c: Connection, input: real, learningRate: real, minWeight: real, maxWeight: real): Connection
    requires maxWeight != 0.0
  {
    if input > 0.0
    then c.(weight := Clamp(c.weight - learningRate * 0.1 * Scale(c.weight, maxWeight), minWeight, maxWeight))
    else c
  }

  function Potentiate(cs: seq<Connection>, inputs: seq<real>, learningRate: real, minWeight: real, maxWeight: real, t: int): (r: seq<Connection>)
    requires |inputs| == |cs| && maxWeight != 0.0
    ensures |r| == |cs|
    ensures forall i :: 0 <= i < |cs| ==> r[i] == Potentiated(cs[i], inputs[i], learningRate, minWeight, maxWeight, t)
  {
    seq(|cs|, i requires 0 <= i < |cs| => Potentiated(cs[i], inputs[i], learningRate, minWeight, maxWeight, t))
  }

  function Depress(cs: seq<Connection>, inputs: seq<real>, learningRate: real, minWeight: real, maxWeight: real): (r: seq<Connection>)
    requires |inputs| == |cs| && maxWeight != 0.0
    ensures |r| == |cs|
    ensures forall i :: 0 <= i < |cs| ==> r[i] == Depressed(cs[i], inputs[i], learningRate, minWeight, maxWeight)
  {
    seq(|cs|, i requires 0 <= i < |cs| => Depressed(cs[i], inputs[i], learningRate, minWeight, maxWeight))
  }

  /** A tick during the refractory period: Fired is cleared, the timer
      counts down and the potential still decays. */
  function Refract(n: NeuronState): NeuronState
  {
    n.(fired := false,
       refractoryTimer := n.refractoryTimer - 1,
       membranePotential := n.membranePotential * n.decay)
  }

  /** Decay, integration of every input line (each stamped with the
      presynaptic tick), bias and noise. */
  function Charge(n: NeuronState, inputs: seq<real>, currentTime: int, u: real): NeuronState
    requires |inputs| == |n.connections| && IsDraw(u)
  {
    n.(membranePotential := Integrated(n, inputs, u),
       connections := StampPre(n.connections, currentTime))
  }

  /** The firing branch: reset to exactly 0, restart the refractory timer,
      record the spike, potentiate the active lines, raise the adaptive
      threshold and lower the bias. */
  function Fire(m: NeuronState, inputs: seq<real>, currentTime: int, learningRate: real): NeuronState
    requires Admits(m, inputs)
  {
    m.(membranePotential := 0.0,
       refractoryTimer := m.refractoryPeriod,
       lastSpikeTime := currentTime,
       fired := true,
       connections := Potentiate(m.connections, inputs, learningRate, m.minWeight, m.maxWeight, currentTime),
       adaptiveThreshold := m.adaptiveThreshold + 0.1,
       bias := Clamp(m.bias - learningRate * 0.1, m.minBias, m.maxBias))
  }

  /** The silent branch: relax the adaptive threshold, depress the active
      lines and raise the bias. */
  function Rest(m: NeuronState, inputs: seq<real>, learningRate: real): NeuronState
    requires Admits(m, inputs)
  {
    m.(adaptiveThreshold := m.adaptiveThreshold * 0.9,
       connections := Depress(m.connections, inputs, learningRate, m.minWeight, m.maxWeight),
       bias := Clamp(m.bias + learningRate * 0.05, m.minBias, m.maxBias))
  }

  /** SpikingNeuron.Forward(inputs, currentTime, learningRate) with the
      noise draw u. */
  function Step(n: NeuronState, inputs: seq<real>, currentTime: int, learningRate: real, u: real): (r: Tick)
    requires Admits(n, inputs) && IsDraw(u)
    ensures r.spike == 0 || r.spike == 1
    ensures |r.next.connections| == |n.connections|
    ensures SameParameters(n, r.next)
  {
    if n.refractoryTimer > 0 then Tick(Refract(n), 0)
    else
      var m := Charge(n, inputs, currentTime, u);
      if m.membranePotential >= m.threshold + m.adaptiveThreshold
      then Tick(Fire(m, inputs, currentTime, learningRate), 1)
      else Tick(Rest(m, inputs, learningRate), 0)
  }

  /** While the refractory timer runs, the neuron ignores its input: it
      returns 0, clears Fired, counts the timer down by one, decays the
      potential, and leaves weights, bias, adaptive threshold and every
      timestamp as they were. */
  lemma StepWhileRefractory(n: NeuronState, inputs: seq<real>, currentTime: int, learningRate: real, u: real)
    requires Admits(n, inputs) && IsDraw(u) && n.refractoryTimer > 0
    ensures var r := Step(n, inputs, currentTime, learningRate, u);
      && r.spike == 0
      && !r.next.fired
      && r.next.refractoryTimer == n.refractoryTimer - 1
      && r.next.membranePotential == n.membranePotential * n.decay
      && r.next.connections == n.connections
      && r.next.bias == n.bias
      && r.next.adaptiveThreshold == n.adaptiveThreshold
      && r.next.lastSpikeTime == n.lastSpikeTime
  {
  }

  /** On a tick outside the refractory period every connection records the
      tick as its last presynaptic spike, whatever its input. */
  lemma StepStampsEveryConnection(n: NeuronState, inputs: seq<real>, currentTime: int, learningRate: real, u: real)
    requires Admits(n, inputs) && IsDraw(u) && n.refractoryTimer <= 0
    ensures var r := Step(n, inputs, currentTime, learningRate, u);
      forall i :: 0 <= i < |n.connections| ==> r.next.connections[i].lastPreSpike == currentTime
  {
  }

  /** The neuron fires exactly when, outside the refractory period, the
      integrated potential reaches Threshold + AdaptiveThreshold. Firing
      resets the potential to exactly 0, restarts the refractory timer,
      records the spike tick on the neuron and on every connection, and
      raises the adaptive threshold by exactly 0.1. */
  lemma StepOnFiring(n: NeuronState, inputs: seq<real>, currentTime: int, learningRate: real, u: real)
    requires Admits(n, inputs) && IsDraw(u)
    ensures var r := Step(n, inputs, currentTime, learningRate, u);
      && (r.spike == 1 <==> n.refractoryTimer <= 0 && Integrated(n, inputs, u) >= n.threshold + n.adaptiveThreshold)
      && (r.spike == 1 ==>
            && r.next.membranePotential == 0.0
            && r.next.refractoryTimer == n.refractoryPeriod
            && r.next.lastSpikeTime == currentTime
            && r.next.fired
            && r.next.adaptiveThreshold == n.adaptiveThreshold + 0.1
            && r.next.bias == Clamp(n.bias - learningRate * 0.1, n.minBias, n.maxBias)
            && forall i :: 0 <= i < |n.connections| ==> r.next.connections[i].lastPostSpike == currentTime)
  {
  }

  /** A tick outside the refractory period that does not fire keeps the
      integrated potential, relaxes the adaptive threshold by the factor 0.9,
      nudges the bias up by learningRate * 0.05 (clamped), and writes neither
      Fired nor any postsynaptic tick. */
  lemma StepOnSilence(n: NeuronState, inputs: seq<real>, currentTime: int, learningRate: real, u: real)
    requires Admits(n, inputs) && IsDraw(u) && n.refractoryTimer <= 0
    requires Integrated(n, inputs, u) < n.threshold + n.adaptiveThreshold
    ensures var r := Step(n, inputs, currentTime, learningRate, u);
      && r.spike == 0
      && r.next.membranePotential == Integrated(n, inputs, u)
      && r.next.adaptiveThreshold == n.adaptiveThreshold * 0.9
      && r.next.bias == Clamp(n.bias + learningRate * 0.05, n.minBias, n.maxBias)
      && r.next.fired == n.fired
      && r.next.refractoryTimer == n.refractoryTimer
      && r.next.lastSpikeTime == n.lastSpikeTime
      && forall i :: 0 <= i < |n.connections| ==> r.next.connections[i].lastPostSpike == n.connections[i].lastPostSpike
  {
  }

  /** Weight and bias bounds: outside the refractory period every weight of
      a line with positive input ends in [MinWeight, MaxWeight], the bias ends
      in [MinBias, MaxBias], the other weights are untouched; hence a neuron
      whose weights were all within bounds keeps them within bounds. */
  lemma StepKeepsBounds(n: NeuronState, inputs: seq<real>, currentTime: int, learningRate: real, u: real)
    requires Admits(n, inputs) && IsDraw(u)
    requires n.minWeight <= n.maxWeight && n.minBias <= n.maxBias
    ensures var r := Step(n, inputs, currentTime, learningRate, u);
      && (forall i :: 0 <= i < |inputs| && inputs[i] <= 0.0 ==> r.next.connections[i].weight == n.connections[i].weight)
      && (n.refractoryTimer <= 0 ==>
            && n.minBias <= r.next.bias <= n.maxBias
            && forall i :: 0 <= i < |inputs| && inputs[i] > 0.0 ==>
                 n.minWeight <= r.next.connections[i].weight <= n.maxWeight)
      && (WeightsWithin(n.connections, n.minWeight, n.maxWeight) ==>
            WeightsWithin(r.next.connections, n.minWeight, n.maxWeight))
  {
  }

  /** Potentiation of an in-bounds weight never lowers it. */
  lemma PotentiationRaises(w: real, learningRate: real, minWeight: real, maxWeight: real)
    requires learningRate >= 0.0 && maxWeight > 0.0 && minWeight == -maxWeight
    requires minWeight <= w <= maxWeight
    ensures Clamp(w + learningRate * 0.5 * Scale(w, maxWeight), minWeight, maxWeight) >= w
  {
    ScaleInUnitInterval(w, maxWeight);
    ProductNonNegative(learningRate * 0.5, Scale(w, maxWeight));
  }

  /** Depression of an in-bounds weight never raises it. */
  lemma DepressionLowers(w: real, learningRate: real, minWeight: real, maxWeight: real)
    requires learningRate >= 0.0 && maxWeight > 0.0 && minWeight == -maxWeight
    requires minWeight <= w <= maxWeight
    ensures Clamp(w - learningRate * 0.1 * Scale(w, maxWeight), minWeight, maxWeight) <= w
  {
    ScaleInUnitInterval(w, maxWeight);
    ProductNonNegative(learningRate * 0.1, Scale(w, maxWeight));
  }

  /** With a non-negative learning rate and symmetric bounds, a firing tick
      never lowers an in-bounds weight and a silent tick never raises one;
      only lines with positive input change. */
  lemma StepPlasticityDirection(n: NeuronState, inputs: seq<real>, currentTime: int, learningRate: real, u: real)
    requires Admits(n, inputs) && IsDraw(u)
    requires learningRate >= 0.0 && n.maxWeight > 0.0 && n.minWeight == -n.maxWeight
    requires WeightsWithin(n.connections, n.minWeight, n.maxWeight)
    ensures var r := Step(n, inputs, currentTime, learningRate, u);
      && (r.spike == 1 ==> forall i :: 0 <= i < |inputs| ==> r.next.connections[i].weight >= n.connections[i].weight)
      && (r.spike == 0 ==> forall i :: 0 <= i < |inputs| ==> r.next.connections[i].weight <= n.connections[i].weight)
  {
    if n.refractoryTimer <= 0 {
      var m := Charge(n, inputs, currentTime, u);
      assert forall i :: 0 <= i < |inputs| ==> m.connections[i].weight == n.connections[i].weight;
      FireNeverLowers(m, inputs, currentTime, learningRate);
      RestNeverRaises(m, inputs, learningRate);
    }
  }

  lemma FireNeverLowers(m: NeuronState, inputs: seq<real>, currentTime: int, learningRate: real)
    requires Admits(m, inputs)
    requires learningRate >= 0.0 && m.maxWeight > 0.0 && m.minWeight == -m.maxWeight
    requires WeightsWithin(m.connections, m.minWeight, m.maxWeight)
    ensures forall i :: 0 <= i < |inputs| ==>
      Fire(m, inputs, currentTime, learningRate).connections[i].weight >= m.connections[i].weight
  {
    forall i | 0 <= i < |inputs|
      ensures Potentiated(m.connections[i], inputs[i], learningRate, m.minWeight, m.maxWeight, currentTime).weight >= m.connections[i].weight
    {
      PotentiationRaises(m.connections[i].weight, learningRate, m.minWeight, m.maxWeight);
    }
  }

  lemma RestNeverRaises(m: NeuronState, inputs: seq<real>, learningRate: real)
    requires Admits(m, inputs)
    requires learningRate >= 0.0 && m.maxWeight > 0.0 && m.minWeight == -m.maxWeight
    requires WeightsWithin(m.connections, m.minWeight, m.maxWeight)
    ensures forall i :: 0 <= i < |inputs| ==>
      Rest(m, inputs, learningRate).connections[i].weight <= m.connections[i].weight
  {
    forall i | 0 <= i < |inputs|
      ensures Depressed(m.connections[i], inputs[i], learningRate, m.minWeight, m.maxWeight).weight <= m.connections[i].weight
    {
      DepressionLowers(m.connections[i].weight, learningRate, m.minWeight, m.maxWeight);
    }
  }

  /** Every tick of a run can be taken: the input lines match the fan-in. */
  predicate Feeds(n: NeuronState, ticks: seq<seq<real>>)
  {
    forall k :: 0 <= k < |ticks| ==> |ticks[k]| == |n.connections|
  }

  /** Consecutive calls of Forward at ticks t0, t0 + 1, ..., with one input
      vector and one noise draw per tick: the returned spikes in order. */
  function Run(n: NeuronState, ticks: seq<seq<real>>, t0: int, learningRate: real, us: seq<real>): (spikes: seq<int>)
    requires n.maxWeight != 0.0 && Feeds(n, ticks) && |us| == |ticks| && AllDraws(us)
    ensures |spikes| == |ticks|
    decreases |ticks|
  {
    if ticks == [] then []
    else
      var r := Step(n, ticks[0], t0, learningRate, us[0]);
      [r.spike] + Run(r.next, ticks[1..], t0 + 1, learningRate, us[1..])
  }

  /** A neuron whose refractory timer is at least the length of the run
      stays silent throughout. */
  lemma {:induction false} RefractoryQuiet(n: NeuronState, ticks: seq<seq<real>>, t0: int, learningRate: real, us: seq<real>)
    requires n.maxWeight != 0.0 && Feeds(n, ticks) && |us| == |ticks| && AllDraws(us)
    requires n.refractoryTimer >= |ticks|
    ensures forall k :: 0 <= k < |ticks| ==> Run(n, ticks, t0, learningRate, us)[k] == 0
    decreases |ticks|
  {
    if ticks != [] {
      var r := Step(n, ticks[0], t0, learningRate, us[0]);
      RefractoryQuiet(r.next, ticks[1..], t0 + 1, learningRate, us[1..]);
    }
  }

  /** A neuron that fires on the first tick of a run cannot fire again
      during the next RefractoryPeriod ticks. */
  lemma RefractoryAfterFiring(n: NeuronState, ticks: seq<seq<real>>, t0: int, learningRate: real, us: seq<real>)
    requires n.maxWeight != 0.0 && Feeds(n, ticks) && |us| == |ticks| && AllDraws(us)
    requires |ticks| > 0 && Run(n, ticks, t0, learningRate, us)[0] == 1
    ensures forall k :: 1 <= k <= n.refractoryPeriod && k < |ticks| ==> Run(n, ticks, t0, learningRate, us)[k] == 0
  {
    var r := Step(n, ticks[0], t0, learningRate, us[0]);
    var rest := Run(r.next, ticks[1..], t0 + 1, learningRate, us[1..]);
    var m := if n.refractoryPeriod < |ticks| - 1 then n.refractoryPeriod else |ticks| - 1;
    if m > 0 {
      RefractoryQuiet(r.next, ticks[1..m + 1], t0 + 1, learningRate, us[1..m + 1]);
      RunPrefix(r.next, ticks[1..], t0 + 1, learningRate, us[1..], m);
      assert ticks[1..][..m] == ticks[1..m + 1];
      assert us[1..][..m] == us[1..m + 1];
    }
  }

  /** A run's first spikes depend only on the first ticks. */
  lemma {:induction false} RunPrefix(n: NeuronState, ticks: seq<seq<real>>, t0: int, learningRate: real, us: seq<real>, m: nat)
    requires n.maxWeight != 0.0 && Feeds(n, ticks) && |us| == |ticks| && AllDraws(us)
    requires m <= |ticks|
    ensures Run(n, ticks[..m], t0, learningRate, us[..m]) == Run(n, ticks, t0, learningRate, us)[..m]
    decreases m
  {
    if m > 0 {
      var r := Step(n, ticks[0], t0, learningRate, us[0]);
      RunPrefix(r.next, ticks[1..], t0 + 1, learningRate, us[1..], m - 1);
      assert ticks[..m][1..] == ticks[1..][..m - 1];
      assert us[..m][1..] == us[1..][..m - 1];
    }
  }

  /** The connections NewSpikingNeuron creates: k of them, each with weight
      0.5 and last presynaptic tick -100. */
  function InitialConnections(k: nat): (cs: seq<Connection>)
    ensures |cs| == k
    ensures forall i :: 0 <= i < k ==> cs[i] == Connection(0.5, -100, 0)
  {
    seq(k, _ => Connection(0.5, -100, 0))
  }

  class SpikingNeuron {
    var membranePotential: real
    var threshold: real
    var adaptiveThreshold: real
    var decay: real
    var bias: real
    var connections: seq<Connection>
    var refractoryPeriod: int
    var refractoryTimer: int
    var lastSpikeTime: int
    var minWeight: real
    var maxWeight: real
    var fired: bool
    var minBias: real
    var maxBias: real

    /** The value of every field. */
    function State(): NeuronState
      reads this
    {
      NeuronState(membranePotential, threshold, adaptiveThreshold, decay, bias, connections,
                  refractoryPeriod, refractoryTimer, lastSpikeTime, minWeight, maxWeight,
                  fired, minBias, maxBias)
    }

    /** NewSpikingNeuron: numInputs connections of weight 0.5, adaptive
        threshold 0, weight bounds [-1.5, 1.5], bias bounds [-1, 1]; every
        field not named is Go's zero value. */
    constructor NewSpikingNeuron(numInputs: nat, threshold: real, decay: real, bias: real, refractoryPeriod: int)
      ensures State() == NeuronState(0.0, threshold, 0.0, decay, bias, InitialConnections(numInputs),
                                     refractoryPeriod, 0, 0, -1.5, 1.5, false, -1.0, 1.0)
    {
      var cs := seq(numInputs, _ => Connection(0.0, 0, 0));
      for i := 0 to numInputs
        invariant |cs| == numInputs
        invariant forall k :: 0 <= k < i ==> cs[k] == Connection(0.5, -100, 0)
      {
        cs := cs[i := Connection(0.5, -100, 0)];
      }
      this.membranePotential := 0.0;
      this.threshold := threshold;
      this.adaptiveThreshold := 0.0;
      this.decay := decay;
      this.bias := bias;
      this.connections := cs;
      this.refractoryPeriod := refractoryPeriod;
      this.refractoryTimer := 0;
      this.lastSpikeTime := 0;
      this.minWeight := -1.5;
      this.maxWeight := 1.5;
      this.fired := false;
      this.minBias := -1.0;
      this.maxBias := 1.0;
    }

    /** A neuron given by the value of each of its fields (a Go struct
        literal). */
    constructor FromState(s: NeuronState)
      ensures State() == s
    {
      membranePotential, threshold, adaptiveThreshold, decay, bias := s.membranePotential, s.threshold, s.adaptiveThreshold, s.decay, s.bias;
      connections, refractoryPeriod, refractoryTimer, lastSpikeTime := s.connections, s.refractoryPeriod, s.refractoryTimer, s.lastSpikeTime;
      minWeight, maxWeight, fired, minBias, maxBias := s.minWeight, s.maxWeight, s.fired, s.minBias, s.maxBias;
    }

    /** SpikingNeuron.Forward with the noise draw u; it updates the fields in
        place exactly as Step describes. */
    method Forward(inputs: seq<real>, currentTime: int, learningRate: real, u: real) returns (spike: int)
      requires Admits(State(), inputs) && IsDraw(u)
      modifies this
      ensures State() == Step(old(State()), inputs, currentTime, learningRate, u).next
      ensures spike == Step(old(State()), inputs, currentTime, learningRate, u).spike
    {
      if refractoryTimer > 0 {
        fired := false;
        refractoryTimer := refractoryTimer - 1;
        membranePotential := membranePotential * decay;
        return 0;
      }

      ghost var s0 := State();
      membranePotential := membranePotential * decay;
      var weightedSum := Integrate(inputs, currentTime);
      membranePotential := membranePotential + (weightedSum + bias);
      membranePotential := membranePotential + (u - 0.5) * 0.05;
      assert State() == Charge(s0, inputs, currentTime, u);

      spike := Settle(inputs, currentTime, learningRate);
    }

    /** The threshold test against Threshold + AdaptiveThreshold and the
        plasticity of the branch taken. */
    method Settle(inputs: seq<real>, currentTime: int, learningRate: real) returns (spike: int)
      requires Admits(State(), inputs)
      modifies this
      ensures var s := old(State());
        if s.membranePotential >= s.threshold + s.adaptiveThreshold
        then spike == 1 && State() == Fire(s, inputs, currentTime, learningRate)
        else spike == 0 && State() == Rest(s, inputs, learningRate)
    {
      ghost var s1 := State();
      var effectiveThreshold := threshold + adaptiveThreshold;
      if membranePotential >= effectiveThreshold {
        membranePotential := 0.0;
        refractoryTimer := refractoryPeriod;
        lastSpikeTime := currentTime;
        fired := true;
        ApplyPotentiation(inputs, currentTime, learningRate);
        adaptiveThreshold := adaptiveThreshold + 0.1;
        bias := Clamp(bias - learningRate * 0.1, minBias, maxBias);
        assert State() == Fire(s1, inputs, currentTime, learningRate);
        return 1;
      }

      adaptiveThreshold := adaptiveThreshold * 0.9;
      ApplyDepression(inputs, learningRate);
      bias := Clamp(bias + learningRate * 0.05, minBias, maxBias);
      assert State() == Rest(s1, inputs, learningRate);
      return 0;
    }

    /** The integration loop: sums input * weight over all lines and stamps
        every connection with the presynaptic tick. */
    method Integrate(inputs: seq<real>, currentTime: int) returns (weightedSum: real)
      requires |inputs| == |connections|
      modifies this`connections
      ensures connections == StampPre(old(connections), currentTime)
      ensures weightedSum == WeightedSum(inputs, old(connections))
    {
      weightedSum := 0.0;
      var i := 0;
      while i < |inputs|
        invariant 0 <= i <= |inputs| == |connections|
        invariant weightedSum == WeightedSum(inputs[..i], old(connections)[..i])
        invariant forall k :: 0 <= k < i ==> connections[k] == old(connections)[k].(lastPreSpike := currentTime)
        invariant forall k :: i <= k < |connections| ==> connections[k] == old(connections)[k]
      {
        assert inputs[..i + 1][..i] == inputs[..i];
        assert old(connections)[..i + 1][..i] == old(connections)[..i];
        weightedSum := weightedSum + inputs[i] * connections[i].weight;
        connections := connections[i := connections[i].(lastPreSpike := currentTime)];
        i := i + 1;
      }
      assert inputs[..i] == inputs && old(connections)[..i] == old(connections);
    }

    /** The loop of a firing tick: potentiates every line with positive input
        and stamps every connection with the postsynaptic tick. */
    method ApplyPotentiation(inputs: seq<real>, currentTime: int, learningRate: real)
      requires |inputs| == |connections| && maxWeight != 0.0
      modifies this`connections
      ensures connections == Potentiate(old(connections), inputs, learningRate, minWeight, maxWeight, currentTime)
    {
      ghost var c0 := connections;
      var i := 0;
      while i < |connections|
        invariant 0 <= i <= |connections| == |c0|
        invariant forall k :: 0 <= k < i ==> connections[k] == Potentiated(c0[k], inputs[k], learningRate, minWeight, maxWeight, currentTime)
        invariant forall k :: i <= k < |connections| ==> connections[k] == c0[k]
      {
        if inputs[i] > 0.0 {
          var scale := Scale(connections[i].weight, maxWeight);
          connections := connections[i := connections[i].(weight :=
            Clamp(connections[i].weight + learningRate * 0.5 * scale, minWeight, maxWeight))];
        }
        assert connections[i].weight == Potentiated(c0[i], inputs[i], learningRate, minWeight, maxWeight, currentTime).weight;
        connections := connections[i := connections[i].(lastPostSpike := currentTime)];
        i := i + 1;
      }
      assert connections == Potentiate(c0, inputs, learningRate, minWeight, maxWeight, currentTime);
    }

    /** The loop of a silent tick: depresses every line with positive input. */
    method ApplyDepression(inputs: seq<real>, learningRate: real)
      requires |inputs| == |connections| && maxWeight != 0.0
      modifies this`connections
      ensures connections == Depress(old(connections), inputs, learningRate, minWeight, maxWeight)
    {
      ghost var c0 := connections;
      var i := 0;
      while i < |inputs|
        invariant 0 <= i <= |connections| == |c0|
        invariant forall k :: 0 <= k < i ==> connections[k] == Depressed(c0[k], inputs[k], learningRate, minWeight, maxWeight)
        invariant forall k :: i <= k < |connections| ==> connections[k] == c0[k]
      {
        if inputs[i] > 0.0 {
          connections := connections[i := connections[i].(weight :=
            Clamp(connections[i].weight - learningRate * 0.1 * Scale(connections[i].weight, maxWeight), minWeight, maxWeight))];
        }
        assert connections[i] == Depressed(c0[i], inputs[i], learningRate, minWeight, maxWeight);
        i := i + 1;
      }
      assert connections == Depress(c0, inputs, learningRate, minWeight, maxWeight);
    }
  }
}
