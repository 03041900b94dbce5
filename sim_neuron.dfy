/**
 * The spiking neuron of the `go/sim/metal` package (go/sim/metal/neuron.go):
 * a leaky integrate-and-fire unit with lateral inhibition, which integrates
 * only the lines carrying a positive input, and whose plasticity is a
 * separate spike-timing-dependent update (UpdateWeights).
 *
 * math.Exp is a parameter `exp` of the operations that use it; where a
 * property needs it, the only fact assumed about it is that it is positive.
 */
module SimNeuron {
  import opened Synapse

  datatype NeuronState = NeuronState(
    membranePotential: real,
    threshold: real,
    decay: real,
    bias: real,
    connections: seq<Connection>,
    refractoryPeriod: int,
    refractoryTimer: int,
    lastSpikeTime: int,
    minWeight: real,
    maxWeight: real,
    fired: bool,
    inhibition: real)

  /** The STDP constants Aplus, Aminus, TauPlus and TauMinus. */
  const APlus: real := 0.1
  const AMinus: real := 0.12
  const TauPlus: real := 20.0
  const TauMinus: real := 20.0

  /** The symmetry-breaking term (rand.Float64() - 0.5) * 0.1 for a draw u. */
  function Noise(u: real): (r: real)
    requires IsDraw(u)
    ensures -0.05 <= r < 0.05
  {
    (u - 0.5) * 0.1
  }

  /** The sum of the weights of the lines whose input is positive,
      accumulated left to right. */
  function ActiveSum(inputs: seq<real>, cs: seq<Connection>): real
    requires |inputs| == |cs|
  {
    if |inputs| == 0 then 0.0
    else
      var k := |inputs| - 1;
      ActiveSum(inputs[..k], cs[..k]) + (if inputs[k] > 0.0 then cs[k].weight else 0.0)
  }

  /** Lines without a positive input contribute nothing, whatever their
      weights. */
  lemma {:induction false} ActiveSumOfSilence(inputs: seq<real>, cs: seq<Connection>)
    requires |inputs| == |cs|
    requires forall i :: 0 <= i < |inputs| ==> inputs[i] <= 0.0
    ensures ActiveSum(inputs, cs) == 0.0
  {
    if |inputs| > 0 {
      ActiveSumOfSilence(inputs[..|inputs| - 1], cs[..|cs| - 1]);
    }
  }

  /** With non-negative weights, more active lines never give a smaller
      sum: the sum is at least the weight of any one active line. */
  lemma {:induction false} ActiveSumCoversLine(inputs: seq<real>, cs: seq<Connection>, j: nat)
    requires |inputs| == |cs| && j < |cs| && inputs[j] > 0.0
    requires forall i :: 0 <= i < |cs| ==> cs[i].weight >= 0.0
    ensures ActiveSum(inputs, cs) >= cs[j].weight
  {
    var k := |inputs| - 1;
    if j < k {
      ActiveSumCoversLine(inputs[..k], cs[..k], j);
      ActiveSumNonNegative(inputs, cs);
    } else {
      ActiveSumNonNegative(inputs[..k], cs[..k]);
    }
  }

  lemma {:induction false} ActiveSumNonNegative(inputs: seq<real>, cs: seq<Connection>)
    requires |inputs| == |cs|
    requires forall i :: 0 <= i < |cs| ==> cs[i].weight >= 0.0
    ensures ActiveSum(inputs, cs) >= 0.0
  {
    if |inputs| > 0 {
      ActiveSumNonNegative(inputs[..|inputs| - 1], cs[..|cs| - 1]);
    }
  }

  /** The lines with a positive input record the tick as their last
      presynaptic spike; the others are untouched. */
  function StampActive(cs: seq<Connection>, inputs: seq<real>, t: int): (r: seq<Connection>)
    requires |inputs| == |cs|
    ensures |r| == |cs|
    ensures forall i :: 0 <= i < |cs| ==> r[i] == if inputs[i] > 0.0 then cs[i].(lastPreSpike := t) else cs[i]
  {
    seq(|cs|, i requires 0 <= i < |cs| => if inputs[i] > 0.0 then cs[i].(lastPreSpike := t) else cs[i])
  }

  /** Lateral inhibition, applied first on every call: subtracted from the
      potential, then decayed by the factor 0.8. */
  function Inhibit(n: NeuronState): NeuronState
  {
    n.(membranePotential := n.membranePotential - n.inhibition,
       inhibition := n.inhibition * 0.8)
  }

  /** A tick during the refractory period. */
  function Refract(h: NeuronState): NeuronState
  {
    h.(fired := false,
       refractoryTimer := h.refractoryTimer - 1,
       membranePotential := h.membranePotential * h.decay)
  }

  /** The potential after decay, integration of the active lines, bias and
      noise. */
  function Integrated(h: NeuronState, inputs: seq<real>, u: real): real
    requires |inputs| == |h.connections| && IsDraw(u)
  {
    h.membranePotential * h.decay + ActiveSum(inputs, h.connections) + h.bias + Noise(u)
  }

  function Charge(h: NeuronState, inputs: seq<real>, currentTime: int, u: real): NeuronState
    requires |inputs| == |h.connections| && IsDraw(u)
  {
    h.(membranePotential := Integrated(h, inputs, u),
       connections := StampActive(h.connections, inputs, currentTime))
  }

  /** spike(currentTime). */
  function Spiked(m: NeuronState, currentTime: int): NeuronState
  {
    m.(membranePotential := 0.0,
       refractoryTimer := m.refractoryPeriod,
       lastSpikeTime := currentTime,
       fired := true)
  }

  /** The threshold test that ends an integrating tick. */
  function Fire(m: NeuronState, currentTime: int): NeuronState
  {
    if m.membranePotential >= m.threshold then Spiked(m, currentTime) else m
  }

  /** SpikingNeuron.Forward(inputs, currentTime) with the noise draw u. */
  function Step(n: NeuronState, inputs: seq<real>, currentTime: int, u: real): (r: NeuronState)
    requires |inputs| == |n.connections| && IsDraw(u)
    ensures |r.connections| == |n.connections|
    ensures Weights(r.connections) == Weights(n.connections)
    ensures forall i :: 0 <= i < |n.connections| ==> r.connections[i].lastPostSpike == n.connections[i].lastPostSpike
    ensures r.bias == n.bias && r.threshold == n.threshold && r.decay == n.decay
    ensures r.refractoryPeriod == n.refractoryPeriod && r.minWeight == n.minWeight && r.maxWeight == n.maxWeight
  {
    var h := Inhibit(n);
    if h.refractoryTimer > 0 then Refract(h)
    else Fire(Charge(h, inputs, currentTime, u), currentTime)
  }

  /** Inhibition acts on every call, refractory or not: the potential the
      rest of the tick starts from is the old potential less the
      inhibition, and the inhibition decays by the factor 0.8. */
  lemma StepAppliesInhibition(n: NeuronState, inputs: seq<real>, currentTime: int, u: real)
    requires |inputs| == |n.connections| && IsDraw(u)
    ensures var r := Step(n, inputs, currentTime, u);
      && r.inhibition == n.inhibition * 0.8
      && (n.refractoryTimer > 0 ==> r.membranePotential == (n.membranePotential - n.inhibition) * n.decay)
      && (n.refractoryTimer <= 0 && !r.fired ==>
            r.membranePotential == Integrated(Inhibit(n), inputs, u))
  {
  }

  /** While refractory: Fired is cleared, the timer counts down by one, the
      inhibited potential decays, and no connection changes. */
  lemma StepWhileRefractory(n: NeuronState, inputs: seq<real>, currentTime: int, u: real)
    requires |inputs| == |n.connections| && IsDraw(u) && n.refractoryTimer > 0
    ensures var r := Step(n, inputs, currentTime, u);
      && !r.fired
      && r.refractoryTimer == n.refractoryTimer - 1
      && r.membranePotential == (n.membranePotential - n.inhibition) * n.decay
      && r.connections == n.connections
      && r.lastSpikeTime == n.lastSpikeTime
  {
  }

  /** Outside the refractory period only the lines with a positive input
      are stamped with the tick; the other connections are untouched. */
  lemma StepStampsActiveLines(n: NeuronState, inputs: seq<real>, currentTime: int, u: real)
    requires |inputs| == |n.connections| && IsDraw(u) && n.refractoryTimer <= 0
    ensures var r := Step(n, inputs, currentTime, u);
      forall i :: 0 <= i < |inputs| ==>
        r.connections[i] == if inputs[i] > 0.0 then n.connections[i].(lastPreSpike := currentTime) else n.connections[i]
  {
  }

  /** The neuron fires exactly when, outside the refractory period, the
      integrated potential reaches Threshold; firing resets the potential
      to exactly 0, restarts the timer and records the tick. A tick that
      does not fire outside the refractory period leaves Fired, the timer
      and the last spike tick as they were. */
  lemma StepOnFiring(n: NeuronState, inputs: seq<real>, currentTime: int, u: real)
    requires |inputs| == |n.connections| && IsDraw(u)
    ensures var r := Step(n, inputs, currentTime, u);
      var fires := n.refractoryTimer <= 0 && Integrated(Inhibit(n), inputs, u) >= n.threshold;
      && (fires ==>
            && r.fired
            && r.membranePotential == 0.0
            && r.refractoryTimer == n.refractoryPeriod
            && r.lastSpikeTime == currentTime)
      && (n.refractoryTimer <= 0 && !fires ==>
            && r.fired == n.fired
            && r.refractoryTimer == n.refractoryTimer
            && r.lastSpikeTime == n.lastSpikeTime)
  {
  }

  /** A neuron that was not firing before the tick has Fired after it
      exactly when it fired on this tick. */
  lemma StepFiredIff(n: NeuronState, inputs: seq<real>, currentTime: int, u: real)
    requires |inputs| == |n.connections| && IsDraw(u) && !n.fired
    ensures Step(n, inputs, currentTime, u).fired <==>
      n.refractoryTimer <= 0 && Integrated(Inhibit(n), inputs, u) >= n.threshold
  {
  }

  /** A neuron that reports Fired is inside its refractory period. */
  predicate FiredOnlyWhileRefractory(n: NeuronState)
  {
    n.fired ==> n.refractoryTimer > 0
  }

  /** With a refractory period of at least one tick, Fired is cleared on the
      tick after a spike, so after every tick Fired says exactly whether the
      neuron spiked on that tick; a non-firing tick can leave a previous
      true in place only when RefractoryPeriod is 0. */
  lemma StepFiredMeansSpiked(n: NeuronState, inputs: seq<real>, currentTime: int, u: real)
    requires |inputs| == |n.connections| && IsDraw(u)
    requires n.refractoryPeriod >= 1 && FiredOnlyWhileRefractory(n)
    ensures var r := Step(n, inputs, currentTime, u);
      && FiredOnlyWhileRefractory(r)
      && (r.fired <==> n.refractoryTimer <= 0 && Integrated(Inhibit(n), inputs, u) >= n.threshold)
  {
  }

  /** The time difference of a connection: last post- minus last
      presynaptic tick. */
  function DeltaT(c: Connection): real
  {
    (c.lastPostSpike - c.lastPreSpike) as real
  }

  /** The STDP rule on one weight: potentiation when the presynaptic spike
      came first, depression when the postsynaptic spike came first. */
  function StdpWeight(c: Connection, learningRate: real, exp: real -> real): real
  {
    var dt := DeltaT(c);
    if dt > 0.0 then c.weight + APlus * exp(-dt / TauPlus) * learningRate
    else if dt < 0.0 then c.weight - AMinus * exp(dt / TauMinus) * learningRate
    else c.weight
  }

  /** One connection after UpdateWeights. */
  function Trained(c: Connection, fired: bool, currentTime: int, learningRate: real, minWeight: real, maxWeight: real, exp: real -> real): Connection
  {
    c.(weight := Clamp(StdpWeight(c, learningRate, exp), minWeight, maxWeight),
       lastPostSpike := if fired then currentTime else c.lastPostSpike)
  }

  /** SpikingNeuron.UpdateWeights(currentTime, learningRate). */
  function Update(n: NeuronState, currentTime: int, learningRate: real, exp: real -> real): (r: NeuronState)
    ensures |r.connections| == |n.connections|
    ensures r == n.(connections := r.connections)
  {
    n.(connections := seq(|n.connections|, i requires 0 <= i < |n.connections| =>
         Trained(n.connections[i], n.fired, currentTime, learningRate, n.minWeight, n.maxWeight, exp)))
  }

  /** After UpdateWeights every weight lies in [MinWeight, MaxWeight]. */
  lemma UpdateKeepsBounds(n: NeuronState, currentTime: int, learningRate: real, exp: real -> real)
    requires n.minWeight <= n.maxWeight
    ensures WeightsWithin(Update(n, currentTime, learningRate, exp).connections, n.minWeight, n.maxWeight)
  {
  }

  /** UpdateWeights stamps every connection with the tick exactly when the
      neuron fired, and never touches a presynaptic tick. */
  lemma UpdateStampsPost(n: NeuronState, currentTime: int, learningRate: real, exp: real -> real)
    ensures var r := Update(n, currentTime, learningRate, exp);
      forall i :: 0 <= i < |n.connections| ==>
        && r.connections[i].lastPreSpike == n.connections[i].lastPreSpike
        && r.connections[i].lastPostSpike == (if n.fired then currentTime else n.connections[i].lastPostSpike)
  {
  }

  /** The STDP step has the sign of the time difference: with a positive
      rate and a positive exp, a pre-before-post pair raises the weight, a
      post-before-pre pair lowers it, and simultaneous spikes leave it. */
  lemma StdpDirection(c: Connection, learningRate: real, exp: real -> real)
    requires learningRate > 0.0
    requires forall x :: exp(x) > 0.0
    ensures DeltaT(c) > 0.0 ==> StdpWeight(c, learningRate, exp) > c.weight
    ensures DeltaT(c) < 0.0 ==> StdpWeight(c, learningRate, exp) < c.weight
    ensures DeltaT(c) == 0.0 ==> StdpWeight(c, learningRate, exp) == c.weight
  {
    var dt := DeltaT(c);
    if dt > 0.0 {
      ProductPositive(APlus * exp(-dt / TauPlus), learningRate);
    } else if dt < 0.0 {
      ProductPositive(AMinus * exp(dt / TauMinus), learningRate);
    }
  }

  lemma ProductPositive(a: real, b: real)
    requires a > 0.0 && b > 0.0
    ensures a * b > 0.0
  {
  }

  /** For an in-bounds weight: Δt > 0 never lowers it, Δt < 0 never raises
      it, and Δt = 0 leaves it equal to its clamp, which is itself. */
  lemma UpdateDirection(n: NeuronState, currentTime: int, learningRate: real, exp: real -> real, i: nat)
    requires learningRate > 0.0
    requires forall x :: exp(x) > 0.0
    requires i < |n.connections| && n.minWeight <= n.connections[i].weight <= n.maxWeight
    ensures var c := n.connections[i];
      var w := Update(n, currentTime, learningRate, exp).connections[i].weight;
      && (DeltaT(c) > 0.0 ==> w >= c.weight)
      && (DeltaT(c) < 0.0 ==> w <= c.weight)
      && (DeltaT(c) == 0.0 ==> w == Clamp(c.weight, n.minWeight, n.maxWeight) == c.weight)
  {
    var c := n.connections[i];
    StdpDirection(c, learningRate, exp);
    if DeltaT(c) > 0.0 {
      ClampMonotone(c.weight, StdpWeight(c, learningRate, exp), n.minWeight, n.maxWeight);
    } else if DeltaT(c) < 0.0 {
      ClampMonotone(StdpWeight(c, learningRate, exp), c.weight, n.minWeight, n.maxWeight);
    }
  }

  /** SurrogateGradient: the Gaussian exp(-x * x) of the distance x of the
      potential from the threshold. It peaks at the threshold, and when exp
      maps the non-positive reals into (0, 1] so does the gradient. */
  function SurrogateGradient(n: NeuronState, exp: real -> real): (r: real)
    ensures n.membranePotential == n.threshold ==> r == exp(0.0)
    ensures (forall x: real :: x <= 0.0 ==> 0.0 < exp(x) <= 1.0) ==> 0.0 < r <= 1.0
  {
    Gaussian(n.membranePotential - n.threshold, exp)
  }

  /** exp(-x * x). */
  function Gaussian(x: real, exp: real -> real): real
  {
    exp(-x * x)
  }

  /** The Gaussian is even. */
  lemma GaussianEven(d: real, exp: real -> real)
    ensures Gaussian(d, exp) == Gaussian(-d, exp)
  {
    var a := -d * d;
    var b := -(-d) * (-d);
    assert a == b;
    assert exp(a) == exp(b);
  }

  /** The surrogate gradient is symmetric about the threshold. */
  lemma SurrogateGradientSymmetric(n: NeuronState, d: real, exp: real -> real)
    ensures SurrogateGradient(n.(membranePotential := n.threshold + d), exp) ==
            SurrogateGradient(n.(membranePotential := n.threshold - d), exp)
  {
    var x1 := (n.threshold + d) - n.threshold;
    var x2 := (n.threshold - d) - n.threshold;
    assert x1 == d && x2 == -d;
    GaussianEven(d, exp);
  }

  class SpikingNeuron {
    var membranePotential: real
    var threshold: real
    var decay: real
    var bias: real
    var connections: seq<Connection>
    var refractoryPeriod: int
    var refractoryTimer: int
    var lastSpikeTime: int
    var minWeight: real
    var maxWeight: real
    var fired: bool
    var inhibition: real

    /** The value of every field. */
    function State(): NeuronState
      reads this
    {
      NeuronState(membranePotential, threshold, decay, bias, connections, refractoryPeriod,
                  refractoryTimer, lastSpikeTime, minWeight, maxWeight, fired, inhibition)
    }

    /** A neuron given by the value of each of its fields (a Go struct
        literal). */
    constructor FromState(s: NeuronState)
      ensures State() == s
    {
      membranePotential, threshold, decay, bias := s.membranePotential, s.threshold, s.decay, s.bias;
      connections, refractoryPeriod, refractoryTimer, lastSpikeTime := s.connections, s.refractoryPeriod, s.refractoryTimer, s.lastSpikeTime;
      minWeight, maxWeight, fired, inhibition := s.minWeight, s.maxWeight, s.fired, s.inhibition;
    }

    /** SpikingNeuron.Forward with the noise draw u, in place. */
    method Forward(inputs: seq<real>, currentTime: int, u: real)
      requires |inputs| == |connections| && IsDraw(u)
      modifies this
      ensures State() == Step(old(State()), inputs, currentTime, u)
    {
      membranePotential := membranePotential - inhibition;
      inhibition := inhibition * 0.8;

      if refractoryTimer > 0 {
        fired := false;
        refractoryTimer := refractoryTimer - 1;
        membranePotential := membranePotential * decay;
        return;
      }

      Excite(inputs, currentTime, u);
    }

    /** The rest of a tick outside the refractory period: decay,
        integration, bias, noise and the threshold test. */
    method Excite(inputs: seq<real>, currentTime: int, u: real)
      requires |inputs| == |connections| && IsDraw(u)
      modifies this
      ensures State() == Fire(Charge(old(State()), inputs, currentTime, u), currentTime)
    {
      ghost var h := State();
      membranePotential := membranePotential * decay;
      Integrate(inputs, currentTime);
      membranePotential := membranePotential + bias;
      membranePotential := membranePotential + (u - 0.5) * 0.1;
      assert State() == Charge(h, inputs, currentTime, u);

      if membranePotential >= threshold {
        Spike(currentTime);
      }
    }

    /** The integration loop: each line with a positive input adds its
        weight to the potential and records the presynaptic tick. */
    method Integrate(inputs: seq<real>, currentTime: int)
      requires |inputs| == |connections|
      modifies this`membranePotential, this`connections
      ensures membranePotential == old(membranePotential) + ActiveSum(inputs, old(connections))
      ensures connections == StampActive(old(connections), inputs, currentTime)
    {
      ghost var c0 := connections;
      ghost var v0 := membranePotential;
      var i := 0;
      while i < |inputs|
        invariant 0 <= i <= |inputs| == |connections| == |c0|
        invariant membranePotential == v0 + ActiveSum(inputs[..i], c0[..i])
        invariant forall k :: 0 <= k < i ==> connections[k] == if inputs[k] > 0.0 then c0[k].(lastPreSpike := currentTime) else c0[k]
        invariant forall k :: i <= k < |connections| ==> connections[k] == c0[k]
      {
        assert inputs[..i + 1][..i] == inputs[..i] && c0[..i + 1][..i] == c0[..i];
        if inputs[i] > 0.0 {
          membranePotential := membranePotential + connections[i].weight;
          connections := connections[i := connections[i].(lastPreSpike := currentTime)];
        }
        i := i + 1;
      }
      assert inputs[..i] == inputs && c0[..i] == c0;
      assert connections == StampActive(c0, inputs, currentTime);
    }

    /** spike(currentTime). */
    method Spike(currentTime: int)
      modifies this`membranePotential, this`refractoryTimer, this`lastSpikeTime, this`fired
      ensures State() == Spiked(old(State()), currentTime)
    {
      membranePotential := 0.0;
      refractoryTimer := refractoryPeriod;
      lastSpikeTime := currentTime;
      fired := true;
    }

    /** SpikingNeuron.UpdateWeights: the STDP rule, the clamp and the
        postsynaptic stamp, connection by connection. */
    method UpdateWeights(currentTime: int, learningRate: real, exp: real -> real)
      modifies this`connections
      ensures State() == Update(old(State()), currentTime, learningRate, exp)
    {
      ghost var s0 := State();
      var i := 0;
      while i < |connections|
        invariant 0 <= i <= |connections| == |s0.connections|
        invariant forall k :: 0 <= k < i ==> connections[k] == Trained(s0.connections[k], fired, currentTime, learningRate, minWeight, maxWeight, exp)
        invariant forall k :: i <= k < |connections| ==> connections[k] == s0.connections[k]
      {
        var conn := connections[i];
        var dt := (conn.lastPostSpike - conn.lastPreSpike) as real;
        assert conn == s0.connections[i] && dt == DeltaT(conn);
        if dt > 0.0 {
          conn := conn.(weight := conn.weight + APlus * exp(-dt / TauPlus) * learningRate);
        } else if dt < 0.0 {
          conn := conn.(weight := conn.weight - AMinus * exp(dt / TauMinus) * learningRate);
        }
        assert conn.weight == StdpWeight(s0.connections[i], learningRate, exp);
        conn := conn.(weight := Clamp(conn.weight, minWeight, maxWeight));
        if fired {
          conn := conn.(lastPostSpike := currentTime);
        }
        assert conn == Trained(s0.connections[i], fired, currentTime, learningRate, minWeight, maxWeight, exp);
        connections := connections[i := conn];
        i := i + 1;
      }
      assert connections == Update(s0, currentTime, learningRate, exp).connections;
    }
  }
}
