/**
 * The layer of the `go/sim/metal` package (go/sim/metal/layer.go): the
 * neurons are stepped one after another with the same input vector, the
 * largest membrane potential of the layer is found, and every neuron that
 * reports Fired is inhibited by 0.8 times that maximum (winner-takes-all).
 * The layer returns 1.0 for every neuron that reports Fired and 0.0 for the
 * others.
 */
module SimLayer {
  import opened Synapse
  import opened SimNeuron

  /** The new neuron states of a layer and its output vector. */
  datatype LayerTick = LayerTick(next: seq<NeuronState>, outputs: seq<real>)

  /** Every neuron of the layer takes `width` input lines. */
  predicate Accepts(ns: seq<NeuronState>, width: nat)
  {
    forall i :: 0 <= i < |ns| ==> |ns[i].connections| == width
  }

  /** One noise draw per neuron. */
  predicate DrawsFor(ns: seq<NeuronState>, us: seq<real>)
  {
    |us| == |ns| && AllDraws(us)
  }

  /** The first loop of Layer.Forward: neuron i is stepped with the shared
      inputs and tick and its own noise draw us[i]. */
  function Stepped(ns: seq<NeuronState>, inputs: seq<real>, currentTime: int, us: seq<real>): (r: seq<NeuronState>)
    requires Accepts(ns, |inputs|) && DrawsFor(ns, us)
    ensures |r| == |ns| && Accepts(r, |inputs|)
  {
    seq(|ns|, i requires 0 <= i < |ns| => Step(ns[i], inputs, currentTime, us[i]))
  }

  /** The second loop: the largest membrane potential, starting from 0 and
      replaced only by a strictly larger one. The result is the maximum of
      0 and every potential: an upper bound that is 0 or attained. */
  function MaxPotential(ns: seq<NeuronState>): (m: real)
    ensures m >= 0.0
    ensures forall i :: 0 <= i < |ns| ==> ns[i].membranePotential <= m
    ensures m == 0.0 || exists i :: 0 <= i < |ns| && ns[i].membranePotential == m
  {
    if ns == [] then 0.0
    else
      var k := |ns| - 1;
      var m := MaxPotential(ns[..k]);
      assert forall i :: 0 <= i < k ==> ns[..k][i] == ns[i];
      if ns[k].membranePotential > m then ns[k].membranePotential else m
  }

  /** The third loop on the states: every neuron that reports Fired gets the
      inhibition 0.8 * maxPotential; the others are left alone. */
  function Inhibited(ms: seq<NeuronState>, maxPotential: real): (r: seq<NeuronState>)
    ensures |r| == |ms|
  {
    seq(|ms|, i requires 0 <= i < |ms| =>
      if ms[i].fired then ms[i].(inhibition := maxPotential * 0.8) else ms[i])
  }

  /** The third loop on the outputs: 1.0 for a neuron that reports Fired,
      0.0 for any other. */
  function Outputs(ms: seq<NeuronState>): (r: seq<real>)
    ensures |r| == |ms|
    ensures forall i :: 0 <= i < |ms| ==> r[i] == 0.0 || r[i] == 1.0
    ensures forall i :: 0 <= i < |ms| ==> (r[i] == 1.0 <==> ms[i].fired)
  {
    seq(|ms|, i requires 0 <= i < |ms| => if ms[i].fired then 1.0 else 0.0)
  }

  /** Layer.Forward(inputs, currentTime) on neuron states, with neuron i
      taking the noise draw us[i]. */
  function LayerStep(ns: seq<NeuronState>, inputs: seq<real>, currentTime: int, us: seq<real>): (r: LayerTick)
    requires Accepts(ns, |inputs|) && DrawsFor(ns, us)
    ensures |r.next| == |ns| && |r.outputs| == |ns|
    ensures forall i :: 0 <= i < |ns| ==> r.outputs[i] == 0.0 || r.outputs[i] == 1.0
    ensures Accepts(r.next, |inputs|)
  {
    var ms := Stepped(ns, inputs, currentTime, us);
    LayerTick(Inhibited(ms, MaxPotential(ms)), Outputs(ms))
  }

  /** Neuron i ends the tick as Forward on that neuron alone left it, except
      for its inhibition, and its output is 1.0 exactly when it reports
      Fired. A neuron that reports Fired is inhibited by 0.8 times a maximum
      that is at least 0 and at least every stepped neuron's potential; the
      inhibition of any other neuron is what its own step left. */
  lemma LayerStepAt(ns: seq<NeuronState>, inputs: seq<real>, currentTime: int, us: seq<real>, i: nat)
    requires Accepts(ns, |inputs|) && DrawsFor(ns, us) && i < |ns|
    ensures
      var r := LayerStep(ns, inputs, currentTime, us);
      var s := Step(ns[i], inputs, currentTime, us[i]);
      var m := MaxPotential(Stepped(ns, inputs, currentTime, us));
      && r.next[i] == s.(inhibition := r.next[i].inhibition)
      && (r.outputs[i] == 1.0 <==> s.fired)
      && r.next[i].inhibition == (if s.fired then m * 0.8 else s.inhibition)
      && m >= 0.0
      && (forall j :: 0 <= j < |ns| ==> Step(ns[j], inputs, currentTime, us[j]).membranePotential <= m)
  {
    var ms := Stepped(ns, inputs, currentTime, us);
    assert ms[i] == Step(ns[i], inputs, currentTime, us[i]);
    assert forall j :: 0 <= j < |ns| ==> ms[j] == Step(ns[j], inputs, currentTime, us[j]);
  }

  /** Winner-takes-all: the inhibition given to a neuron that reports Fired
      is non-negative and at least 0.8 times the potential of every neuron of
      the layer after its step. */
  lemma FiredNeuronsInhibitedByMaximum(ns: seq<NeuronState>, inputs: seq<real>, currentTime: int, us: seq<real>, i: nat, j: nat)
    requires Accepts(ns, |inputs|) && DrawsFor(ns, us) && i < |ns| && j < |ns|
    requires LayerStep(ns, inputs, currentTime, us).outputs[i] == 1.0
    ensures
      var r := LayerStep(ns, inputs, currentTime, us);
      && r.next[i].inhibition >= 0.0
      && r.next[i].inhibition >= Step(ns[j], inputs, currentTime, us[j]).membranePotential * 0.8
  {
    LayerStepAt(ns, inputs, currentTime, us, i);
    var m := MaxPotential(Stepped(ns, inputs, currentTime, us));
    assert Step(ns[j], inputs, currentTime, us[j]).membranePotential <= m;
  }

  /** With a refractory period of at least one tick in every neuron, and no
      neuron reporting Fired outside its refractory period, the output of
      neuron i is 1.0 exactly when it spiked on this tick, and the layer is
      again in that condition. */
  lemma LayerOutputsAreSpikes(ns: seq<NeuronState>, inputs: seq<real>, currentTime: int, us: seq<real>)
    requires Accepts(ns, |inputs|) && DrawsFor(ns, us)
    requires forall i :: 0 <= i < |ns| ==> ns[i].refractoryPeriod >= 1 && FiredOnlyWhileRefractory(ns[i])
    ensures
      var r := LayerStep(ns, inputs, currentTime, us);
      && (forall i :: 0 <= i < |ns| ==>
            (r.outputs[i] == 1.0 <==>
               ns[i].refractoryTimer <= 0 && Integrated(Inhibit(ns[i]), inputs, us[i]) >= ns[i].threshold))
      && (forall i :: 0 <= i < |ns| ==> r.next[i].refractoryPeriod >= 1 && FiredOnlyWhileRefractory(r.next[i]))
  {
    var r := LayerStep(ns, inputs, currentTime, us);
    forall i | 0 <= i < |ns|
      ensures r.outputs[i] == 1.0 <==>
                ns[i].refractoryTimer <= 0 && Integrated(Inhibit(ns[i]), inputs, us[i]) >= ns[i].threshold
      ensures r.next[i].refractoryPeriod >= 1 && FiredOnlyWhileRefractory(r.next[i])
    {
      LayerStepAt(ns, inputs, currentTime, us, i);
      StepFiredMeansSpiked(ns[i], inputs, currentTime, us[i]);
    }
  }

  /** Layer.UpdateWeights on neuron states: the neuron rule applied to every
      neuron. */
  function LayerUpdate(ns: seq<NeuronState>, currentTime: int, learningRate: real, exp: real -> real): (r: seq<NeuronState>)
    ensures |r| == |ns|
  {
    seq(|ns|, i requires 0 <= i < |ns| => Update(ns[i], currentTime, learningRate, exp))
  }

  /** Every neuron with MinWeight <= MaxWeight has all its weights in its
      bounds after the layer's update, and keeps its connection count. */
  lemma LayerUpdateKeepsBounds(ns: seq<NeuronState>, currentTime: int, learningRate: real, exp: real -> real)
    ensures var r := LayerUpdate(ns, currentTime, learningRate, exp);
      forall i :: 0 <= i < |ns| ==>
        && |r[i].connections| == |ns[i].connections|
        && (ns[i].minWeight <= ns[i].maxWeight ==> WeightsWithin(r[i].connections, ns[i].minWeight, ns[i].maxWeight))
  {
    var r := LayerUpdate(ns, currentTime, learningRate, exp);
    forall i | 0 <= i < |ns| && ns[i].minWeight <= ns[i].maxWeight
      ensures WeightsWithin(r[i].connections, ns[i].minWeight, ns[i].maxWeight)
    {
      UpdateKeepsBounds(ns[i], currentTime, learningRate, exp);
    }
  }

  class Layer {
    const neurons: seq<SpikingNeuron>

    constructor NewLayer(neurons: seq<SpikingNeuron>)
      ensures this.neurons == neurons
    {
      this.neurons := neurons;
    }

    /** A Go slice of neuron structs: no two entries are the same neuron. */
    predicate Valid()
    {
      forall i, j :: 0 <= i < j < |neurons| ==> neurons[i] != neurons[j]
    }

    /** The state of every neuron, in order. */
    function States(): (r: seq<NeuronState>)
      reads neurons
      ensures |r| == |neurons|
      ensures forall i :: 0 <= i < |neurons| ==> r[i] == neurons[i].State()
    {
      seq(|neurons|, i reads neurons requires 0 <= i < |neurons| => neurons[i].State())
    }

    /** Layer.Forward: the three loops of the source, in place. */
    method Forward(inputs: seq<real>, currentTime: int, us: seq<real>) returns (outputs: seq<real>)
      requires Valid() && Accepts(States(), |inputs|) && DrawsFor(States(), us)
      modifies neurons
      ensures States() == LayerStep(old(States()), inputs, currentTime, us).next
      ensures outputs == LayerStep(old(States()), inputs, currentTime, us).outputs
    {
      StepAll(inputs, currentTime, us);
      var maxPotential := FindMaxPotential();
      outputs := ApplyInhibition(maxPotential);
    }

    /** The first loop: every neuron is stepped, in index order. */
    method StepAll(inputs: seq<real>, currentTime: int, us: seq<real>)
      requires Valid() && Accepts(States(), |inputs|) && DrawsFor(States(), us)
      modifies neurons
      ensures States() == Stepped(old(States()), inputs, currentTime, us)
    {
      ghost var s0 := States();
      for i := 0 to |neurons|
        invariant forall k :: 0 <= k < i ==> neurons[k].State() == Step(s0[k], inputs, currentTime, us[k])
        invariant forall k :: i <= k < |neurons| ==> neurons[k].State() == s0[k]
      {
        neurons[i].Forward(inputs, currentTime, us[i]);
      }
    }

    /** The second loop: the largest membrane potential of the layer, or 0
        when none is positive. */
    method FindMaxPotential() returns (maxPotential: real)
      ensures maxPotential == MaxPotential(States())
    {
      ghost var ms := States();
      maxPotential := 0.0;
      for i := 0 to |neurons|
        invariant maxPotential == MaxPotential(ms[..i])
      {
        assert ms[..i + 1][..i] == ms[..i];
        if neurons[i].membranePotential > maxPotential {
          maxPotential := neurons[i].membranePotential;
        }
      }
      assert ms[..|neurons|] == ms;
    }

    /** The third loop: inhibition for the neurons that report Fired, and the
        output vector. */
    method ApplyInhibition(maxPotential: real) returns (outputs: seq<real>)
      requires Valid()
      modifies neurons
      ensures States() == Inhibited(old(States()), maxPotential)
      ensures outputs == Outputs(old(States()))
    {
      ghost var ms := States();
      var out := new real[|neurons|];
      for i := 0 to |neurons|
        invariant forall k :: 0 <= k < i ==> neurons[k].State() == Inhibited(ms, maxPotential)[k] && out[k] == Outputs(ms)[k]
        invariant forall k :: i <= k < |neurons| ==> neurons[k].State() == ms[k]
      {
        if neurons[i].fired {
          neurons[i].inhibition := maxPotential * 0.8;
          out[i] := 1.0;
        } else {
          out[i] := 0.0;
        }
      }
      outputs := out[..];
    }

    /** Layer.UpdateWeights: every neuron's UpdateWeights, in index order. */
    method UpdateWeights(currentTime: int, learningRate: real, exp: real -> real)
      requires Valid()
      modifies neurons
      ensures States() == LayerUpdate(old(States()), currentTime, learningRate, exp)
    {
      ghost var s0 := States();
      for i := 0 to |neurons|
        invariant forall k :: 0 <= k < i ==> neurons[k].State() == Update(s0[k], currentTime, learningRate, exp)
        invariant forall k :: i <= k < |neurons| ==> neurons[k].State() == s0[k]
      {
        neurons[i].UpdateWeights(currentTime, learningRate, exp);
      }
    }
  }
}
