/**
 * The layer of the root `metal` package (metal/layer.go): every neuron is
 * stepped with the same input vector, and the layer returns one spike per
 * neuron. The source runs the neurons on goroutines; they touch disjoint
 * state, so the model steps them in index order and proves that any other
 * order gives the same result.
 */
module MetalLayer {
  import opened Synapse
  import opened MetalNeuron

  /** The new neuron states of a layer and its spike vector. */
  datatype LayerTick = LayerTick(next: seq<NeuronState>, spikes: seq<int>)

  /** Every neuron of the layer takes `width` input lines. */
  predicate Accepts(ns: seq<NeuronState>, width: nat)
  {
    forall i :: 0 <= i < |ns| ==> |ns[i].connections| == width && ns[i].maxWeight != 0.0
  }

  /** One noise draw per neuron. */
  predicate DrawsFor(ns: seq<NeuronState>, us: seq<real>)
  {
    |us| == |ns| && AllDraws(us)
  }

  /** Layer.Forward(inputs, currentTime, learningRate) on neuron states,
      with neuron i taking the noise draw us[i]. */
  function LayerStep(ns: seq<NeuronState>, inputs: seq<real>, currentTime: int, learningRate: real, us: seq<real>): (r: LayerTick)
    requires Accepts(ns, |inputs|) && DrawsFor(ns, us)
    ensures |r.next| == |ns| && |r.spikes| == |ns|
    ensures forall i :: 0 <= i < |ns| ==> r.spikes[i] == 0 || r.spikes[i] == 1
    ensures Accepts(r.next, |inputs|)
  {
    LayerTick(
      seq(|ns|, i requires 0 <= i < |ns| => Step(ns[i], inputs, currentTime, learningRate, us[i]).next),
      seq(|ns|, i requires 0 <= i < |ns| => Step(ns[i], inputs, currentTime, learningRate, us[i]).spike))
  }

  /** Neuron i of the layer is stepped on its own: its new state and its
      spike are those of Forward on that neuron alone. */
  lemma LayerStepIsPointwise(ns: seq<NeuronState>, inputs: seq<real>, currentTime: int, learningRate: real, us: seq<real>, i: nat)
    requires Accepts(ns, |inputs|) && DrawsFor(ns, us) && i < |ns|
    ensures LayerStep(ns, inputs, currentTime, learningRate, us).next[i] == Step(ns[i], inputs, currentTime, learningRate, us[i]).next
    ensures LayerStep(ns, inputs, currentTime, learningRate, us).spikes[i] == Step(ns[i], inputs, currentTime, learningRate, us[i]).spike
  {
  }

  /** The indexes in `order` are valid and pairwise different. */
  predicate Schedule(order: seq<int>, n: nat)
  {
    && (forall k :: 0 <= k < |order| ==> 0 <= order[k] < n)
    && (forall j, k :: 0 <= j < k < |order| ==> order[j] != order[k])
  }

  /** The neuron states after stepping, one after another, the neurons
      named in `order` (a serialisation of the goroutines). */
  function StepInOrder(ns: seq<NeuronState>, order: seq<int>, inputs: seq<real>, currentTime: int, learningRate: real, us: seq<real>): (r: seq<NeuronState>)
    requires Accepts(ns, |inputs|) && DrawsFor(ns, us) && Schedule(order, |ns|)
    ensures |r| == |ns| && Accepts(r, |inputs|)
    decreases |order|
  {
    if order == [] then ns
    else
      var prev := StepInOrder(ns, order[..|order| - 1], inputs, currentTime, learningRate, us);
      var i := order[|order| - 1];
      prev[i := Step(prev[i], inputs, currentTime, learningRate, us[i]).next]
  }

  /** After a schedule, exactly the scheduled neurons have been stepped, each
      once and from its original state. */
  lemma {:induction false} StepInOrderSteps(ns: seq<NeuronState>, order: seq<int>, inputs: seq<real>, currentTime: int, learningRate: real, us: seq<real>)
    requires Accepts(ns, |inputs|) && DrawsFor(ns, us) && Schedule(order, |ns|)
    ensures forall i :: 0 <= i < |ns| ==>
      StepInOrder(ns, order, inputs, currentTime, learningRate, us)[i] ==
        if i in order then Step(ns[i], inputs, currentTime, learningRate, us[i]).next else ns[i]
    decreases |order|
  {
    if order != [] {
      var front := order[..|order| - 1];
      StepInOrderSteps(ns, front, inputs, currentTime, learningRate, us);
      var last := order[|order| - 1];
      forall j | 0 <= j < |front|
        ensures front[j] != last
      {
        assert front[j] == order[j];
      }
      forall i | 0 <= i < |ns|
        ensures (i in order) <==> (i in front || i == last)
      {
        if i in order {
          var j :| 0 <= j < |order| && order[j] == i;
          if j < |order| - 1 { assert front[j] == i; }
        }
      }
    }
  }

  /** The order in which the neurons are stepped does not matter: every
      schedule that steps each neuron exactly once ends in the state the
      index-order loop reaches. */
  lemma OrderIrrelevant(ns: seq<NeuronState>, order: seq<int>, inputs: seq<real>, currentTime: int, learningRate: real, us: seq<real>)
    requires Accepts(ns, |inputs|) && DrawsFor(ns, us) && Schedule(order, |ns|)
    requires forall i :: 0 <= i < |ns| ==> i in order
    ensures StepInOrder(ns, order, inputs, currentTime, learningRate, us) == LayerStep(ns, inputs, currentTime, learningRate, us).next
  {
    StepInOrderSteps(ns, order, inputs, currentTime, learningRate, us);
  }

  class Layer {
    const neurons: seq<SpikingNeuron>

    constructor NewLayer(neurons: seq<SpikingNeuron>)
      ensures this.neurons == neurons
    {
      this.neurons := neurons;
    }

    /** A Go slice of neuron structs: no two entries are the same neuron. */
    predicate Valid()
    {
      forall i, j :: 0 <= i < j < |neurons| ==> neurons[i] != neurons[j]
    }

    /** The state of every neuron, in order. */
    function States(): (r: seq<NeuronState>)
      reads neurons
      ensures |r| == |neurons|
    {
      seq(|neurons|, i reads neurons requires 0 <= i < |neurons| => neurons[i].State())
    }

    /** Layer.Forward: every neuron is stepped with the same inputs, tick and
        learning rate, and spikes[i] is what neuron i returned. */
    method Forward(inputs: seq<real>, currentTime: int, learningRate: real, us: seq<real>) returns (spikes: seq<int>)
      requires Valid() && Accepts(States(), |inputs|) && DrawsFor(States(), us)
      modifies neurons
      ensures States() == LayerStep(old(States()), inputs, currentTime, learningRate, us).next
      ensures spikes == LayerStep(old(States()), inputs, currentTime, learningRate, us).spikes
    {
      ghost var s0 := States();
      var out := new int[|neurons|];
      for i := 0 to |neurons|
        invariant forall k :: 0 <= k < i ==>
          neurons[k].State() == Step(s0[k], inputs, currentTime, learningRate, us[k]).next &&
          out[k] == Step(s0[k], inputs, currentTime, learningRate, us[k]).spike
        invariant forall k :: i <= k < |neurons| ==> neurons[k].State() == s0[k]
      {
        out[i] := neurons[i].Forward(inputs, currentTime, learningRate, us[i]);
      }
      spikes := out[..];
    }
  }
}
