/**
 * The network of the `go/sim/metal` package (go/sim/metal/network.go): the
 * layers are applied one after another, each layer's 0.0/1.0 outputs being
 * the next layer's input; UpdateWeights applies the STDP rule to every layer;
 * ComputeLoss is the squared error between a target vector and the surrogate
 * gradients of the last layer.
 */
module SimNetwork {
  import opened Synapse
  import opened SimNeuron
  import opened SimLayer
  import opened Squares

  /** Layer 0 takes `width` input lines and every later layer takes as many
      lines as the layer before it has neurons. */
  predicate Chain(ls: seq<seq<NeuronState>>, width: nat)
  {
    forall a {:trigger FanIn(ls, width, a)} :: 0 <= a < |ls| ==> Accepts(ls[a], FanIn(ls, width, a))
  }

  /** The number of input lines of layer a. */
  function FanIn(ls: seq<seq<NeuronState>>, width: nat, a: nat): nat
    requires a < |ls|
  {
    if a == 0 then width else |ls[a - 1]|
  }

  /** The fan-in condition of one layer of a chain. */
  lemma ChainAt(ls: seq<seq<NeuronState>>, width: nat, a: nat)
    requires Chain(ls, width) && a < |ls|
    ensures Accepts(ls[a], FanIn(ls, width, a))
  {
  }

  /** One vector of noise draws per layer. */
  predicate NetDraws(ls: seq<seq<NeuronState>>, us: seq<seq<real>>)
  {
    |us| == |ls| && forall a :: 0 <= a < |ls| ==> DrawsFor(ls[a], us[a])
  }

  /** Both conditions hold of every prefix of the layers. */
  lemma ChainPrefix(ls: seq<seq<NeuronState>>, width: nat, us: seq<seq<real>>, n: nat)
    requires Chain(ls, width) && NetDraws(ls, us) && n <= |ls|
    ensures Chain(ls[..n], width) && NetDraws(ls[..n], us[..n])
  {
    forall a | 0 <= a < n
      ensures Accepts(ls[..n][a], FanIn(ls[..n], width, a))
    {
      assert ls[..n][a] == ls[a];
      if a > 0 { assert ls[..n][a - 1] == ls[a - 1]; }
      ChainAt(ls, width, a);
    }
    forall a | 0 <= a < n
      ensures DrawsFor(ls[..n][a], us[..n][a])
    {
      assert ls[..n][a] == ls[a] && us[..n][a] == us[a];
    }
  }

  /** The new layer states of the network and the vector the last layer
      produced (the input itself when there are no layers). */
  datatype NetTick = NetTick(next: seq<seq<NeuronState>>, out: seq<real>)

  /** Network.Forward(inputs, currentTime) on layer states, with the noise
      draws us[a] for layer a. */
  function NetFold(ls: seq<seq<NeuronState>>, input: seq<real>, currentTime: int, us: seq<seq<real>>): (r: NetTick)
    requires Chain(ls, |input|) && NetDraws(ls, us)
    ensures |r.next| == |ls|
    ensures ls == [] ==> r.out == input
    ensures ls != [] ==> |r.out| == |ls[|ls| - 1]|
    ensures ls != [] ==> forall i :: 0 <= i < |r.out| ==> r.out[i] == 0.0 || r.out[i] == 1.0
    decreases |ls|
  {
    if ls == [] then NetTick([], input)
    else
      var k := |ls| - 1;
      ChainPrefix(ls, |input|, us, k);
      var front := NetFold(ls[..k], input, currentTime, us[..k]);
      assert DrawsFor(ls[k], us[k]);
      ChainAt(ls, |input|, k);
      assert k > 0 ==> ls[..k][k - 1] == ls[k - 1];
      var lt := LayerStep(ls[k], front.out, currentTime, us[k]);
      NetTick(front.next + [lt.next], lt.outputs)
  }

  /** One more layer: the fold over the first a + 1 layers steps layer a on
      the output of the fold over the first a layers. */
  lemma NetFoldPrefixStep(ls: seq<seq<NeuronState>>, input: seq<real>, currentTime: int, us: seq<seq<real>>, a: nat)
    requires Chain(ls, |input|) && NetDraws(ls, us) && a < |ls|
    ensures Chain(ls[..a], |input|) && NetDraws(ls[..a], us[..a])
    ensures Chain(ls[..a + 1], |input|) && NetDraws(ls[..a + 1], us[..a + 1])
    ensures
      var prev := NetFold(ls[..a], input, currentTime, us[..a]);
      && Accepts(ls[a], |prev.out|) && DrawsFor(ls[a], us[a])
      && var lt := LayerStep(ls[a], prev.out, currentTime, us[a]);
         NetFold(ls[..a + 1], input, currentTime, us[..a + 1]) == NetTick(prev.next + [lt.next], lt.outputs)
  {
    ChainPrefix(ls, |input|, us, a);
    ChainPrefix(ls, |input|, us, a + 1);
    assert ls[..a + 1][..a] == ls[..a] && ls[..a + 1][a] == ls[a];
    assert us[..a + 1][..a] == us[..a] && us[..a + 1][a] == us[a];
    assert ls[a] == ls[..a + 1][a];
    if a > 0 { assert ls[a - 1] == ls[..a][a - 1]; }
    ChainAt(ls, |input|, a);
  }

  /** The fold over the first a layers. */
  function NetFoldUpTo(ls: seq<seq<NeuronState>>, input: seq<real>, currentTime: int, us: seq<seq<real>>, a: nat): NetTick
    requires Chain(ls, |input|) && NetDraws(ls, us) && a <= |ls|
  {
    ChainPrefix(ls, |input|, us, a);
    NetFold(ls[..a], input, currentTime, us[..a])
  }

  /** The loop of Network.Forward, one layer further: layer a is stepped on
      what the first a layers produced. */
  lemma NetFoldUpToStep(ls: seq<seq<NeuronState>>, input: seq<real>, currentTime: int, us: seq<seq<real>>, a: nat)
    requires Chain(ls, |input|) && NetDraws(ls, us) && a < |ls|
    ensures
      var prev := NetFoldUpTo(ls, input, currentTime, us, a);
      && |prev.next| == a
      && Accepts(ls[a], |prev.out|) && DrawsFor(ls[a], us[a])
      && var lt := LayerStep(ls[a], prev.out, currentTime, us[a]);
         NetFoldUpTo(ls, input, currentTime, us, a + 1) == NetTick(prev.next + [lt.next], lt.outputs)
  {
    NetFoldPrefixStep(ls, input, currentTime, us, a);
  }

  /** With no layers Forward returns its input; otherwise it returns the
      last layer's outputs on what the layers before it produced. */
  lemma NetFoldLast(ls: seq<seq<NeuronState>>, input: seq<real>, currentTime: int, us: seq<seq<real>>)
    requires Chain(ls, |input|) && NetDraws(ls, us) && ls != []
    ensures Chain(ls[..|ls| - 1], |input|) && NetDraws(ls[..|ls| - 1], us[..|ls| - 1])
    ensures
      var k := |ls| - 1;
      var front := NetFold(ls[..k], input, currentTime, us[..k]);
      && Accepts(ls[k], |front.out|) && DrawsFor(ls[k], us[k])
      && NetFold(ls, input, currentTime, us).out == LayerStep(ls[k], front.out, currentTime, us[k]).outputs
  {
    var k := |ls| - 1;
    NetFoldPrefixStep(ls, input, currentTime, us, k);
    assert ls[..k + 1] == ls && us[..k + 1] == us;
  }

  /** The layers after a tick are still chained with the same widths, so the
      network can be stepped again. */
  lemma {:induction false} NetFoldKeepsChain(ls: seq<seq<NeuronState>>, input: seq<real>, currentTime: int, us: seq<seq<real>>)
    requires Chain(ls, |input|) && NetDraws(ls, us)
    ensures forall a :: 0 <= a < |ls| ==> |NetFold(ls, input, currentTime, us).next[a]| == |ls[a]|
    ensures Chain(NetFold(ls, input, currentTime, us).next, |input|)
    decreases |ls|
  {
    if ls != [] {
      var k := |ls| - 1;
      NetFoldPrefixStep(ls, input, currentTime, us, k);
      assert ls[..k + 1] == ls && us[..k + 1] == us;
      NetFoldKeepsChain(ls[..k], input, currentTime, us[..k]);
      var r := NetFold(ls, input, currentTime, us);
      var prev := NetFold(ls[..k], input, currentTime, us[..k]);
      forall a | 0 <= a < |ls|
        ensures |r.next[a]| == |ls[a]|
        ensures Accepts(r.next[a], FanIn(r.next, |input|, a))
      {
        if a < k {
          assert r.next[a] == prev.next[a] && ls[..k][a] == ls[a];
          if a > 0 { assert r.next[a - 1] == prev.next[a - 1]; assert ls[..k][a - 1] == ls[a - 1]; }
          ChainAt(prev.next, |input|, a);
        } else {
          if a > 0 { assert r.next[a - 1] == prev.next[a - 1]; assert ls[..k][a - 1] == ls[a - 1]; }
        }
      }
    }
  }

  /** The two parts of a chain of layers are chains: the first on the
      network's input, the second on the width of the first part's output. */
  lemma ChainSplit(l1: seq<seq<NeuronState>>, l2: seq<seq<NeuronState>>, width: nat, u1: seq<seq<real>>, u2: seq<seq<real>>)
    requires Chain(l1 + l2, width) && NetDraws(l1, u1) && NetDraws(l2, u2)
    ensures Chain(l1, width) && NetDraws(l1 + l2, u1 + u2)
    ensures Chain(l2, if l1 == [] then width else |l1[|l1| - 1]|)
  {
    ChainFront(l1, l2, width);
    ChainBack(l1, l2, width);
    DrawsJoin(l1, l2, u1, u2);
  }

  lemma ChainFront(l1: seq<seq<NeuronState>>, l2: seq<seq<NeuronState>>, width: nat)
    requires Chain(l1 + l2, width)
    ensures Chain(l1, width)
  {
    forall a | 0 <= a < |l1|
      ensures Accepts(l1[a], FanIn(l1, width, a))
    {
      assert l1[a] == (l1 + l2)[a];
      if a > 0 { assert l1[a - 1] == (l1 + l2)[a - 1]; }
      ChainAt(l1 + l2, width, a);
    }
  }

  lemma ChainBack(l1: seq<seq<NeuronState>>, l2: seq<seq<NeuronState>>, width: nat)
    requires Chain(l1 + l2, width)
    ensures Chain(l2, if l1 == [] then width else |l1[|l1| - 1]|)
  {
    var w := if l1 == [] then width else |l1[|l1| - 1]|;
    forall a | 0 <= a < |l2|
      ensures Accepts(l2[a], FanIn(l2, w, a))
    {
      assert l2[a] == (l1 + l2)[|l1| + a];
      if a > 0 { assert l2[a - 1] == (l1 + l2)[|l1| + a - 1]; }
      else if l1 != [] { assert l1[|l1| - 1] == (l1 + l2)[|l1| - 1]; }
      ChainAt(l1 + l2, width, |l1| + a);
    }
  }

  lemma DrawsJoin(l1: seq<seq<NeuronState>>, l2: seq<seq<NeuronState>>, u1: seq<seq<real>>, u2: seq<seq<real>>)
    requires NetDraws(l1, u1) && NetDraws(l2, u2)
    ensures NetDraws(l1 + l2, u1 + u2)
  {
    forall a | 0 <= a < |l1 + l2|
      ensures DrawsFor((l1 + l2)[a], (u1 + u2)[a])
    {
      if a < |l1| {
        assert (l1 + l2)[a] == l1[a] && (u1 + u2)[a] == u1[a];
      } else {
        assert (l1 + l2)[a] == l2[a - |l1|] && (u1 + u2)[a] == u2[a - |l1|];
      }
    }
  }

  /** Splitting the layers in two: the second part receives exactly what the
      first part produced, and Forward over both is the second part stepped
      on the first part's result. */
  lemma {:induction false} NetFoldComposes(l1: seq<seq<NeuronState>>, l2: seq<seq<NeuronState>>, input: seq<real>, currentTime: int, u1: seq<seq<real>>, u2: seq<seq<real>>)
    requires Chain(l1 + l2, |input|) && NetDraws(l1, u1) && NetDraws(l2, u2)
    ensures Chain(l1, |input|) && NetDraws(l1 + l2, u1 + u2)
    ensures Chain(l2, |NetFold(l1, input, currentTime, u1).out|)
    ensures
      var first := NetFold(l1, input, currentTime, u1);
      var second := NetFold(l2, first.out, currentTime, u2);
      NetFold(l1 + l2, input, currentTime, u1 + u2) == NetTick(first.next + second.next, second.out)
    decreases |l2|
  {
    ChainSplit(l1, l2, |input|, u1, u2);
    var first := NetFold(l1, input, currentTime, u1);
    if l2 == [] {
      assert l1 + l2 == l1;
      assert u1 + u2 == u1;
    } else {
      var k := |l2| - 1;
      var n := |l1| + k;
      ChainPrefix(l1 + l2, |input|, u1 + u2, n);
      assert (l1 + l2)[..n] == l1 + l2[..k];
      assert (u1 + u2)[..n] == u1 + u2[..k];
      ChainPrefix(l2, |first.out|, u2, k);
      NetFoldComposes(l1, l2[..k], input, currentTime, u1, u2[..k]);
      NetFoldPrefixStep(l1 + l2, input, currentTime, u1 + u2, n);
      assert (l1 + l2)[..n + 1] == l1 + l2 && (u1 + u2)[..n + 1] == u1 + u2;
      assert (l1 + l2)[n] == l2[k] && (u1 + u2)[n] == u2[k];
      NetFoldPrefixStep(l2, first.out, currentTime, u2, k);
      TakeAll(l2);
      TakeAll(u2);
      var mid := NetFold(l2[..k], first.out, currentTime, u2[..k]);
      var lt := LayerStep(l2[k], mid.out, currentTime, u2[k]);
      AppendAssociates(first.next, mid.next, [lt.next]);
    }
  }

  lemma TakeAll<T>(s: seq<T>)
    ensures s[..|s|] == s
  {
  }

  lemma AppendAssociates<T>(a: seq<T>, b: seq<T>, c: seq<T>)
    ensures a + (b + c) == (a + b) + c
  {
  }

  /** Network.UpdateWeights on layer states: every layer's update. */
  function NetUpdate(ls: seq<seq<NeuronState>>, currentTime: int, learningRate: real, exp: real -> real): (r: seq<seq<NeuronState>>)
    ensures |r| == |ls|
  {
    seq(|ls|, a requires 0 <= a < |ls| => LayerUpdate(ls[a], currentTime, learningRate, exp))
  }

  /** After UpdateWeights, every neuron of every layer whose bounds are
      ordered has all its weights within them, and the chain of fan-ins is
      kept, so the network can be stepped again. */
  lemma NetUpdateKeepsBoundsAndChain(ls: seq<seq<NeuronState>>, width: nat, currentTime: int, learningRate: real, exp: real -> real)
    ensures var r := NetUpdate(ls, currentTime, learningRate, exp);
      forall a, i :: 0 <= a < |ls| && 0 <= i < |ls[a]| && ls[a][i].minWeight <= ls[a][i].maxWeight ==>
        WeightsWithin(r[a][i].connections, ls[a][i].minWeight, ls[a][i].maxWeight)
    ensures Chain(ls, width) ==> Chain(NetUpdate(ls, currentTime, learningRate, exp), width)
  {
    var r: seq<seq<NeuronState>> := NetUpdate(ls, currentTime, learningRate, exp);
    forall a | 0 <= a < |ls|
      ensures |r[a]| == |ls[a]|
      ensures forall i :: 0 <= i < |ls[a]| ==> |r[a][i].connections| == |ls[a][i].connections|
      ensures forall i :: 0 <= i < |ls[a]| && ls[a][i].minWeight <= ls[a][i].maxWeight ==>
        WeightsWithin(r[a][i].connections, ls[a][i].minWeight, ls[a][i].maxWeight)
    {
      LayerUpdateKeepsBounds(ls[a], currentTime, learningRate, exp);
    }
    if Chain(ls, width) {
      forall a | 0 <= a < |ls|
        ensures Accepts(r[a], FanIn(r, width, a))
      {
        ChainAt(ls, width, a);
      }
    }
  }

  /** The squared error of ComputeLoss: the sum, left to right over the
      neurons, of (target[i] - SurrogateGradient_i)^2. */
  function Loss(ns: seq<NeuronState>, target: seq<real>, exp: real -> real): real
    requires |target| >= |ns|
  {
    if ns == [] then 0.0
    else
      var k := |ns| - 1;
      var diff := target[k] - SurrogateGradient(ns[k], exp);
      Loss(ns[..k], target, exp) + Square(diff)
  }

  /** The loss is never negative. */
  lemma {:induction false} LossNonNegative(ns: seq<NeuronState>, target: seq<real>, exp: real -> real)
    requires |target| >= |ns|
    ensures Loss(ns, target, exp) >= 0.0
  {
    if ns != [] {
      var k := |ns| - 1;
      LossNonNegative(ns[..k], target, exp);
      SquareNonNegative(target[k] - SurrogateGradient(ns[k], exp));
    }
  }

  /** The loss is 0 exactly when every target entry equals the surrogate
      gradient of its neuron. */
  lemma {:induction false} LossZeroIff(ns: seq<NeuronState>, target: seq<real>, exp: real -> real)
    requires |target| >= |ns|
    ensures Loss(ns, target, exp) == 0.0 <==> forall i :: 0 <= i < |ns| ==> target[i] == SurrogateGradient(ns[i], exp)
  {
    if ns != [] {
      var k := |ns| - 1;
      LossZeroIff(ns[..k], target, exp);
      LossNonNegative(ns[..k], target, exp);
      var diff := target[k] - SurrogateGradient(ns[k], exp);
      SquareNonNegative(diff);
      SquareZeroIff(diff);
      assert forall i :: 0 <= i < k ==> ns[..k][i] == ns[i];
    }
  }

  /** Target entries beyond the last layer's size are ignored. */
  lemma {:induction false} LossIgnoresExtraTargets(ns: seq<NeuronState>, target: seq<real>, extra: seq<real>, exp: real -> real)
    requires |target| >= |ns|
    ensures Loss(ns, target + extra, exp) == Loss(ns, target, exp)
  {
    if ns != [] {
      var k := |ns| - 1;
      LossIgnoresExtraTargets(ns[..k], target, extra, exp);
      assert (target + extra)[k] == target[k];
    }
  }

  class Network {
    const layers: seq<Layer>

    constructor NewNetwork(layers: seq<Layer>)
      ensures this.layers == layers
    {
      this.layers := layers;
    }

    /** Every neuron of every layer. */
    ghost function Repr(): (r: set<object>)
      ensures forall a, i :: 0 <= a < |layers| && 0 <= i < |layers[a].neurons| ==> layers[a].neurons[i] in r
    {
      set a, i | 0 <= a < |layers| && 0 <= i < |layers[a].neurons| :: layers[a].neurons[i]
    }

    /** No neuron is shared, within a layer or between two layers. */
    predicate Valid()
    {
      && (forall a :: 0 <= a < |layers| ==> layers[a].Valid())
      && (forall a, b, i, j :: 0 <= a < b < |layers| && 0 <= i < |layers[a].neurons| && 0 <= j < |layers[b].neurons| ==>
            layers[a].neurons[i] != layers[b].neurons[j])
    }

    /** Changing layer a touches no neuron of another layer. */
    lemma LayersDisjoint(a: nat)
      requires Valid() && a < |layers|
      ensures forall b, o :: 0 <= b < |layers| && b != a && o in layers[b].neurons ==> o !in layers[a].neurons
    {
      forall b, o | 0 <= b < |layers| && b != a && o in layers[b].neurons
        ensures o !in layers[a].neurons
      {
        var j :| 0 <= j < |layers[b].neurons| && layers[b].neurons[j] == o;
        forall i | 0 <= i < |layers[a].neurons|
          ensures layers[a].neurons[i] != layers[b].neurons[j]
        {
          if a < b { } else { }
        }
      }
    }

    /** The states of all neurons, layer by layer. */
    function States(): (r: seq<seq<NeuronState>>)
      reads Repr()
      ensures |r| == |layers|
      ensures forall a :: 0 <= a < |layers| ==> r[a] == layers[a].States()
    {
      seq(|layers|, a reads Repr() requires 0 <= a < |layers| => layers[a].States())
    }

    /** One iteration of the loop of Forward: layer a is stepped, and every
        other layer keeps its state. */
    method StepLayer(a: nat, x: seq<real>, currentTime: int, u: seq<real>) returns (outputs: seq<real>)
      requires Valid() && a < |layers| && Accepts(layers[a].States(), |x|) && DrawsFor(layers[a].States(), u)
      modifies layers[a].neurons
      ensures layers[a].States() == LayerStep(old(layers[a].States()), x, currentTime, u).next
      ensures outputs == LayerStep(old(layers[a].States()), x, currentTime, u).outputs
      ensures forall b :: 0 <= b < |layers| && b != a ==> layers[b].States() == old(layers[b].States())
    {
      LayersDisjoint(a);
      outputs := layers[a].Forward(x, currentTime, u);
      forall b | 0 <= b < |layers| && b != a
        ensures layers[b].States() == old(layers[b].States())
      {
        assert unchanged(layers[b].neurons);
      }
    }

    /** The layer states and the loop variable of Forward after its first
        a iterations, for the layer states s0 Forward started from. */
    ghost predicate SteppedUpTo(s0: seq<seq<NeuronState>>, input: seq<real>, currentTime: int, us: seq<seq<real>>, a: nat, x: seq<real>, acc: NetTick)
      reads Repr()
      requires Chain(s0, |input|) && NetDraws(s0, us) && a <= |s0| == |layers|
    {
      && acc == NetFoldUpTo(s0, input, currentTime, us, a)
      && x == acc.out && |acc.next| == a
      && (forall b :: 0 <= b < a ==> layers[b].States() == acc.next[b])
      && (forall b :: a <= b < |layers| ==> layers[b].States() == s0[b])
    }

    /** One iteration of the loop of Forward: layer a is stepped on the
        previous layer's outputs. */
    method Advance(ghost s0: seq<seq<NeuronState>>, input: seq<real>, currentTime: int, us: seq<seq<real>>, a: nat, x: seq<real>, ghost acc: NetTick)
      returns (y: seq<real>, ghost acc': NetTick)
      requires Valid() && Chain(s0, |input|) && NetDraws(s0, us) && a < |s0| == |layers|
      requires SteppedUpTo(s0, input, currentTime, us, a, x, acc)
      modifies layers[a].neurons
      ensures SteppedUpTo(s0, input, currentTime, us, a + 1, y, acc')
    {
      NetFoldUpToStep(s0, input, currentTime, us, a);
      y := StepLayer(a, x, currentTime, us[a]);
      acc' := NetTick(acc.next + [layers[a].States()], y);
    }

    /** Network.Forward(inputs, currentTime): every layer is stepped on the
        previous layer's outputs. */
    method Forward(input: seq<real>, currentTime: int, us: seq<seq<real>>) returns (output: seq<real>)
      requires Valid() && Chain(States(), |input|) && NetDraws(States(), us)
      modifies Repr()
      ensures States() == NetFold(old(States()), input, currentTime, us).next
      ensures output == NetFold(old(States()), input, currentTime, us).out
    {
      ghost var s0 := States();
      ghost var acc := NetFoldUpTo(s0, input, currentTime, us, 0);
      output := input;
      for a := 0 to |layers|
        invariant SteppedUpTo(s0, input, currentTime, us, a, output, acc)
      {
        output, acc := Advance(s0, input, currentTime, us, a, output, acc);
      }
      SteppedAll(s0, input, currentTime, us, output, acc);
    }

    /** After the last iteration the loop has computed the whole fold. */
    lemma SteppedAll(s0: seq<seq<NeuronState>>, input: seq<real>, currentTime: int, us: seq<seq<real>>, x: seq<real>, acc: NetTick)
      requires Chain(s0, |input|) && NetDraws(s0, us) && |s0| == |layers|
      requires SteppedUpTo(s0, input, currentTime, us, |layers|, x, acc)
      ensures States() == NetFold(s0, input, currentTime, us).next
      ensures x == NetFold(s0, input, currentTime, us).out
    {
      assert s0[..|layers|] == s0 && us[..|layers|] == us;
      assert forall b :: 0 <= b < |layers| ==> States()[b] == acc.next[b];
    }

    /** One iteration of the loop of UpdateWeights. */
    method UpdateLayer(a: nat, currentTime: int, learningRate: real, exp: real -> real)
      requires Valid() && a < |layers|
      modifies layers[a].neurons
      ensures layers[a].States() == LayerUpdate(old(layers[a].States()), currentTime, learningRate, exp)
      ensures forall b :: 0 <= b < |layers| && b != a ==> layers[b].States() == old(layers[b].States())
    {
      LayersDisjoint(a);
      layers[a].UpdateWeights(currentTime, learningRate, exp);
      forall b | 0 <= b < |layers| && b != a
        ensures layers[b].States() == old(layers[b].States())
      {
        assert unchanged(layers[b].neurons);
      }
    }

    /** Network.UpdateWeights(currentTime, learningRate): every layer, in
        order. */
    method UpdateWeights(currentTime: int, learningRate: real, exp: real -> real)
      requires Valid()
      modifies Repr()
      ensures States() == NetUpdate(old(States()), currentTime, learningRate, exp)
    {
      ghost var s0 := States();
      for a := 0 to |layers|
        invariant forall b :: 0 <= b < a ==> layers[b].States() == LayerUpdate(s0[b], currentTime, learningRate, exp)
        invariant forall b :: a <= b < |layers| ==> layers[b].States() == s0[b]
      {
        UpdateLayer(a, currentTime, learningRate, exp);
      }
      assert forall b :: 0 <= b < |layers| ==> States()[b] == NetUpdate(s0, currentTime, learningRate, exp)[b];
    }

    /** Network.ComputeLoss(target): the squared error of the last layer's
        surrogate gradients; the network is only read. */
    method ComputeLoss(target: seq<real>, exp: real -> real) returns (loss: real)
      requires |layers| > 0 && |target| >= |layers[|layers| - 1].neurons|
      ensures loss == Loss(layers[|layers| - 1].States(), target, exp)
    {
      var lastLayer := layers[|layers| - 1];
      ghost var ns := lastLayer.States();
      loss := 0.0;
      for i := 0 to |lastLayer.neurons|
        invariant loss == Loss(ns[..i], target, exp)
      {
        assert ns[..i + 1][..i] == ns[..i];
        var diff := target[i] - SurrogateGradient(lastLayer.neurons[i].State(), exp);
        loss := loss + diff * diff;
      }
      assert ns[..|lastLayer.neurons|] == ns;
    }
  }
}
