/**
 * The network of the root `metal` package (metal/network.go): the layers are
 * applied one after another, each layer's integer spikes converted to reals
 * (floatSlice) to become the next layer's input, and the last vector is
 * converted back to integers (intSlice).
 */
module MetalNetwork {
  import opened Synapse
  import opened MetalNeuron
  import opened MetalLayer

  /** floatSlice: every integer as a real, in order. */
  function FloatSlice(xs: seq<int>): (r: seq<real>)
    ensures |r| == |xs|
    ensures forall i :: 0 <= i < |xs| ==> r[i] == xs[i] as real
  {
    seq(|xs|, i requires 0 <= i < |xs| => xs[i] as real)
  }

  /** intSlice: 1 for every value of at least 1, 0 for every other value. */
  function IntSlice(xs: seq<real>): (r: seq<int>)
    ensures |r| == |xs|
    ensures forall i :: 0 <= i < |xs| ==> r[i] == 0 || r[i] == 1
    ensures forall i :: 0 <= i < |xs| ==> (r[i] == 1 <==> xs[i] >= 1.0)
  {
    seq(|xs|, i requires 0 <= i < |xs| => if xs[i] >= 1.0 then 1 else 0)
  }

  predicate Binary(xs: seq<int>)
  {
    forall i :: 0 <= i < |xs| ==> xs[i] == 0 || xs[i] == 1
  }

  /** A 0/1 vector survives the trip to reals and back. */
  lemma IntSliceUndoesFloatSlice(xs: seq<int>)
    requires Binary(xs)
    ensures IntSlice(FloatSlice(xs)) == xs
  {
    var r := IntSlice(FloatSlice(xs));
    forall i | 0 <= i < |xs|
      ensures r[i] == xs[i]
    {
      assert FloatSlice(xs)[i] == xs[i] as real;
    }
  }

  /** Thresholding a vector a second time changes nothing. */
  lemma IntSliceStable(v: seq<real>)
    ensures IntSlice(FloatSlice(IntSlice(v))) == IntSlice(v)
  {
    IntSliceUndoesFloatSlice(IntSlice(v));
  }

  /** Layer 0 takes `width` input lines and every later layer takes as many
      lines as the layer before it has neurons. */
  predicate Chain(ls: seq<seq<NeuronState>>, width: nat)
  {
    forall a {:trigger FanIn(ls, width, a)} :: 0 <= a < |ls| ==> Accepts(ls[a], FanIn(ls, width, a))
  }

  /** The number of input lines of layer a. */
  function FanIn(ls: seq<seq<NeuronState>>, width: nat, a: nat): nat
    requires a < |ls|
  {
    if a == 0 then width else |ls[a - 1]|
  }

  /** The fan-in condition of one layer of a chain. */
  lemma ChainAt(ls: seq<seq<NeuronState>>, width: nat, a: nat)
    requires Chain(ls, width) && a < |ls|
    ensures Accepts(ls[a], FanIn(ls, width, a))
  {
  }

  /** One vector of noise draws per layer. */
  predicate NetDraws(ls: seq<seq<NeuronState>>, us: seq<seq<real>>)
  {
    |us| == |ls| && forall a :: 0 <= a < |ls| ==> DrawsFor(ls[a], us[a])
  }

  /** Both conditions hold of every prefix of the layers. */
  lemma ChainPrefix(ls: seq<seq<NeuronState>>, width: nat, us: seq<seq<real>>, n: nat)
    requires Chain(ls, width) && NetDraws(ls, us) && n <= |ls|
    ensures Chain(ls[..n], width) && NetDraws(ls[..n], us[..n])
  {
    forall a | 0 <= a < n
      ensures Accepts(ls[..n][a], FanIn(ls[..n], width, a))
    {
      assert ls[..n][a] == ls[a];
      if a > 0 { assert ls[..n][a - 1] == ls[a - 1]; }
      ChainAt(ls, width, a);
    }
    forall a | 0 <= a < n
      ensures DrawsFor(ls[..n][a], us[..n][a])
    {
      assert ls[..n][a] == ls[a] && us[..n][a] == us[a];
    }
  }

  /** The new layer states of the network and the real vector the last
      layer produced (the input itself when there are no layers). */
  datatype NetTick = NetTick(next: seq<seq<NeuronState>>, out: seq<real>)

  /** The loop of Network.Forward before the final intSlice. */
  function NetFold(ls: seq<seq<NeuronState>>, input: seq<real>, currentTime: int, learningRate: real, us: seq<seq<real>>): (r: NetTick)
    requires Chain(ls, |input|) && NetDraws(ls, us)
    ensures |r.next| == |ls|
    ensures ls == [] ==> r.out == input
    ensures ls != [] ==> |r.out| == |ls[|ls| - 1]|
    ensures ls != [] ==> forall i :: 0 <= i < |r.out| ==> r.out[i] == 0.0 || r.out[i] == 1.0
    decreases |ls|
  {
    if ls == [] then NetTick([], input)
    else
      var k := |ls| - 1;
      ChainPrefix(ls, |input|, us, k);
      var front := NetFold(ls[..k], input, currentTime, learningRate, us[..k]);
      assert DrawsFor(ls[k], us[k]);
      ChainAt(ls, |input|, k);
      assert k > 0 ==> ls[..k][k - 1] == ls[k - 1];
      var lt := LayerStep(ls[k], front.out, currentTime, learningRate, us[k]);
      NetTick(front.next + [lt.next], FloatSlice(lt.spikes))
  }

  /** One more layer: the fold over the first a + 1 layers steps layer a on
      the output of the fold over the first a layers. */
  lemma NetFoldPrefixStep(ls: seq<seq<NeuronState>>, input: seq<real>, currentTime: int, learningRate: real, us: seq<seq<real>>, a: nat)
    requires Chain(ls, |input|) && NetDraws(ls, us) && a < |ls|
    ensures Chain(ls[..a], |input|) && NetDraws(ls[..a], us[..a])
    ensures Chain(ls[..a + 1], |input|) && NetDraws(ls[..a + 1], us[..a + 1])
    ensures
      var prev := NetFold(ls[..a], input, currentTime, learningRate, us[..a]);
      && Accepts(ls[a], |prev.out|) && DrawsFor(ls[a], us[a])
      && var lt := LayerStep(ls[a], prev.out, currentTime, learningRate, us[a]);
         NetFold(ls[..a + 1], input, currentTime, learningRate, us[..a + 1]) == NetTick(prev.next + [lt.next], FloatSlice(lt.spikes))
  {
    ChainPrefix(ls, |input|, us, a);
    ChainPrefix(ls, |input|, us, a + 1);
    assert ls[..a + 1][..a] == ls[..a] && ls[..a + 1][a] == ls[a];
    assert us[..a + 1][..a] == us[..a] && us[..a + 1][a] == us[a];
    assert ls[a] == ls[..a + 1][a];
    if a > 0 { assert ls[a - 1] == ls[..a][a - 1]; }
    ChainAt(ls, |input|, a);
  }

  /** The fold over the first a layers. */
  function NetFoldUpTo(ls: seq<seq<NeuronState>>, input: seq<real>, currentTime: int, learningRate: real, us: seq<seq<real>>, a: nat): NetTick
    requires Chain(ls, |input|) && NetDraws(ls, us) && a <= |ls|
  {
    ChainPrefix(ls, |input|, us, a);
    NetFold(ls[..a], input, currentTime, learningRate, us[..a])
  }

  /** The loop of Network.Forward, one layer further: layer a is stepped on
      what the first a layers produced. */
  lemma NetFoldUpToStep(ls: seq<seq<NeuronState>>, input: seq<real>, currentTime: int, learningRate: real, us: seq<seq<real>>, a: nat)
    requires Chain(ls, |input|) && NetDraws(ls, us) && a < |ls|
    ensures
      var prev := NetFoldUpTo(ls, input, currentTime, learningRate, us, a);
      && |prev.next| == a
      && Accepts(ls[a], |prev.out|) && DrawsFor(ls[a], us[a])
      && var lt := LayerStep(ls[a], prev.out, currentTime, learningRate, us[a]);
         NetFoldUpTo(ls, input, currentTime, learningRate, us, a + 1) == NetTick(prev.next + [lt.next], FloatSlice(lt.spikes))
  {
    NetFoldPrefixStep(ls, input, currentTime, learningRate, us, a);
  }

  /** The layers after a tick are still chained with the same widths, so the
      network can be stepped again. */
  lemma {:induction false} NetFoldKeepsChain(ls: seq<seq<NeuronState>>, input: seq<real>, currentTime: int, learningRate: real, us: seq<seq<real>>)
    requires Chain(ls, |input|) && NetDraws(ls, us)
    ensures forall a :: 0 <= a < |ls| ==> |NetFold(ls, input, currentTime, learningRate, us).next[a]| == |ls[a]|
    ensures Chain(NetFold(ls, input, currentTime, learningRate, us).next, |input|)
    decreases |ls|
  {
    if ls != [] {
      var k := |ls| - 1;
      NetFoldPrefixStep(ls, input, currentTime, learningRate, us, k);
      assert ls[..k + 1] == ls && us[..k + 1] == us;
      NetFoldKeepsChain(ls[..k], input, currentTime, learningRate, us[..k]);
      var r := NetFold(ls, input, currentTime, learningRate, us);
      var prev := NetFold(ls[..k], input, currentTime, learningRate, us[..k]);
      forall a | 0 <= a < |ls|
        ensures |r.next[a]| == |ls[a]|
        ensures Accepts(r.next[a], FanIn(r.next, |input|, a))
      {
        if a < k {
          assert r.next[a] == prev.next[a] && ls[..k][a] == ls[a];
          if a > 0 { assert r.next[a - 1] == prev.next[a - 1]; assert ls[..k][a - 1] == ls[a - 1]; }
          ChainAt(prev.next, |input|, a);
        } else {
          if a > 0 { assert r.next[a - 1] == prev.next[a - 1]; assert ls[..k][a - 1] == ls[a - 1]; }
        }
      }
    }
  }

  /** Network.Forward on layer states, including the final intSlice. */
  function NetForward(ls: seq<seq<NeuronState>>, input: seq<real>, currentTime: int, learningRate: real, us: seq<seq<real>>): seq<int>
    requires Chain(ls, |input|) && NetDraws(ls, us)
  {
    IntSlice(NetFold(ls, input, currentTime, learningRate, us).out)
  }

  /** With no layers the network thresholds its input; otherwise it returns
      one 0/1 entry per neuron of the last layer, namely that neuron's spike. */
  lemma NetForwardShape(ls: seq<seq<NeuronState>>, input: seq<real>, currentTime: int, learningRate: real, us: seq<seq<real>>)
    requires Chain(ls, |input|) && NetDraws(ls, us)
    ensures ls == [] ==> NetForward(ls, input, currentTime, learningRate, us) == IntSlice(input)
    ensures ls != [] ==> |NetForward(ls, input, currentTime, learningRate, us)| == |ls[|ls| - 1]|
    ensures ls != [] ==> Chain(ls[..|ls| - 1], |input|) && NetDraws(ls[..|ls| - 1], us[..|ls| - 1])
    ensures ls != [] ==> Accepts(ls[|ls| - 1], |NetFold(ls[..|ls| - 1], input, currentTime, learningRate, us[..|ls| - 1]).out|)
    ensures ls != [] ==>
      var k := |ls| - 1;
      var front := NetFold(ls[..k], input, currentTime, learningRate, us[..k]);
      NetForward(ls, input, currentTime, learningRate, us) == LayerStep(ls[k], front.out, currentTime, learningRate, us[k]).spikes
  {
    if ls != [] {
      var k := |ls| - 1;
      NetFoldPrefixStep(ls, input, currentTime, learningRate, us, k);
      assert ls[..k + 1] == ls && us[..k + 1] == us;
      var front := NetFold(ls[..k], input, currentTime, learningRate, us[..k]);
      IntSliceUndoesFloatSlice(LayerStep(ls[k], front.out, currentTime, learningRate, us[k]).spikes);
    }
  }

  /** The two parts of a chain of layers are chains: the first on the
      network's input, the second on the width of the first part's output. */
  lemma ChainSplit(l1: seq<seq<NeuronState>>, l2: seq<seq<NeuronState>>, width: nat, u1: seq<seq<real>>, u2: seq<seq<real>>)
    requires Chain(l1 + l2, width) && NetDraws(l1, u1) && NetDraws(l2, u2)
    ensures Chain(l1, width) && NetDraws(l1 + l2, u1 + u2)
    ensures Chain(l2, if l1 == [] then width else |l1[|l1| - 1]|)
  {
    ChainFront(l1, l2, width);
    ChainBack(l1, l2, width);
    DrawsJoin(l1, l2, u1, u2);
  }

  lemma ChainFront(l1: seq<seq<NeuronState>>, l2: seq<seq<NeuronState>>, width: nat)
    requires Chain(l1 + l2, width)
    ensures Chain(l1, width)
  {
    forall a | 0 <= a < |l1|
      ensures Accepts(l1[a], FanIn(l1, width, a))
    {
      assert l1[a] == (l1 + l2)[a];
      if a > 0 { assert l1[a - 1] == (l1 + l2)[a - 1]; }
      ChainAt(l1 + l2, width, a);
    }
  }

  lemma ChainBack(l1: seq<seq<NeuronState>>, l2: seq<seq<NeuronState>>, width: nat)
    requires Chain(l1 + l2, width)
    ensures Chain(l2, if l1 == [] then width else |l1[|l1| - 1]|)
  {
    var w := if l1 == [] then width else |l1[|l1| - 1]|;
    forall a | 0 <= a < |l2|
      ensures Accepts(l2[a], FanIn(l2, w, a))
    {
      assert l2[a] == (l1 + l2)[|l1| + a];
      if a > 0 { assert l2[a - 1] == (l1 + l2)[|l1| + a - 1]; }
      else if l1 != [] { assert l1[|l1| - 1] == (l1 + l2)[|l1| - 1]; }
      ChainAt(l1 + l2, width, |l1| + a);
    }
  }

  lemma DrawsJoin(l1: seq<seq<NeuronState>>, l2: seq<seq<NeuronState>>, u1: seq<seq<real>>, u2: seq<seq<real>>)
    requires NetDraws(l1, u1) && NetDraws(l2, u2)
    ensures NetDraws(l1 + l2, u1 + u2)
  {
    forall a | 0 <= a < |l1 + l2|
      ensures DrawsFor((l1 + l2)[a], (u1 + u2)[a])
    {
      if a < |l1| {
        assert (l1 + l2)[a] == l1[a] && (u1 + u2)[a] == u1[a];
      } else {
        assert (l1 + l2)[a] == l2[a - |l1|] && (u1 + u2)[a] == u2[a - |l1|];
      }
    }
  }

  /** Splitting the layers in two: the second part receives exactly what the
      first part produced. */
  lemma {:induction false} NetFoldComposes(l1: seq<seq<NeuronState>>, l2: seq<seq<NeuronState>>, input: seq<real>, currentTime: int, learningRate: real, u1: seq<seq<real>>, u2: seq<seq<real>>)
    requires Chain(l1 + l2, |input|) && NetDraws(l1, u1) && NetDraws(l2, u2)
    ensures Chain(l1, |input|) && NetDraws(l1 + l2, u1 + u2)
    ensures Chain(l2, |NetFold(l1, input, currentTime, learningRate, u1).out|)
    ensures
      var first := NetFold(l1, input, currentTime, learningRate, u1);
      var second := NetFold(l2, first.out, currentTime, learningRate, u2);
      NetFold(l1 + l2, input, currentTime, learningRate, u1 + u2) == NetTick(first.next + second.next, second.out)
    decreases |l2|
  {
    ChainSplit(l1, l2, |input|, u1, u2);
    var first := NetFold(l1, input, currentTime, learningRate, u1);
    if l2 == [] {
      assert l1 + l2 == l1;
      assert u1 + u2 == u1;
    } else {
      var k := |l2| - 1;
      var n := |l1| + k;
      ChainPrefix(l1 + l2, |input|, u1 + u2, n);
      assert (l1 + l2)[..n] == l1 + l2[..k];
      assert (u1 + u2)[..n] == u1 + u2[..k];
      ChainPrefix(l2, |first.out|, u2, k);
      NetFoldComposes(l1, l2[..k], input, currentTime, learningRate, u1, u2[..k]);
      NetFoldPrefixStep(l1 + l2, input, currentTime, learningRate, u1 + u2, n);
      assert (l1 + l2)[..n + 1] == l1 + l2 && (u1 + u2)[..n + 1] == u1 + u2;
      assert (l1 + l2)[n] == l2[k] && (u1 + u2)[n] == u2[k];
      NetFoldPrefixStep(l2, first.out, currentTime, learningRate, u2, k);
      assert l2[..k + 1] == l2 && u2[..k + 1] == u2;
      var mid := NetFold(l2[..k], first.out, currentTime, learningRate, u2[..k]);
      var lt := LayerStep(l2[k], mid.out, currentTime, learningRate, u2[k]);
      assert first.next + (mid.next + [lt.next]) == (first.next + mid.next) + [lt.next];
    }
  }

  class Network {
    const layers: seq<Layer>

    constructor NewNetwork(layers: seq<Layer>)
      ensures this.layers == layers
    {
      this.layers := layers;
    }

    /** Every neuron of every layer. */
    ghost function Repr(): (r: set<object>)
      ensures forall a, i :: 0 <= a < |layers| && 0 <= i < |layers[a].neurons| ==> layers[a].neurons[i] in r
    {
      set a, i | 0 <= a < |layers| && 0 <= i < |layers[a].neurons| :: layers[a].neurons[i]
    }

    /** No neuron is shared, within a layer or between two layers. */
    predicate Valid()
    {
      && (forall a :: 0 <= a < |layers| ==> layers[a].Valid())
      && (forall a, b, i, j :: 0 <= a < b < |layers| && 0 <= i < |layers[a].neurons| && 0 <= j < |layers[b].neurons| ==>
            layers[a].neurons[i] != layers[b].neurons[j])
    }

    /** Stepping layer a touches no neuron of another layer. */
    lemma LayersDisjoint(a: nat)
      requires Valid() && a < |layers|
      ensures forall b, o :: 0 <= b < |layers| && b != a && o in layers[b].neurons ==> o !in layers[a].neurons
    {
      forall b, o | 0 <= b < |layers| && b != a && o in layers[b].neurons
        ensures o !in layers[a].neurons
      {
        var j :| 0 <= j < |layers[b].neurons| && layers[b].neurons[j] == o;
        forall i | 0 <= i < |layers[a].neurons|
          ensures layers[a].neurons[i] != layers[b].neurons[j]
        {
          if a < b { } else { }
        }
      }
    }

    /** The states of all neurons, layer by layer. */
    function States(): (r: seq<seq<NeuronState>>)
      reads Repr()
      ensures |r| == |layers|
      ensures forall a :: 0 <= a < |layers| ==> r[a] == layers[a].States()
    {
      seq(|layers|, a reads Repr() requires 0 <= a < |layers| => layers[a].States())
    }

    /** One iteration of the loop of Forward: layer a is stepped, and every
        other layer keeps its state. */
    method StepLayer(a: nat, x: seq<real>, currentTime: int, learningRate: real, u: seq<real>) returns (spikes: seq<int>)
      requires Valid() && a < |layers| && Accepts(layers[a].States(), |x|) && DrawsFor(layers[a].States(), u)
      modifies layers[a].neurons
      ensures layers[a].States() == LayerStep(old(layers[a].States()), x, currentTime, learningRate, u).next
      ensures spikes == LayerStep(old(layers[a].States()), x, currentTime, learningRate, u).spikes
      ensures forall b :: 0 <= b < |layers| && b != a ==> layers[b].States() == old(layers[b].States())
    {
      LayersDisjoint(a);
      spikes := layers[a].Forward(x, currentTime, learningRate, u);
      forall b | 0 <= b < |layers| && b != a
        ensures layers[b].States() == old(layers[b].States())
      {
        assert unchanged(layers[b].neurons);
      }
    }

    /** The layer states and the loop variable of Forward after its first
        a iterations, for the layer states s0 Forward started from. */
    ghost predicate SteppedUpTo(s0: seq<seq<NeuronState>>, input: seq<real>, currentTime: int, learningRate: real, us: seq<seq<real>>, a: nat, x: seq<real>, acc: NetTick)
      reads Repr()
      requires Chain(s0, |input|) && NetDraws(s0, us) && a <= |s0| == |layers|
    {
      && acc == NetFoldUpTo(s0, input, currentTime, learningRate, us, a)
      && x == acc.out && |acc.next| == a
      && (forall b :: 0 <= b < a ==> layers[b].States() == acc.next[b])
      && (forall b :: a <= b < |layers| ==> layers[b].States() == s0[b])
    }

    /** One iteration of the loop of Forward: layer a is stepped on the
        previous layer's spikes, as reals. */
    method Advance(ghost s0: seq<seq<NeuronState>>, input: seq<real>, currentTime: int, learningRate: real, us: seq<seq<real>>, a: nat, x: seq<real>, ghost acc: NetTick)
      returns (y: seq<real>, ghost acc': NetTick)
      requires Valid() && Chain(s0, |input|) && NetDraws(s0, us) && a < |s0| == |layers|
      requires SteppedUpTo(s0, input, currentTime, learningRate, us, a, x, acc)
      modifies layers[a].neurons
      ensures SteppedUpTo(s0, input, currentTime, learningRate, us, a + 1, y, acc')
    {
      NetFoldUpToStep(s0, input, currentTime, learningRate, us, a);
      var spikes := StepLayer(a, x, currentTime, learningRate, us[a]);
      y := FloatSlice(spikes);
      acc' := NetTick(acc.next + [layers[a].States()], y);
    }

    /** Network.Forward(input, currentTime, learningRate): every layer is
        stepped on the previous layer's spikes, and the last spikes are
        returned as integers. */
    method Forward(input: seq<real>, currentTime: int, learningRate: real, us: seq<seq<real>>) returns (output: seq<int>)
      requires Valid() && Chain(States(), |input|) && NetDraws(States(), us)
      modifies Repr()
      ensures States() == NetFold(old(States()), input, currentTime, learningRate, us).next
      ensures output == NetForward(old(States()), input, currentTime, learningRate, us)
    {
      ghost var s0 := States();
      ghost var acc := NetFoldUpTo(s0, input, currentTime, learningRate, us, 0);
      var x := input;
      for a := 0 to |layers|
        invariant SteppedUpTo(s0, input, currentTime, learningRate, us, a, x, acc)
      {
        x, acc := Advance(s0, input, currentTime, learningRate, us, a, x, acc);
      }
      SteppedAll(s0, input, currentTime, learningRate, us, x, acc);
      output := IntSlice(x);
    }

    /** After the last iteration the loop has computed the whole fold. */
    lemma SteppedAll(s0: seq<seq<NeuronState>>, input: seq<real>, currentTime: int, learningRate: real, us: seq<seq<real>>, x: seq<real>, acc: NetTick)
      requires Chain(s0, |input|) && NetDraws(s0, us) && |s0| == |layers|
      requires SteppedUpTo(s0, input, currentTime, learningRate, us, |layers|, x, acc)
      ensures States() == NetFold(s0, input, currentTime, learningRate, us).next
      ensures x == NetFold(s0, input, currentTime, learningRate, us).out
    {
      assert s0[..|layers|] == s0 && us[..|layers|] == us;
      assert forall b :: 0 <= b < |layers| ==> States()[b] == acc.next[b];
    }
  }
}
