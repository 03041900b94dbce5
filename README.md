# TinyBrain spiking network kernel in Dafny

This project models the simulation kernel of TinyBrain, a small Go
spiking-neural-network program, and proves properties of the model. Its
neurons are leaky integrate-and-fire units. Each neuron has a refractory
countdown and timing-based plasticity. Layers fan one input vector out to
every neuron, and a network feeds each layer's spike vector to the next.

The repository has two variants of the kernel, and both are modelled.

- **Root `metal` package**:
  - `Synapse`, the Connection record and `clamp`, shared by both variants;
  - `MetalNeuron`, whose update rule has an adaptive threshold, embedded
    potentiation and depression scaled by a saturation guard, and bias
    nudging;
  - `MetalLayer`, which fans out to the neurons;
  - `MetalNetwork`, the layer fold with `floatSlice`/`intSlice`.
- **`go/sim/metal` package**:
  - `SimNeuron`: inhibition applied first, integration of the weights of
    the active lines only, and a separate STDP `UpdateWeights`;
  - `SimLayer`: stepping, winner-take-all lateral inhibition through the
    layer's largest potential, and the 0/1 output vector;
  - `SimNetwork`: the layer fold, the network-wide weight update and the
    squared-error `ComputeLoss`. `Squares` holds the sign facts of the
    squared differences.
- **Helpers and drivers**:
  - `Utils` (utils/utils.go): `calculateConsistency`, the metrics of
    `CheckClassification`, `generatePatternSeries` and `makeTimeAxis`;
  - `Driver` (main.go): `clipWeights`, the A/B pattern schedule,
    `createNewNetwork` and the 100-tick training loop;
  - `SimDriver` (go/sim/main.go): `generateSpikeTrain`, the pattern/row
    indexing, `createNewNetwork` and the 500-tick simulation loop.

Go mutates neurons, layers and networks in place, so they are Dafny classes.

- Each neuron class has a `State()` snapshot, a `NeuronState` datatype holding
  every field of the Go struct.
- The update rule is also a pure function on snapshots: `Step`, `LayerStep`,
  `NetFold`, `Update`, `LayerUpdate` or `NetUpdate`.
- Every method is proved to leave its object in the state that function
  computes from the old state.
- The properties of the rule are lemmas about those functions.
- A layer's neurons and a network's layers are sequences of objects. `Valid()`
  says that no neuron is shared, as holds for Go slices of structs.

Parameters stand in for the randomness and for math.Exp:

- Every `rand.Float64()` result is a parameter: a real in [0, 1), given as a
  draw or a sequence of draws.
- Every `rand.Intn(3)` result is a parameter in 0..2.
- `math.Exp` is a parameter function `exp`. Where a sign matters, it is
  required to be positive.

Go's float64 division does not panic on a zero divisor. In `Utils` it gives
NaN or an infinity, and the model shows this with a `Float` datatype
(`Finite`, `NaN`, `PosInf`, `NegInf`). A single-row history in
`calculateConsistency` therefore gives NaN there; no precondition excludes
it. Elsewhere potentials and weights are unbounded `real`s. A Go panic (a
size mismatch, an index out of range, an integer division by zero) becomes a
precondition.

Some behaviours of the code a reader may not expect:

- The root neuron integrates `input * weight` over every line. The sim neuron
  adds only `weight`, and only for the lines whose input is positive.
  Neither adds `input * weight` over the positive lines only.
- The sim neuron subtracts its inhibition before the refractory test, so
  inhibition acts during the refractory period too.
- Neither variant clears `Fired` on a tick that is not refractory and does
  not fire. A stale `true` persists until the next refractory tick.
  `SimNeuron.StepFiredMeansSpiked` and `SimLayer.LayerOutputsAreSpikes` show
  that a refractory period of at least one tick keeps the flag accurate
  nonetheless.
- The neurons built by main.go leave the bias bounds at 0. The bias drawn in
  [-0.3, 0.3) is therefore replaced by 0 on the first tick outside the
  refractory period (`Driver.FirstTickClearsBias`).

The root package's call sites disagree with its own signatures: metal/network.go:15 calls `layer.Forward(input)` with one argument. The model's
`MetalNetwork.Network.Forward` passes `(currentTime, learningRate)` to every
layer, as main.go:101 calls it. go/sim/main.go imports the root package but
calls `Forward(pattern, t)` and `UpdateWeights(t, 0.01)`, which exist only
in `go/sim/metal`. `SimDriver` is therefore modelled against the sim
package.

## Model

| member | source | states |
|---|---|---|
| Synapse.Clamp | metal/neuron.go:135-143 | with lo <= hi the result lies in [lo, hi]; a value already in range is returned unchanged (the same function is go/sim/metal/neuron.go:116-124) |
| Synapse.ClampIdempotent | metal/neuron.go:135-143 | clamping a clamped value changes nothing |
| Synapse.ClampMonotone | go/sim/metal/neuron.go:116-124 | clamp preserves the order of its arguments |
| MetalNeuron.Noise | metal/neuron.go:81 | the symmetry-breaking term lies in [-0.025, 0.025) for every draw in [0, 1) |
| MetalNeuron.WeightedSumOfSilence | metal/neuron.go:73-78 | lines carrying 0 add nothing to the weighted sum |
| MetalNeuron.ScaleInUnitInterval | metal/neuron.go:97 | with MaxWeight > 0 and an in-bounds weight the saturation guard 1 - abs(w)/MaxWeight lies in [0, 1] |
| MetalNeuron.Step | metal/neuron.go:58-133 | Forward returns 0 or 1, keeps the number of connections, and never writes threshold, decay, refractory period or the weight and bias bounds |
| MetalNeuron.StepWhileRefractory | metal/neuron.go:64-69 | while the timer is positive: returns 0, clears Fired, decrements the timer by exactly 1, multiplies the potential by Decay, and leaves connections, bias, adaptive threshold and spike time unchanged |
| MetalNeuron.StepStampsEveryConnection | metal/neuron.go:74-77 | outside the refractory period every connection's LastPreSpike becomes currentTime, whatever its input |
| MetalNeuron.StepOnFiring | metal/neuron.go:84-112 | returns 1 iff not refractory and the integrated potential is >= Threshold + AdaptiveThreshold; firing sets the potential to exactly 0, the timer to RefractoryPeriod, LastSpikeTime and every LastPostSpike to currentTime and Fired to true; raises AdaptiveThreshold by exactly 0.1; and lowers the bias by lr*0.1, clamped |
| MetalNeuron.StepOnSilence | metal/neuron.go:115-132 | a silent tick outside the refractory period returns 0 and keeps the integrated potential; it multiplies AdaptiveThreshold by 0.9 and sets the bias to clamp(bias + lr*0.05); it writes neither Fired, the timer, the spike time nor any LastPostSpike |
| MetalNeuron.StepKeepsBounds | metal/neuron.go:94-131 | given ordered bounds: lines with input <= 0 keep their weight; outside the refractory period every active weight and the bias end within their bounds; in-bounds weights stay in bounds |
| MetalNeuron.PotentiationRaises | metal/neuron.go:97-102 | with lr >= 0, MaxWeight > 0 and MinWeight = -MaxWeight, potentiation of an in-bounds weight never lowers it |
| MetalNeuron.DepressionLowers | metal/neuron.go:122-126 | under the same conditions, depression of an in-bounds weight never raises it |
| MetalNeuron.FireNeverLowers | metal/neuron.go:94-105 | the potentiation loop lowers no in-bounds weight |
| MetalNeuron.RestNeverRaises | metal/neuron.go:119-128 | the depression loop raises no in-bounds weight |
| MetalNeuron.StepPlasticityDirection | metal/neuron.go:94-127 | a firing tick never lowers an in-bounds weight and a returned 0 never raises one |
| MetalNeuron.Run | metal/neuron.go:58-133 | consecutive calls of Forward return one spike per tick |
| MetalNeuron.RefractoryQuiet | metal/neuron.go:64-69 | a neuron whose timer is at least the run length returns 0 on every tick of the run |
| MetalNeuron.RefractoryAfterFiring | metal/neuron.go:64-91 | after a spike the neuron returns 0 on each of the next RefractoryPeriod ticks |
| MetalNeuron.InitialConnections | metal/neuron.go:36-42 | exactly k connections, each with weight 0.5 and LastPreSpike -100 |
| MetalNeuron.SpikingNeuron.NewSpikingNeuron | metal/neuron.go:31-56 | the neuron has k such connections, AdaptiveThreshold 0, weight bounds [-1.5, 1.5], bias bounds [-1, 1], timer 0 and the given threshold, decay, bias and period |
| MetalNeuron.SpikingNeuron.Forward | metal/neuron.go:58-133 | the in-place update leaves exactly the state Step computes and returns its spike |
| MetalNeuron.SpikingNeuron.Settle | metal/neuron.go:84-132 | the threshold test and the firing or silent branch, in place |
| MetalNeuron.SpikingNeuron.Integrate | metal/neuron.go:72-78 | the loop returns the weighted sum and stamps every connection with currentTime |
| MetalNeuron.SpikingNeuron.ApplyPotentiation | metal/neuron.go:94-105 | the loop potentiates the active lines and stamps every LastPostSpike |
| MetalNeuron.SpikingNeuron.ApplyDepression | metal/neuron.go:119-128 | the loop depresses exactly the active lines |
| MetalLayer.LayerStep | metal/layer.go:13-25 | the spike vector has one entry in {0, 1} per neuron, and the neurons keep their fan-in |
| MetalLayer.LayerStepIsPointwise | metal/layer.go:18-20 | neuron i's new state and spikes[i] are what Forward on neuron i alone gives |
| MetalLayer.StepInOrderSteps | metal/layer.go:16-22 | after any schedule of distinct indexes, exactly the scheduled neurons have been stepped once, each from its own prior state |
| MetalLayer.OrderIrrelevant | metal/layer.go:16-22 | every order that steps each neuron once ends in the state of the index-order loop |
| MetalLayer.Layer.NewLayer | metal/layer.go:9-11 | the layer holds exactly the given neurons |
| MetalLayer.Layer.Forward | metal/layer.go:13-25 | every neuron is stepped with the same inputs, time and rate; the layer ends in LayerStep's state and returns its spikes |
| MetalNetwork.FloatSlice | metal/network.go:20-26 | keeps the length and every value |
| MetalNetwork.IntSlice | metal/network.go:28-38 | keeps the length; entry i is 1 iff v >= 1, else 0 |
| MetalNetwork.IntSliceUndoesFloatSlice | metal/network.go:20-38 | intSlice(floatSlice(xs)) == xs for every 0/1 vector xs |
| MetalNetwork.IntSliceStable | metal/network.go:20-38 | intSlice(floatSlice(intSlice(v))) == intSlice(v) |
| MetalNetwork.NetFold | metal/network.go:13-17 | with no layers the loop leaves its input; otherwise the result is 0/1 with the last layer's width |
| MetalNetwork.NetFoldPrefixStep | metal/network.go:14-16 | the fold over a + 1 layers steps layer a on the output of the first a layers |
| MetalNetwork.NetFoldKeepsChain | metal/network.go:14-16 | after a tick the layers keep their widths and fan-ins, so the network can be stepped again |
| MetalNetwork.NetForwardShape | metal/network.go:13-18 | with no layers Forward returns intSlice(input); otherwise it returns the last layer's 0/1 spikes on what the earlier layers produced |
| MetalNetwork.NetFoldComposes | metal/network.go:14-16 | Forward over L1 ++ L2 equals L2 stepped on L1's result |
| MetalNetwork.Network.StepLayer | metal/network.go:15 | one layer is stepped and no other layer changes |
| MetalNetwork.Network.Advance | metal/network.go:14-16 | one iteration of the loop extends the fold by one layer |
| MetalNetwork.Network.NewNetwork | metal/network.go:9-11 | the network holds exactly the given layers |
| MetalNetwork.Network.Forward | metal/network.go:13-18 | the network ends in NetFold's state and returns NetForward's output |
| SimNeuron.Noise | go/sim/metal/neuron.go:68 | the symmetry-breaking term lies in [-0.05, 0.05) |
| SimNeuron.ActiveSumOfSilence | go/sim/metal/neuron.go:59-64 | lines with input <= 0 add nothing |
| SimNeuron.ActiveSumCoversLine | go/sim/metal/neuron.go:59-64 | with non-negative weights the sum is at least the weight of any active line |
| SimNeuron.ActiveSumNonNegative | go/sim/metal/neuron.go:59-64 | with non-negative weights the sum is non-negative |
| SimNeuron.Step | go/sim/metal/neuron.go:38-74 | Forward never changes the weights, any LastPostSpike, the bias, threshold, decay, period or bounds |
| SimNeuron.StepAppliesInhibition | go/sim/metal/neuron.go:43-45 | Inhibition is subtracted and then scaled by 0.8 on every call, refractory or not |
| SimNeuron.StepWhileRefractory | go/sim/metal/neuron.go:48-53 | while refractory: Fired cleared, timer decremented by 1, the inhibited potential multiplied by Decay, connections and spike time unchanged |
| SimNeuron.StepStampsActiveLines | go/sim/metal/neuron.go:59-64 | only lines with input > 0 get LastPreSpike = currentTime; the others are untouched |
| SimNeuron.StepOnFiring | go/sim/metal/neuron.go:70-81 | fires iff not refractory and the integrated potential is >= Threshold; firing resets the potential to 0, the timer to RefractoryPeriod, LastSpikeTime to currentTime and sets Fired; otherwise Fired, timer and spike time are kept |
| SimNeuron.StepFiredIff | go/sim/metal/neuron.go:70-74 | from Fired = false, Fired after the tick iff the neuron spiked on it |
| SimNeuron.StepFiredMeansSpiked | go/sim/metal/neuron.go:48-81 | with a period >= 1 and Fired only while refractory, Fired after the tick iff the neuron spiked on it, and the condition is kept |
| SimNeuron.Update | go/sim/metal/neuron.go:83-107 | UpdateWeights changes nothing but the connections, and keeps their number |
| SimNeuron.UpdateKeepsBounds | go/sim/metal/neuron.go:99-100 | after UpdateWeights every weight lies in [MinWeight, MaxWeight] |
| SimNeuron.UpdateStampsPost | go/sim/metal/neuron.go:102-105 | every LastPostSpike becomes currentTime iff Fired; no LastPreSpike changes |
| SimNeuron.StdpDirection | go/sim/metal/neuron.go:88-97 | with lr > 0 and exp > 0, delta-t > 0 raises, delta-t < 0 lowers, and delta-t = 0 keeps the weight before the clamp |
| SimNeuron.UpdateDirection | go/sim/metal/neuron.go:88-100 | for an in-bounds weight: delta-t > 0 never lowers it, delta-t < 0 never raises it, and delta-t = 0 leaves it equal to its clamp |
| SimNeuron.SurrogateGradient | go/sim/metal/neuron.go:110-114 | the gradient equals exp(0) when the potential sits at the threshold, and lies in (0, 1] whenever exp maps the non-positive reals into (0, 1] |
| SimNeuron.SurrogateGradientSymmetric | go/sim/metal/neuron.go:110-114 | the surrogate gradient is symmetric about the threshold |
| SimNeuron.SpikingNeuron.Forward | go/sim/metal/neuron.go:38-74 | the in-place update leaves exactly the state Step computes |
| SimNeuron.SpikingNeuron.Excite | go/sim/metal/neuron.go:55-73 | decay, integration, bias, noise and the threshold test, in place |
| SimNeuron.SpikingNeuron.Integrate | go/sim/metal/neuron.go:59-64 | the loop adds the weights of the active lines and stamps exactly those lines |
| SimNeuron.SpikingNeuron.Spike | go/sim/metal/neuron.go:76-81 | spike(currentTime) in place |
| SimNeuron.SpikingNeuron.UpdateWeights | go/sim/metal/neuron.go:83-107 | the loop leaves exactly the state Update computes |
| SimLayer.Stepped | go/sim/metal/layer.go:16-18 | every neuron stepped with the same inputs keeps its fan-in |
| SimLayer.MaxPotential | go/sim/metal/layer.go:21-26 | maxPotential is >= 0, >= every potential, and is 0 or some neuron's potential |
| SimLayer.Outputs | go/sim/metal/layer.go:28-36 | one entry per neuron, each 0.0 or 1.0, and 1.0 iff the neuron reports Fired |
| SimLayer.LayerStep | go/sim/metal/layer.go:12-39 | the output has one 0/1 entry per neuron, and the fan-in is kept |
| SimLayer.LayerStepAt | go/sim/metal/layer.go:16-36 | neuron i ends as its own step left it except for Inhibition; output i is 1.0 iff it fired; a fired neuron's Inhibition is exactly 0.8 times a maximum that is >= 0 and >= every stepped potential, and the Inhibition of a neuron that did not fire is kept |
| SimLayer.FiredNeuronsInhibitedByMaximum | go/sim/metal/layer.go:21-32 | a neuron with output 1.0 receives Inhibition >= 0 and >= 0.8 times every neuron's stepped potential |
| SimLayer.LayerOutputsAreSpikes | go/sim/metal/layer.go:28-36 | with periods >= 1 and no stale Fired, output i is 1.0 iff neuron i spiked on this tick, and the condition is kept |
| SimLayer.LayerUpdateKeepsBounds | go/sim/metal/layer.go:41-45 | after UpdateWeights every neuron with ordered bounds has all weights within them |
| SimLayer.Layer.NewLayer | go/sim/metal/layer.go:8-10 | the layer holds exactly the given neurons |
| SimLayer.Layer.Forward | go/sim/metal/layer.go:12-39 | the three loops leave the layer in LayerStep's state and return its outputs |
| SimLayer.Layer.StepAll | go/sim/metal/layer.go:16-18 | every neuron is stepped in index order |
| SimLayer.Layer.FindMaxPotential | go/sim/metal/layer.go:21-26 | the accumulator loop returns MaxPotential of the layer |
| SimLayer.Layer.ApplyInhibition | go/sim/metal/layer.go:28-36 | fired neurons get the inhibition, and the loop returns their 0/1 outputs |
| SimLayer.Layer.UpdateWeights | go/sim/metal/layer.go:41-45 | every neuron's UpdateWeights, in order |
| SimNetwork.NetFold | go/sim/metal/network.go:12-17 | with no layers Forward returns its input unchanged; otherwise the result is 0/1 with the last layer's width |
| SimNetwork.NetFoldPrefixStep | go/sim/metal/network.go:13-15 | layer a receives exactly the output of the first a layers |
| SimNetwork.NetFoldLast | go/sim/metal/network.go:12-17 | Forward returns the last layer's outputs on what the layers before it produced |
| SimNetwork.NetFoldKeepsChain | go/sim/metal/network.go:13-15 | after a tick the layers keep widths and fan-ins |
| SimNetwork.NetFoldComposes | go/sim/metal/network.go:13-15 | Forward over L1 ++ L2 is L2 stepped on L1's result |
| SimNetwork.NetUpdateKeepsBoundsAndChain | go/sim/metal/network.go:19-23 | after UpdateWeights the weight bounds hold network-wide, and the fan-ins are kept |
| SimNetwork.LossNonNegative | go/sim/metal/network.go:26-34 | the loss is >= 0 |
| SimNetwork.LossZeroIff | go/sim/metal/network.go:29-32 | the loss is 0 iff target[i] equals neuron i's surrogate gradient for every last-layer neuron |
| SimNetwork.LossIgnoresExtraTargets | go/sim/metal/network.go:28-33 | target entries beyond the last layer's size do not change the loss |
| SimNetwork.Network.StepLayer | go/sim/metal/network.go:14 | one layer is stepped and no other changes |
| SimNetwork.Network.Advance | go/sim/metal/network.go:13-15 | one iteration of the loop extends the fold by one layer |
| SimNetwork.Network.NewNetwork | go/sim/metal/network.go:8-10 | the network holds exactly the given layers |
| SimNetwork.Network.Forward | go/sim/metal/network.go:12-17 | the network ends in NetFold's state and returns its output |
| SimNetwork.Network.UpdateLayer | go/sim/metal/network.go:21 | one layer is updated and no other changes |
| SimNetwork.Network.UpdateWeights | go/sim/metal/network.go:19-23 | every layer is updated; the network ends in NetUpdate's state |
| SimNetwork.Network.ComputeLoss | go/sim/metal/network.go:26-34 | the loop returns the squared error over the last layer and changes nothing |
| Utils.RowMatchesFull | utils/utils.go:72-76 | the matches of one row number at most len(base), and equal it iff the row equals the base there |
| Utils.MatchSumFull | utils/utils.go:71-77 | the sum is at most (len-1)*len(row 0), with equality iff every later row equals row 0 |
| Utils.Quot | utils/utils.go:78 | float division: finite iff the divisor is non-zero, then q*b == a; NaN iff 0/0 |
| Utils.Add | utils/utils.go:46 | float addition is finite iff both operands are, and NaN propagates |
| Utils.Mul | utils/utils.go:46 | float multiplication is finite iff both operands are, and NaN propagates |
| Utils.Half | utils/utils.go:46 | division by 2 keeps finiteness and NaN, and doubles back to its operand |
| Utils.ConsistencyRange | utils/utils.go:64-79 | an empty history gives 0; NaN iff exactly one row or an empty row 0; otherwise a finite value in [0, 1] |
| Utils.ConsistencyOneIff | utils/utils.go:69-78 | with >= 2 rows and a non-empty row 0, the result is 1 iff every row equals row 0 |
| Utils.CalculateConsistency | utils/utils.go:64-79 | the nested loops compute matches / ((len-1)*len(row 0)); see ConsistencyRange |
| Utils.RowDiffCountsDifferences | utils/utils.go:36-40 | for 0/1 rows the sum of abs(a-b) is the number of differing positions |
| Utils.DiffSumCountsDifferences | utils/utils.go:29-41 | diffSum counts the differing positions over all trials |
| Utils.DiffSumAtMost | utils/utils.go:36-40 | diffSum is at most trials * len(patternA) |
| Utils.AvgDiffRange | utils/utils.go:43 | no trials gives NaN; otherwise avgDiff is finite and in [0, 1] for 0/1 outputs |
| Utils.ClassifyNoTrials | utils/utils.go:43-53 | with no trials: not differentiated, consistency 0, and a NaN separation score |
| Utils.ClassifyBounds | utils/utils.go:43-53 | with >= 2 trials of 0/1 outputs: every metric is finite, consistencies are in [0, 1], 0 <= separation <= avgDiff, and PatternDifferentiation iff avgDiff > 0.5 |
| Utils.CheckClassification | utils/utils.go:24-62 | the loops and arithmetic give avgDiff > 0.5, both consistencies and avgDiff*(cA+cB)/2 |
| Utils.GeneratePatternSeries | utils/utils.go:143-157 | exactly 1000 entries; entry t is 0 iff patterns[(t/interval) % len] == highlight, and nil otherwise |
| Utils.ParseDecimalString | utils/utils.go:138 | the decimal string of i reads back as i |
| Utils.DecimalStringDigits | utils/utils.go:138 | it is a non-empty string of digits, with no leading zero |
| Utils.DecimalStringInjective | utils/utils.go:138 | different numbers give different strings |
| Utils.MakeTimeAxis | utils/utils.go:135-141 | length n, and entry i is the decimal string of i |
| Driver.ClipWeightIsClamp | main.go:131-136 | with min <= max the clip is clamp: the result lies in [min, max], and an in-range weight is unchanged |
| Driver.ClipWeightInvertedBounds | main.go:131-136 | with min > max every weight ends at max, unlike clamp |
| Driver.ClipWeightIdempotent | main.go:131-136 | clipping twice is clipping once, whatever the bounds |
| Driver.ClipAllProperties | main.go:129-138 | keeps the connection count and every spike stamp; with min <= max all weights get into [min, max] and in-range weights are unchanged; idempotent |
| Driver.ClipWeights | main.go:129-138 | the loop changes only the weights of the connections, to ClipAll of the old ones |
| Driver.Pattern | main.go:91-98 | every tick feeds an 8-line input |
| Driver.LabelNamesPattern | main.go:92-98 | the label is "A" iff pattern A is fed, and "B" iff pattern B |
| Driver.ScheduleOfTraining | main.go:90-98 | over the 100 ticks, pattern A is used iff t < 50 |
| Driver.PatternsAlternate | main.go:93 | 50 ticks later the other pattern is used |
| Driver.InitialNeuronRanges | main.go:30-43 | weights in [0.1, 0.5), bias in [-0.3, 0.3), threshold in [1.0, 1.5), decay in [0.7, 0.9), period 2 to 4, and the weights within [-1.5, 1.5] |
| Driver.InitialNetworkChained | main.go:15-47 | 8 layers of 8 neurons; each fan-in equals the previous layer's width, so the size check never fires |
| Driver.BiasCollapses | main.go:34-43 | with bias bounds 0, every non-refractory tick sets the bias to 0 and a refractory tick keeps it |
| Driver.FirstTickClearsBias | main.go:34-43 | a neuron of createNewNetwork has bias 0 after its first tick |
| Driver.CreateNeuron | main.go:27-43 | a fresh neuron holding the struct literal's state |
| Driver.CreateLayer | main.go:20-45 | a fresh layer of fresh, distinct neurons |
| Driver.CreateNewNetwork | main.go:15-48 | a fresh network sharing no neuron, with the initial states |
| Driver.Train | main.go:90-117 | the training ticks keep the network chained and shaped, and there is one output per tick |
| Driver.TrainStep | main.go:90-101 | tick t runs Forward(Pattern(t), t, 0.05) on the states the earlier ticks left |
| Driver.NetForwardIsSpikes | main.go:101 | Forward returns a 0/1 entry for every neuron of the last layer |
| Driver.TrainOutputsAreSpikes | main.go:90-117 | every recorded output is a 0/1 vector of the last layer's width |
| Driver.TrainNetwork | main.go:90-117 | the loop leaves the network in Train's state and returns its outputs |
| Driver.TrainFreshNetwork | main.go:50-127 | main: the fresh network trained for 100 ticks |
| SimDriver.SpikeTrainShape | go/sim/main.go:51-63 | each row has len(pattern) entries in {0, 1}; an entry is 1 iff the draw is < rate; rate >= 1 always gives 1 and rate <= 0 always gives 0 |
| SimDriver.GenerateSpikeTrain | go/sim/main.go:51-63 | the nested loops return SpikeTrain of the draws, one row per timestep |
| SimDriver.Input | go/sim/main.go:99-100 | the selected row has 8 lines |
| SimDriver.ScheduleAlternates | go/sim/main.go:99-100 | patternIdx is in [0, 2) and the row is in [0, 50); 50 ticks later the other pattern is fed, at the same row |
| SimDriver.GeneratedPatternsOk | go/sim/main.go:93-96 | the two trains are 50 rows of 8 lines |
| SimDriver.InitialNeuronRanges | go/sim/main.go:28-43 | weights in [0.5, 1.0), within the bounds [-1, 2], with every spike stamp 0 |
| SimDriver.InitialNetworkChained | go/sim/main.go:15-47 | 3 layers of 32 neurons with fan-ins 8, 32 and 32, each equal to the previous layer's width |
| SimDriver.FirstTickKeepsWeights | go/sim/main.go:28-33 | with zero stamps, delta-t is 0 in the first UpdateWeights, so in-bounds weights are unchanged |
| SimDriver.CreateNeuron | go/sim/main.go:27-43 | a fresh neuron holding the struct literal's state |
| SimDriver.CreateLayer | go/sim/main.go:20-45 | a fresh layer of fresh, distinct neurons |
| SimDriver.CreateNewNetwork | go/sim/main.go:15-48 | a fresh network sharing no neuron, with the initial states |
| SimDriver.Tick | go/sim/main.go:103-106 | a tick keeps the network chained and shaped; its output is Forward's, taken before UpdateWeights |
| SimDriver.TickKeepsBounds | go/sim/main.go:103-106 | after a tick, every neuron with ordered bounds has its weights within them |
| SimDriver.Simulation | go/sim/main.go:98-106 | n ticks keep the network chained and shaped and record n outputs |
| SimDriver.SimulationStep | go/sim/main.go:98-106 | tick n-1 runs Forward on row Input(n-1), then UpdateWeights(n-1, 0.01) |
| SimDriver.SimulationOutputsAreSpikes | go/sim/main.go:98-106 | every recorded output is a 0/1 vector of the last layer's width |
| SimDriver.SimulateTick | go/sim/main.go:99-106 | one iteration of the loop, in place |
| SimDriver.Simulate | go/sim/main.go:98-122 | the loop leaves the network in Simulation's state and returns its outputs |
| SimDriver.GeneratePatterns | go/sim/main.go:93-96 | the two trains of rates A and B |
| SimDriver.SimulateFresh | go/sim/main.go:65-125 | main: the fresh network and generated trains, simulated for 500 ticks |

## Left out

- File and console I/O are not modelled: the CSV traces, JSON Load/Save (go/sim/metal/save.go), the plots in tests/plot.go and go/sim/tests/plot.go, `fmt` output and `rand.Seed`.
- `VisualizeSpikeRaster`, `GenerateWeightHeatmap` and `PrintPatternClassification` in utils/utils.go are chart rendering and colouring, so they are not modelled.
- metal/accessors.go (trivial getters) and go/sim/models/neuron.go (type declarations only) are not part of this model.
- The goroutines and `sync.WaitGroup` of metal/layer.go are modelled as a sequential loop. `MetalLayer.OrderIrrelevant` shows that every serialisation gives the same state.
- IEEE rounding, overflow and signed zero are not modelled. Potentials and weights are exact reals.
- `MetalNeuron.Step` requires MaxWeight != 0, because the saturation guard divides by it (metal/neuron.go:97). Go would produce NaN or an infinity there.
- `SimNeuron.StdpDirection`, `SimNeuron.UpdateDirection` and `SimNetwork.Loss` treat `math.Exp` as a parameter function `exp`. No property of its values is used except positivity where a sign matters.
- Utils.CheckClassification: the `net.Forward` calls are replaced by given output histories. utils/utils.go:30 calls `net.Forward(patternA, i)`, a signature no network type of the repository has. The sums `outputASum` and `outputBSum` are never read, so they are omitted.
- Utils.GeneratePatternSeries: requires interval > 0, so it leaves out two non-positive intervals Go accepts without a panic: with a single pattern any negative interval works, because `x % 1` is 0 and every entry compares `patterns[0]`; and an interval of at most -1000 makes `t / interval` 0 for every t < 1000. Other negative intervals with several patterns give a negative index and panic; a zero interval panics too.
- Driver.TrainFreshNetwork: covers only the branch of main.go where loading fails and a new network is built. `Driver.TrainNetwork` covers training any chained network, which includes a loaded one.
- MetalNetwork.Network.Forward: follows main.go:101's three-argument call rather than metal/network.go:15's one-argument call.
- SimDriver.SimulateFresh: go/sim/main.go imports the root package, whose API lacks `Forward(pattern, t)` and `UpdateWeights`. It is modelled over the sim package that has them.
- The panics on a size mismatch and on indexing past a slice are preconditions, because no caller recovers from them.
