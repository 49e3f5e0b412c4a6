# Quantization explainer: the numeric core in Dafny

The explainer is a React site about model compression. Its pages draw
quantisation, pruning and distillation, and behind each drawing sits a small
computation. This project models those computations and proves what they
promise:

- **Quantizer** (`quantizer.dfy`): affine INT8 quantisation.
  - The scale and zero point come from a real range, in symmetric or asymmetric mode.
  - Quantise rounds and clamps into [-128, 127]; dequantise and the error follow from it.
  - The component's state (range, test value, mode and derived parameters) is a class.
  - The class has the slider setters, the parameter effect and the two presets.
- **Microscope** (`microscope.dfy`): the zoomed view.
  - The view is a window of ±1.5 steps around the input.
  - It holds the loop that lists the buckets visible in that window.
  - It snaps the input to its nearest code, with no clamp.
- **ErrorGraph** (`error_graph.dfy`): the transfer-function plot.
  - The padded value range and the mapX/mapY coordinate maps.
  - The bucket intervals and the staircase loop.
  - The clamped current code and the "significant error" marker.
- **TradeOff** (`tradeoff.dfy`): the trade-off simulator.
  - Piecewise accuracy and speedup curves.
  - The sampled polyline loop and the CPU/NPU toggle.
- **Pruning** (`matrix.dfy`): the 10×10 weight matrix.
  - Weight generation from a random source.
  - The k-th-smallest-magnitude threshold and the "pruned" predicate.
- **NetworkGraph** (`graph.dfy`): the [3, 4, 4, 2] network.
  - The node and edge construction loops.
  - The structured and unstructured node and edge masks.
- **Temperature** (`temperature.dfy`): the distillation lab.
  - Softmax with temperature, as percentages, over four fixed class scores.
  - The labels that switch on as the temperature rises.
- **Rounding** (`rounding.dfy`): the JavaScript rounding and clamping primitives shared by the others.
  - `Math.round` rounds ties toward +∞, so it is `Floor(x + 0.5)`.

All arithmetic is over exact `real`. `Math.exp`, `Math.sin` and `Math.cos` are parameters, constrained by requires clauses:

- exp is positive; strictly increasing where ranking is concerned; and turns sums into products where melting is concerned.
- sin and cos stay within [-1, 1].

`Math.random` is an input sequence.

### Notes on the code's behaviour

- The ReLU preset (asymmetric, range [0, 6], input 3.0) gives scale 6/255 and zero point -128.
  - In exact arithmetic 3.0 / (6/255) - 128 = -0.5, which rounds up to code 0.
  - `Quantizer.ReluPreset` proves that the preset's input lands on code 0.
- When the cut-off index of the pruning threshold falls outside the sorted magnitudes, the code falls back to a threshold of 0 (`|| 0`).
  - It does not fall back to the last magnitude.
  - The same fallback applies when the magnitude found there is itself 0.
  - With 100 weights the index is always inside for sparsity below 100. The fallback matters only for an empty weight list.
- The softmax divides each exp(score / T) by their sum directly, without first subtracting the maximum score. Over exact reals the result is the same.

## Model

| member | source | states |
|---|---|---|
| Rounding.Round | src/components/QuantizerVisual.jsx:46 | `Math.round` returns the unique integer within half a unit below and strictly less than half a unit above x, so ties go up |
| Rounding.RoundUnique | src/components/QuantizerVisual.jsx:46 | any integer in [x - 0.5, x + 0.5) is the rounding of x |
| Rounding.Clamp | src/components/QuantizerVisual.jsx:46 | `max(lo, min(hi, v))` lies in [lo, hi] and is v whenever v is already inside |
| Quantizer.ComputeParams | src/components/QuantizerVisual.jsx:21-43 | scale is positive for any non-empty range; symmetric: zero point 0 and 127·scale = max(abs(min), abs(max)); asymmetric: 255·scale = max - min, and the zero point puts min in the bucket of code -128, up to a tie |
| Quantizer.Quantize | src/components/QuantizerVisual.jsx:14-15 | the code always lies in [-128, 127]; it is the rounded code when that is in range, and -128 or 127 when the rounded code falls below or above |
| Quantizer.Dequantize | src/components/QuantizerVisual.jsx:49 | for a positive scale, the reconstruction is 0 exactly at the zero point and negative exactly below it |
| Quantizer.QuantError | src/components/QuantizerVisual.jsx:52 | an input clamped at code 127 is under-estimated by at least half a step, and one clamped at -128 over-estimated by more than half a step |
| Quantizer.ErrorIsScaledDistance | src/components/QuantizerVisual.jsx:49-52 | the error is scale times the distance from the code to x/scale + zero point |
| Quantizer.ErrorBound | src/components/QuantizerVisual.jsx:46-52 | when x/scale + zero point lies in [-128.5, 127.5], the error is at most half a step |
| Quantizer.ErrorBoundUnclamped | src/components/QuantizerVisual.jsx:46-52 | when the unclamped rounded code is in [-128, 127], the error is at most half a step |
| Quantizer.SymmetricErrorBoundInRange | src/components/QuantizerVisual.jsx:23-31 | with symmetric parameters, any input inside the range has an error of at most half a step |
| Quantizer.AsymmetricErrorBoundInRange | src/components/QuantizerVisual.jsx:32-40 | with asymmetric parameters, any input inside the range has an error of at most half a step |
| Quantizer.ErrorBoundInRange | src/components/QuantizerVisual.jsx:21-52 | in either mode, inputs inside the range are reconstructed to within half a step |
| Quantizer.QuantizeDequantize | src/components/QuantizerVisual.jsx:46-49 | every code in [-128, 127] is a fixed point: quantising its reconstruction returns it |
| Quantizer.ReconstructIdempotent | src/components/QuantizerVisual.jsx:46-49 | quantise-then-dequantise is idempotent |
| Quantizer.AsymmetricBoundaries | src/components/QuantizerVisual.jsx:38-39 | in asymmetric mode the range maximum maps to 127; the minimum maps to -128, or to -127 exactly when the zero point's rounding was a tie |
| Quantizer.WeightsPreset | src/components/QuantizerVisual.jsx:105-110 | the Weights preset gives scale 3.5/127 and zero point 0, and its input 0.5 maps to code 18 |
| Quantizer.ReluPreset | src/components/QuantizerVisual.jsx:117-122 | the ReLU preset gives scale 6/255 and zero point -128, and its input 3.0 maps to code 0 |
| Quantizer.QuantizerVisual.constructor | src/components/QuantizerVisual.jsx:8-19 | initial range [-3.5, 3.5], input 1.2, asymmetric mode, scale and zero point 0 |
| Quantizer.QuantizerVisual.SetMinVal | src/components/QuantizerVisual.jsx:152-160 | the minimum slider sets only minVal, within [-10, 0] |
| Quantizer.QuantizerVisual.SetMaxVal | src/components/QuantizerVisual.jsx:166-174 | the maximum slider sets only maxVal, within [0.1, 10] |
| Quantizer.QuantizerVisual.SetInputValue | src/components/QuantizerVisual.jsx:180-188 | the test slider sets only the input, within the current range |
| Quantizer.QuantizerVisual.SetMode | src/components/QuantizerVisual.jsx:84 | the mode toggle sets only the mode |
| Quantizer.QuantizerVisual.RecomputeParams | src/components/QuantizerVisual.jsx:21-43 | the effect writes exactly the parameters ComputeParams gives for the current range and mode; the scale is strictly positive under the slider domains; symmetric mode has zero point 0 |
| Quantizer.QuantizerVisual.ApplyWeightsPreset | src/components/QuantizerVisual.jsx:105-110 | the Weights button sets symmetric mode, range [-3.5, 3.5] and input 0.5 together |
| Quantizer.QuantizerVisual.ApplyReluPreset | src/components/QuantizerVisual.jsx:117-122 | the ReLU button sets asymmetric mode, range [0, 6] and input 3.0 together |
| Quantizer.QuantizerVisual.Quantized | src/components/QuantizerVisual.jsx:46 | the displayed code lies in [-128, 127] |
| Quantizer.QuantizerVisual.Error | src/components/QuantizerVisual.jsx:49-52 | once the parameters are current, the displayed error is the displayed reconstruction minus the input, and it is at most half a step whenever the input lies inside the range |
| Microscope.MapToPct | src/components/MicroscopeVisual.jsx:16 | the window's left edge maps to 0%, and every point of the window to a percentage in [0, 100] |
| Microscope.SnapQ | src/components/MicroscopeVisual.jsx:30 | the snapped code is the nearest code to x/S + Z, ties going up, with no clamp |
| Microscope.InputCentred | src/components/MicroscopeVisual.jsx:11-16 | the input always sits at 50% of the window |
| Microscope.WindowCodes | src/components/MicroscopeVisual.jsx:21-22 | with t = x/scale + zero point, the visible codes run from floor(t - 1.5) to ceil(t + 1.5) |
| Microscope.BucketCount | src/components/MicroscopeVisual.jsx:11-22 | the window always shows 4 or 5 buckets: 4 exactly when its edges fall on codes (t - 1.5 is an integer, with t = x/S + Z) and 5 otherwise |
| Microscope.SnapVisible | src/components/MicroscopeVisual.jsx:21-30 | the snapped code is one of the visible buckets |
| Microscope.SnapErrorBound | src/components/MicroscopeVisual.jsx:30-32 | because the snap is not clamped, its error is at most half a step for every input |
| Microscope.CollectBuckets | src/components/MicroscopeVisual.jsx:20-27 | the loop yields every code from minQ to maxQ in increasing order, each with the value scale·(q - zero point), and nothing when minQ > maxQ |
| Microscope.Render | src/components/MicroscopeVisual.jsx:6-32 | no view when the scale is 0; otherwise the input sits at 50%, the view has 4 or 5 buckets, the snapped code is among them with its bucket's value, and the error is at most half a step |
| ErrorGraph.GraphWindow | src/components/ErrorGraph.jsx:8-10 | the plotted range extends the value range by a tenth of its span on each side |
| ErrorGraph.MapX | src/components/ErrorGraph.jsx:15 | every real in the padded window lands on a horizontal coordinate in [0, 100] |
| ErrorGraph.MapY | src/components/ErrorGraph.jsx:16 | every real in the padded window lands on a vertical coordinate in [0, 100] |
| ErrorGraph.MapEndpoints | src/components/ErrorGraph.jsx:15-16 | mapX sends the range ends to 0 and 100 and mapY to 100 and 0; both are strictly monotone and affine; mapX + mapY = 100, so the ideal line is the diagonal |
| ErrorGraph.BucketGeometry | src/components/ErrorGraph.jsx:29-35 | bucket q has width scale, its dequantised value is its midpoint, and it ends where bucket q + 1 starts |
| ErrorGraph.RoundsIntoBucket | src/components/ErrorGraph.jsx:32-35 | an input rounds to q if and only if it lies in bucket q's half-open interval, so the drawn steps are the rounding's |
| ErrorGraph.StartQ | src/components/ErrorGraph.jsx:23 | the first drawn code is at least qMin |
| ErrorGraph.EndQ | src/components/ErrorGraph.jsx:24 | the last drawn code is at most qMax |
| ErrorGraph.StepX1 | src/components/ErrorGraph.jsx:38 | a step's left end is clamped to at least 0 |
| ErrorGraph.StepX2 | src/components/ErrorGraph.jsx:39 | a step's right end is clamped to at most 100 |
| ErrorGraph.SegmentsShape | src/components/ErrorGraph.jsx:42-51 | the path holds one horizontal segment per code and a vertical rise between consecutive codes, with none after the last |
| ErrorGraph.SegmentsClamped | src/components/ErrorGraph.jsx:38-50 | every line command of the staircase stays at x ≤ 100 |
| ErrorGraph.StepsRise | src/components/ErrorGraph.jsx:40-49 | each next step is drawn strictly higher on screen for a positive scale |
| ErrorGraph.Staircase | src/components/ErrorGraph.jsx:20-54 | the loop yields nothing when the code range is empty; otherwise one move followed by the segments, 2·(endQ - startQ + 1) commands in all, starting at x ≥ 0 and never passing x = 100 |
| ErrorGraph.PathShape | src/components/ErrorGraph.jsx:42-51 | a path made of the move and the segments has the expected length and stays inside the plot |
| ErrorGraph.CurrentQ | src/components/ErrorGraph.jsx:60 | the marker's code is clamped into [qMin, qMax] and equals the rounded code when that is inside |
| ErrorGraph.CurrentQIsQuantize | src/components/ErrorGraph.jsx:60 | with the INT8 bounds, the marker's code is exactly the quantiser's code |
| ErrorGraph.HasSignificantError | src/components/ErrorGraph.jsx:70-71 | with a positive step the marker never shows while the input equals the value it is drawn at |
| ErrorGraph.MarkerIffOffCode | src/components/ErrorGraph.jsx:60-71 | unless the code was clamped, the marker shows exactly when x/S + Z lies more than a tenth of a step from its nearest code |
| ErrorGraph.NoMarkerOnCodes | src/components/ErrorGraph.jsx:70-71 | an input that is exactly a representable value never shows the significant-error marker |
| TradeOff.UnstructuredAccuracyBounds | src/components/pruning/TradeOffGraph.jsx:19-22 | unstructured accuracy stays in [0, 100] on [0, 1] without a clamp and reaches 0 at x = 1 |
| TradeOff.StructuredAccuracyBounds | src/components/pruning/TradeOffGraph.jsx:24-26 | structured accuracy lies in [0, 100] and is 0 from x = 0.1 + 100/120 on |
| TradeOff.AccuracyNonIncreasing | src/components/pruning/TradeOffGraph.jsx:18-28 | both accuracy curves are non-increasing on [0, 1] |
| TradeOff.Accuracy | src/components/pruning/TradeOffGraph.jsx:18-28 | accuracy never exceeds 100, is exactly 100 below 10% sparsity in both modes, and is never negative in structured mode (the clamp) |
| TradeOff.BaseSpeedupMonotone | src/components/pruning/TradeOffGraph.jsx:41 | the base speedup 1/(1.05 - x) is positive, non-decreasing on [0, 1] and at most 20 |
| TradeOff.Speedup | src/components/pruning/TradeOffGraph.jsx:31-49 | the speedup is strictly positive and capped at 10 on every hardware; unstructured pruning gives exactly 1 whatever the hardware |
| TradeOff.SpeedupOrdering | src/components/pruning/TradeOffGraph.jsx:41-47 | the NPU never does worse than the CPU, and structured speedup never falls as x grows |
| TradeOff.GeneratePath | src/components/pruning/TradeOffGraph.jsx:52-62 | the loop samples exactly 101 points at x = i/100, whose plot x runs strictly upward from the padding to padding + graph width |
| TradeOff.AccuracyCurveInPlot | src/components/pruning/TradeOffGraph.jsx:53-68 | every plotted accuracy point lies within the plot's vertical extent |
| TradeOff.SpeedupCurveInPlot | src/components/pruning/TradeOffGraph.jsx:53-69 | every plotted speedup point lies in the plot, strictly above the baseline |
| TradeOff.TradeOffGraph.constructor | src/components/pruning/TradeOffGraph.jsx:6 | the hardware starts on CPU |
| TradeOff.TradeOffGraph.SetHardware | src/components/pruning/TradeOffGraph.jsx:83-92 | the buttons set the hardware |
| TradeOff.TradeOffGraph.CurrentAccuracy | src/components/pruning/TradeOffGraph.jsx:64-65 | the marker's accuracy lies in [0, 100] |
| TradeOff.TradeOffGraph.CurrentSpeedup | src/components/pruning/TradeOffGraph.jsx:64-66 | the marker's speedup lies in (0, 10] and is 1 in unstructured mode |
| Pruning.GenerateWeights | src/components/pruning/MatrixVisual.jsx:7-14 | the loop yields exactly 100 weights, each 2r - 1 of its random draw, hence each in [-1, 1) |
| Pruning.Magnitudes | src/components/pruning/MatrixVisual.jsx:22 | the magnitudes are index-aligned with the weights and never negative |
| Pruning.SortAscending | src/components/pruning/MatrixVisual.jsx:22 | the sorted magnitudes are sorted and a permutation of the input |
| Pruning.SortedUnique | src/components/pruning/MatrixVisual.jsx:22 | a sorted permutation is unique, so any correct sort gives the same threshold |
| Pruning.ComputeThreshold | src/components/pruning/MatrixVisual.jsx:18-25 | the threshold is infinite exactly at sparsity 100, 0 at sparsity 0, and otherwise a non-negative finite value |
| Pruning.CountPrunedMagnitudes | src/components/pruning/MatrixVisual.jsx:32 | the pruned count is the number of magnitudes below the threshold |
| Pruning.CountBelowPermutation | src/components/pruning/MatrixVisual.jsx:22-32 | counting below a value does not depend on order |
| Pruning.SortedCountBelow | src/components/pruning/MatrixVisual.jsx:22-24 | in a sorted list at most k entries lie below the k-th |
| Pruning.SparsityExtremes | src/components/pruning/MatrixVisual.jsx:19-32 | sparsity 0 prunes no weight and sparsity 100 prunes every weight |
| Pruning.CutoffIndex | src/components/pruning/MatrixVisual.jsx:23 | for any sparsity in [0, 100] the cut-off index lies in [0, n] |
| Pruning.IsPruned | src/components/pruning/MatrixVisual.jsx:32 | an infinite threshold prunes every weight and a threshold of 0 or below prunes none |
| Pruning.CutoffAtExtremes | src/components/pruning/MatrixVisual.jsx:23 | the cut-off index is 0 at sparsity 0 and n at sparsity 100 |
| Pruning.CutoffInRange | src/components/pruning/MatrixVisual.jsx:23-24 | for sparsity strictly between 0 and 100 the cut-off index lies inside a non-empty list |
| Pruning.PrunedMiddle | src/components/pruning/MatrixVisual.jsx:22-32 | between the extremes, the pruned count is the number of sorted magnitudes strictly below the k-th |
| Pruning.PrunedEmpty | src/components/pruning/MatrixVisual.jsx:24 | with no weights the fallback threshold 0 prunes nothing |
| Pruning.PrunedAtMostCutoff | src/components/pruning/MatrixVisual.jsx:22-32 | at most k = floor(sparsity/100 · n) weights are pruned |
| Pruning.DistinctSortedStrict | src/components/pruning/MatrixVisual.jsx:22 | with distinct magnitudes the sorted list is strictly increasing |
| Pruning.DistinctCountBelow | src/components/pruning/MatrixVisual.jsx:22-24 | with distinct magnitudes exactly k sorted entries lie below the k-th |
| Pruning.PrunedExactlyCutoff | src/components/pruning/MatrixVisual.jsx:22-32 | with distinct magnitudes exactly k weights are pruned |
| Pruning.SignIndependent | src/components/pruning/MatrixVisual.jsx:32 | pruning depends on magnitude only, not on sign |
| Pruning.ThresholdMagnitudeOnly | src/components/pruning/MatrixVisual.jsx:22-24 | weight lists with the same multiset of magnitudes get the same threshold |
| Pruning.CutoffMonotone | src/components/pruning/MatrixVisual.jsx:23 | the cut-off index is non-decreasing in sparsity |
| Pruning.PrunedSetGrows | src/components/pruning/MatrixVisual.jsx:18-32 | a weight pruned at some sparsity stays pruned at every higher sparsity |
| Pruning.MatrixVisual.constructor | src/components/pruning/MatrixVisual.jsx:7-14 | the matrix holds the 100 generated weights |
| Pruning.MatrixVisual.SetSparsity | src/components/pruning/MatrixVisual.jsx:7-14 | changing the sparsity leaves the weights unchanged |
| Pruning.MatrixVisual.Threshold | src/components/pruning/MatrixVisual.jsx:18-25 | a finite threshold is never negative |
| NetworkGraph.Column | src/components/pruning/GraphVisual.jsx:16-27 | layer L contributes layers[L] nodes, indexed 0 onwards in order |
| NetworkGraph.NodesShape | src/components/pruning/GraphVisual.jsx:14-30 | the first m layers give as many nodes as they hold, each with its layer's x and y = (i + 1)·height/(count + 1), ordered layer by layer and then by index |
| NetworkGraph.NodesPrefixIn | src/components/pruning/GraphVisual.jsx:16 | a node built for the first layers is still present once more layers are added |
| NetworkGraph.NodePresent | src/components/pruning/GraphVisual.jsx:16-27 | every (layer, index) with index below the layer's size is a node |
| NetworkGraph.NodeInCanvas | src/components/pruning/GraphVisual.jsx:9-25 | every node lies in x ∈ [40, 440] and strictly inside the canvas height |
| NetworkGraph.BuildNodes | src/components/pruning/GraphVisual.jsx:14-30 | the nested loop builds exactly the node list, one per (layer, index), ordered by layer |
| NetworkGraph.TargetsOfMembers | src/components/pruning/GraphVisual.jsx:37 | the filter keeps exactly the nodes of the wanted layer |
| NetworkGraph.TargetsOfColumn | src/components/pruning/GraphVisual.jsx:37 | filtering the first m layers by layer gives that layer's column, or nothing past m |
| NetworkGraph.FilterGivesColumn | src/components/pruning/GraphVisual.jsx:37 | filtering all nodes by layer L gives exactly layer L's column, in order |
| NetworkGraph.EdgesFromIndex | src/components/pruning/GraphVisual.jsx:38-48 | the j-th edge out of a source goes to its j-th target |
| NetworkGraph.ColumnsCover | src/components/pruning/GraphVisual.jsx:14-37 | every node of every column is a node of the graph, with its column's layer |
| NetworkGraph.FlattenMember | src/components/pruning/GraphVisual.jsx:35-49 | an edge pushed for any source ends up in the edge list |
| NetworkGraph.FlattenMembers | src/components/pruning/GraphVisual.jsx:35-49 | every edge in the list was pushed for some source |
| NetworkGraph.ConnectTo | src/components/pruning/GraphVisual.jsx:38-48 | the inner loop yields one edge per target, in target order, from the given source |
| NetworkGraph.ConnectSource | src/components/pruning/GraphVisual.jsx:35-48 | a source in the output layer contributes nothing; any other source connects to every node of the next layer |
| NetworkGraph.BuildEdges | src/components/pruning/GraphVisual.jsx:33-51 | the nested loop yields exactly the specified edges, as many as the sum over layers of width·next width, each joining a node to one in the next layer, with none leaving the output layer |
| NetworkGraph.EdgesAdjacent | src/components/pruning/GraphVisual.jsx:36-37 | every edge joins two nodes of adjacent layers, and none leaves the last layer |
| NetworkGraph.EdgesComplete | src/components/pruning/GraphVisual.jsx:35-48 | every node is joined to every node of its next column |
| NetworkGraph.FullyConnected | src/components/pruning/GraphVisual.jsx:33-51 | every node of layer L is joined to every node of layer L + 1 |
| NetworkGraph.FanoutSumAppend | src/components/pruning/GraphVisual.jsx:35 | edge counts add up over consecutive runs of sources |
| NetworkGraph.FanoutSumNodes | src/components/pruning/GraphVisual.jsx:35-49 | the sources of the first m layers contribute the sum of width·next width over those layers |
| NetworkGraph.EdgesCountPrefix | src/components/pruning/GraphVisual.jsx:35-49 | the edges pushed for the first m sources number the sum of those sources' fan-outs |
| NetworkGraph.EdgeCount | src/components/pruning/GraphVisual.jsx:33-51 | the number of edges is the sum over layers of width·next width |
| NetworkGraph.FixedNetworkCounts | src/components/pruning/GraphVisual.jsx:6-51 | the [3, 4, 4, 2] network has 13 nodes and 36 edges |
| NetworkGraph.WeightVal | src/components/pruning/GraphVisual.jsx:41 | each edge's weight lies in [0, 1] when sin stays in [-1, 1] |
| NetworkGraph.Importance | src/components/pruning/GraphVisual.jsx:68 | each node's importance lies in [0, 1] when cos stays in [-1, 1] |
| NetworkGraph.IsNodeActive | src/components/pruning/GraphVisual.jsx:62-70 | unstructured mode keeps every node; structured mode keeps the input and output layers |
| NetworkGraph.IsEdgeActive | src/components/pruning/GraphVisual.jsx:72-82 | an active edge always has two active endpoints |
| NetworkGraph.EdgeEndpoints | src/components/pruning/GraphVisual.jsx:72-82 | in structured mode two active endpoints are also enough for an active edge; in unstructured mode an edge is active iff its weight exceeds sparsity/100 |
| NetworkGraph.MasksShrink | src/components/pruning/GraphVisual.jsx:69-78 | raising the sparsity never reactivates a node or an edge |
| NetworkGraph.HiddenNodesGoneAtFull | src/components/pruning/GraphVisual.jsx:65-69 | from sparsity 100 on, structured pruning removes every hidden node |
| Temperature.ExpValues | src/components/distillation/LogitTemperatureVisualizer.jsx:17 | one exponential per class, index-aligned with the classes |
| Temperature.Percentages | src/components/distillation/LogitTemperatureVisualizer.jsx:19 | one percentage per value, index-aligned |
| Temperature.SumBounds | src/components/distillation/LogitTemperatureVisualizer.jsx:18 | a sum of positive values is positive, at least each term, and above each term once there are two |
| Temperature.Probabilities | src/components/distillation/LogitTemperatureVisualizer.jsx:16-20 | one percentage per class, each strictly positive |
| Temperature.SumPercentages | src/components/distillation/LogitTemperatureVisualizer.jsx:18-19 | converting to percentages commutes with summing |
| Temperature.ProbabilitiesSum | src/components/distillation/LogitTemperatureVisualizer.jsx:17-19 | the percentages add up to 100 at every positive temperature |
| Temperature.ProbabilitiesInRange | src/components/distillation/LogitTemperatureVisualizer.jsx:17-19 | with two or more classes each percentage is strictly between 0 and 100; a lone class gets 100 |
| Temperature.RankPreserved | src/components/distillation/LogitTemperatureVisualizer.jsx:8-19 | a class has a strictly higher percentage than another if and only if it has a strictly higher score |
| Temperature.ClassesRanked | src/components/distillation/LogitTemperatureVisualizer.jsx:8-20 | on the four page classes, Golden Retriever > Tennis Ball > Tabby Cat > Sports Car at every positive temperature |
| Temperature.TopShare | src/components/distillation/LogitTemperatureVisualizer.jsx:16-18 | the top class's percentage is 100 / (1 + e^(-4/T) + e^(-8/T) + e^(-15/T)): only score differences matter |
| Temperature.BottomShare | src/components/distillation/LogitTemperatureVisualizer.jsx:16-18 | the bottom class's percentage is 100 / (1 + e^(15/T) + e^(11/T) + e^(7/T)) |
| Temperature.TopClassMelts | src/components/distillation/LogitTemperatureVisualizer.jsx:16-26 | melting: as T rises the top class's percentage strictly falls |
| Temperature.BottomClassRises | src/components/distillation/LogitTemperatureVisualizer.jsx:16-26 | melting: as T rises the lowest class's percentage strictly rises |
| Temperature.DarkKnowledgeRevealed | src/components/distillation/LogitTemperatureVisualizer.jsx:78 | the dark-knowledge badge is never up at the slider's starting temperature 1 |
| Temperature.SoftTargets | src/components/distillation/LogitTemperatureVisualizer.jsx:101-106 | the soft-target text only shows while the dark-knowledge badge is up |
| Temperature.LabelsConsistent | src/components/distillation/LogitTemperatureVisualizer.jsx:78-106 | the badge shows without the soft-target text exactly for 1.5 < T < 2, and neither shows at T = 1 |
| Temperature.LogitBarWidth | src/components/distillation/LogitTemperatureVisualizer.jsx:64 | a raw-score bar is never negative, fits the track for scores up to 15, and is empty exactly for scores ≤ -10 |
| Temperature.LogitBarsOfClasses | src/components/distillation/LogitTemperatureVisualizer.jsx:64 | the four bars are 80, 64, 48 and 20 percent wide |
| Temperature.TemperatureLab.constructor | src/components/distillation/LogitTemperatureVisualizer.jsx:5 | the temperature starts at 1 |
| Temperature.TemperatureLab.SetTemperature | src/components/distillation/LogitTemperatureVisualizer.jsx:33-41 | the slider sets the temperature within [1, 20], so the divisor stays positive |
| Temperature.TemperatureLab.Bars | src/components/distillation/LogitTemperatureVisualizer.jsx:16-20 | the four bars are each strictly between 0 and 100 percent and add up to 100 |

## Left out

- IEEE-754 behaviour is not modelled; all arithmetic is exact `real`. This covers:
  - the NaN and Infinity that dividing by the initial scale of 0 produces before the parameter effect has run;
  - `-0` from `Math.round`;
  - overflow of `Math.exp`.
- `Math.exp`, `Math.sin` and `Math.cos` are function parameters, and the properties used of them are requires clauses.
  - exp is only positive; for ranking, strictly increasing; and for melting, exp(a + b) = exp(a) · exp(b).
  - sin and cos only lie in [-1, 1].
- `Math.random` is an input sequence of draws in [0, 1). The memoisation that keeps the weights stable is the class field that `SetSparsity` does not touch.
- The JavaScript sort algorithm is not modelled. `Pruning.SortAscending` is an insertion sort, and `Pruning.SortedUnique` shows that every sorted permutation is the same list.
- String output is replaced by structured values:
  - `toFixed` labels;
  - node and edge ids, where a node is identified by its (layer, index) pair;
  - SVG path strings, whose commands become `MoveTo`/`LineTo` values and whose points become `Point` values.
- JSX markup, styling, framer-motion animation and the decorative drawing have no stated behaviour and are not modelled.
- React's scheduling is not modelled. `RecomputeParams` is the effect as one step, and `Quantized`/`Error` are read after it has run (`ParamsCurrent`).
- NetworkGraph.BuildNodes: the layer list is a parameter with at least two layers, with [3, 4, 4, 2] as the page's instance. The edge list is specified by joining each source to the column of the next layer; `FilterGivesColumn` proves that this column is what the page's filter over all nodes returns.
- Pruning.PrunedExactlyCutoff: the cut-off index is floor(s/100 · n) over exact reals. In double precision `Math.floor((s / 100) * 100)` is 28, 56 and 57 at sparsities 29, 57 and 58. At those three settings the page prunes k - 1 weights where the model proves k.
- Quantizer.QuantizerVisual.Error: no half-step bound is claimed once a range slider has moved past the test value, because the input then lies outside the range. The contract still gives the error as the displayed reconstruction minus the input, and `Quantizer.QuantError` bounds the error of a clamped code from the clamped side.
- Pruning: sparsity is any integer. The page's slider range 0..99 is not required, and the results hold for it.
- The insight text's rounded percentages and the per-class colours are presentation and are not modelled.
