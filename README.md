# HMESolver core in Dafny

HMESolver reads a photographed handwritten formula, cuts it into symbols,
recognises each symbol with a small convolutional network and solves what it
read. This project models the parts of it that compute:

- the CNN layer stack — convolution, max-pool, ReLU, inverted dropout, fully
  connected and softmax-with-cross-entropy layers, each a class whose buffers
  the methods overwrite or accumulate into, and the `BaseLayer` defaults that
  parameter-free layers inherit (`Convolution`, `Pool`, `Relu`, `DropOut`,
  `FullyConnected`, `Softmax`, `Layers`);
- the CNN model that chains them: forward in order, backward in reverse, the
  training step with gradient zeroing and `lr / batch` averaging, batch
  slicing, the halving learning-rate schedule, evaluation and class
  prediction (`Model`, `Network`);
- the symbolic front end: a sparse multivariate polynomial, implicit `*`
  insertion, a two-stack tree builder, the tree-to-polynomial translation and
  the answer dispatch of `run_expression_tree` (`ExpressionTree`, with the
  defects it shows in `ExpressionTreeFindings`);
- the FNN variant's dense polynomial solver (lexer, recursive-descent parser,
  implicit multiplication, equation splitting, linear solving and the degree
  dispatch: `PolySolver`) and its two shunting-yard calculators
  (`Calculator`, `Calculator1`);
- symbol extraction geometry: interval overlap, pairing the two bars of '=',
  merging adjacent boxes, sorting and clamping (`Extraction`);
- the MNIST IDX decoder over a byte sequence (`Mnist`) and the plain
  fully-connected network of the FNN variant (`Network1`).

`Tensor` holds what they share: flat row-major indexing, sums and dot
products, `Option`/`Outcome` results, C++ truncating division, the finite
range of a `float`, and the `Rng` stream that stands for `rand()`.

Each stateful source object is a class whose methods state their new state as
a pure transition of the old one; the properties are proved about those
transitions. Where the source has a defect, the model takes a `fixed` or
`corrected` flag: `false` follows the code as written, `true` the evident
intent, and both behaviours are proved (see the Findings section).

## Model

| member | source | states |
|---|---|---|
| Layers.ConvForward | CNN/include/base_layer.h:11 | the convolution layer's forward, seen through the common interface, keeps the layer's kind and configuration, fails exactly on a mis-sized input and returns an output of the layer's output length |
| Layers.PoolForward | CNN/include/base_layer.h:11 | the same for the pool layer |
| Layers.ReluForward | CNN/include/base_layer.h:11 | the same for the ReLU layer |
| Layers.DropOutForward | CNN/include/base_layer.h:11 | outside training the input is returned and no draw is taken; in training the dropout layer behaves like the others |
| Layers.FCForward | CNN/include/base_layer.h:11 | the same for the fully connected layer |
| Layers.SoftmaxForward | CNN/include/base_layer.h:11 | the softmax layer fails on a mis-sized input and may also fail on its targets |
| Layers.Forward | CNN/include/base_layer.h:11 | the virtual forward keeps every layer valid and of the same configuration, consumes draws only in dropout, and returns an output of the layer's output length |
| Layers.ConvBackward | CNN/include/base_layer.h:12 | the convolution layer's backward fails exactly on a mis-sized `d_out` and returns a gradient of the input length |
| Layers.PoolBackward | CNN/include/base_layer.h:12 | the same for the pool layer |
| Layers.FCBackward | CNN/include/base_layer.h:12 | the same for the fully connected layer |
| Layers.DropOutBackward | CNN/include/base_layer.h:12 | outside training `d_out` is returned; in training the size check applies |
| Layers.Backward | CNN/include/base_layer.h:12 | the virtual backward keeps every layer valid; ReLU never fails, softmax fails exactly on unset or mis-sized targets, and the other layers exactly on a mis-sized `d_out` |
| Layers.ZeroGradients | CNN/include/base_layer.h:23 | zeroes the gradients of the convolution and FC layers; the default does nothing |
| Layers.UpdateWeights | CNN/include/base_layer.h:17 | steps the FC weights; the default does nothing |
| Layers.UpdateBiases | CNN/include/base_layer.h:18 | steps the convolution biases (with L2) and the FC biases (without); the default does nothing |
| Layers.UpdateFilters | CNN/include/base_layer.h:19 | steps the convolution filters; the default does nothing |
| Layers.UpdateAllChangesOnlyParameters | CNN/include/base_layer.h:17-19 | the three updates together change only the parameters of convolution and FC layers, and nothing in the other layers |
| Layers.LoadWeights | CNN/include/base_layer.h:14-20 | what is loaded is what is saved next; a layer without weights saves nothing |
| Layers.LoadBiases | CNN/include/base_layer.h:15-21 | the same for biases |
| Layers.LoadFilters | CNN/include/base_layer.h:16-22 | the same for filters |
| Layers.GetLoss | CNN/include/base_layer.h:24 | a non-softmax layer reports loss 0; softmax fails exactly when its targets are unset; a reported loss is never negative |
| Layers.SetTargets | CNN/include/base_layer.h:25 | only a softmax layer records the targets |
| Layers.ParameterFreeDefaults | CNN/include/base_layer.h:14-23 | on pool, ReLU, dropout and softmax layers the parameter operations are the no-op defaults |
| Layers.LossDefaults | CNN/include/base_layer.h:24-25 | on every non-softmax layer the loss is 0 and setting targets does nothing |
| Convolution.MakeConfig | CNN/src/ConvolutionLayer.cpp:5-16 | output dims are `(H - K + 2P) / S + 1`, padded dims `H + 2P`, `W + 2P` |
| Convolution.ConfigSizes | CNN/src/ConvolutionLayer.cpp:12-25 | every buffer size is non-negative, there is at least one output cell, and without padding the padded input is the input |
| Convolution.Init | CNN/src/ConvolutionLayer.cpp:18-41 | the filters are the supplied draws; biases and both gradients start at zero; every buffer has its size |
| Convolution.WindowFits | CNN/src/ConvolutionLayer.cpp:113-126 | every window lies inside the padded input |
| Convolution.PadPrefixIsPad | CNN/src/ConvolutionLayer.cpp:95-106 | copying the input cell by cell into a zeroed buffer yields the zero-padded input |
| Convolution.PadWithoutPadding | CNN/src/ConvolutionLayer.cpp:60-61 | with padding 0 the padded input is the input itself |
| Convolution.CropOfPad | CNN/src/ConvolutionLayer.cpp:253-263 | cropping the padded input returns the input |
| Convolution.CropAdjoint | CNN/src/ConvolutionLayer.cpp:253-263 | cropping is the adjoint of zero padding: ⟨Crop(dp), v⟩ = ⟨dp, Pad(v)⟩ |
| Convolution.ForwardConvolves | CNN/src/ConvolutionLayer.cpp:49-137 | each output is its filter's bias plus the window dot product over the zero-padded input, on both padding paths |
| Convolution.ForwardRecordsInput | CNN/src/ConvolutionLayer.cpp:51-106 | forward throws exactly on a mis-sized input and then changes nothing; otherwise it stores the padded input, whose crop is the input, and the output |
| Convolution.BackwardChecks | CNN/src/ConvolutionLayer.cpp:145-148 | backward throws exactly on a mis-sized `d_out`, after zeroing the gradients |
| Convolution.BackwardForgetsGradients | CNN/src/ConvolutionLayer.cpp:145 | backward's result does not depend on the gradients held before it |
| Convolution.BackwardBiasGradient | CNN/src/ConvolutionLayer.cpp:167-206 | the bias gradient of filter f is the sum of `d_out` over f's output plane |
| Convolution.BackwardInputAdjoint | CNN/src/ConvolutionLayer.cpp:139-266 | the input gradient is the adjoint of forward in the input: ⟨dX, v⟩ = Σ d_out · (filters ⋆ Pad(v)) |
| Convolution.BackwardFilterAdjoint | CNN/src/ConvolutionLayer.cpp:139-266 | the filter gradient is the adjoint of forward in the filters: ⟨dF, v⟩ = Σ d_out · (v ⋆ last_input) |
| Convolution.UpdateDecays | CNN/src/ConvolutionLayer.cpp:268-278 | with a zero gradient, filters and biases both decay by the factor `1 - lr·l2` |
| Convolution.LoadSaveIdentity | CNN/src/ConvolutionLayer.cpp:284-298 | loading the saved filters or biases changes nothing |
| Convolution.PadLoop | CNN/src/ConvolutionLayer.cpp:95-106 | the loops build the zero-padded input |
| Convolution.CellSum | CNN/src/ConvolutionLayer.cpp:73-131 | the inner loops compute one output cell |
| Convolution.ConvLoop | CNN/src/ConvolutionLayer.cpp:64-134 | the loops compute the whole output |
| Convolution.NoPadBackwardLoop | CNN/src/ConvolutionLayer.cpp:158-188 | the unpadded backward loops compute the bias, filter and input gradients |
| Convolution.BiasLoop | CNN/src/ConvolutionLayer.cpp:201-206 | the loop computes the bias gradient |
| Convolution.FilterGradLoop | CNN/src/ConvolutionLayer.cpp:208-227 | the loops compute the filter gradient in channel-last order |
| Convolution.PaddedGradLoop | CNN/src/ConvolutionLayer.cpp:229-251 | the loops compute the padded input gradient |
| Convolution.CropLoop | CNN/src/ConvolutionLayer.cpp:253-263 | the loops crop the padded gradient to the input |
| Convolution.PaddedBackwardLoops | CNN/src/ConvolutionLayer.cpp:190-264 | the padded path's four loops in order |
| Convolution.L2Loop | CNN/src/ConvolutionLayer.cpp:268-278 | the loop applies `p - lr·(g + l2·p)` to every parameter |
| Convolution.ConvolutionLayer.constructor | CNN/src/ConvolutionLayer.cpp:5-42 | the object holds the initial state of its configuration |
| Convolution.ConvolutionLayer.ZeroGradients | CNN/src/ConvolutionLayer.cpp:44-47 | both gradients become zero, nothing else changes |
| Convolution.ConvolutionLayer.Forward | CNN/src/ConvolutionLayer.cpp:49-137 | the new state and result are those of the forward transition |
| Convolution.ConvolutionLayer.Backward | CNN/src/ConvolutionLayer.cpp:139-266 | the new state and result are those of the backward transition |
| Convolution.ConvolutionLayer.UpdateFilters | CNN/src/ConvolutionLayer.cpp:268-272 | the new state is that of the filter update |
| Convolution.ConvolutionLayer.UpdateBiases | CNN/src/ConvolutionLayer.cpp:274-278 | the new state is that of the bias update |
| Convolution.ConvolutionLayer.GetOutputSize | CNN/src/ConvolutionLayer.cpp:280-282 | returns (F, Ho, Wo) |
| Convolution.ConvolutionLayer.SaveFilters | CNN/src/ConvolutionLayer.cpp:284-286 | returns the filters |
| Convolution.ConvolutionLayer.SaveBiases | CNN/src/ConvolutionLayer.cpp:288-290 | returns the biases |
| Convolution.ConvolutionLayer.LoadFilters | CNN/src/ConvolutionLayer.cpp:292-294 | only the filters change, to the given ones |
| Convolution.ConvolutionLayer.LoadBiases | CNN/src/ConvolutionLayer.cpp:296-298 | only the biases change, to the given ones |
| Pool.Init | CNN/src/Pool.cpp:5-17 | a fresh layer is valid: output dims `(H-K)/S+1`, `(W-K)/S+1`, zeroed buffers and mask |
| Pool.WindowFits | CNN/src/Pool.cpp:12-36 | every window lies inside the input |
| Pool.OutputDimsExact | CNN/src/Pool.cpp:12-13 | there is at least one window per axis, and the windows reach to within one stride of the input's edge |
| Pool.ScanInRange | CNN/src/Pool.cpp:33-38 | every scanned cell is a valid input index |
| Pool.WinScanIsFirstMax | CNN/src/Pool.cpp:29-45 | the strict `>` scan from minus infinity returns the first cell holding the window's maximum |
| Pool.ForwardIsWindowMax | CNN/src/Pool.cpp:26-51 | every output is at least every value in its window and equals the input at the window's argmax |
| Pool.MaskKeepsFlags | CNN/src/Pool.cpp:47 | the argmax cell of every window scanned so far is flagged 1 in the mask |
| Pool.ForwardFlagsEveryWindow | CNN/src/Pool.cpp:47-75 | after forward, backward's search finds a flagged cell in every window |
| Pool.LastFlagFinds | CNN/src/Pool.cpp:66-75 | backward's search returns the last flagged cell of the window |
| Pool.DInAfterSum | CNN/src/Pool.cpp:61-83 | when every window has a flagged cell, the input gradient sums to the sum of `d_out` |
| Pool.BackwardConservesSum | CNN/src/Pool.cpp:19-85 | after forward, backward succeeds and its input gradient has the same total as `d_out`, for any stride |
| Pool.SizeChecks | CNN/src/Pool.cpp:20-89 | forward and backward throw exactly on mis-sized inputs; the reported shape has as many cells as the output |
| Pool.WindowMax | CNN/src/Pool.cpp:29-45 | the inner loops compute the scan's value and cell |
| Pool.PoolWindow | CNN/src/Pool.cpp:29-48 | one window yields its argmax index and maximum |
| Pool.PoolRow | CNN/src/Pool.cpp:28-50 | one output row extends the mask and the outputs by that row's windows |
| Pool.ForwardLoop | CNN/src/Pool.cpp:24-51 | the loops produce the full mask and the pooled output |
| Pool.WindowLastFlag | CNN/src/Pool.cpp:64-75 | the inner loops return the last flagged cell, or (-1, -1) |
| Pool.BackwardLoop | CNN/src/Pool.cpp:59-83 | the loops add each window's `d_out` at its last flagged cell |
| Pool.PoolLayer.constructor | CNN/src/Pool.cpp:5-17 | the object holds the initial state |
| Pool.PoolLayer.Forward | CNN/src/Pool.cpp:19-53 | the new state and result are those of the forward transition |
| Pool.PoolLayer.Backward | CNN/src/Pool.cpp:55-85 | the new state and result are those of the backward transition |
| Pool.PoolLayer.GetOutputSize | CNN/src/Pool.cpp:87-89 | returns (C, Ho, Wo) |
| Relu.Init | CNN/src/ReluLayer.cpp:5-13 | a fresh layer is valid: both buffers hold C·H·W zeros |
| Relu.RectifyProperties | CNN/src/ReluLayer.cpp:22-29 | every rectified value is non-negative, equals its input exactly when the input is non-negative, and rectifying twice changes nothing |
| Relu.ForwardThenBackward | CNN/src/ReluLayer.cpp:15-48 | forward succeeds iff the input has C·H·W values; the following backward passes `d_out` through where the input was positive and gives 0 elsewhere |
| Relu.GateSupport | CNN/src/ReluLayer.cpp:38-43 | a non-zero input gradient only appears where the input was positive, and then it is `d_out` unchanged |
| Relu.OutputShapeIsInputShape | CNN/src/ReluLayer.cpp:51-53 | the reported shape has three dimensions whose product is the layer size |
| Relu.RectifyLoop | CNN/src/ReluLayer.cpp:22-29 | the triple loop computes `max(0, x)` element by element |
| Relu.GateLoop | CNN/src/ReluLayer.cpp:35-46 | the triple loop computes the gated gradient |
| Relu.ReluLayer.constructor | CNN/src/ReluLayer.cpp:5-13 | the object holds the initial state |
| Relu.ReluLayer.Forward | CNN/src/ReluLayer.cpp:15-31 | throws on a size mismatch, otherwise stores the input and returns its rectification |
| Relu.ReluLayer.Backward | CNN/src/ReluLayer.cpp:33-48 | the new input gradient is the gate of `d_out` by the stored input |
| Relu.ReluLayer.GetOutputSize | CNN/src/ReluLayer.cpp:51-53 | returns (C, H, W) |
| DropOut.Init | CNN/src/DropOutLayer.cpp:5-16 | a fresh layer is valid, with a mask of ones and zeroed buffers |
| DropOut.ForwardDropsAndRescales | CNN/src/DropOutLayer.cpp:18-42 | in training, cell i is dropped exactly when the i-th draw is below p; a dropped cell outputs 0, a kept one outputs x/(1-p) |
| DropOut.EvalModeIsIdentity | CNN/src/DropOutLayer.cpp:19-22 | outside training, forward returns its input without drawing and backward returns `d_out` |
| DropOut.ScaleAdjoint | CNN/src/DropOutLayer.cpp:51-62 | masking-and-rescaling is self-adjoint: ⟨Scale(x), d⟩ = ⟨x, Scale(d)⟩ |
| DropOut.BackwardIsAdjointOfForward | CNN/src/DropOutLayer.cpp:18-64 | after a training forward, backward is the adjoint of forward: ⟨forward(x), d⟩ = ⟨x, backward(d)⟩ |
| DropOut.DropLoop | CNN/src/DropOutLayer.cpp:26-40 | the loop consumes one draw per cell and produces the mask and the scaled output |
| DropOut.UnmaskLoop | CNN/src/DropOutLayer.cpp:51-62 | the loop produces the masked, rescaled gradient |
| DropOut.DropOutLayer.constructor | CNN/src/DropOutLayer.cpp:5-16 | the object holds the initial state |
| DropOut.DropOutLayer.Forward | CNN/src/DropOutLayer.cpp:18-42 | records the mode, returns the input outside training, throws on a size mismatch, otherwise masks and rescales |
| DropOut.DropOutLayer.Backward | CNN/src/DropOutLayer.cpp:44-64 | returns `d_out` outside training, throws on a size mismatch, otherwise rescales through the mask |
| DropOut.DropOutLayer.GetOutputSize | CNN/src/DropOutLayer.cpp:66-68 | returns (C, H, W) |
| FullyConnected.Init | CNN/src/FC.cpp:9-35 | a fresh layer is valid, holds the supplied weight draws, and its biases start at 0 |
| FullyConnected.StepsPreserveValid | CNN/src/FC.cpp:38-89 | every transition keeps the buffer sizes; forward fails exactly on an input that is not `flat` long, backward exactly on a `d_out` that is not `output_size` long |
| FullyConnected.BackwardIsAdjoint | CNN/src/FC.cpp:44-72 | the input gradient is the transpose of forward's linear part: ⟨d, Wx + b⟩ = ⟨d, b⟩ + ⟨Wᵀd, x⟩ |
| FullyConnected.GradientsAccumulate | CNN/src/FC.cpp:53-72 | after zeroing, two forward/backward rounds leave `d_biases = d1 + d2` and `d_weights[i,j] = x1[j]·d1[i] + x2[j]·d2[i]` |
| FullyConnected.UpdateBiasesIgnoresL2 | CNN/src/FC.cpp:78-89 | weights take the step `w - lr·(dW + l2·w)`; the bias step ignores `l2_reg` |
| FullyConnected.LoadSaveIdentity | CNN/src/FC.cpp:95-106 | loading the saved weights or biases changes nothing |
| FullyConnected.AffineLoop | CNN/src/FC.cpp:44-48 | the loop computes `bias[i] + Σ_j W[i·flat+j]·x[j]` for every output |
| FullyConnected.BackwardLoop | CNN/src/FC.cpp:62-72 | the loop adds the outer product to `d_weights`, `d_out` to `d_biases`, and computes `Wᵀd` as the input gradient |
| FullyConnected.UpdateWeightsLoop | CNN/src/FC.cpp:78-83 | the loop applies the L2-regularised step to every weight |
| FullyConnected.UpdateBiasesLoop | CNN/src/FC.cpp:85-89 | the loop applies the plain step to every bias |
| FullyConnected.FCLayer.constructor | CNN/src/FC.cpp:9-35 | the object holds the initial state |
| FullyConnected.FCLayer.Forward | CNN/src/FC.cpp:38-51 | the new state and result are those of the forward transition |
| FullyConnected.FCLayer.ZeroGradients | CNN/src/FC.cpp:53-56 | both gradient buffers become zero, nothing else changes |
| FullyConnected.FCLayer.Backward | CNN/src/FC.cpp:58-74 | the new state and result are those of the backward transition |
| FullyConnected.FCLayer.UpdateWeights | CNN/src/FC.cpp:78-83 | the new state is that of the weight update |
| FullyConnected.FCLayer.UpdateBiases | CNN/src/FC.cpp:85-89 | the new state is that of the bias update |
| FullyConnected.FCLayer.GetOutputSize | CNN/src/FC.cpp:91-93 | returns (output_size, 1, 1) |
| FullyConnected.FCLayer.SaveWeights | CNN/src/FC.cpp:95-97 | returns the weights |
| FullyConnected.FCLayer.SaveBiases | CNN/src/FC.cpp:98-100 | returns the biases |
| FullyConnected.FCLayer.LoadWeights | CNN/src/FC.cpp:101-103 | only the weights change, to the given ones |
| FullyConnected.FCLayer.LoadBiases | CNN/src/FC.cpp:104-106 | only the biases change, to the given ones |
| Softmax.Init | CNN/src/SoftmaxLayer.cpp:4-10 | a fresh layer is valid, has no targets and a zero loss |
| Softmax.MaxPrefixIsMax | CNN/src/SoftmaxLayer.cpp:18 | the shift is the largest input and is one of the inputs |
| Softmax.FirstOne | CNN/src/SoftmaxLayer.cpp:40-46 | the label is the first index whose target is exactly 1, or -1 when there is none |
| Softmax.ForwardSizeCheck | CNN/src/SoftmaxLayer.cpp:13-15 | forward throws the size-mismatch error exactly when the input length differs from the layer size |
| Softmax.ForwardFailsOnlyOnTarget | CNN/src/SoftmaxLayer.cpp:35-49 | on a well-sized input, forward can only fail on the normal path with targets set that are mis-sized or mark no class |
| Softmax.ForwardFallback | CNN/src/SoftmaxLayer.cpp:24-29 | a non-finite or non-positive exponential sum yields the uniform distribution and a zero loss |
| Softmax.UniformIsDistribution | CNN/src/SoftmaxLayer.cpp:25 | the fallback output is positive and sums to 1 |
| Softmax.ForwardNormal | CNN/src/SoftmaxLayer.cpp:19-32 | otherwise the stored output is each shifted exponential divided by their sum |
| Softmax.NormalizedIsDistribution | CNN/src/SoftmaxLayer.cpp:30-32 | dividing positive values by their sum gives positive values that sum to 1 |
| Softmax.ForwardIsDistribution | CNN/src/SoftmaxLayer.cpp:12-57 | a successful forward returns a non-negative vector of the layer size that sums to 1 |
| Softmax.ForwardLoss | CNN/src/SoftmaxLayer.cpp:33-56 | the loss is 0 without targets or on the fallback path, otherwise the clamped negative log of the output at the first class marked 1 |
| Softmax.BackwardGradient | CNN/src/SoftmaxLayer.cpp:59-71 | backward fails exactly when targets are unset or mis-sized; otherwise the gradient is output minus target, which sums to 0 for a one-hot target |
| Softmax.GetLossNonNegative | CNN/src/SoftmaxLayer.cpp:73-82 | get_loss fails exactly without targets, and otherwise returns the stored loss clamped below at 0 |
| Softmax.ExpLoop | CNN/src/SoftmaxLayer.cpp:19-23 | the loop stores the shifted exponentials and their sum |
| Softmax.DivideLoop | CNN/src/SoftmaxLayer.cpp:30-32 | the loop divides every output by the sum |
| Softmax.FindLabel | CNN/src/SoftmaxLayer.cpp:40-46 | the loop finds the first index marked 1 |
| Softmax.ResidualLoop | CNN/src/SoftmaxLayer.cpp:67-69 | the loop computes output minus target |
| Softmax.SoftmaxLayer.constructor | CNN/src/SoftmaxLayer.cpp:4-10 | the object holds the initial state |
| Softmax.SoftmaxLayer.Forward | CNN/src/SoftmaxLayer.cpp:12-57 | the new state and result are those of the forward transition |
| Softmax.SoftmaxLayer.ComputeLoss | CNN/src/SoftmaxLayer.cpp:33-56 | the target checks, label search and loss of forward |
| Softmax.SoftmaxLayer.Backward | CNN/src/SoftmaxLayer.cpp:59-71 | the new state and result are those of the backward transition |
| Softmax.SoftmaxLayer.GetLoss | CNN/src/SoftmaxLayer.cpp:73-82 | returns the loss of the current state, or the targets-not-set error |
| Softmax.SoftmaxLayer.SetTargets | CNN/src/SoftmaxLayer.cpp:84-86 | only the target pointer changes |
| Softmax.SoftmaxLayer.GetOutputSize | CNN/src/SoftmaxLayer.cpp:87-89 | returns (n, 1, 1) |
| Network.ForwardUpTo | CNN/src/CNN.cpp:10-16 | running the first n layers keeps every layer valid and of the same configuration, draws only forward, and leaves the later layers untouched |
| Network.RunForward | CNN/src/CNN.cpp:10-16 | the model's forward feeds each layer's output to the next and stops at the first exception; with no layers it returns the input |
| Network.ForwardNext | CNN/src/CNN.cpp:12-14 | one more layer extends the run by that layer's forward |
| Network.ForwardStops | CNN/src/CNN.cpp:12-14 | after an exception no further layer runs |
| Network.ForwardFinished | CNN/src/CNN.cpp:10-16 | a loop that reached the last layer or an exception has computed the model's forward |
| Network.ForwardOutputLength | CNN/src/CNN.cpp:10-16 | a successful run's output has one of the lengths the layer shapes allow |
| Network.RunBackward | CNN/src/CNN.cpp:18-24 | the model's backward feeds gradients from the last layer to the first and stops at the first exception; with no layers it returns `d_out` |
| Network.BackwardNext | CNN/src/CNN.cpp:20-22 | one more layer, from the back, extends the run by that layer's backward |
| Network.BackwardStops | CNN/src/CNN.cpp:20-22 | after an exception no earlier layer runs |
| Network.BackwardStart | CNN/src/CNN.cpp:19 | the backward loop starts from `d_out` with no layer run |
| Network.BackwardFinished | CNN/src/CNN.cpp:18-24 | a loop that reached the first layer or an exception has computed the model's backward |
| Network.GradientReaches | CNN/src/CNN.cpp:18-24 | the gradient that reaches a ReLU layer is at least as long as that layer, under the chaining condition |
| Network.ChainedReluFed | CNN/src/CNN.cpp:18-24 | in a network ending in softmax where every ReLU feeds a same-sized non-dropout layer, every ReLU receives a long enough gradient |
| Network.SetLastTargets | CNN/src/CNN.cpp:38-61 | only the last layer changes, and if it is softmax it now holds the sample's target |
| Network.SampleStep | CNN/src/CNN.cpp:35-44 | one sample sets the target, runs forward, reads a non-negative loss and runs backward from an empty `d_out` |
| Network.SamplesFrom | CNN/src/CNN.cpp:34-45 | the batch loop accumulates per-sample losses and never lowers the running total |
| Network.SamplesNext | CNN/src/CNN.cpp:34-45 | one more sample extends the batch loop by that sample's step |
| Network.TrainStepSpec | CNN/src/CNN.cpp:26-54 | `train_step` zeroes the gradients, runs the batch, then applies every update with `lr / batch_size`; its loss is non-negative |
| Network.EmptyBatchOnlyDecays | CNN/src/CNN.cpp:46-52 | on an empty batch the loss is 0, no draw is taken, parameter-free layers are untouched, filters only decay and FC biases stay |
| Network.BatchesFrom | CNN/src/CNN.cpp:88-92 | the epoch's batches accumulate the batch losses |
| Network.BatchesTile | CNN/src/CNN.cpp:88-89 | the batches `[t, min(t+B, N))` cover every position of the epoch exactly once, in order |
| Network.LrSchedule | CNN/src/CNN.cpp:82-84 | the learning rate of epoch e is the initial one halved once per completed group of four epochs |
| Network.Iota | CNN/src/CNN.cpp:73-74 | the initial order is 0, 1, …, N-1 |
| Network.PermutationInRange | CNN/src/CNN.cpp:79-81 | every index of a shuffled order is a valid sample index |
| Network.OrderInRange | CNN/src/CNN.cpp:73-81 | every epoch's order, shuffled or not, addresses only existing samples |
| Network.FirstArgMax | CNN/src/CNN.cpp:137-144 | the prediction is the first index of a maximal output |
| Network.FirstArgMaxUnique | CNN/src/CNN.cpp:137-144 | any index that is maximal and strictly above all earlier outputs is that prediction |
| Network.LabelOf | CNN/src/CNN.cpp:146-149 | the true class is the first index marked 1, or 0 when none is |
| Network.EvaluateFrom | CNN/src/CNN.cpp:134-152 | the number of correct predictions only grows and is bounded by the number of images |
| Network.EvaluateSpec | CNN/src/CNN.cpp:128-155 | accuracy is 0 on no images and otherwise a fraction in [0, 1] |
| Network.TestLossFrom | CNN/src/CNN.cpp:55-67 | the test loss accumulates the per-sample losses and never decreases |
| Network.NamedOutput | CNN/src/CNN.cpp:161-171 | when the outputs have as many entries as there are class names, the predicted index names a class |
| Network.PredictFrom | CNN/src/CNN.cpp:158-174 | `predict_classes` returns one class name per image, in order |
| Network.PairsFrom | CNN/src/CNN.cpp:177-199 | `predict_pairs` returns, per image in order, the name of its true class and a predicted class name |
| Network.EpochStep | CNN/src/CNN.cpp:78-111 | an epoch's loss is non-negative and the accuracies are logged exactly when metrics are on |
| Network.MetricsStep | CNN/src/CNN.cpp:93-110 | with metrics on, the log holds the epoch loss and the train accuracy |
| Network.EpochsFrom | CNN/src/CNN.cpp:78-112 | the loop logs one entry per remaining epoch |
| Network.TrainSpec | CNN/src/CNN.cpp:68-113 | `train` throws when the log cannot be opened, and otherwise logs one entry per epoch |
| Model.LayerForward | CNN/include/base_layer.h:11 | the virtual call runs the concrete layer's forward |
| Model.LayerBackward | CNN/include/base_layer.h:12 | the virtual call runs the concrete layer's backward |
| Model.LayerZeroGradients | CNN/include/base_layer.h:23 | the virtual call runs the concrete layer's `zero_gradients` |
| Model.LayerUpdate | CNN/src/CNN.cpp:48-52 | the three virtual updates run in order on the concrete layer |
| Model.LayerSetTargets | CNN/include/base_layer.h:25 | the virtual call records the targets on a softmax layer |
| Model.LayerGetLoss | CNN/include/base_layer.h:24 | the virtual call returns the concrete layer's loss |
| Model.LayerOutputSize | CNN/include/base_layer.h:10 | the virtual call returns the concrete layer's shape |
| Model.CNNModel.constructor | CNN/include/CNN.h:11 | a new model has no layers |
| Model.CNNModel.AddLayer | CNN/src/CNN.cpp:6-8 | the layer is appended, with its state, and nothing else changes |
| Model.CNNModel.ForwardTurn | CNN/src/CNN.cpp:12-14 | one loop turn runs the next layer's forward |
| Model.CNNModel.Forward | CNN/src/CNN.cpp:10-16 | the new layer states, the result and the draws are those of the model's forward |
| Model.CNNModel.BackwardTurn | CNN/src/CNN.cpp:20-22 | one loop turn runs the previous layer's backward |
| Model.CNNModel.Backward | CNN/src/CNN.cpp:18-24 | the new layer states and the result are those of the model's backward |
| Model.CNNModel.ZeroAllLayers | CNN/src/CNN.cpp:29-31 | every layer's gradients are zeroed |
| Model.CNNModel.UpdateAllLayers | CNN/src/CNN.cpp:48-52 | every layer is updated |
| Model.CNNModel.AttachTarget | CNN/src/CNN.cpp:38 | the last layer receives the target |
| Model.CNNModel.LastLoss | CNN/src/CNN.cpp:43 | returns the last layer's loss |
| Model.CNNModel.SampleTurn | CNN/src/CNN.cpp:35-44 | one sample's target, forward, loss and backward |
| Model.CNNModel.SampleOfBatch | CNN/src/CNN.cpp:34-45 | one turn of the batch loop |
| Model.CNNModel.RunSamples | CNN/src/CNN.cpp:28-45 | the batch loop computes the accumulated loss of the samples |
| Model.CNNModel.TrainStep | CNN/src/CNN.cpp:26-54 | the new layer states, the loss and the draws are those of `train_step` |
| Model.CNNModel.GetOutputSize | CNN/src/CNN.cpp:123-126 | an empty model reports no shape, otherwise the last layer's shape |
| ExpressionTree.AddTo | CNN/src/expression_tree.cpp:34-49 | `data[key] += c` adds c to the coefficient of key only, inserting the key when it is absent, and keeps the keys distinct |
| ExpressionTree.CleanedSpec | CNN/src/expression_tree.cpp:26-31 | `cleanup` leaves a clean map with no new key, maps each coefficient through the 1e-9 cut-off, and leaves a clean map as it is |
| ExpressionTree.MultiPolynomial.constructor | CNN/src/expression_tree.cpp:17-18 | a new polynomial is the empty map |
| ExpressionTree.MultiPolynomial.Cleanup | CNN/src/expression_tree.cpp:26-31 | the in-place erase loop leaves exactly the cleaned map and keeps the keys distinct |
| ExpressionTree.MultiPolynomial.Add | CNN/src/expression_tree.cpp:33-36 | `add` leaves the cleaned coefficient-wise sum |
| ExpressionTree.MultiPolynomial.Subtract | CNN/src/expression_tree.cpp:38-41 | `subtract` leaves the cleaned coefficient-wise difference |
| ExpressionTree.MultiPolynomial.AccumulateLoop | CNN/src/expression_tree.cpp:34-39 | the loop over `other` adds or subtracts each of its entries |
| ExpressionTree.Accumulate | CNN/src/expression_tree.cpp:34-39 | accumulating keeps the keys of both maps and keeps them distinct |
| ExpressionTree.AccumulateCoeff | CNN/src/expression_tree.cpp:34-39 | after accumulating, each coefficient is the old one plus (or minus) the other's |
| ExpressionTree.Plus | CNN/src/expression_tree.cpp:33-36 | a sum is clean |
| ExpressionTree.Minus | CNN/src/expression_tree.cpp:38-41 | a difference is clean |
| ExpressionTree.PlusCoeff | CNN/src/expression_tree.cpp:33-36 | each coefficient of a sum is the sum of the coefficients, cut off below 1e-9 |
| ExpressionTree.MinusCoeff | CNN/src/expression_tree.cpp:38-41 | each coefficient of a difference is the difference of the coefficients, cut off below 1e-9 |
| ExpressionTree.MinusSelf | CNN/src/expression_tree.cpp:38-41 | a polynomial minus itself is the empty map |
| ExpressionTree.CombineExponents | CNN/src/expression_tree.cpp:47-48 | the key of a product term adds the exponents of each variable |
| ExpressionTree.CombineZeroFree | CNN/src/expression_tree.cpp:47-48 | with the correction, a product key holds no exponent 0 |
| ExpressionTree.Product | CNN/src/expression_tree.cpp:43-54 | a product is a clean map with distinct keys |
| ExpressionTree.ProductCoeff | CNN/src/expression_tree.cpp:43-54 | each coefficient of a product is the sum of c1·c2 over the pairs of terms whose keys combine into it, cut off below 1e-9 |
| ExpressionTree.OneTimes | CNN/src/expression_tree.cpp:43-54 | 1 times a clean polynomial (without exponent-0 keys, when corrected) is that polynomial |
| ExpressionTree.Power | CNN/src/expression_tree.cpp:284-286 | the repeated product is clean with distinct keys |
| ExpressionTree.PowerOne | CNN/src/expression_tree.cpp:284-286 | the first power of a clean polynomial is itself |
| ExpressionTree.PowerLoop | CNN/src/expression_tree.cpp:284-286 | the loop `res = res.multiply(L)` from 1 computes the power |
| ExpressionTree.Derivative | CNN/src/expression_tree.cpp:69-83 | a derivative has distinct keys |
| ExpressionTree.DerivativeCoeff | CNN/src/expression_tree.cpp:69-83 | the derivative by v sends the term with exponent e > 0 of v to the key with e - 1 (v erased at 0), times e |
| ExpressionTree.DerivativeDropsOthers | CNN/src/expression_tree.cpp:72-74 | terms without a positive exponent of v contribute nothing |
| ExpressionTree.VariablesEmpty | CNN/src/expression_tree.cpp:85-91 | `getVariables` is empty exactly when every key is empty |
| ExpressionTree.ConstantValue | CNN/src/expression_tree.cpp:56-67 | without variables, `evaluate({})` is the constant coefficient |
| ExpressionTree.Scaled | CNN/src/expression_tree.cpp:260-261 | dividing by a non-zero d keeps each key in place and divides its coefficient by d |
| ExpressionTree.ShiftExponents | CNN/src/expression_tree.cpp:231-234 | a quotient key subtracts the divisor's exponents |
| ExpressionTree.ShiftUndone | CNN/src/expression_tree.cpp:231-234 | multiplying a quotient key back by the divisor's key restores every exponent |
| ExpressionTree.DivideByMonomial | CNN/src/expression_tree.cpp:227-240 | a quotient by a monomial is a clean map with distinct keys |
| ExpressionTree.DivideCoeff | CNN/src/expression_tree.cpp:227-240 | each quotient coefficient is the sum of c / mc over the terms whose shifted key it is, cut off below 1e-9 |
| ExpressionTree.Preprocess | CNN/src/expression_tree.cpp:142-156 | the loop computes what `preprocess` returns |
| ExpressionTree.PreprocessOnlyStars | CNN/src/expression_tree.cpp:142-156 | `preprocess` only drops white space and inserts '*' |
| ExpressionTree.PreprocessDropsSpaces | CNN/src/expression_tree.cpp:145 | the result holds no white space |
| ExpressionTree.PreprocessedSnoc | CNN/src/expression_tree.cpp:146-153 | each kept character is preceded by '*' exactly when it and the last kept character need one |
| ExpressionTree.PreprocessDigitLetter | CNN/src/expression_tree.cpp:148-150 | "2x" becomes "2*x" |
| ExpressionTree.PreprocessLetterDigit | CNN/src/expression_tree.cpp:151 | "x2" becomes "x*2" |
| ExpressionTree.PreprocessCloseOpen | CNN/src/expression_tree.cpp:148-150 | ")(" becomes ")*(" |
| ExpressionTree.PreprocessSpaceParenthesis | CNN/src/expression_tree.cpp:145-150 | white space is dropped before the test, so "2 (x)" becomes "2*(x)" |
| ExpressionTree.PreprocessDigits | CNN/src/expression_tree.cpp:146-152 | two digits stay one number: "12" is unchanged |
| ExpressionTree.CheckParentheses | CNN/src/expression_tree.cpp:322-332 | `checkParentheses` is true exactly when no prefix closes more than it opens and the text closes all it opens |
| ExpressionTree.Reduce | CNN/src/expression_tree.cpp:169-176 | `process` pops one operator and leaves at least one node |
| ExpressionTree.Drain | CNN/src/expression_tree.cpp:195-209 | with the correction, a reduction loop always ends |
| ExpressionTree.ScanMove | CNN/src/expression_tree.cpp:178-208 | every pass of the loop of `buildTree` that goes on moves forward |
| ExpressionTree.DrainLoop | CNN/src/expression_tree.cpp:195-209 | the reduction loop computes the reductions, with no result where, as written, it never ends |
| ExpressionTree.NumberRun | CNN/src/expression_tree.cpp:181 | the inner loop stops at the end of the number |
| ExpressionTree.AlphaRun | CNN/src/expression_tree.cpp:187 | the inner loop stops at the end of the name |
| ExpressionTree.BuildTreeLoop | CNN/src/expression_tree.cpp:158-211 | the method computes `buildTree`, including its outer-parenthesis stripping |
| ExpressionTree.ScanLoop | CNN/src/expression_tree.cpp:165-210 | the loop of `buildTree`, with its `i--` after each run, computes the scan |
| ExpressionTree.ScanPass | CNN/src/expression_tree.cpp:179-207 | one pass of the loop body computes one move |
| ExpressionTree.UnaryFlag | CNN/src/expression_tree.cpp:184-206 | after a pass the `unary` flag is up exactly when the character read was '(' or an operator; a '-' read with the flag up is pushed as the unary '~', otherwise as '-' |
| ExpressionTree.Associativity | CNN/src/expression_tree.cpp:140-202 | reading '^' or '~' leaves an operator of equal precedence on the stack (right-associative); reading any other operator reduces it first (left-associative) |
| ExpressionTree.ScanEnds | CNN/src/expression_tree.cpp:178-210 | with the correction, the scan never spins |
| ExpressionTree.BuildTreeEnds | CNN/src/expression_tree.cpp:158-211 | with the correction, `buildTree` always ends |
| ExpressionTree.WrapBalanced | CNN/src/expression_tree.cpp:161-163 | with the correction, wrapping a balanced text in one more pair of parentheses does not change its tree |
| ExpressionTree.Quotient | CNN/src/expression_tree.cpp:253-278 | the '/' case is a clean map with distinct keys |
| ExpressionTree.Raise | CNN/src/expression_tree.cpp:279-288 | the '^' case is a clean map with distinct keys |
| ExpressionTree.Normalize | CNN/src/expression_tree.cpp:242-290 | `normalize` always returns a clean map with distinct keys |
| ExpressionTree.Apply | CNN/src/expression_tree.cpp:250-289 | each binary operator gives a clean map with distinct keys |
| ExpressionTree.NormalizeClass | CNN/src/expression_tree.cpp:242-290 | a tree without variables normalises to a constant, and with the correction no key of a normal form holds exponent 0 |
| ExpressionTree.SelfDifference | CNN/src/expression_tree.cpp:251 | a - a normalises to the empty map |
| ExpressionTree.DivisionByZero | CNN/src/expression_tree.cpp:254-259 | a divisor that normalises to 0 gives the empty map |
| ExpressionTree.DivisionByConstant | CNN/src/expression_tree.cpp:254-263 | a non-zero constant divisor divides every coefficient, then cleans up |
| ExpressionTree.DivisionByPolynomial | CNN/src/expression_tree.cpp:273-275 | a divisor with variables and more than one term gives the empty map |
| ExpressionTree.QuotientByPolynomial | CNN/src/expression_tree.cpp:264-276 | a divisor with variables that is not a monomial gives the empty map |
| ExpressionTree.ExponentWhole | CNN/src/expression_tree.cpp:279-287 | a whole exponent n gives the n-th power |
| ExpressionTree.ExponentOne | CNN/src/expression_tree.cpp:279-287 | the exponent 1 gives the base |
| ExpressionTree.ExponentFraction | CNN/src/expression_tree.cpp:282 | a non-integer exponent gives the empty map |
| ExpressionTree.ExponentNegative | CNN/src/expression_tree.cpp:282 | a negative exponent gives the empty map |
| ExpressionTree.IndexOf | CNN/src/expression_tree.cpp:338 | `find('=')` gives the first '=' or none exactly when there is no '=' |
| ExpressionTree.RunSilent | CNN/src/expression_tree.cpp:335 | `run_expression_tree` returns "" exactly for "" and "exit" |
| ExpressionTree.EquationAnswers | CNN/src/expression_tree.cpp:340-394 | an equation always gives an answer, and its fixed texts are the parenthesis error, identity, no solution or "They are equal." |
| ExpressionTree.CompareAnswers | CNN/src/expression_tree.cpp:351-393 | the comparison of two sides gives identity, no solution or equal as its only fixed texts |
| ExpressionTree.RunDropsTrailingEquals | CNN/src/expression_tree.cpp:336 | one trailing '=' is dropped |
| ExpressionTree.ExpressionParentheses | CNN/src/expression_tree.cpp:396-398 | an expression is answered "Error: Mismatched parentheses!" exactly when its parentheses do not balance, before anything is parsed |
| ExpressionTree.EquationParentheses | CNN/src/expression_tree.cpp:341-346 | an equation is answered with the sides' parenthesis error exactly when one side does not balance |
| ExpressionTree.RunEnds | CNN/src/expression_tree.cpp:334-417 | with the correction, `run_expression_tree` always returns |
| ExpressionTreeFindings.LoneMinusHangs | CNN/src/expression_tree.cpp:169-209 | as written, "-" never returns: the final loop cannot pop the '~' that has no operand |
| ExpressionTreeFindings.LoneMinusCorrected | CNN/src/expression_tree.cpp:169-209 | with the operator dropped, "-" gives the value 0 |
| ExpressionTreeFindings.ProductWithInverse | CNN/src/expression_tree.cpp:47-49 | x·x^-1 keeps x with exponent 0 in its key as written, and has the empty key when corrected |
| ExpressionTreeFindings.ZeroExponentAsWritten | CNN/src/expression_tree.cpp:47-49 | as written, the x^0 that `multiply` leaves in the key of x*(1/x) keeps x among the variables, so x*(1/x) = 1 is sent to the root search |
| ExpressionTreeFindings.ZeroExponentCorrected | CNN/src/expression_tree.cpp:47-49 | corrected, x*(1/x) = 1 is reported as an identity |
| ExpressionTreeFindings.StripAsWritten | CNN/src/expression_tree.cpp:161-176 | as written, "(1)+(2)" is read as "1)+(2", with '(' applied as an operator, and its value is 0 |
| ExpressionTreeFindings.StripCorrected | CNN/src/expression_tree.cpp:161-163 | with only an enclosing pair stripped, "(1)+(2)" is 1 + 2, whose value is 3 |
| PolySolver.DegFrom | FNN/FNN/polySolver.cpp:24-28 | the `deg` loop from d stops at the highest index up to d whose coefficient has magnitude at least 1e-12, or at 0 |
| PolySolver.Degree | FNN/FNN/polySolver.cpp:24-28 | `deg` is the highest index whose coefficient has magnitude at least 1e-12, 0 if there is none |
| PolySolver.TrimProperties | FNN/FNN/polySolver.cpp:29-32 | `trim` keeps a prefix, drops only negligible coefficients, keeps the degree, and is idempotent |
| PolySolver.Deg | FNN/FNN/polySolver.cpp:24-28 | the `deg` loop computes the degree |
| PolySolver.AddCoefficients | FNN/FNN/polySolver.cpp:35-42 | `add` is coefficient-wise a + b, with every dropped coefficient negligible, and trimmed |
| PolySolver.SubCoefficients | FNN/FNN/polySolver.cpp:44-51 | `subp` is coefficient-wise a - b, with every dropped coefficient negligible, and trimmed |
| PolySolver.NegCoefficients | FNN/FNN/polySolver.cpp:63-68 | `neg` negates each coefficient, and is trimmed |
| PolySolver.AddCommutes | FNN/FNN/polySolver.cpp:35-42 | `add(a, b) == add(b, a)` |
| PolySolver.SubSelf | FNN/FNN/polySolver.cpp:44-51 | `subp(a, a)` is the zero polynomial |
| PolySolver.NegNeg | FNN/FNN/polySolver.cpp:63-68 | negating a trimmed polynomial twice gives it back |
| PolySolver.AddLoop | FNN/FNN/polySolver.cpp:35-42 | the two accumulation loops and `trim` compute `add` |
| PolySolver.SubLoop | FNN/FNN/polySolver.cpp:44-51 | the two accumulation loops and `trim` compute `subp` |
| PolySolver.NegLoop | FNN/FNN/polySolver.cpp:63-68 | the negation loop and `trim` compute `neg` |
| PolySolver.MulCoeffs | FNN/FNN/polySolver.cpp:55 | the product buffer has len(a) + len(b) - 1 coefficients |
| PolySolver.MulDegree | FNN/FNN/polySolver.cpp:53-61 | coefficient k of `mul` is the convolution sum of a[i]·b[j] over i + j = k, and deg(mul(a, b)) <= deg a + deg b |
| PolySolver.MulLoop | FNN/FNN/polySolver.cpp:53-61 | the double loop with `r[i+j] += a[i]*b[j]` and `trim` computes `mul` |
| PolySolver.SkipSpaces | FNN/FNN/polySolver.cpp:86 | the lexer skips exactly the whitespace before the next token |
| PolySolver.Punctuation | FNN/FNN/polySolver.cpp:90-95 | the single-character tokens are neither numbers nor `END` |
| PolySolver.TokenAt | FNN/FNN/polySolver.cpp:89-107 | the token at a non-space character fails only with the `stod` exception |
| PolySolver.NextTokenProgress | FNN/FNN/polySolver.cpp:85-108 | `next` never moves back, and stays put only when it returns `END` at the end of the text |
| PolySolver.NextTokenNumber | FNN/FNN/polySolver.cpp:97-103 | a `NUM` token is the maximal run of digits and dots after the spaces |
| PolySolver.NextTokenFails | FNN/FNN/polySolver.cpp:97-103 | `next` throws exactly when the run of digits and dots it reads is not a number for the model's `stod`, which has no range error |
| PolySolver.Lexer.constructor | FNN/FNN/polySolver.cpp:76-80 | the lexer starts at index 0 of its text |
| PolySolver.Lexer.Next | FNN/FNN/polySolver.cpp:85-108 | the method returns the next token and leaves the index after it (on the number when `stod` throws); an unknown character is consumed and gives `END` |
| PolySolver.Advance | FNN/FNN/polySolver.cpp:117-122 | `cur = lex.next()` fails only with the lexer's exception and reads at most one more token |
| PolySolver.ParseExpr | FNN/FNN/polySolver.cpp:125-134 | expr := term (± term)*; it fails only with a lexer or parser exception and never moves back |
| PolySolver.ExprRest | FNN/FNN/polySolver.cpp:127-132 | the `+`/`-` loop of `parseExpr` folds terms with `add`/`subp` |
| PolySolver.ParseTerm | FNN/FNN/polySolver.cpp:136-144 | term := factor (* factor)* |
| PolySolver.TermRest | FNN/FNN/polySolver.cpp:138-142 | the `*` loop of `parseTerm` folds factors with `mul` |
| PolySolver.Constant | FNN/FNN/polySolver.cpp:19 | `Poly(v)` has degree 0 and coefficient v |
| PolySolver.ParseFactor | FNN/FNN/polySolver.cpp:146-174 | a factor is a signed factor, a number, x or a parenthesised expression, throwing "missing ')'" or "bad polynomial syntax"; each factor consumes input |
| PolySolver.Parse | FNN/FNN/polySolver.cpp:116-134 | a parse fails only with "stod", "missing ')'" or "bad polynomial syntax" |
| PolySolver.StripSpaces | FNN/FNN/polySolver.cpp:178-183 | `stripSpaces` leaves no whitespace and never lengthens the text |
| PolySolver.StripSpacesAppend | FNN/FNN/polySolver.cpp:178-183 | stripping distributes over concatenation |
| PolySolver.StripSpacesIdempotent | FNN/FNN/polySolver.cpp:178-183 | stripping twice is stripping once, and a text without spaces is unchanged |
| PolySolver.StripSpacesKeeps | FNN/FNN/polySolver.cpp:178-183 | every non-space character survives stripping and none is added |
| PolySolver.StripSpacesLoop | FNN/FNN/polySolver.cpp:178-183 | the loop computes `stripSpaces` |
| PolySolver.InsertMulOnlyStars | FNN/FNN/polySolver.cpp:189-222 | `insertImplicitMul` only inserts '*': deleting every '*' from its result gives the input with its own '*' deleted |
| PolySolver.InsertMulKeeps | FNN/FNN/polySolver.cpp:189-222 | a character other than '*' is in the result exactly when it is in the input |
| PolySolver.InsertMulKeepsNumbers | FNN/FNN/polySolver.cpp:189-222 | with the corrected rule, a run of digits and dots is left unchanged |
| PolySolver.InsertMulExamples | FNN/FNN/polySolver.cpp:190-196 | `6x`, `x2`, `)(`, `)x`, `2(` and `x(` become `6*x`, `x*2`, `)*(`, `)*x`, `2*(` and `x*(` |
| PolySolver.InsertMulSplitsNumbers | FNN/FNN/polySolver.cpp:198-216 | as written, `12` becomes `1*2`; corrected, it stays `12` |
| PolySolver.InsertImplicitMul | FNN/FNN/polySolver.cpp:189-222 | the loop computes `insertImplicitMul` |
| PolySolver.FindEquals | FNN/FNN/polySolver.cpp:225 | `find('=')` gives the first '=' or none exactly when there is no '=' |
| PolySolver.SplitEquationJoins | FNN/FNN/polySolver.cpp:224-231 | without '=' the sides are the text and "0"; otherwise the text is lhs, '=', rhs, with "0" for an empty side |
| PolySolver.SplitEquationAt | FNN/FNN/polySolver.cpp:224-231 | splitting `l=r` with no '=' in l gives l and r, an empty side becoming "0" |
| PolySolver.SplitEquationKeeps | FNN/FNN/polySolver.cpp:224-231 | a character other than '=' and '0' is in one of the sides exactly when it is in the text |
| PolySolver.SolveLinear | FNN/FNN/polySolver.cpp:234-239 | `solveLinear` has no root when a has magnitude below 1e-12, and otherwise its root r satisfies a·r + b = 0 |
| PolySolver.SolveQuadratic | FNN/FNN/polySolver.cpp:240-241 | `solveQuadratic` falls back to the linear solver when a has magnitude below 1e-12 |
| PolySolver.SolveCubic | FNN/FNN/polySolver.cpp:253-254 | `solveCubic` falls back to the quadratic solver when a has magnitude below 1e-12 |
| PolySolver.DivisionRejected | FNN/FNN/polySolver.cpp:298-302 | the division error is reported exactly when the equation contains '/', with no roots and an empty normalised text |
| PolySolver.SolveByDegreeSucceeds | FNN/FNN/polySolver.cpp:312-334 | the dispatch succeeds exactly when the degree is 1 to 3, with an empty error; a linear root is a root of lhs - rhs |
| PolySolver.SolveSucceeds | FNN/FNN/polySolver.cpp:282-339 | `trySolvePolynomial` succeeds exactly when neither side has '/', both parse and lhs - rhs has degree 1 to 3; a linear root makes lhs - rhs zero |
| PolySolver.TrySolvePolynomial | FNN/FNN/polySolver.cpp:282-339 | the method clears its outputs and returns what the specification of `trySolvePolynomial` gives, a thrown message becoming `err` |
| PolySolver.SolveTwelveXAsWritten | FNN/FNN/polySolver.cpp:198-216 | as written, `12x=24` is read as `1*2*x=2*4` and solved with root 4 |
| PolySolver.SolveTwelveXCorrected | FNN/FNN/polySolver.cpp:198-216 | with digits kept together, `12x=24` is solved with root 2 |
| Calculator.NumberEnd | FNN/FNN/Calculator.cpp:68-73 | the number scan stops at the first character that is neither a digit nor `.` |
| Calculator.Step | FNN/FNN/Calculator.cpp:58-130 | every successful step of the main loop consumes at least one character |
| Calculator.ReduceLoop | FNN/FNN/Calculator.cpp:94-121 | the reduction loop applies operators from the top of the stack while they bind at least as tightly, or down to `(` |
| Calculator.FinishLoop | FNN/FNN/Calculator.cpp:132-148 | the final reductions reject a leftover parenthesis and a value count other than 1 |
| Calculator.NumberRun | FNN/FNN/Calculator.cpp:69-73 | the inner loop finds the end of the number |
| Calculator.EvaluateLoop | FNN/FNN/Calculator.cpp:53-148 | the evaluator's loop computes the value or the error of the expression |
| Calculator.TryEvaluateExpression | FNN/FNN/Calculator.cpp:48-149 | returns true exactly when the expression evaluates, with the value and an empty error; otherwise the error text and `result` untouched |
| Calculator.StodFailure | FNN/FNN/Calculator.cpp:74-80 | for the model's `stod`, which has no range error, a run of digits and dots fails to parse exactly when it starts with `.` followed by nothing or another `.` |
| Calculator.StodNatText | FNN/FNN/Calculator.cpp:76 | the decimal text of a natural number parses back to it |
| Calculator.ApplyPush | FNN/FNN/Calculator.cpp:16-44 | applying an operator pops b then a and pushes `a op b` |
| Calculator.GrammarValue | FNN/FNN/Calculator.cpp:48-149 | every text of the grammar (an expression is terms joined by `+` or `-`, a term is factors joined by `*` or `/`, a factor is a number, a parenthesised expression or a unary minus before a factor) evaluates with the corrected unary minus to its value, and as written too when it holds no unary minus: `*` and `/` bind more tightly than `+` and `-`, equal precedences apply left to right, parentheses group, a unary minus negates the factor that follows it, numbers of any length are read whole, and a zero divisor gives "division by zero" |
| Calculator.ReadExpr | FNN/FNN/Calculator.cpp:58-130 | reading an expression over an operator stack with nothing on top leaves exactly its value pushed, or stops with its error |
| Calculator.ReadSum | FNN/FNN/Calculator.cpp:107-126 | a sum or difference reads its left expression, then its operator and term, and leaves `applyOp` of the two |
| Calculator.ReadTermAfter | FNN/FNN/Calculator.cpp:107-126 | after a left operand, `+` or `-` and a term leave `a ± b`, applied by whatever follows the term |
| Calculator.PushTerm | FNN/FNN/Calculator.cpp:107-126 | `+` or `-` after an operand is pushed and its term read on top of it |
| Calculator.ReadTerm | FNN/FNN/Calculator.cpp:58-130 | reading a term over an operator stack with no `*` or `/` on top leaves exactly its value pushed, or stops with its error |
| Calculator.ReadProduct | FNN/FNN/Calculator.cpp:107-126 | a product or quotient reads its left term, then its operator and factor, and leaves `applyOp` of the two |
| Calculator.ReadFactorAfter | FNN/FNN/Calculator.cpp:107-126 | after a left operand, `*` or `/` and a factor leave `a · b` or `a / b`, or stop with division by zero |
| Calculator.PushFactor | FNN/FNN/Calculator.cpp:107-126 | `*` or `/` after an operand is pushed and its factor read on top of it |
| Calculator.ReadFactor | FNN/FNN/Calculator.cpp:67-105 | reading a number or a parenthesised expression leaves its value pushed, or stops with its error |
| Calculator.ReadNegation | FNN/FNN/Calculator.cpp:108-126 | corrected, a unary minus and its factor leave the negated value of the factor, or the factor's error |
| Calculator.PushNegation | FNN/FNN/Calculator.cpp:110-115 | corrected, a minus that starts an operand pushes 0 and the negation, reducing nothing |
| Calculator.ReadNegated | FNN/FNN/Calculator.cpp:93-140 | the factor after a pushed negation is read and the negation applied to its value by whatever follows |
| Calculator.SettleNegation | FNN/FNN/Calculator.cpp:93-140 | an operator, `)` or the end of the text applies a pending negation, since it binds more tightly than any operator |
| Calculator.ReadGroup | FNN/FNN/Calculator.cpp:85-105 | `(` is pushed, the inner expression read, and `)` pops the `(` with the inner value left |
| Calculator.OpenGroup | FNN/FNN/Calculator.cpp:85-90 | `(` is pushed and the scan moves on |
| Calculator.CloseGroup | FNN/FNN/Calculator.cpp:93-105 | `)` with `(` on top of the stack pops it and moves on |
| Calculator.ReadNumber | FNN/FNN/Calculator.cpp:67-83 | a number is read whole and its value pushed |
| Calculator.StodNumber | FNN/FNN/Calculator.cpp:74-80 | a number with digits before and after an optional dot parses to its decimal value |
| Calculator.PushAfterOperand | FNN/FNN/Calculator.cpp:107-126 | an operator after an operand, over a stack with nothing binding as tightly, is pushed without pushing 0 |
| Calculator.BinaryAfterOperand | FNN/FNN/Calculator.cpp:109-115 | a `-` right after a digit or `)` is binary, as written and corrected |
| Calculator.Settle | FNN/FNN/Calculator.cpp:93-140 | the operator pending after an operand is applied by the next `)`, operator binding no more tightly, or the end of the text |
| Calculator.SettleAtEnd | FNN/FNN/Calculator.cpp:132-140 | the final reductions apply the pending operator, or stop with division by zero |
| Calculator.SettleAtClose | FNN/FNN/Calculator.cpp:93-97 | `)` applies the pending operator first, or stops with division by zero |
| Calculator.SettleAtOperator | FNN/FNN/Calculator.cpp:117-121 | an operator binding no more tightly applies the pending one first, or stops with division by zero |
| Calculator.MultiplicationFirst | FNN/FNN/Calculator.cpp:108-126 | for any factors a, b, c (numbers of any length, parenthesised expressions or negations) the text `a+b*c` has the value `a + b·c`, and the evaluator as written returns it when no factor holds a unary minus |
| Calculator.LeftToRight | FNN/FNN/Calculator.cpp:117-121 | for any terms a, b, c the text `a-b-c` has the value `(a - b) - c`, and the evaluator as written returns it when no term holds a unary minus |
| Calculator.ParenthesesFirst | FNN/FNN/Calculator.cpp:86-105 | for any factor a and expression x the text `a*(x)` has the value `a · x`, and the evaluator as written returns it when neither holds a unary minus |
| Calculator.UnaryMinusAfterTimes | FNN/FNN/Calculator.cpp:110-115 | as written, `a*-b` evaluates to `-b`: the pushed 0 is consumed by `*` |
| Calculator.UnaryMinusAfterDivide | FNN/FNN/Calculator.cpp:110-115 | as written, `a/-b` fails with division by zero |
| Calculator.UnaryMinusAfterSpace | FNN/FNN/Calculator.cpp:110-115 | as written, ` -a` fails with too few operands, because the previous character is a space |
| Calculator.UnaryMinusCorrected | FNN/FNN/Calculator.cpp:110-115 | with the unary minus corrected to negate the factor that follows it, `a*-b` and `a/-b` give `a·(-b)` and `a/(-b)` for any factors a and b (b non-zero for `/`) |
| Calculator.NegationBindsTightly | FNN/FNN/Calculator.cpp:110-121 | with the corrected unary minus, `a/-b*c` is `(a / (-b)) · c` and `a/-b/c` is `(a / (-b)) / c` for any factors: the negation is applied before the following `*` or `/` |
| Calculator.UnaryMinusCorrectedAfterSpace | FNN/FNN/Calculator.cpp:110-115 | with the previous non-space character consulted, ` -a` gives `-a` |
| Calculator.TextsOnlyNameErrors | FNN/FNN/Calculator.cpp:16-145 | the error texts never change whether an expression succeeds |
| Calculator.SuccessMeansAllowed | FNN/FNN/Calculator.cpp:128-129 | an expression that evaluates holds only spaces, digits, dots, parentheses and the four operators |
| Calculator.ReduceErrors | FNN/FNN/Calculator.cpp:16-44 | a failed reduction reports too few operands, an unknown operator or division by zero |
| Calculator.FinishErrors | FNN/FNN/Calculator.cpp:132-145 | the final reductions fail only with those errors, mismatched parentheses or a bad expression |
| Calculator.StepError | FNN/FNN/Calculator.cpp:58-130 | a failing step reports the offending character or one of the fixed errors |
| Calculator.InvalidCharacterIsFirstOne | FNN/FNN/Calculator.cpp:128-129 | an invalid-character error names the first character outside the alphabet |
| Calculator.TextsDistinguishable | FNN/FNN/Calculator.cpp:18-143 | the invalid-character message differs from every other error text |
| Calculator.ReduceKeepsOpens | FNN/FNN/Calculator.cpp:94-121 | reducing never pops a `(`, and reducing to `(` stops on it |
| Calculator.RunKeepsDepth | FNN/FNN/Calculator.cpp:58-130 | the open parentheses on the stack match the nesting depth of the text read, which never goes negative |
| Calculator.SuccessMeansBalanced | FNN/FNN/Calculator.cpp:48-149 | an expression that evaluates has balanced parentheses |
| Calculator1.EvaluateForLoop | FNN/FNN1/Calculator1.cpp:38-101 | the `for`-loop evaluator, with the number branch's `i--`, computes the same value or error as the two-stack evaluation of the expression, so no character is skipped or read twice |
| Calculator1.ForBody | FNN/FNN1/Calculator1.cpp:43-92 | one pass of the loop body followed by the loop's `i++` is one step of the evaluation: the number scan leaves `i` on the number's last character |
| Calculator1.TryEvaluateExpression | FNN/FNN1/Calculator1.cpp:38-101 | returns true exactly when the expression evaluates, with its value; otherwise the error ("Not enough operands", "Unknown operator", "Invalid Character: c", "mismatched parentheses", "division by zero" or "Bad Expression") and `result` untouched |
| Calculator1.SameAsCalculator | FNN/FNN1/Calculator1.cpp:9-35 | the two calculators accept the same expressions with the same values, and the invalid-character text differs from every other error text |
| Extraction.UnionCovers | FNN/FNN/Extraction.cpp:99-153 | the union of two non-empty boxes is non-empty and covers both |
| Extraction.Overlap1DProperties | FNN/FNN/Extraction.cpp:12-16 | `overlap1D` is symmetric, never negative, no longer than either interval, and positive exactly when the intervals overlap |
| Extraction.OverlapRatioXProperties | FNN/FNN/Extraction.cpp:18-22 | `overlapRatioX` is symmetric, lies in [0, 1] for non-negative widths, and is 1 when one box spans the other |
| Extraction.EqualsPairSymmetric | FNN/FNN/Extraction.cpp:25-52 | because the boxes are ordered by y first, `isEqualsPair` gives the same verdict for either argument order |
| Extraction.EqualsPairIsClose | FNN/FNN/Extraction.cpp:40-45 | two bars that pair overlap horizontally and lie at most 18 apart vertically |
| Extraction.PairScorePositive | FNN/FNN/Extraction.cpp:86-89 | a pairing bar scores at least 46, so it always beats the initial `bestScore` of -1 |
| Extraction.EqualsBarsScoresAbove | FNN/FNN/Extraction.cpp:70-94 | every pair `isEqualsPair` accepts scores above -1 |
| Extraction.Best | FNN/FNN/Extraction.cpp:70-95 | the inner loop picks either no partner or an unused later box |
| Extraction.BestPartner | FNN/FNN/Extraction.cpp:70-95 | the inner loop finds no partner exactly when no later unused, near box pairs, and otherwise the first such box with the highest score |
| Extraction.BestPartnerLoop | FNN/FNN/Extraction.cpp:70-95 | the inner loop with its `used`/`continue`/far-reject tests computes that best partner |
| Extraction.PicksFrom | FNN/FNN/Extraction.cpp:67-104 | each pick of the outer loop names the current box, or it and a later partner |
| Extraction.PickBoxes | FNN/FNN/Extraction.cpp:97-103 | the output has one box per pick: the box itself, or the union with its partner |
| Extraction.Insert | FNN/FNN/Extraction.cpp:58-61 | inserting into a sorted list adds exactly that box |
| Extraction.InsertSorted | FNN/FNN/Extraction.cpp:58-61 | inserting into a sorted list keeps it sorted |
| Extraction.Sort | FNN/FNN/Extraction.cpp:143-146 | `std::sort` returns a sorted permutation of its input |
| Extraction.PicksUseEachOnce | FNN/FNN/Extraction.cpp:67-104 | the outer loop emits every box that was unused when it started exactly once |
| Extraction.PicksCount | FNN/FNN/Extraction.cpp:67-104 | the number of picks lies between half the number of free boxes and that number |
| Extraction.MergeEqualsBarsUsesEachOnce | FNN/FNN/Extraction.cpp:54-106 | for two or more boxes, each sorted box is used exactly once and the output has between n/2 and n boxes |
| Extraction.MergeEqualsBarsCovers | FNN/FNN/Extraction.cpp:54-106 | every input box is covered by some output box |
| Extraction.MergeEqualsBars | FNN/FNN/Extraction.cpp:54-106 | the method returns fewer than two boxes as they are, and otherwise the greedy pairing of the boxes sorted by y then x |
| Extraction.PairUp | FNN/FNN/Extraction.cpp:63-105 | the loops over the sorted boxes emit exactly the boxes of the greedy picks |
| Extraction.PairTurn | FNN/FNN/Extraction.cpp:67-104 | one turn of the outer loop emits the next pick's box and marks the boxes it used |
| Extraction.NextPick | FNN/FNN/Extraction.cpp:97-103 | a turn on an unused box emits its pair's union or the box alone |
| Extraction.ShouldMergeMeans | FNN/FNN/Extraction.cpp:109-118 | `shouldMerge` is symmetric for positive widths and, when it holds, the boxes overlap vertically by more than 0.75 of the shorter height and are 0 to 2 apart horizontally |
| Extraction.MergeFrom | FNN/FNN/Extraction.cpp:149-159 | the merge pass from a position emits at least one box and at most one per remaining box plus the current one |
| Extraction.MergePass | FNN/FNN/Extraction.cpp:148-159 | the merge pass turns a non-empty list into a non-empty list no longer than it |
| Extraction.MergeFromCovers | FNN/FNN/Extraction.cpp:149-159 | every box the pass reads is covered by some output box, and every output box is non-empty |
| Extraction.MergePassLoop | FNN/FNN/Extraction.cpp:148-159 | the loop with its running `cur` computes the merge pass |
| Extraction.Kept | FNN/FNN/Extraction.cpp:128-135 | the filtered boxes are no more than the contours and each has both sides at least 2 |
| Extraction.KeptMeans | FNN/FNN/Extraction.cpp:128-135 | a box survives the noise filter exactly when a contour of area at least 20 with that box and both sides at least 2 exists |
| Extraction.MergeEqualsBarsNonEmpty | FNN/FNN/Extraction.cpp:54-106 | the '=' merge keeps boxes non-empty and turns a non-empty list into a non-empty one |
| Extraction.DetectSymbolsShape | FNN/FNN/Extraction.cpp:120-167 | `detectSymbols` returns nothing exactly when no contour passes the filter, at most one box per kept contour, sorted by x then y |
| Extraction.SortKeepsCover | FNN/FNN/Extraction.cpp:143-165 | sorting keeps every covered box covered |
| Extraction.PassKeepsCover | FNN/FNN/Extraction.cpp:148-159 | the merge pass keeps every covered box covered |
| Extraction.DetectSymbolsCovers | FNN/FNN/Extraction.cpp:120-167 | every contour that passes the filter is covered by one of the returned boxes |
| Extraction.KeepLoop | FNN/FNN/Extraction.cpp:129-135 | the filter loop collects the kept boxes in order |
| Extraction.DetectSymbols | FNN/FNN/Extraction.cpp:120-167 | the method filters, merges '=' bars, sorts, merges split pieces and sorts again, as the specification function does |
| Extraction.PadBounds | FNN/FNN/Extraction.cpp:172-177 | the padded box starts at x, y >= 0, ends within the image, grows by at most 2 per side, and covers a box lying in the image |
| Extraction.ExtractBoxes | FNN/FNN/Extraction.cpp:169-180 | the loop of `extractSymbols` gives one padded, clamped box per rectangle, in order |
| Mnist.BE32 | CNN/src/read_mnist.cpp:16-17 | four bytes read big-endian give an unsigned 32-bit value |
| Mnist.ToInt32 | CNN/src/read_mnist.cpp:17-23 | the value is reinterpreted as a two's-complement `int`, congruent modulo 2³² |
| Mnist.Intensity | CNN/src/read_mnist.cpp:36 | every pixel is scaled by 1/255 into [0, 1] |
| Mnist.DecodeImagesSucceeds | CNN/src/read_mnist.cpp:5-43 | reading succeeds exactly for magic 2051, a non-negative count and a non-negative image size |
| Mnist.DecodeImagesPixel | CNN/src/read_mnist.cpp:29-39 | there is one image per count, each of rows·cols values, and pixel (r, c) of image i is the scaled byte at `16 + i·rows·cols + r·cols + c` |
| Mnist.ReadImage | CNN/src/read_mnist.cpp:32-38 | the row and column loops read one scaled image |
| Mnist.ReadPixels | CNN/src/read_mnist.cpp:31-39 | the image loop reads every image in file order |
| Mnist.ReadMnistImages | CNN/src/read_mnist.cpp:5-43 | the reader returns the decoded images or the open and magic errors |
| Mnist.ImagesRoundTrip | CNN/src/read_mnist.cpp:5-43 | reading a well-formed image file written from pixel rows returns those rows, scaled |
| Mnist.OneHotLabel | CNN/src/read_mnist.cpp:63-68 | the label vector of digit d has its single 1 at d |
| Mnist.DecodeLabelsShape | CNN/src/read_mnist.cpp:45-73 | reading succeeds exactly for magic 2049 and a non-negative count; each label is a one-hot vector of length 10 at its byte |
| Mnist.ReadLabels | CNN/src/read_mnist.cpp:65-69 | the loop reads one one-hot vector per label byte |
| Mnist.ReadMnistLabels | CNN/src/read_mnist.cpp:45-73 | the reader returns the decoded labels or the open and magic errors |
| Mnist.BE32RoundTrip | CNN/src/read_mnist.cpp:16-17 | reading back a written big-endian field returns its value |
| Mnist.LabelsRoundTrip | CNN/src/read_mnist.cpp:45-73 | reading a well-formed label file written from digits returns their one-hot vectors |
| Network1.FirstInvalid | FNN/FNN1/Network1.cpp:20-25 | the size check stops at the first layer whose size is not positive, or finds none |
| Network1.ConstructorError | FNN/FNN1/Network1.cpp:16-25 | the constructor exits exactly when there are fewer than two layers or a layer size is not positive; its message ends with the newline `std::endl` writes |
| Network1.InitWeights | FNN/FNN1/Network1.cpp:28-49 | layer 0 has no weights; layer i has an `npl[i] × npl[i-1]` matrix of draws |
| Network1.InitBias | FNN/FNN1/Network1.cpp:33-44 | input-layer biases are 0; layer i's biases are draws |
| Network1.InitShapes | FNN/FNN1/Network1.cpp:28-49 | the constructed network has every container sized by the layer sizes |
| Network1.InitRange | FNN/FNN1/Network1.cpp:44-46 | with draws in [0, 1] every initial weight and bias `(r - 0.5)·2` lies in [-1, 1] |
| Network1.DrawsInOrder | FNN/FNN1/Network1.cpp:39-49 | each neuron draws its bias, then its weights, and layers draw in order without overlap |
| Network1.Propagate | FNN/FNN1/Network1.cpp:60-85 | the stored outputs start with the input and have one vector per layer of that layer's size |
| Network1.SoftmaxVecDistribution | FNN/FNN1/Network1.cpp:143-161 | a non-positive sum is replaced by 1; with positive exponentials the result is positive and sums to 1 |
| Network1.ForwardKeeps | FNN/FNN1/Network1.cpp:53-87 | forward changes only the outputs and exits exactly on a mis-sized input |
| Network1.ForwardOutputs | FNN/FNN1/Network1.cpp:60-86 | output i is the sigmoid of `W_i·out_{i-1} + b_i` for hidden layers and its softmax for the last; the result is the last output |
| Network1.PropagatePrefix | FNN/FNN1/Network1.cpp:63-85 | the first k outputs do not depend on the later layers |
| Network1.ForwardIsDistribution | FNN/FNN1/Network1.cpp:53-87 | with positive exponentials the network's output sums to 1 |
| Network1.SigmoidDerivativeRange | FNN/FNN1/Network1.cpp:137-141 | `a(1-a)` lies in [0, 1/4] for a sigmoid output a |
| Network1.Deltas | FNN/FNN1/Network1.cpp:103-116 | the output delta is `target - output`; each hidden delta is the back-propagated sum times the sigmoid derivative; layer 0 is untouched |
| Network1.HiddenOutputsInUnit | FNN/FNN1/Network1.cpp:75-80 | with a sigmoid valued in [0, 1], every hidden output after `forward` lies in [0, 1] |
| Network1.HiddenDeltaBounded | FNN/FNN1/Network1.cpp:110-114 | for outputs in [0, 1], `backprop[i][j] = sum * sigmoid_derivative(out)` has the sign of `sum` and lies between 0 and `sum / 4` |
| Network1.TrainingHiddenDeltas | FNN/FNN1/Network1.cpp:99-116 | after the forward pass of `training`, each hidden delta has the sign of the sum propagated back from the next layer and at most a quarter of its magnitude |
| Network1.UpdateWeights | FNN/FNN1/Network1.cpp:119-126 | every weight matrix keeps its shape under the step `w + lr·out_{i-1}·δ` |
| Network1.UpdateBias | FNN/FNN1/Network1.cpp:119-121 | every bias vector keeps its size under the step `b + lr·δ` |
| Network1.Learn | FNN/FNN1/Network1.cpp:103-126 | back-propagation and the update keep the network's shape and outputs |
| Network1.TrainShapes | FNN/FNN1/Network1.cpp:89-127 | training exits exactly on a mis-sized input or target, and then changes nothing |
| Network1.NoStepKeepsParameters | FNN/FNN1/Network1.cpp:119-126 | a zero rate or zero deltas leave every weight and bias as it was |
| Network1.ZeroRateKeepsParameters | FNN/FNN1/Network1.cpp:89-127 | training with learning rate 0 leaves the parameters unchanged |
| Network1.DeltasVanish | FNN/FNN1/Network1.cpp:103-116 | when the output equals the target every delta is 0 |
| Network1.ExactAnswerKeepsParameters | FNN/FNN1/Network1.cpp:89-127 | training on a sample the network already answers exactly leaves the parameters unchanged |
| Network1.OutputBiasTowardTarget | FNN/FNN1/Network1.cpp:104-121 | with a positive rate each output bias moves in the direction of `target - output` |
| Network1.InitRowLoop | FNN/FNN1/Network1.cpp:42-48 | one neuron takes its bias draw and then one weight draw per input |
| Network1.InitLayerLoop | FNN/FNN1/Network1.cpp:41-48 | one layer takes its draws in row order |
| Network1.PreActivationLoop | FNN/FNN1/Network1.cpp:65-74 | the loops compute `W·x + b` |
| Network1.SigmoidLoop | FNN/FNN1/Network1.cpp:76-80 | the loop applies the sigmoid to each pre-activation |
| Network1.SoftmaxVecLoop | FNN/FNN1/Network1.cpp:143-161 | the loops compute the shifted, normalised exponentials |
| Network1.OutputDeltaLoop | FNN/FNN1/Network1.cpp:103-105 | the loop computes `target - output` |
| Network1.HiddenDeltaLoop | FNN/FNN1/Network1.cpp:109-115 | the loops compute one hidden layer's deltas |
| Network1.StepRowLoop | FNN/FNN1/Network1.cpp:122-124 | the loop steps one weight row |
| Network1.UpdateLayerLoop | FNN/FNN1/Network1.cpp:120-125 | the loops step one layer's weights and biases |
| Network1.UpdateLayers | FNN/FNN1/Network1.cpp:119-126 | the loop steps every layer |
| Network1.ZeroLoop | FNN/FNN1/Network1.cpp:28-38 | every bias, output and delta vector starts as zeros of its layer's size |
| Network1.InitLoop | FNN/FNN1/Network1.cpp:39-49 | the loops draw every parameter in order, consuming exactly the draws counted |
| Network1.NN.Forward | FNN/FNN1/Network1.cpp:53-87 | the new state and result are those of forward |
| Network1.NN.Training | FNN/FNN1/Network1.cpp:89-127 | the new state and result are those of a training step |
| Network1.NN.Backpropagate | FNN/FNN1/Network1.cpp:103-116 | only the deltas change, to those of the target |
| Network1.NN.Update | FNN/FNN1/Network1.cpp:119-126 | only weights and biases change, by the update step |
| Network1.Create | FNN/FNN1/Network1.cpp:12-50 | construction fails exactly on invalid sizes, with the first error message and no draw; otherwise it yields a fresh network in its initial state |
| Network1.NN.constructor | FNN/FNN1/Network1.cpp:12-50 | for accepted sizes, the object holds the initial state built from the draws, and exactly the counted draws are consumed |

## Left out

- `float` and `double` arithmetic is modelled as exact `real` arithmetic: rounding and overflow are not modelled, except where the source compares a value with the largest finite single-precision value (`Tensor.Finite`).
- Calculator.Stod, Calculator.StodFailure, Calculator.TryEvaluateExpression, Calculator1.TryEvaluateExpression, PolySolver.TokenAt, PolySolver.NextTokenFails, PolySolver.Parse, ExpressionTree.ScanMove: `stod` fails only on a run of digits and dots with no digit before its second dot. `std::stod` also throws `out_of_range` on a numeral outside the range of a `double`, such as 400 digits or `0.` followed by 400 zeros and a `1`. On such a numeral the model reads a number where the source reports "invalid number" (Calculator.cpp:76-78, Calculator1.cpp:53-54), fails through the outer handler (polySolver.cpp:335), or ends the program on the uncaught exception (expression_tree.cpp:182).
- Calculator.InvalidCharacterIsFirstOne, Calculator.StepError, Calculator1.TryEvaluateExpression: a text is a sequence of characters, while the source's `char` is a byte. For a character outside ASCII the source's invalid-character error names the first byte of its UTF-8 encoding, and the model's names the whole character.
- `std::exp`, `std::log`, the sigmoid and `pow` are supplied functions (`Tensor.Math`, `Network1.Activation`) of which the model assumes only what the proofs need, such as `exp > 0`.
- Convolution.ConvolutionLayer.constructor: the He-normal draws (`normal_distribution` over `mt19937`) are the `initialFilters` argument; the generator is not modelled. The same holds for FullyConnected.FCLayer.constructor and its initial weights.
- `rand()` in the dropout layer and in `_NN_` is the `Tensor.Rng` stream of supplied draws; the `mt19937` shuffle of the training indices is a supplied permutation of each epoch (`perm` in Network.TrainSpec).
- Extraction.Sort: `std::sort` is modelled as a stable insertion sort by the same key; `std::sort` is not stable, so the order of boxes with equal keys may differ from the model's.
- Convolution.ConvolutionLayer.constructor: requires a stride of at least 1 and a filter no larger than the padded input. With stride 0 the source divides by zero, and with a larger filter the output shape is negative: both are undefined behaviour.
- Pool.PoolLayer.constructor: requires `1 <= poolSize <= inputHeight`, `poolSize <= inputWidth` and a stride of at least 1, for the same reason.
- Network.TrainSpec, Network.CanTrain, Network.BatchesFrom, Network.EpochStep, Network.EpochsFrom: a batch size below 1 is excluded whenever there are training samples. `CNN_model::train` does not check `batch_size` (CNN.cpp:68, passed from `atoi` at train.cpp:133 and 137). With 0 the source divides by zero in `(t/batch_size) % 10000` (CNN.cpp:91). With a negative size `t += batch_size` (CNN.cpp:88) moves `t` away from the bound, so the batch loop does not end before `t` overflows. Both are undefined behaviour or non-termination, which the model does not represent.
- DropOut.DropOutLayer.constructor: requires `dropProbability != 1.0`, because training-mode forward divides by `1 - p`. The source accepts p = 1, and such a layer is harmless in inference mode; the model does not build it.
- Mnist.ReadMnistImages: requires `ImageSizeFits` (`rows * cols` fits an `int`). Mnist.ReadMnistLabels: requires `LabelsInRange` (every label byte below 10). Beyond these the source overflows or writes out of bounds.
- Relu.ReluLayer.Backward: requires `d_out` to hold at least `C·H·W` values, because the source reads them without a length check. Model.LayerBackward carries the same requirement for a ReLU layer.
- Softmax.SoftmaxLayer.constructor: requires at least one input, because `forward` dereferences `max_element` of the input, which an empty input does not have.
- Convolution.ConvolutionLayer.LoadFilters, Convolution.ConvolutionLayer.LoadBiases, FullyConnected.FCLayer.LoadWeights, FullyConnected.FCLayer.LoadBiases: require the new vector to have the current length. The source assigns a vector of any length, and a wrong length fails only later, by out-of-range indexing.
- Pool.PoolLayer.Backward: follows the code and routes each window's gradient to the last flagged cell of that window. With overlapping windows (stride below the pool size) that cell can be another window's maximum: for H = 2, W = 3, K = 2, S = 1 and input rows `3 2 1` / `0 0 0`, window 0's gradient goes to the cell holding 2, not to its maximum 3. The sum of the gradient is still conserved (Pool.BackwardConservesSum). No corrected backward is modelled, because the CNN model uses the layer as written.
- Network1.HiddenOutputsInUnit, Network1.TrainingHiddenDeltas: the sigmoid is an abstract function, so these lemmas assume `SigmoidInUnit` (its values lie in [0, 1]). `1 / (1 + exp(-x))` at Network1.cpp:132-135 has that property, but the model does not prove it for the floating-point computation.
- Network1.Create, Network1.ForwardKeeps, Network1.TrainShapes, Network1.NN.Forward, Network1.NN.Training: each `exit(1)` of `_NN_` is an `Err` outcome, and `forward` and `training` then leave the state unchanged. The exits are the constructor's on a bad layer list (Network1.cpp:16-25), `forward`'s on a mis-sized input (Network1.cpp:58), and `training`'s on a mis-sized input or target (Network1.cpp:94, 98). The `Err` carries the text written to `std::cerr`.
- Network.TrainSpec: the epoch loop of `CNN_model::train`, `evaluate` and `predict_classes` are stated as recursive functions over the layer states (Network.TrainSpec, Network.EvaluateSpec, Network.TestLossFrom, Network.PredictFrom, Network.PairsFrom), not as loops of the model object. The per-batch `train_step` is a method (Model.CNNModel.TrainStep). The log file, the console output and the timing are dropped.
- PolySolver.SolveQuadratic and PolySolver.SolveCubic: only the fallback to the lower degree is stated. The quadratic and cubic root formulas, with their complex roots, are not modelled.
- The Newton root search `findAllRootsStr` of the expression tree is not modelled; the answer keeps the polynomial it would search (`Verdict.SearchRoots`).
- `MultiPolynomial::toString`, `to_string` and the polynomial printing of the solvers are not modelled; answers carry the values they would print.
- The interactive branch of `run_expression_tree` that reads variable values from `cin` ends in the answer `AskValues(p)`.
- File and console I/O: `load_vector_from_file`, `load_classes_from_file`, the `save_*` file writers, opening the MNIST files (a missing file is the `None` argument of the decoders) and all `cout` output.
- OpenCV and filesystem code: `read_jpg.cpp`, `symbols.cpp`, `Preprocessing.cpp`, `Extraction1.cpp`, the `findContours` step of `detectSymbols` (a contour arrives as its bounding box) and the image copying of `extractSymbols`.
- The program mains (`train.cpp`, `extractor.cpp`, `metrics.cpp`, `main.cpp`), the Python plotting scripts, and `Calculator1 .cpp`, a near-copy of `Calculator1.cpp` that is not part of this model.

## Findings

| source | as written | input that shows it | evidently intended | confidence | as-written member | corrected member |
|---|---|---|---|---|---|---|
| FNN/FNN/Calculator.cpp:110-115 | a '-' after an operator pushes a 0 operand, which that operator then consumes; the test looks at the raw previous character, so a space hides an operator | `2*-3` gives -3; `2/-3` fails with division by zero; ` -3` fails with too few operands | a unary minus negates the factor that follows it, before any `*` or `/` after it: `2*-3` is -6, `2/-3` is -2/3, `2/-3*4` is -8/3, ` -3` is -3 | not executed | Calculator.UnaryMinusAfterTimes, Calculator.UnaryMinusAfterDivide, Calculator.UnaryMinusAfterSpace | Calculator.UnaryMinusCorrected, Calculator.NegationBindsTightly, Calculator.UnaryMinusCorrectedAfterSpace |
| CNN/src/expression_tree.cpp:47-49 | `newKey[var] += exp` keeps a variable whose exponents cancel, with exponent 0 | `x*(1/x)=1` is sent to the root search, as if it still depended on x | x^0 is the constant 1, so the equation is an identity | not executed | ExpressionTreeFindings.ZeroExponentAsWritten | ExpressionTreeFindings.ZeroExponentCorrected |
| CNN/src/expression_tree.cpp:161-163 | a leading '(' and a trailing ')' are stripped even when they do not match each other | `(1)+(2)` is read as `1)+(2`, where '(' becomes an operator, and its value is 0 | strip only a pair that encloses the whole text; the value is 3 | not executed | ExpressionTreeFindings.StripAsWritten | ExpressionTreeFindings.StripCorrected |
| CNN/src/expression_tree.cpp:169-170 | `process` returns without popping when no node is left, so `while (!ops.empty()) process();` never ends | `-` never returns | drop the operator, as the corrected model does, so every input gets an answer | not executed | ExpressionTreeFindings.LoneMinusHangs | ExpressionTreeFindings.LoneMinusCorrected |
| FNN/FNN/polySolver.cpp:198-216 | implicit multiplication is inserted between two digits, splitting a number | `12x=24` is read as `1*2*x=2*4` and solved with root 4 | keep digit runs whole; the root is 2 | not executed | PolySolver.SolveTwelveXAsWritten | PolySolver.SolveTwelveXCorrected |
