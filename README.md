# FishNet core, modelled in Dafny

FishNet is a small C++ engine that trains convolutional neural networks to
classify images. This project models its numeric engine and its input
readers, and proves properties of them.

**Numeric engine.**
- The `Tensor`: a shape of up to four dimensions over one flat, row-major buffer, with in-place arithmetic, first-maximum search, statistics and a save/load layout.
- The fully-connected, convolutional and 2×2 max-pooling layers: their forward pass, error backpropagation and gradient accumulation, with and without dropout masks.
  - The convolutional passes walk their buffers with running indices, as the C++ does. They are proved against brute-force sums over in-bounds cells.
  - The padded gradient pass is also proved against its per-filter-offset table.
- The gradient step, weight decay and the shadow weights that compensate for dropout at test time.
- The activation functions, the cross-entropy cost derivative, dropout masks and one-hot targets.
- `FeedForwardNetwork`:
  - the construction rules of its layer stack;
  - how it shares mini-batches and test sets between its threads, what each trainer accumulates over its share, and the serial step that combines their gradients;
  - the epoch control of `Train`, classification, and the accuracy table;
  - the back-propagation of one example;
  - the versioned network file.

**Readers.**
- The CSV splitter, the tokenizer and the string helpers.
- The job-file reader (`Trainer::LoadJobList`) and its network blocks (`Trainer::LoadNetwork`).
- The PGM, MNIST, CIFAR-10 and CMU faces readers.
- The image-set loader with its cache.

`double` is modelled as `real`, and rounding is not modelled. `exp` and `log` are function-valued parameters, and a lemma that needs a fact about them (`exp(0) = 1`) takes it as a hypothesis. Objects that the C++ updates in place are classes whose methods state their whole new state: `Tensor`, the layers, the network, `ImageSet`, `Tokenizer`, `ImageSetLoader` and `Trainer`. The specifications they are proved against are functions on sequences.

A polymorphic `Layer` is a datatype with one variant per layer type. Debug-build checks (`#ifdef _DEBUG`) are preconditions. Files are maps from path to bytes or to lines. The environment is a map. `std::stoi` and `std::stod` are parameters from text to a value or an error: the job-file reader, the network blocks, the PGM reader and the faces loader all take them so.

## Model

| member | source | states |
|---|---|---|
| Tensors.OffsetInBounds | FishNet/Tensor.h:169-182 | an in-bounds coordinate's row-major offset lies below the element count |
| Tensors.OffsetHorner | FishNet/Tensor.h:181 | the offset h·hyperplaneSize + p·planeSize + r·columns + c equals ((h·planes + p)·rows + r)·columns + c |
| Tensors.OffsetDecomposes | FishNet/Tensor.h:169-182 | every coordinate can be read back from its offset by division and remainder |
| Tensors.OffsetInjective | FishNet/Tensor.h:169-182 | two in-bounds coordinates share an offset exactly when they are equal |
| Tensors.AsWrittenCheckAdmitsRowPastEnd | FishNet/Tensor.h:110-113 | in every 2-D shape the row index equal to the row count passes the `>` check yet addresses past the end |
| Tensors.AsWrittenCheckAdmitsThreeThree | FishNet/Tensor.h:110-113 | (3, 3) in a 3×4 tensor passes the check as written and is offset 15 of 12 |
| Tensors.SubtractUndoesAdd | FishNet/Tensor.cpp:62-113 | subtracting what was added element-wise restores the original elements |
| Tensors.FirstMaxIndex | FishNet/Tensor.cpp:151-171 | the index returned holds the maximum and no earlier index does |
| Tensors.FirstMaxUnique | FishNet/Tensor.cpp:151-171 | the first index of the maximum is unique |
| Tensors.RunningMaxBounds | FishNet/Tensor.cpp:173-188 | the running maximum is at least the seed and every element, and is the seed or some element |
| Tensors.RunningMinBounds | FishNet/Tensor.cpp:173-188 | the running minimum is at most the seed and every element, and is the seed or some element |
| Tensors.AllNegativeMaxIsDoubleMin | FishNet/Tensor.cpp:175-186 | an all-negative tensor reports the smallest positive double as its maximum |
| Tensors.TensorUnits | FishNet/Tensor.cpp:190-197 | Save writes 16 header bytes and one unit per element |
| Tensors.DecodeTensor | FishNet/Tensor.cpp:199-213 | a decoded tensor is well formed, has u32 dimensions and ends inside the stream |
| Tensors.TensorRoundTrip | FishNet/Tensor.cpp:190-213 | Load reads back exactly the tensor Save wrote, wherever it sits in the stream |
| Tensors.TensorParts | FishNet/Tensor.cpp:190-196 | the four u32 dimensions sit at offsets 0, 4, 8, 12 and the elements at 16 |
| Tensors.TensorSteps | FishNet/Tensor.cpp:199-212 | reading the dimensions and then the elements one after another decodes the tensor |
| Tensors.Tensor.constructor | FishNet/Tensor.h:6-14 | planeSize = r·c, hyperplaneSize = r·c·p, size = h·p·r·c, every element 0 |
| Tensors.Tensor.Of3 | FishNet/Tensor.h:15-16 | the 3-D constructor is the 4-D one with one hyperplane, zero-filled |
| Tensors.Tensor.Of2 | FishNet/Tensor.h:17-18 | the 2-D constructor is the 4-D one with one hyperplane and one plane |
| Tensors.Tensor.Of1 | FishNet/Tensor.h:19-20 | the 1-D constructor is one row of `size` columns |
| Tensors.Tensor.Adopt | FishNet/Tensor.h:22-33 | a tensor over a given buffer keeps the buffer and takes the shape |
| Tensors.Tensor.FromList | FishNet/Tensor.cpp:4-14 | throws exactly when the list length differs from h·p·r·c, otherwise stores the list in row-major order |
| Tensors.Tensor.Copy | FishNet/Tensor.cpp:16-24 | equal shape and elements in a new buffer |
| Tensors.Tensor.Move | FishNet/Tensor.h:44-61 | takes the buffer and shape and leaves the source with every dimension and size 0 |
| Tensors.Tensor.Assign | FishNet/Tensor.cpp:26-41 | copies shape and elements; the buffer is reused iff the sizes were equal |
| Tensors.Tensor.SetAllToZero | FishNet/Tensor.h:63-66 | every element becomes 0, the shape is unchanged |
| Tensors.Tensor.Fill | FishNet/Tensor.h:67-72 | every element becomes the value, the shape is unchanged |
| Tensors.Tensor.DimensionsMatch | FishNet/Tensor.h:74-77 | true exactly when all four dimensions are equal |
| Tensors.Tensor.ElementAddress4 | FishNet/Tensor.h:225-238 | the 4-index address is the row-major offset and lies below the size |
| Tensors.Tensor.ElementAddress3 | FishNet/Tensor.h:207-224 | the 3-index address agrees with the 4-index one at hyperplane 0 |
| Tensors.Tensor.ElementAddress2 | FishNet/Tensor.h:191-206 | the 2-index address agrees with the 4-index one at hyperplane 0, plane 0 |
| Tensors.Tensor.Get3 | FishNet/Tensor.h:133-150 | the 3-index read agrees with the 4-index read at hyperplane 0 |
| Tensors.Tensor.Get2 | FishNet/Tensor.h:101-116 | the 2-index read agrees with the 4-index read at hyperplane 0, plane 0 |
| Tensors.Tensor.Get | FishNet/Tensor.h:85-92 | an index below the size reads that element |
| Tensors.Tensor.Set | FishNet/Tensor.h:93-100 | only element i changes, and reading it gives the value |
| Tensors.Tensor.Set2 | FishNet/Tensor.h:117-132 | only the element at (r, c) changes, and Get(r, c) reads the value |
| Tensors.Tensor.Set3 | FishNet/Tensor.h:151-168 | only the element at (p, r, c) changes, and Get(p, r, c) reads the value |
| Tensors.Tensor.CombineInPlace | FishNet/Tensor.cpp:62-77 | this[i] becomes this[i] op other[i] for every i, even when other is this tensor |
| Tensors.Tensor.CombineInto | FishNet/Tensor.cpp:43-60 | result[i] becomes this[i] op other[i], even when result is an operand |
| Tensors.Tensor.ComponentWiseAdd | FishNet/Tensor.cpp:62-77 | element-wise in-place sum |
| Tensors.Tensor.ComponentWiseSubtract | FishNet/Tensor.cpp:98-113 | element-wise in-place difference |
| Tensors.Tensor.ComponentWiseMultiply | FishNet/Tensor.cpp:134-149 | element-wise in-place product |
| Tensors.Tensor.ComponentWiseAddTo | FishNet/Tensor.cpp:43-60 | result holds the element-wise sum of the old operands |
| Tensors.Tensor.ComponentWiseSubtractTo | FishNet/Tensor.cpp:79-96 | result holds the element-wise difference of the old operands |
| Tensors.Tensor.ComponentWiseMultiplyTo | FishNet/Tensor.cpp:115-132 | result holds the element-wise product of the old operands |
| Tensors.Tensor.HighestValueIndex | FishNet/Tensor.cpp:151-171 | the smallest index holding the maximum |
| Tensors.Tensor.GetStatistics | FishNet/Tensor.cpp:173-188 | max and min are the running extremes from their seeds (the smallest positive double and the largest double), so an empty tensor returns the seeds; avg = sum/size for a non-empty tensor; min ≤ every element ≤ max |
| Tensors.Tensor.Save | FishNet/Tensor.cpp:190-197 | writes the saved layout, and decoding it yields this tensor |
| Tensors.Tensor.Load | FishNet/Tensor.cpp:199-213 | a new tensor holding the decoded value and the position after it; the model returns null on a stream too short for the tensor, which the C++ does not (see "## Left out") |
| Streams.ReadU32 | FishNet/Tensor.cpp:205-208 | a 4-byte little-endian read succeeds only inside the stream and yields a u32 |
| Streams.ReadU16 | FishNet/FeedForwardNetwork.cpp:166-167 | a 2-byte read succeeds only inside the stream and yields a u16 |
| Streams.ReadDoubles | FishNet/Tensor.cpp:211 | reading n doubles yields n values from inside the stream |
| Streams.U32RoundTrip | FishNet/Tensor.cpp:192-208 | reading a u32 where its four written bytes sit yields it back |
| Streams.U16RoundTrip | FishNet/FeedForwardNetwork.cpp:166-167 | reading a u16 where its two written bytes sit yields it back |
| Streams.BytesRoundTrip | FishNet/FeedForwardNetwork.cpp:177-181 | reading raw bytes where they were written yields them back |
| Streams.DoublesRoundTrip | FishNet/Tensor.cpp:196-211 | reading doubles where they were written yields them back |
| Activations.TypeTag | FishNet/ActivationFunction.h:8 | the tags are None = 0, ReLU = 1, LeakyReLU = 2, Sigmoid = 3, TanH = 4, and only "no function" has tag 0 |
| Activations.ReLUClamps | FishNet/ActivationFunction.cpp:34-44 | ReLU never yields a negative value, replaces every negative by 0 and leaves x unchanged exactly when x ≥ 0 |
| Activations.ReLUIdempotent | FishNet/ActivationFunction.cpp:34-44 | applying ReLU to a tensor twice is the same as applying it once |
| Activations.LeakyReLUScalesNegatives | FishNet/ActivationFunction.cpp:66-76 | leaky ReLU multiplies negatives by the leakiness, keeps 0 and positives, and with a positive leakiness keeps the sign |
| Activations.RectifierIsDerivativeTimesInput | FishNet/ActivationFunction.cpp:34-96 | for both rectifiers the activation equals the derivative times the input, including at 0 where the derivative is taken as 0 or the leakiness |
| Activations.TanHAtZero | FishNet/ActivationFunction.cpp:133-160 | with exp(0) = 1 the formula 2/(1+e^(-2x)) - 1 maps 0 to 0 and its derivative 1 - tanh² is 1 there |
| Activations.SigmoidAtZero | FishNet/ActivationFunction.cpp:104-131 | with exp(0) = 1 the sigmoid maps 0 to 1/2 and its derivative σ(1-σ) is 1/4 there |
| Activations.SigmoidInUnitInterval | FishNet/ActivationFunction.cpp:104-113 | for any positive exp the sigmoid lies strictly between 0 and 1 |
| Activations.Apply | FishNet/ActivationFunction.cpp:34-44 | every element of the tensor is replaced in place by the activation of its old value, for all four functions |
| Activations.ApplyDerivative | FishNet/ActivationFunction.cpp:46-64 | every output element is the derivative at the input element of the same index, for all four functions |
| Activations.ApplyActivationFunction | FishNet/Layer.h:43-47 | a layer without an activation function leaves its activations unchanged; otherwise it applies the function |
| Activations.Load | FishNet/ActivationFunction.cpp:10-32 | a successful load consumed the tag byte, which is the tag of the loaded variant, and ends inside the stream |
| Activations.SaveLoadRoundTrip | FishNet/ActivationFunction.cpp:5-32 | loading what Save wrote gives back the same variant, leakiness included, and stops just past it |
| Activations.LoadRejectsUnknownTags | FishNet/ActivationFunction.cpp:29-30 | every tag above 4 is refused with "Unrecognized activation function code: " and the tag |
| Costs.SaturatedOutputsCostNothing | FishNet/CostFunction.cpp:9-19 | when every output is at least 1 - 10^-7 the total cost is 0 |
| Costs.SaturatedTargetIrrelevant | FishNet/CostFunction.cpp:12-16 | changing the target of a saturated output leaves the total cost unchanged |
| Costs.TotalCost | FishNet/CostFunction.cpp:5-20 | the loop's sum is the sum of -t·log a - (1-t)·log(1-a) over the outputs below the saturation threshold |
| Costs.Derivatives | FishNet/CostFunction.cpp:22-26 | the result is output minus target element by element |
| Costs.DerivativeZeroIffOnTarget | FishNet/CostFunction.cpp:22-26 | the derivative vector is all zero exactly when the output equals the target |
| Dropout.DropoutMask.constructor | FishNet/DropoutMask.h:6-9 | a new mask has the given size and keep probability and every flag false |
| Dropout.DropoutMask.FromList | FishNet/DropoutMask.h:11-16 | the fixed-pattern mask has the pattern's length and holds the pattern |
| Dropout.DropoutMask.Randomize | FishNet/DropoutMask.cpp:4-10 | the flags become the drawn samples, one per position, and the size is unchanged |
| ImageSets.OneHot | FishNet/ImageSet.cpp:9-14 | the target of category c of n has n entries, 1 at c and 0 elsewhere |
| ImageSets.OneHotPicksItsCategory | FishNet/ImageSet.cpp:9-14 | the first maximum of category c's target is at c |
| ImageSets.OneHotInjective | FishNet/ImageSet.cpp:9-14 | distinct categories have distinct targets |
| ImageSets.ImageSet.constructor | FishNet/ImageSet.cpp:4-15 | a new set keeps its name, categories and dimensions, has one one-hot target per category and empty training and test lists |
| ImageSets.ImageSet.ReserveTrainingSpace | FishNet/ImageSet.h:10-13 | reserving capacity changes neither list |
| ImageSets.ImageSet.ReserveTestSpace | FishNet/ImageSet.h:14-17 | reserving capacity changes neither list |
| ImageSets.ImageSet.AddImage | FishNet/ImageSet.h:18-24 | the image is appended to the test list or to the training list, and the other list is unchanged |
| Layers.TypeOfTag | FishNet/Layer.h:11 | a tag names a layer type exactly when it is 0, 1 or 2, and then it is that type's tag |
| Layers.TagsIdentifyTypes | FishNet/Layer.h:11 | the three layer tags are distinct and each reads back as its own type |
| Layers.KeepProbability | FishNet/Layer.h:19 | every layer other than a fully-connected one reports keep probability 1.0 |
| Layers.DecodeLayer | FishNet/Layer.cpp:18-50 | a decoded layer record is well formed and ends inside the stream |
| Layers.DecodeFullyConnected | FishNet/Layer.cpp:23-32 | after tag 0, a decoded record is a fully-connected one (activation, keep probability, weights, biases) |
| Layers.DecodeConvolutional | FishNet/Layer.cpp:33-44 | after tag 1, a decoded record is a convolutional one (activation, stride, padding, weights, biases) |
| Layers.DecodeWeightsAndBiases | FishNet/Layer.cpp:28-29 | the two tensors that end a weighted record decode to well-formed tensors inside the stream |
| Layers.WeightsAndBiasesRoundTrip | FishNet/Layer.cpp:28-29 | the weights and biases Save wrote one after the other are read back in order |
| Layers.LayerRoundTrip | FishNet/Layer.cpp:18-50 | Load reads back exactly the record Save wrote, for all three layer types, wherever it sits in the stream |
| Layers.FCRoundTrip | FishNet/Layer.cpp:174-187 | a fully-connected record written by Save is read back whole |
| Layers.FCLayout | FishNet/Layer.cpp:174-187 | Save writes the tag 0, the activation, the keep probability, the weights and the biases in that order |
| Layers.ConvRoundTrip | FishNet/ConvolutionalLayer.cpp:181-192 | a convolutional record written by Save is read back whole |
| Layers.ConvLayout | FishNet/ConvolutionalLayer.cpp:181-192 | Save writes the tag 1, the activation, the stride, the padding, the weights and the biases in that order |
| Layers.UnknownTagRefused | FishNet/Layer.cpp:47-48 | every tag above 2 is refused with "Unrecognized layer type." |
| Layers.LoadedOutputShapes | FishNet/Layer.cpp:331-337 | a loaded pooling layer keeps the channels and halves rows and columns, a convolutional one has one plane per bias, a fully-connected one one output per weight row |
| Weighted.StepsCompose | FishNet/Layer.cpp:52-70 | two updates with the same scalar equal one update with the summed gradients |
| Weighted.StepUndoneByOppositeStep | FishNet/Layer.cpp:52-70 | an update is undone by the update with the opposite scalar |
| Weighted.ScalesCompose | FishNet/Layer.cpp:72-77 | decaying by f and then by g is decaying by f·g |
| Weighted.StepInPlace | FishNet/Layer.cpp:61-69 | each element of the target becomes itself minus nabla times scalar |
| Weighted.UpdateWeightsAndBiases | FishNet/Layer.cpp:52-70 | weights and biases each take one gradient step and the two nablas are untouched |
| Weighted.DecayWeights | FishNet/Layer.cpp:72-77 | every weight is multiplied by the factor |
| FullyConnected.BackwardIsTransposeOfForward | FishNet/Layer.cpp:122-253 | back-propagation is the transpose of the forward pass: Σ_j x[j]·(error sent back to j) = Σ over kept i of e[i]·(weighted input of i), for every input, error and mask |
| FullyConnected.FullMaskIsNoMask | FishNet/Layer.cpp:134-171 | a mask that keeps every neuron gives the same forward pass and the same back-propagated error as no mask |
| FullyConnected.AccumulateWeightsAt | FishNet/Layer.cpp:266-308 | gradient entry (i, j) gains δ[i]·a[j] when neuron i is kept and is unchanged when it is dropped |
| FullyConnected.DroppedRowUnchanged | FishNet/Layer.cpp:285-288 | the whole gradient row of a dropped neuron keeps its values |
| FullyConnected.TestingThenTrainingRestores | FishNet/Layer.cpp:311-329 | switching to testing weights and back restores the training weights |
| FullyConnected.TestingTwiceLosesTrainingWeights | FishNet/Layer.cpp:317-329 | switching to testing twice scales the weights by prevKeep² and leaves a shadow from which switching back gives weights scaled by prevKeep, not the training weights |
| FullyConnected.CopyElements | FishNet/Layer.cpp:314 | the memcpy makes the target equal to the source |
| FullyConnected.FullyConnectedLayer.constructor | FishNet/Layer.cpp:91-97 | the weightless layer has no weights yet, one row of layerSize outputs and the given input size, activation and keep probabilities |
| FullyConnected.FullyConnectedLayer.WithWeights | FishNet/Layer.cpp:79-89 | the layer is built exactly when the weights are two-dimensional, otherwise the constructor's message; its output size is the weight rows, its input size the weight columns, and a shadow copy of the weights exists when the previous keep probability is below 1 |
| FullyConnected.FullyConnectedLayer.InitializeWeights | FishNet/Layer.cpp:99-112 | existing weights are kept; otherwise weights and biases are filled from the drawn samples and the shadow holds the same weights when there is one |
| FullyConnected.FullyConnectedLayer.FeedForward | FishNet/Layer.cpp:122-172 | output i is bias i plus the weighted sum of the inputs, and exactly 0 for a neuron the mask drops |
| FullyConnected.FullyConnectedLayer.NeuronActivation | FishNet/Layer.cpp:141-147 | one neuron's activation is its bias plus Σ_j in[j]·W[i][j] |
| FullyConnected.FullyConnectedLayer.BackpropagateError | FishNet/Layer.cpp:205-253 | the previous layer's error j becomes Σ over kept neurons i of W[i][j]·err[i], by either loop order |
| FullyConnected.FullyConnectedLayer.AddRowError | FishNet/Layer.cpp:222-229 | a kept neuron adds its row times its error to every previous-layer error |
| FullyConnected.FullyConnectedLayer.ColumnError | FishNet/Layer.cpp:240-251 | walking down column j sums W[i][j]·err[i] over all neurons |
| FullyConnected.FullyConnectedLayer.UpdateWeightAndBiasErrors | FishNet/Layer.cpp:255-309 | nablaB[i] gains δ[i] and row i of nablaW gains δ[i]·a for every kept neuron; the rows of dropped neurons are unchanged |
| FullyConnected.FullyConnectedLayer.MaskedGradients | FishNet/Layer.cpp:268-293 | the masked loop accumulates bias and weight gradients of kept neurons only |
| FullyConnected.FullyConnectedLayer.UnmaskedGradients | FishNet/Layer.cpp:294-308 | without a mask every neuron's bias and weight gradients are accumulated |
| FullyConnected.FullyConnectedLayer.AddAllOuterRows | FishNet/Layer.cpp:297-307 | every gradient row r gains δ[r]·a, the outer product of delta and the activations |
| FullyConnected.FullyConnectedLayer.SwitchToTrainingWeights | FishNet/Layer.cpp:311-315 | with a shadow the weights become the shadow; without one nothing changes |
| FullyConnected.FullyConnectedLayer.SwitchToTestingWeights | FishNet/Layer.cpp:317-329 | with a shadow the weights are saved to it and then scaled by the previous layer's keep probability |
| FullyConnected.FullyConnectedLayer.UpdateWeightsAndBiases | FishNet/Layer.cpp:52-70 | the layer's weights and biases each take one gradient step |
| FullyConnected.FullyConnectedLayer.DecayWeights | FishNet/Layer.cpp:72-77 | the layer's weights are multiplied by the factor and its biases are unchanged |
| FullyConnected.FullyConnectedLayer.Save | FishNet/Layer.cpp:174-187 | the record holds the activation, the keep probability, the shadow (unscaled) weights when there is a shadow, else the weights, and the biases |
| MaxPooling.PoolOfIsMaximum | FishNet/Layer.cpp:369-379 | the value the three comparisons leave is at least each of the four cells and equal to one of them |
| MaxPooling.BlockCornerIsRowPair | FishNet/Layer.cpp:360-385 | output (g, c) pools the block whose top-left cell is input row 2g, column 2c |
| MaxPooling.BlocksStayInTheirChannel | FishNet/Layer.cpp:360-385 | walking all rows of all channels as one sequence still pools each output (channel, r, c) from input (channel, 2r, 2c) |
| MaxPooling.BlockOfCorners | FishNet/Layer.cpp:428-462 | each of the four cells of output (g, c)'s block maps back to that output |
| MaxPooling.ForwardAtBlock | FishNet/Layer.cpp:360-385 | pooled output (g, c) is the maximum of its block's four cells |
| MaxPooling.BackwardAtCell | FishNet/Layer.cpp:440-454 | a cell holding one of its block's values gets the block's error exactly when it equals their maximum |
| MaxPooling.ErrorGoesToEveryMaximum | FishNet/Layer.cpp:344-463 | after the forward pass, each cell of a block gets the block's error exactly when it is a maximum of the block, so every tied maximum gets it, and 0 otherwise |
| MaxPooling.MaxPoolingLayer.Create | FishNet/Layer.cpp:331-337 | the layer is built exactly when the input rows and columns are even, otherwise the constructor's message; output dimensions are the halves |
| MaxPooling.MaxPoolingLayer.Save | FishNet/Layer.cpp:388-391 | the pooling layer's record is the tag 2 alone |
| MaxPooling.MaxPoolingLayer.FeedForward | FishNet/Layer.cpp:344-386 | each output element is the pooled maximum of its 2×2 input block |
| MaxPooling.MaxPoolingLayer.PoolRow | FishNet/Layer.cpp:366-384 | one pass of the inner loop writes output row g from input rows 2g and 2g+1 and nothing else |
| MaxPooling.MaxPoolingLayer.BackpropagateError | FishNet/Layer.cpp:398-463 | each input cell gets its block's error when its activation equals the block's output, else 0 |
| MaxPooling.MaxPoolingLayer.BackRow | FishNet/Layer.cpp:437-461 | one pass writes the errors of input rows 2g and 2g+1 from output row g and nothing else |
| ConvolutionSpec.StepsIsQuotient | FishNet/ConvolutionalLayer.cpp:7 | counting strides in a span is the integer division the output size uses |
| ConvolutionSpec.PaddedLoopVisitsEveryOutput | FishNet/ConvolutionalLayer.cpp:80-98 | the padded loops, starting at -padding and stepping by the stride while below length + padding - filterSize + 1, visit exactly the (length + 2·padding - filterSize)/stride + 1 outputs |
| ConvolutionSpec.WindowStartInRange | FishNet/ConvolutionalLayer.cpp:85-98 | the window of every output starts at t·stride - padding, no earlier than -padding, ends within length + padding, and overlaps the input |
| ConvolutionSpec.ClipIsExact | FishNet/ConvolutionalLayer.cpp:87-96 | the clipped filter range [start, end) is non-empty and is exactly the filter offsets that land inside the input |
| ConvolutionSpec.PaddingTermIsZero | FishNet/ConvolutionalLayer.cpp:80-130 | a window term over a padding cell contributes 0 |
| ConvolutionSpec.ClippedWindowRow | FishNet/ConvolutionalLayer.cpp:87-130 | one filter row of a window contributes its in-bounds columns when the row is inside the input and nothing otherwise |
| ConvolutionSpec.ClippedWindow | FishNet/ConvolutionalLayer.cpp:87-130 | restricting a window to its in-bounds rows and columns leaves the zero-padded correlation unchanged |
| ConvolutionSpec.WeightGradientsAt | FishNet/ConvolutionalLayer.cpp:344-419 | weight (f, ch, kr, kc) sits at its row-major index and its gradient sits at the same index of the gradient tensor |
| ConvolutionSpec.CeilingDivision | FishNet/ConvolutionalLayer.cpp:447-451 | the table's rounding up of offset/stride is one more than (offset - 1)/stride |
| ConvolutionSpec.FirstOutputIsFirst | FishNet/ConvolutionalLayer.cpp:447-457 | output o's window puts filter offset i inside the input from the first output on, and not before |
| ConvolutionSpec.FirstInputIsTouched | FishNet/ConvolutionalLayer.cpp:443-458 | the corrected input start is the coordinate offset i touches at its first output, and lies below the stride inside the padding |
| ConvolutionSpec.SpanIsExact | FishNet/ConvolutionalLayer.cpp:463-471 | the outputs whose window puts offset i inside the input are exactly the span of consecutive outputs from the first one |
| ConvolutionSpec.SpanNonnegative | FishNet/ConvolutionalLayer.cpp:463-471 | a span is never negative |
| ConvolutionSpec.FirstInputAsWrittenAgreesOnlySometimes | FishNet/ConvolutionalLayer.cpp:445-452 | the table's input start is right exactly when i ≥ padding, the stride divides padding - i, or the remainder is half the stride |
| ConvolutionSpec.FirstInputAsWrittenWrongForStrideThree | FishNet/ConvolutionalLayer.cpp:447-448 | with stride 3 and padding 2, filter offset 1 first touches input 2 but the table says 1 |
| ConvolutionSpec.EmptySpanStillVisitedAsWritten | FishNet/ConvolutionalLayer.cpp:367-379 | for length 4, filter 2, stride 5, padding 1, offset 0 never lands inside the input, yet the do-while loops read one term for it |
| Convolution.UnpaddedWindowsNeedNoClipping | FishNet/ConvolutionalLayer.cpp:138-178 | without padding every window lies inside the input, so the unpadded loops read the whole filter |
| Convolution.AccumulateWindowRow | FishNet/ConvolutionalLayer.cpp:121-127 | the inner do-while adds the clipped row of the window to the activation and advances both the input and the window position by its width |
| Convolution.AccumulateWindow | FishNet/ConvolutionalLayer.cpp:116-130 | one channel's window adds the correlation of its in-bounds rows and columns |
| Convolution.CellActivation | FishNet/ConvolutionalLayer.cpp:113-131 | an output cell is the filter's bias plus the windows of every input channel |
| Convolution.ForwardCellAt | FishNet/ConvolutionalLayer.cpp:132-133 | output (f, r, c) is written at flat index (f·rows + r)·columns + c and holds the specified cell |
| Convolution.ForwardRow | FishNet/ConvolutionalLayer.cpp:98-134 | one output row of a filter is written in order and nothing else changes |
| Convolution.ForwardPlane | FishNet/ConvolutionalLayer.cpp:85-135 | every output row of a filter is written, plane f and nothing else |
| Convolution.Forward | FishNet/ConvolutionalLayer.cpp:61-179 | the output is the zero-padded strided correlation plus bias for every filter, row and column |
| Convolution.ScatterRun | FishNet/ConvolutionalLayer.cpp:269-274 | a run of previous-layer errors each gains the output error times the facing weight |
| Convolution.WindowRowStep | FishNet/ConvolutionalLayer.cpp:267-277 | scattering one window row adds to each input cell exactly that row's share of the contribution |
| Convolution.ScatterWindow | FishNet/ConvolutionalLayer.cpp:250-277 | one window adds to every input cell its share of error·weight, 0 outside the clipped window |
| Convolution.ScatterRow | FishNet/ConvolutionalLayer.cpp:247-280 | one output row's windows are scattered in order onto one channel |
| Convolution.ScatterPlane | FishNet/ConvolutionalLayer.cpp:232-282 | every output row of a filter is scattered onto one channel |
| Convolution.ScatterFilter | FishNet/ConvolutionalLayer.cpp:230-283 | a filter's errors are scattered onto every input channel |
| Convolution.FilterShareComplete | FishNet/ConvolutionalLayer.cpp:228-284 | once every channel is done, a filter's share of an input cell is its term of the backward sum |
| Convolution.ScatterErrors | FishNet/ConvolutionalLayer.cpp:225-322 | on a zeroed buffer the scatter leaves, for every input cell, the sum over filters and outputs of error·weight for the windows covering it |
| ConvolutionGradients.SpanLoopReaches | FishNet/ConvolutionalLayer.cpp:464-469 | the window at output t reaches filter offset i inside the input exactly when t ≤ (length - 1 + padding - i)/stride |
| ConvolutionGradients.SpanLoopStep | FishNet/ConvolutionalLayer.cpp:464-470 | each visit of the span loop moves a reached entry's last output to t and leaves the others alone |
| ConvolutionGradients.SpanLoopDone | FishNet/ConvolutionalLayer.cpp:463-471 | after every output has been visited each entry's span is the table's |
| ConvolutionGradients.PaddedStart | FishNet/ConvolutionalLayer.cpp:445-452 | for offsets inside the padding the rounded-up quotient is the first output reaching the input, and the corrected start is the input coordinate it touches |
| ConvolutionGradients.NewFilterTable | FishNet/ConvolutionalLayer.cpp:443-472 | corrected: every entry of the new table is the first input, first output and number of outputs at which its filter offset lies inside the input |
| ConvolutionGradients.RecordOutput | FishNet/ConvolutionalLayer.cpp:466-469 | the first reached entries get the current output as their last, the others are unchanged |
| ConvolutionGradients.RecordSpans | FishNet/ConvolutionalLayer.cpp:463-471 | the span pass leaves every entry equal to the table's |
| ConvolutionGradients.GradRowRestrict | FishNet/ConvolutionalLayer.cpp:357-379 | outside its column span every term of a row reads padding, so the row's sum is the sum over the span |
| ConvolutionGradients.GradPlaneRestrict | FishNet/ConvolutionalLayer.cpp:353-379 | outside its row span every term reads padding, so a weight's gradient is the sum over the span |
| ConvolutionGradients.RowSpanInRange | FishNet/ConvolutionalLayer.cpp:351-379 | every output row of a filter row's span puts it inside the input |
| ConvolutionGradients.WeightErrorRow | FishNet/ConvolutionalLayer.cpp:370-375 | corrected: the inner loop adds one row's column span of δ·activation and advances both indices, adding nothing for an empty span |
| ConvolutionGradients.WalkRowSpan | FishNet/ConvolutionalLayer.cpp:367-379 | corrected: the outer loop sums the row span's rows, adding nothing for an empty span |
| ConvolutionGradients.WeightError | FishNet/ConvolutionalLayer.cpp:353-379 | corrected: a weight's error is the sum of δ·activation over the outputs whose window puts it on an input cell |
| ConvolutionGradients.BiasError | FishNet/ConvolutionalLayer.cpp:421-428 | a filter's bias error is the sum of its δ plane |
| ConvolutionGradients.AddWeightAndBiasErrors | FishNet/ConvolutionalLayer.cpp:340-433 | corrected: every nablaW entry gains its weight's gradient in the weights' own order and every nablaB entry its filter's δ sum |
| ConvolutionalLayers.ConvolutionalLayer.constructor | FishNet/ConvolutionalLayer.cpp:25-37 | the weightless layer has no weights yet, filterCount output planes and (length + 2·padding - filterSize)/stride + 1 output rows and columns |
| ConvolutionalLayers.ConvolutionalLayer.WithWeights | FishNet/ConvolutionalLayer.cpp:4-23 | the layer is refused exactly when the padding is not below the filter size, the filter is not square or the bias count is not the filter count, with those messages in that order; otherwise filters are the weight hyperplanes and channels its planes |
| ConvolutionalLayers.ConvolutionalLayer.CalculateFilterInfo | FishNet/ConvolutionalLayer.cpp:435-441 | corrected: fresh row and column tables are computed for the input's rows and columns, with the corrected first inputs |
| ConvolutionalLayers.ConvolutionalLayer.InitializeWeights | FishNet/ConvolutionalLayer.cpp:39-50 | existing weights are kept; otherwise the weights are the drawn samples, the biases stay 0 and the tables are computed |
| ConvolutionalLayers.ConvolutionalLayer.FeedForward | FishNet/ConvolutionalLayer.cpp:61-179 | every output cell is its filter's bias plus the cross-correlation of the filter with the in-bounds part of its window, with and without padding |
| ConvolutionalLayers.ConvolutionalLayer.BackpropagateError | FishNet/ConvolutionalLayer.cpp:207-323 | the previous layer's error is zeroed and then every output error is sent back through its window's weights to the in-bounds cells |
| ConvolutionalLayers.ConvolutionalLayer.UpdateWeightAndBiasErrors | FishNet/ConvolutionalLayer.cpp:325-433 | corrected: each weight's nabla grows by the sum of δ·activation over the windows that put it on an input cell, each bias's by its filter's δ sum |
| ConvolutionalLayers.ConvolutionalLayer.UpdateWeightsAndBiases | FishNet/Layer.cpp:52-70 | the layer's weights and biases each take one gradient step |
| ConvolutionalLayers.ConvolutionalLayer.DecayWeights | FishNet/Layer.cpp:72-77 | the layer's weights are multiplied by the factor and its biases are unchanged |
| ConvolutionalLayers.ConvolutionalLayer.Save | FishNet/ConvolutionalLayer.cpp:181-192 | the record holds the activation, stride, padding, weights and biases |
| Networks.FullyConnectedPersists | FishNet/FeedForwardNetwork.cpp:77-128 | in any stack the add methods can build, every layer above a fully-connected one is fully connected |
| Networks.WellOrderedIsFullyConnectedTail | FishNet/FeedForwardNetwork.cpp:77-128 | the add rules admit exactly the stacks whose first layer is not pooling and whose fully-connected layers form a tail |
| Networks.AppendKeepsOrder | FishNet/FeedForwardNetwork.cpp:77-128 | adding a layer to a well-ordered stack keeps it well ordered exactly when the rules admit the layer |
| Networks.PushKeepsChain | FishNet/FeedForwardNetwork.cpp:73-74 | pushing a layer that accepts the top layer's output keeps every layer's input equal to its predecessor's output |
| Networks.NewConvolutional | FishNet/FeedForwardNetwork.cpp:100-101 | the new convolutional layer is built for the given input dimensions and accepts them |
| Networks.FeedForwardNetwork.constructor | FishNet/FeedForwardNetwork.cpp:37-44 | a new network has no layers, the given name, input, thread count, epochs, learning rate and weight decay, and a decay multiplier of 1 |
| Networks.FeedForwardNetwork.Push | FishNet/FeedForwardNetwork.cpp:73-74 | pushing an admitted layer that accepts the network's next input appends it and keeps the network valid |
| Networks.FeedForwardNetwork.AddFullyConnectedLayer | FishNet/FeedForwardNetwork.cpp:50-75 | it fails exactly when the keep probability is outside (0, 1]; otherwise it appends a weightless layer whose input size is the flattened top output and whose previous keep probability is the top layer's when that is fully connected, else 1 |
| Networks.FeedForwardNetwork.AddConvolutionalLayer | FishNet/FeedForwardNetwork.cpp:77-102 | it fails on padding not below the filter size, then on a fully-connected top layer, then when the filter does not fit; otherwise it appends a layer over the top layer's output |
| Networks.FeedForwardNetwork.AddMaxPoolingLayer | FishNet/FeedForwardNetwork.cpp:104-128 | it fails on an empty network, then on a fully-connected top layer, then on odd rows or columns; otherwise it appends a pooling layer over the top layer's output |
| Partitions.ConsecutiveAppend | FishNet/FeedForwardNetwork.cpp:492-493 | a slice starting where the others end extends the consecutive run |
| Partitions.ConsecutiveSpan | FishNet/FeedForwardNetwork.cpp:482-500 | consecutive slices span exactly as many examples as they hold |
| Partitions.ConsecutiveOrdered | FishNet/FeedForwardNetwork.cpp:482-500 | of two consecutive slices the earlier ends before the later starts, so no example is trained twice |
| Partitions.ConsecutiveCovers | FishNet/FeedForwardNetwork.cpp:482-500 | every example of the run lies in one of the slices |
| Partitions.SharesUpToClosed | FishNet/FeedForwardNetwork.cpp:479-494 | the first t shares hold t·(size/T) examples plus one for each of them below size mod T |
| Partitions.SharesAddUp | FishNet/FeedForwardNetwork.cpp:479-500 | the background shares and the foreground's size/T add up to the mini-batch |
| Partitions.BusyWorkers | FishNet/FeedForwardNetwork.cpp:476-491 | the share loop stops after exactly min(size, T - 1) background workers, the count the source waits for |
| Partitions.ShareMiniBatch | FishNet/FeedForwardNetwork.cpp:479-500 | each background worker gets size/T examples, one more while the remainder lasts, the loop stops at the first that would get none, and the foreground takes size/T after them; together they cover the batch consecutively |
| Partitions.ShareTestSet | FishNet/FeedForwardNetwork.cpp:245-266 | all T - 1 background testers get a share with no early stop, the foreground takes size/T, and the shares cover the test set consecutively |
| Partitions.AppliedCoverMiniBatch | FishNet/FeedForwardNetwork.cpp:504-520 | the gradients applied after a batch come from workers that trained on at least one example and whose shares follow one another over the whole batch, so learningRate/size averages over exactly the examples trained on |
| Partitions.ConsecutiveRest | FishNet/FeedForwardNetwork.cpp:482-500 | the shares after the first follow one another from where the first ends |
| Partitions.ConsecutiveWithin | FishNet/FeedForwardNetwork.cpp:482-500 | every share lies within the run the shares cover |
| Partitions.PlanEpoch | FishNet/FeedForwardNetwork.cpp:469-536 | the epoch's batches cover the training set consecutively, each has the mini-batch size except the last, which holds what is left, and each is shared as above |
| Partitions.StepsAreOneStep | FishNet/FeedForwardNetwork.cpp:514-520 | applying the workers' gradient steps one by one is one step with their summed gradient |
| Partitions.StepsFrom | FishNet/FeedForwardNetwork.cpp:514-520 | the steps from the k-th on are the k-th step followed by the rest |
| MiniBatches.ZeroNabla | FishNet/FeedForwardNetwork.cpp:746-755 | a layer's zeroed accumulators fit the layer and hold only zeros; a layer without weights has none |
| MiniBatches.ZeroNablas | FishNet/FeedForwardNetwork.cpp:746-755 | every layer's zeroed accumulators fit it and are zero |
| MiniBatches.FitsLike | FishNet/FeedForwardNetwork.cpp:746-755 | accumulators have the zeroed ones' sizes exactly when they fit every layer and a layer without weights has none |
| MiniBatches.AddZero | FishNet/FeedForwardNetwork.cpp:746-755 | adding zeroed accumulators changes nothing |
| MiniBatches.AddAllAssociates | FishNet/FeedForwardNetwork.cpp:757-762 | adding accumulators layer by layer is associative |
| MiniBatches.GradientStepAdds | FishNet/FeedForwardNetwork.cpp:804-825 | a layer's gradient step adds to any accumulators exactly what it adds to zeroed ones |
| MiniBatches.PropagateKeepsShape | FishNet/FeedForwardNetwork.cpp:766-826 | back-propagating an example keeps the accumulators at the zeroed ones' sizes |
| MiniBatches.PropagateAdds | FishNet/FeedForwardNetwork.cpp:766-826 | back-propagating an example into accumulators adds to them what it would accumulate from zero |
| MiniBatches.BatchRun | FishNet/FeedForwardNetwork.cpp:757-762 | every run of a mini-batch's examples can be back-propagated in turn |
| MiniBatches.Train | FishNet/FeedForwardNetwork.cpp:757-762 | back-propagating the examples in order, from the front, keeps the accumulators at the zeroed ones' sizes |
| MiniBatches.Trained | FishNet/FeedForwardNetwork.cpp:744-763 | the accumulators after examples [i, j): zeroed, then each example back-propagated in order; they keep the zeroed sizes |
| MiniBatches.TrainedNone | FishNet/FeedForwardNetwork.cpp:746-755 | a share with no examples leaves the accumulators zeroed |
| MiniBatches.TrainedNext | FishNet/FeedForwardNetwork.cpp:757-762 | one more example of the share is back-propagated into what the examples before it accumulated |
| MiniBatches.TrainOnMiniBatch | FishNet/FeedForwardNetwork.cpp:744-763 | the trainer zeroes its accumulators, then its loop back-propagates the share's examples in order: the result is the accumulators of the share |
| MiniBatches.TrainAdds | FishNet/FeedForwardNetwork.cpp:757-762 | training from accumulators that hold n ends with n plus what training from zero accumulates |
| MiniBatches.TrainConcat | FishNet/FeedForwardNetwork.cpp:757-762 | training on two runs back to back is training on the first, then on the second from where it left off |
| MiniBatches.TrainSplit | FishNet/FeedForwardNetwork.cpp:744-763 | the accumulators of a run are the sum of those of its two halves |
| MiniBatches.Shares | FishNet/FeedForwardNetwork.cpp:479-500 | every worker's accumulators are those of training on its own share |
| MiniBatches.LayerWeights | FishNet/FeedForwardNetwork.cpp:514-520 | the workers' NablaW()[li], one per worker, each the size of the layer's weights |
| MiniBatches.LayerBiases | FishNet/FeedForwardNetwork.cpp:514-520 | the workers' NablaB()[li], one per worker, each the size of the layer's biases |
| MiniBatches.SumAll | FishNet/FeedForwardNetwork.cpp:514-520 | the sum of the workers' accumulators keeps the zeroed sizes |
| MiniBatches.LayerSums | FishNet/FeedForwardNetwork.cpp:514-520 | summing the workers' layer gradients gives that layer of the sum of their accumulators |
| MiniBatches.SharesSum | FishNet/FeedForwardNetwork.cpp:479-520 | the accumulators of workers over consecutive shares add up to those of one trainer over the whole run |
| MiniBatches.SharesSumToBatch | FishNet/FeedForwardNetwork.cpp:504-520 | per layer, the workers' summed weight and bias gradients are those of the whole mini-batch |
| MiniBatches.SharesStepIsBatchStep | FishNet/FeedForwardNetwork.cpp:504-520 | stepping in every worker's gradients, one after another, is one step with the gradients of the whole mini-batch, so how the examples are shared out does not change the new weights and biases |
| Partitions.CombineStep | FishNet/FeedForwardNetwork.cpp:506-523 | a weighted layer's weights are decayed by the multiplier, then every applied worker's gradients are stepped in with scalar learningRate/size; the biases are only stepped. What the workers' gradients hold is stated by MiniBatches.SharesStepIsBatchStep |
| Training.TargetEpochs | FishNet/FeedForwardNetwork.cpp:343-347 | when resuming, the epochs asked for are added to the epochs already trained |
| Training.Start | FishNet/FeedForwardNetwork.cpp:385-388 | before the first epoch there is no record, no saved network and the best epoch is the resumed count |
| Training.Train | FishNet/FeedForwardNetwork.cpp:335-446 | it fails exactly when the training set, then the test set, is smaller than the thread count, changing nothing; otherwise the network's epoch count, learning rate and decay multiplier, and the epochs after which it saved, are those of the epoch loop run on the epochs' outcomes |
| Training.BestIsMaximum | FishNet/FeedForwardNetwork.cpp:417-420 | the highest number correct is at least every epoch's and is one of them, or 0 |
| Training.EpochKeepsConsistent | FishNet/FeedForwardNetwork.cpp:392-438 | one epoch keeps the record, best epoch and saved list consistent with the epochs run so far |
| Training.RunConsistent | FishNet/FeedForwardNetwork.cpp:392-438 | the epoch loop keeps that consistency for all the epochs it runs |
| Training.SavedExactlyOnRecords | FishNet/FeedForwardNetwork.cpp:417-422 | the network is saved after an epoch exactly when that epoch's number correct beats every earlier epoch of the call and 0 |
| Training.RecordsOfPrefix | FishNet/FeedForwardNetwork.cpp:417-422 | whether an epoch set a record depends only on the epochs up to it |
| Training.RunEnds | FishNet/FeedForwardNetwork.cpp:392-427 | the loop ends at the target epoch count or by giving up on an epoch that set no record at least giveUpAfter epochs after the best, and that epoch is not saved |
| Training.RunLearningRate | FishNet/FeedForwardNetwork.cpp:429-436 | with a decay fraction in [0, 1) the learning rate stays positive and never grows, and without decay it stays put |
| Training.RunKeepsMultiplier | FishNet/FeedForwardNetwork.cpp:429-436 | whenever weight decay is on, the multiplier is 1 - weightDecay·learningRate after every epoch |
| Training.StartKeepsMultiplier | FishNet/FeedForwardNetwork.cpp:367-371 | Train sets the multiplier to 1 - weightDecay·learningRate before the first epoch when weight decay is on |
| Classification.ClassifyBatch | FishNet/FeedForwardNetwork.cpp:667-679 | each result of the batch is the first index of the largest output of its test image |
| Classification.Classify | FishNet/FeedForwardNetwork.cpp:232-273 | it fails exactly when the test set is smaller than the thread count; otherwise result i is the first index of the largest output of test image i, for every i |
| Classification.ClassifyWeights | FishNet/FeedForwardNetwork.cpp:237-238 | Classify switches every layer to its testing weights and never back |
| Classification.ClassifyTwiceScalesTwice | FishNet/FeedForwardNetwork.cpp:237-238 | classifying twice with a layer behind dropout of keep 0.5 scales a weight of 1.0 to 0.25, not 0.5 |
| Classification.ClassifyRestoring | FishNet/FeedForwardNetwork.cpp:403-407 | classification that switches back to the training weights afterwards, as Train does around its test |
| Classification.ClassifyRestoringKeepsWeights | FishNet/FeedForwardNetwork.cpp:403-407 | restoring after classification leaves every layer's weights as they were, however often it runs |
| Classification.AccuracyCounts | FishNet/FeedForwardNetwork.cpp:279-291 | counts[a][p] is the number of test images of category a classified as p and numberCorrect the number of matches |
| Classification.DiagonalIsCorrect | FishNet/FeedForwardNetwork.cpp:283-291 | the diagonal of the accuracy table adds up to numberCorrect |
| Classification.TableCountsEveryImage | FishNet/FeedForwardNetwork.cpp:284-291 | the accuracy table adds up to the test-set size: every image is counted in exactly one cell |
| Backpropagation.ForwardPassChains | FishNet/FeedForwardNetwork.cpp:774-797 | the forward pass feeds each layer the previous layer's activations (the example for the first), applies the activation function and records its derivative |
| Backpropagation.ForwardPass | FishNet/FeedForwardNetwork.cpp:774-797 | every layer gets activations of its output size and derivatives of the same size |
| Backpropagation.Incoming | FishNet/FeedForwardNetwork.cpp:799-821 | the error arriving at a layer has the layer's output size, and at the output layer it is the activations minus the target |
| Backpropagation.Delta | FishNet/FeedForwardNetwork.cpp:806-823 | a weighted layer's delta is its incoming error times its recorded derivative, element by element; any other layer's delta is its incoming error |
| Backpropagation.Passed | FishNet/FeedForwardNetwork.cpp:804-821 | the error a layer passes back has the previous layer's output size |
| Backpropagation.Accumulate | FishNet/FeedForwardNetwork.cpp:804-825 | every layer's gradient accumulators keep their sizes, and a layer without weights keeps its own unchanged |
| Backpropagation.Propagate | FishNet/FeedForwardNetwork.cpp:766-826 | back-propagation of one example keeps every layer's gradient accumulators at their sizes, and a layer without weights keeps its own unchanged |
| Backpropagation.BackPropagateAsWritten | FishNet/FeedForwardNetwork.cpp:766-826 | back-propagation as written keeps every layer's gradient accumulators at their sizes |
| Backpropagation.BackPropagate | FishNet/FeedForwardNetwork.cpp:766-826 | corrected: back-propagation with a layer without activation function as the identity keeps every layer's gradient accumulators at their sizes |
| Backpropagation.DeltaZeroOnTarget | FishNet/FeedForwardNetwork.cpp:799-825 | when the output equals the target, every layer's delta is zero |
| Backpropagation.PassedOfZero | FishNet/FeedForwardNetwork.cpp:804-821 | a layer given a zero delta passes zero error back, whether it is fully connected, convolutional or max-pooling |
| Backpropagation.StepOfZero | FishNet/FeedForwardNetwork.cpp:812-825 | a zero delta leaves a layer's weight and bias gradient accumulators as they were |
| Backpropagation.OnTargetLeavesGradients | FishNet/FeedForwardNetwork.cpp:766-826 | an example whose output already equals its target changes no gradient of any layer |
| Backpropagation.DroppedNeuronKeepsGradients | FishNet/Layer.cpp:268-293 | a neuron dropped for this example adds nothing to its bias gradient or its row of weight gradients |
| Backpropagation.IdentityPassesErrorThrough | FishNet/FeedForwardNetwork.cpp:780-791 | with the corrected rule, a weighted layer without activation function passes its incoming error on unscaled, as the identity's derivative 1 requires |
| Backpropagation.AsWrittenScalesErrorByOutput | FishNet/FeedForwardNetwork.cpp:788-791 | as written, such a layer's delta is its incoming error times its own output, because the output itself is recorded as the derivative |
| Backpropagation.RulesAgreeWithActivations | FishNet/FeedForwardNetwork.cpp:780-791 | when every weighted layer has an activation function, the code as written and the corrected rule record the same activations and derivatives |
| Backpropagation.MissingActivationDoublesGradient | FishNet/FeedForwardNetwork.cpp:788-791 | for one neuron without activation function, weight 1, bias 0, input 2 and target 0, the bias gradient is 2 with the corrected rule and 4 as written |
| NetworkFiles.DecodeHeader | FishNet/FeedForwardNetwork.cpp:157-215 | corrected: the name is the nameLength bytes read and the epochs keep 32 bits. Load refuses a file whose first 10 bytes are not "FishNet123", then one whose version is above 6; a header it accepts has a version of at most 6, no name before version 6, 16-bit epochs before version 5 and zero weight decay before version 4 |
| NetworkFiles.DecodeLayers | FishNet/FeedForwardNetwork.cpp:216-227 | the layers read are as many as the header counts, each accepted by Layer::Load on the output dimensions of the one before it |
| NetworkFiles.DecodeNetwork | FishNet/FeedForwardNetwork.cpp:157-230 | corrected, with the header as NetworkFiles.DecodeHeader reads it: a loaded network has as many layers as its header counts, and they chain from the network's input dimensions |
| NetworkFiles.HeaderRoundTrip | FishNet/FeedForwardNetwork.cpp:130-215 | Load reads back every header field Save writes |
| NetworkFiles.LayersRoundTrip | FishNet/FeedForwardNetwork.cpp:151-152 | Load reads back, in order, the layer records Save writes |
| NetworkFiles.NetworkRoundTrip | FishNet/FeedForwardNetwork.cpp:130-230 | Load reads back the whole network Save writes |
| NetworkFiles.NameAsWritten | FishNet/FeedForwardNetwork.cpp:174-182 | the name Load builds is a zero-free prefix of the name buffer followed by whatever memory comes after it |
| NetworkFiles.NameReadsPastItsBuffer | FishNet/FeedForwardNetwork.cpp:178-181 | the saved name "ab" loads as "abc" when the byte after the buffer is 'c' |
| NetworkFiles.NameAsWrittenWhenTerminated | FishNet/FeedForwardNetwork.cpp:178-181 | the name loads right only when a zero byte happens to follow the buffer |
| NetworkFiles.EpochsAsConstructed | FishNet/FeedForwardNetwork.cpp:196-214 | the network is constructed with the epoch count cut to 16 bits, and that changes it exactly when it does not fit in 16 bits |
| NetworkFiles.EpochsWrapOnLoad | FishNet/FeedForwardNetwork.cpp:196-214 | a network saved after 70000 epochs loads as trained for 4464 |
| NetworkFiles.SavedHeaderFieldsSurvive | FishNet/FeedForwardNetwork.cpp:130-214 | read as intended, the name and the 32-bit epoch count come back as Save wrote them |
| StringUtils.LowerAllIsLowerCase | Utils/StringUtils.h:13-16 | lower-casing leaves no upper-case letter and is idempotent |
| StringUtils.LowerIgnoresCase | Utils/StringUtils.h:13-28 | lower-casing the upper-cased string gives the lower-cased string |
| StringUtils.ToLower | Utils/StringUtils.h:13-16 | the string in place becomes its lower-cased self, character by character |
| StringUtils.ToUpper | Utils/StringUtils.h:25-28 | the string in place becomes its upper-cased self, character by character |
| StringUtils.StrLen | Utils/StringUtils.h:17-24 | the first NUL at or after the start: every character before it is not NUL |
| StringUtils.ToLowerCString | Utils/StringUtils.h:17-24 | the characters before the first NUL are lower-cased, and the NUL and everything after it are untouched |
| StringUtils.ToBool | Utils/StringUtils.cpp:8-16 | y, t, yes, true and 1 are true and n, f, no, false and 0 are false, in any case; any other word is refused with "Invalid boolean value: " and the lower-cased word |
| StringUtils.ToBoolIgnoresCase | Utils/StringUtils.cpp:10 | ToBool gives the same answer for a word and its upper-cased form |
| StringUtils.IsNumeric | Utils/StringUtils.cpp:63-71 | true exactly for a non-empty string of ASCII digits |
| StringUtils.TrimEnd | Utils/StringUtils.cpp:45-46 | drops exactly the trailing whitespace: what remains is a prefix that does not end in whitespace |
| StringUtils.SplitCSV | Utils/StringUtils.cpp:18-61 | drops one trailing carriage return from the caller's line and returns the fields of the specification scan over it |
| StringUtils.FieldsAreTrimmed | Utils/StringUtils.cpp:45-59 | no field begins or ends with whitespace |
| StringUtils.UnquotedFieldCount | Utils/StringUtils.cpp:43-61 | a line without quotes is always accepted and has one more field than it has commas |
| StringUtils.UnbalancedIffOddQuotes | Utils/StringUtils.cpp:31-57 | when no two quotes are adjacent, the line is refused for unbalanced quotation marks exactly when it holds an odd number of quotes |
| StringUtils.EmptyLineIsOneField | Utils/StringUtils.cpp:55-61 | the empty line gives one empty field |
| StringUtils.DoubledQuoteIsLiteral | Utils/StringUtils.cpp:33-37 | a doubled quote is a literal quote in the field |
| StringUtils.QuotedCommaDoesNotSplit | Utils/StringUtils.cpp:21-49 | a comma between quotes stays in its field, and the trailing carriage return is dropped |
| Tokenizers.SkipEnd | Utils/Tokenizer.cpp:15-19 | the end of the whitespace run at the position: all whitespace before it, and no whitespace at it unless it is the end |
| Tokenizers.TokenEnd | Utils/Tokenizer.cpp:9-10 | the end of the token run: no whitespace before it, and whitespace at it unless it is the end |
| Tokenizers.Tokenizer.constructor | Utils/Tokenizer.h:12-13 | a tokenizer over the first length characters, at the start |
| Tokenizers.Tokenizer.OfCString | Utils/Tokenizer.h:15-16 | a tokenizer over a NUL-terminated buffer up to its first NUL |
| Tokenizers.Tokenizer.OfString | Utils/Tokenizer.h:17-18 | a tokenizer over a whole string |
| Tokenizers.Tokenizer.Remaining | Utils/Tokenizer.h:20-23 | exactly the characters from the position to the end |
| Tokenizers.Tokenizer.IsEmpty | Utils/Tokenizer.h:25-28 | true exactly when nothing remains |
| Tokenizers.Tokenizer.SkipWhitespace | Utils/Tokenizer.cpp:15-19 | moves the position exactly past the whitespace there |
| Tokenizers.Tokenizer.NextToken | Utils/Tokenizer.cpp:5-13 | skips whitespace, then returns the non-whitespace run that follows and moves past it |
| Tokenizers.Tokenizer.Trim | Utils/Tokenizer.cpp:21-26 | skips leading whitespace and moves the end back over trailing whitespace, never below the position |
| Tokenizers.TokenEmptyIffOnlyWhiteSpace | Utils/Tokenizer.cpp:5-13 | the token is empty exactly when only whitespace remained |
| Tokenizers.TokensOfExample | Utils/Tokenizer.cpp:5-13 | successive tokens of "ab  c" are "ab", "c" and then the empty string |
| Pgm.TokenAt | Utils/Tokenizer.cpp:5-13 | the next token of the file buffer holds no whitespace, and is empty only when nothing but whitespace remained |
| Pgm.ReadHeader | Classifier/PGM.cpp:16-32 | a header is read only when the magic number is P2 or P5, otherwise "Unrecognized magic number" is thrown; the width and height are std::stoi's values cast to uint32_t, an accepted Maxval (std::stod's value) lies in [1, 65535], and P5 means a binary raster |
| Pgm.PixelCount | Classifier/PGM.cpp:34 | width times height as a uint32_t, so below 2^32 |
| Pgm.PixelCountExact | Classifier/PGM.cpp:34 | the pixel count is the true product whenever that product fits in 32 bits |
| Pgm.RawSample | Classifier/PGM.cpp:33-65 | a sample is one byte when Maxval is below 256, otherwise two, most significant first |
| Pgm.BinarySamples | Classifier/PGM.cpp:36-65 | a P5 raster gives exactly the pixel count of samples, read from one byte past the Maxval token; corrected: the bytes are read as unsigned |
| Pgm.TextSamples | Classifier/PGM.cpp:67-79 | a P2 file that is read gives exactly n samples, each in [0, 1]: every token std::stod reads must lie in [0, Maxval] |
| Pgm.Decode | Classifier/PGM.cpp:16-80 | a decoded image has one channel, the label it was given, uint32_t dimensions and width times height (mod 2^32) inputs; corrected: P5 bytes are read as unsigned |
| Pgm.ReadPgmHeader | Classifier/PGM.cpp:16-32 | reading the header with the tokenizer gives the header function's result and leaves the tokenizer just past the Maxval token |
| Pgm.ReadBinarySamples | Classifier/PGM.cpp:46-65 | the loops over the raster produce the samples the raster function specifies |
| Pgm.ReadTextSamples | Classifier/PGM.cpp:67-79 | the token loop produces the samples or the error the sample function specifies |
| Pgm.LoadPgmImage | Classifier/PGM.cpp:5-81 | loading a file gives the image, or the error, that the decoding function specifies for its bytes; corrected: P5 bytes are read as unsigned |
| Pgm.TextSamplesAdvance | Classifier/PGM.cpp:69-78 | reading a valid sample token moves it from the remaining samples to the samples read |
| Pgm.TextSamplesStop | Classifier/PGM.cpp:71-76 | a missing token stops with "appears to be incomplete", an unreadable one with std::stod's error, and one below 0 or above Maxval with "contains invalid pixel data" |
| Pgm.BinarySamplesInUnitRange | Classifier/PGM.cpp:46-65 | every P5 sample is non-negative, and at most 1 when its raw value is at most Maxval |
| Pgm.PlainExample | Classifier/PGM.cpp:16-80 | when std::stoi and std::stod read the digit tokens as their values, the plain file "P2 2 1 1 0 1" holds a black pixel and a white pixel |
| Pgm.NegativeSampleInvalid | Classifier/PGM.cpp:74-76 | a P2 sample std::stod reads as -1 is refused with "contains invalid pixel data" |
| Pgm.SignedChar | Classifier/PGM.cpp:50 | a byte read through a signed char keeps its value exactly when it is below 128 |
| Pgm.OneByteAsWrittenAgreesBelow128 | Classifier/PGM.cpp:50 | as written, a one-byte sample is read right exactly when its byte is below 128 |
| Pgm.SignedCharMisreadsHighBytes | Classifier/PGM.cpp:50-61 | as written, byte 200 reads as -56 instead of 200, and the two bytes 0x01 0x80 read as 0xFFFFFF80 instead of 384 |
| Files.Filled | Classifier/MNIST.cpp:46-50 | a byte of a zeroed buffer filled from a file: the file's byte when there is one, otherwise 0 |
| Files.Intensity | Classifier/MNIST.cpp:58-59 | a byte divided by 255 lies in [0, 1] |
| Files.GetEnv | Utils/Utils.cpp:4-18 | the variable's value when it is set, otherwise an error naming it |
| Mnist.ReadInt | Classifier/MNIST.cpp:4-17 | four bytes, most significant first, read as a uint32_t |
| Mnist.ReadIntRoundTrip | Classifier/MNIST.cpp:4-17 | ReadInt gives back any 32-bit number written big-endian, wherever it sits |
| Mnist.Check | Classifier/MNIST.cpp:19-44 | both files open, the magic numbers are 2051 and 2049, the two counts agree and the images are 28 by 28; the result is that count |
| Mnist.WellFormedFilesAccepted | Classifier/MNIST.cpp:24-44 | files with the headers the reader expects are accepted, with their count |
| Mnist.Pixels | Classifier/MNIST.cpp:55-61 | the 784 bytes of one image, each divided by 255 into [0, 1] |
| Mnist.MnistImagesAreWellFormed | Classifier/MNIST.cpp:52-65 | every image read is one 28 by 28 channel of samples in [0, 1] with a byte label |
| Mnist.ReadPixels | Classifier/MNIST.cpp:55-61 | the pixel loop produces the pixels the specification gives |
| Mnist.LoadMnistData | Classifier/MNIST.cpp:19-72 | it fails with the header check's error, changing neither list, or appends every image with its label to the training or the test list |
| Mnist.CategoriesAreDigits | Classifier/MNIST.cpp:77-79 | category n is named by the digit n |
| Mnist.LoadMnist | Classifier/MNIST.cpp:74-87 | the "MNIST" set of one-channel 28 by 28 images with categories 0 to 9: empty on a dry run, otherwise holding the training and the test files' images, or the first error |
| Cifar.Pixels | Classifier/CIFAR.cpp:24-29 | the 3072 bytes after a record's label, each divided by 255 |
| Cifar.CifarImagesExtend | Classifier/CIFAR.cpp:15-32 | reading one more record appends its image to those before it |
| Cifar.FirstInvalid | Classifier/CIFAR.cpp:15-22 | the first record whose label is above 9: every label before it is at most 9 |
| Cifar.ReadBatch | Classifier/CIFAR.cpp:4-35 | a batch read without error is 10000 images, each with a category of at most 9 |
| Cifar.ReadPixels | Classifier/CIFAR.cpp:24-29 | the pixel loop produces the pixels the specification gives |
| Cifar.AddRecords | Classifier/CIFAR.cpp:15-32 | the record loop adds the records before the first invalid label, in order, and fails with "Invalid label." exactly when there is one |
| Cifar.LoadCifarData | Classifier/CIFAR.cpp:4-35 | a file that does not open changes nothing; otherwise the records before the first invalid label are added, and the error comes exactly when the batch function refuses the file |
| Cifar.TrainingFrom | Classifier/CIFAR.cpp:57-61 | the training batches from k to 5 give 10000 images each |
| Cifar.CategoryNames | Classifier/CIFAR.cpp:41-50 | category c is line c of the category file, or empty when the file has fewer lines |
| Cifar.TrainingAdvance | Classifier/CIFAR.cpp:57-61 | reading one more training batch moves its images from the rest to what was read, or stops with its error |
| Cifar.LoadCategories | Classifier/CIFAR.cpp:41-51 | a dry run gives ten empty names; otherwise the category file's lines, or "Failed to open file" when it is missing |
| Cifar.BatchReadWhole | Classifier/CIFAR.cpp:15-32 | a batch that reads without error is its file's 10000 records |
| Cifar.LoadTrainingBatches | Classifier/CIFAR.cpp:57-61 | the batch loop fills the training list with batches 1 to 5 in order, or fails with the first error |
| Cifar.LoadBatches | Classifier/CIFAR.cpp:53-64 | the training batches, then the test batch into the test list, or the first error |
| Cifar.LoadCifar10 | Classifier/CIFAR.cpp:37-66 | the "CIFAR-10" set of 3 by 32 by 32 images: empty with ten empty category names on a dry run, otherwise the categories and both lists read, or the first error |
| Cifar.BatchImagesAreWellFormed | Classifier/CIFAR.cpp:15-32 | every image read has 3 channels of 32 by 32 samples in [0, 1] and a category of at most 9 |
| Cifar.InvalidLabelAnywhereRejects | Classifier/CIFAR.cpp:17-22 | a batch is accepted exactly when every one of its labels is at most 9 |
| Faces.MatchesExactly | Classifier/Faces.cpp:36-49 | the categories matched are exactly those whose names occur in the line |
| Faces.MatchesPrefix | Classifier/Faces.cpp:36-49 | the search meets the matches in increasing order of category |
| Faces.Found | Classifier/Faces.cpp:26-49 | the label found is -1 exactly when the line names no category, otherwise the index of a category |
| Faces.Search | Classifier/Faces.cpp:36-49 | the search loop gives the label or the error the search specification gives |
| Faces.SecondMatch | Classifier/Faces.cpp:40-46 | a line naming two categories is refused with "belongs to 2 categories" naming the first two |
| Faces.FindLabel | Classifier/Faces.cpp:26-61 | the label loop and the sunglasses adjustment give the corrected labelling |
| Faces.LabelIsTheOneMatch | Classifier/Faces.cpp:33-61 | for emotions, face directions and people, a line is labelled exactly when it names one category, and the label is that category |
| Faces.SunglassesLabel | Classifier/Faces.cpp:27-30 | for sunglasses every line is labelled, 1 exactly when it contains "sunglasses" |
| Faces.DirectionsSunglassesLabel | Classifier/Faces.cpp:33-61 | for directions with sunglasses, a line is labelled exactly when it names one direction; the label is that direction, plus 4 exactly when it contains "sunglasses" |
| Faces.LabelInRange | Classifier/Faces.cpp:26-61 | every label is below the number of the classification's categories |
| Faces.SunglassesWithoutDirection | Classifier/Faces.cpp:51-55 | the name "sunglasses" names no direction: as written it is labelled 3 ("up"), while the corrected rule refuses it |
| Faces.AsBuffer | Classifier/PGM.cpp:12-13 | the file's bytes as the char buffer the PGM reader reads |
| Faces.FaceImage | Classifier/Faces.cpp:55-93 | a line's image carries the line's label and has one channel and the expected width and height |
| Faces.FacesFrom | Classifier/Faces.cpp:21-94 | the lines of a list file give one image each, in order, each of the expected size |
| Faces.ReadFace | Classifier/Faces.cpp:23-92 | reading one line gives the image or the error the line specification gives |
| Faces.FacesAdvance | Classifier/Faces.cpp:21-94 | reading one more line moves its image from the rest to what was read, or stops with its error |
| Faces.AddFaces | Classifier/Faces.cpp:21-94 | the line loop appends the images of all the lines to the training or the test list, or fails with the first error |
| Faces.LoadList | Classifier/Faces.cpp:9-95 | "Failed to open file" when the list is missing; otherwise the line loop's images or its first error |
| Faces.Suffix | Classifier/Faces.cpp:101-114 | an image size gives a file suffix exactly when it is 1, 2 or 4 |
| Faces.ChooseSuffix | Classifier/Faces.cpp:101-114 | the file suffix for sizes 1, 2 and 4, and the invalid-value error for any other size |
| Faces.ChooseCategories | Classifier/Faces.cpp:117-149 | the five classifications and their categories, and "Unknown face classification:" for any other name |
| Faces.LoadLists | Classifier/Faces.cpp:154-158 | the training list, then the test list, or the first error |
| Faces.LoadFaces | Classifier/Faces.cpp:97-160 | the image size is std::stoi of FISHNET_FACE_IMAGE_SIZE; the set named after the classification and its size, with that classification's categories, holding both lists' images unless dry, or the first error |
| Faces.LoadedFacesFit | Classifier/Faces.cpp:97-160 | every image of a loaded faces set has one channel, the set's width and height, and a category of the set |
| Loader.WithSeparator | Classifier/ImageSetLoader.cpp:12-14 | the data directory ends in the path separator, which is appended only when it is not already last |
| Loader.WithSeparatorIdempotent | Classifier/ImageSetLoader.cpp:13-14 | appending the separator a second time changes nothing |
| Loader.SupportedSetsDispatched | Classifier/ImageSetLoader.cpp:24-37 | the names the error message lists are exactly the names Load dispatches to a loader |
| Loader.LoadNew | Classifier/ImageSetLoader.cpp:23-37 | a name not loaded before goes to its set's loader, and an unknown name is refused with the list of supported sets; the set returned is the one that loader builds: its name, categories, image size and both lists |
| Loader.LoadOther | Classifier/ImageSetLoader.cpp:24-27 | cifar-10 and mnist go to their loaders with their outcomes, and the set returned is the one that loader builds; an unknown name is refused |
| Loader.ImageSetLoader.constructor | Classifier/ImageSetLoader.cpp:7-9 | a loader with no sets loaded yet |
| Loader.ImageSetLoader.Create | Classifier/ImageSetLoader.cpp:7-16 | unless dry, the data directory is read from FISHNET_DATA_DIR and ends in the separator; a missing variable is an error |
| Loader.ImageSetLoader.Load | Classifier/ImageSetLoader.cpp:18-40 | a set loaded before is returned again without reading anything; a new one is the set its loader builds, kept under its name, and a failed load keeps nothing |
| NumberText.Unsigned32 | Classifier/Trainer.cpp:328 | the cast of an int to uint32_t keeps values in [0, 2^32) and adds 2^32 to negative ones |
| NetworkBlocks.HeaderGrows | Classifier/Trainer.cpp:238-264 | a new name, empty or known, extends the header loop's state by one column |
| NetworkBlocks.ColumnsExactly | Classifier/Trainer.cpp:234-269 | the header is accepted exactly when its names are distinct, every non-empty name is a known parameter, and "activation" and "layer" are among them; the columns then index every non-empty name |
| NetworkBlocks.ReadColumns | Classifier/Trainer.cpp:237-269 | the header loop gives the columns, or the error, that the header specification gives |
| NetworkBlocks.ActivationFor | Classifier/Trainer.cpp:294-321 | sigmoid exactly when the column is empty or "sigmoid"; leaky ReLU with 0.01 by default and a leakiness strictly between 0 and 1; ReLU, tanh, and any other name refused |
| NetworkBlocks.LayerSizeAsWritten | Classifier/Trainer.cpp:328-330 | as written, the layer size check refuses exactly 0 |
| NetworkBlocks.LayerSize | Classifier/Trainer.cpp:328-330 | the layer size check as its message states it: exactly the sizes of at least 1 are accepted, unchanged |
| NetworkBlocks.NegativeLayerSizePasses | Classifier/Trainer.cpp:328-340 | as written, a negative size passes and becomes a layer of more than two billion neurons, which the corrected check refuses |
| NetworkBlocks.LayerSizeChecksAgree | Classifier/Trainer.cpp:328-330 | the two checks agree on every size that is not negative |
| NetworkBlocks.Dropout | Classifier/Trainer.cpp:332-339 | a dropout is in [0, 1), and 0 when the column is empty |
| NetworkBlocks.FullyConnectedRow | Classifier/Trainer.cpp:323-341 | corrected: a fully-connected row has a size of at least 1 and a keep probability in (0, 1], and "layer size" is compulsory |
| NetworkBlocks.Optional | Classifier/Trainer.cpp:360-376 | an optional column takes its default when empty and is otherwise no smaller than its least value |
| NetworkBlocks.ConvolutionalRow | Classifier/Trainer.cpp:342-378 | a convolutional row has at least one filter, a filter size of at least 1 and smaller than the image's height and width, padding 0 and stride 1 by default, and a stride of at least 1 |
| NetworkBlocks.RowPlan | Classifier/Trainer.cpp:288-382 | "max pooling" needs nothing else; "fully connected" and "convolutional" take the activation and their own columns; any other layer type is refused |
| NetworkBlocks.Added | FishNet/FeedForwardNetwork.cpp:50-128 | a layer that is added adds exactly one layer type |
| NetworkBlocks.AddedKeepsRules | FishNet/FeedForwardNetwork.cpp:50-128 | adding a layer keeps the network's construction rules |
| NetworkBlocks.RowStep | Classifier/Trainer.cpp:274-388 | a row either adds one layer, ends the block, or fails naming its own line |
| NetworkBlocks.RowStepKeepsRules | Classifier/Trainer.cpp:284-388 | a row's layer keeps the construction rules |
| NetworkBlocks.RowsStayInFile | Classifier/Trainer.cpp:274-389 | the row loop reads whole lines of the file only, and an error names a line of the block |
| NetworkBlocks.RowsKeepRules | Classifier/Trainer.cpp:274-389 | the layers the rows build keep the construction rules |
| NetworkBlocks.Finished | Classifier/Trainer.cpp:391-398 | the block is accepted exactly when it has layers and its top layer is fully connected, sigmoid and has one neuron per category; the output-layer errors name the line before the one that ended the block |
| NetworkBlocks.NetworkBlockClassifies | Classifier/Trainer.cpp:217-400 | a block that loads describes a network obeying the construction rules, topped by a fully-connected sigmoid layer with one neuron per category |
| NetworkBlocks.NetworkBlockEndsInFile | Classifier/Trainer.cpp:217-400 | a block that loads ends after its header line and within the file |
| NetworkBlocks.NetworkBlockErrorsInFile | Classifier/Trainer.cpp:217-400 | a block's error names its header line or a line of the block within the file |
| NetworkBlocks.BlockRowsInFile | Classifier/Trainer.cpp:274-398 | after the header, the rows and the output-layer checks end, or fail, on a line after the header and within the file |
| NetworkBlocks.ShapeOfPush | FishNet/FeedForwardNetwork.cpp:73-74 | a pushed layer's type is appended, and its output is what the next layer receives |
| NetworkBlocks.AddPooling | FishNet/FeedForwardNetwork.cpp:104-128 | AddMaxPoolingLayer fails or grows the network exactly as the shape predicts |
| NetworkBlocks.AddFullyConnected | FishNet/FeedForwardNetwork.cpp:50-75 | AddFullyConnectedLayer fails or grows the network exactly as the shape predicts |
| NetworkBlocks.AddConvolutional | FishNet/FeedForwardNetwork.cpp:77-102 | AddConvolutionalLayer fails or grows the network exactly as the shape predicts |
| NetworkBlocks.AddPlanned | Classifier/Trainer.cpp:288-382 | the layer a row asks for is added, or refused, as the shape predicts |
| NetworkBlocks.AddRow | Classifier/Trainer.cpp:276-388 | one pass of the row loop does to the network what the row specification says |
| NetworkBlocks.AddRows | Classifier/Trainer.cpp:274-389 | the row loop builds the network the rows specify, or stops with their error and line |
| NetworkBlocks.LoadNetwork | Classifier/Trainer.cpp:217-400 | corrected layer size check: a fresh network with the given name, learning rate and weight decay, no epochs trained and the image set's input, built as the block specifies and able to classify the set; or the block's error and line |
| NetworkBlocks.Finish | Classifier/Trainer.cpp:391-398 | the output-layer checks on the built network give the block's outcome |
| JobFiles.StripDir | Classifier/Trainer.cpp:42-48 | the part of the path after its last separator, '\\' or '/', or the whole path when it has none |
| JobFiles.ValueOf | Classifier/Trainer.cpp:84-85 | a line's value is its second field when that is present and not empty; otherwise the setting's own "missing" message |
| JobFiles.Count | Classifier/Trainer.cpp:93-95 | the count check as its message states it: exactly the counts of at least 1 are accepted, unchanged |
| JobFiles.CountAsWritten | Classifier/Trainer.cpp:93-95 | as written, the int is stored in a uint32_t before it is compared with 1, so only 0 is refused |
| JobFiles.NegativeCountPasses | Classifier/Trainer.cpp:93-95 | as written, a negative count passes as one above two billion, which the corrected check refuses |
| JobFiles.CountChecksAgree | Classifier/Trainer.cpp:93-95 | the two checks agree on every count a uint32_t holds |
| JobFiles.Setting | Classifier/Trainer.cpp:89-134 | corrected count check for "epochs" and "minibatch size": an unknown key is an invalid parameter and a missing value a "missing" error; an accepted line changes only its own setting, to the value read, within the range its check accepts |
| JobFiles.SettingAcceptsEveryValidValue | Classifier/Trainer.cpp:89-176 | every value that reads as one its check accepts is set exactly |
| JobFiles.InitialInRange | Classifier/Trainer.cpp:56-62 | the settings before the first line are within range |
| JobFiles.NetworkReady | Classifier/Trainer.cpp:137-144 | a "network" line needs a data set, a minibatch size, a learning rate and an epoch count, checked in that order |
| JobFiles.SavedReady | Classifier/Trainer.cpp:151-161 | a "network file" line needs its file name, a data set, a minibatch size and an epoch count, checked in that order |
| JobFiles.AppendedJobsTrainable | Classifier/Trainer.cpp:146-167 | appending trainable jobs to trainable jobs leaves them all trainable |
| JobFiles.Trainer.constructor | Classifier/Trainer.h:42 | a trainer with its loader and thread count and no jobs |
| JobFiles.Trainer.LoadJobList | Classifier/Trainer.cpp:50-195 | corrected count checks: a file that cannot be read is refused; otherwise the old jobs stay in front, every job added is trainable, and an error names a line of the file |
| JobFiles.Trainer.NextLine | Classifier/Trainer.cpp:69-81 | an empty line, a comment or a line with an empty first field changes nothing; any other line adds at most one trainable job and moves past itself |
| JobFiles.Trainer.ReadLine | Classifier/Trainer.cpp:80-180 | a line is read by its lower-cased first field and adds at most one trainable job |
| JobFiles.Trainer.ApplySetting | Classifier/Trainer.cpp:89-134 | a setting line changes the settings exactly as the setting specification gives, or fails with its message at this line |
| JobFiles.Trainer.SelectDataSet | Classifier/Trainer.cpp:82-88 | a "dataset" line needs a name, and selects the lower-cased name's set: the one loaded before, or a new one the loader keeps |
| JobFiles.Trainer.AddNetworkJob | Classifier/Trainer.cpp:135-148 | after its checks, a "network" line reads the network block that follows it and adds one trainable job for it with the current settings, or fails adding nothing |
| JobFiles.Trainer.BuildNetwork | Classifier/Trainer.cpp:145-147 | the block after the line gives a new valid classifier for the data set, with the settings' learning rate and weight decay and no epochs trained |
| JobFiles.Trainer.AddSavedJob | Classifier/Trainer.cpp:149-168 | after its checks, a "network file" line adds one trainable job for the saved network with the current settings, or fails adding nothing |

## Left out

- Threads: the worker threads, their mutexes, condition variables and busy-count barrier. The model covers the share of examples each worker gets, what each trainer accumulates over its share, and the order in which the combined gradients are applied.
- MiniBatches.TrainOnMiniBatch: works on values. The trainer's `_nablaW` and `_nablaB` tensors, zeroed and updated in place, are sequences, and the one-hot target is looked up before the call. The dropout masks an example meets are part of its `Sample`.
- Tensors.Tensor.GetStatistics: for an empty tensor the C++ average is 0/0, a NaN, which a `real` cannot hold. The model leaves it 0.
- TestDuringTraining (FishNet/FeedForwardNetwork.cpp:546-570): its share loop and busy count are the same code as TrainForOneEpoch's, so the Partitions.ShareMiniBatch and Partitions.BusyWorkers rows, which cite the mini-batch copy, state them for a mini-batch of the test set's size. Its sums of the background trainers' number correct and testing cost are not modelled.
- Floating point: rounding, and the values of `exp` and `log`, which are parameters. Sigmoid, TanH and the cost total are proved only from hypotheses about them.
- Randomness: weight initialisation, dropout-mask sampling and shuffling. Their results are inputs: drawn samples, mask contents and example orders.
- Training one epoch and testing after it, inside `Train`. The epoch control takes each epoch's training cost and number correct as inputs. `Train`'s call to `InitializeWeights` for a fresh network is not modelled.
- The forward pass inside `Classify`, which takes each test image's output activations as inputs.
- File and stream plumbing: opening, `fread`, closing, and the stats CSV writer with its timestamped names.
- The text formatters `Description`, `SaveArchitecture`, `SaveWeightStatistics` and `operator<<`.
- Logging (`Utils/Log.cpp`) and the command-line driver (`Classifier/Classifier.cpp`).
- The P5 short-raster warning, which is only logged. The model reads past the end of the buffer as 0.
- `Trainer::TrainAll` and the overload of `LoadJobList` that takes several files.
- The "network file" job line: the saved network is not read. The model checks the line and adds a job naming the file, the learning rate and the weight decay. Loading the file, its errors, and renaming a network without a name after the data set are not modelled.
- `FeedForwardNetwork::Load` reading past the end of a truncated file: the C++ leaves the fields it could not read at their defaults. The model refuses such a file (`Truncated`, the model's own message).
- A convolutional layer whose filter is larger than its input, or whose stride is 0, is refused with the model's own message (`FilterDoesNotFit`). `Layers.LoadedOutput` likewise refuses such a saved layer. The C++ computes its output size with unsigned arithmetic that wraps, and the test suite never builds such a layer.
- A network row shorter than its header: the C++ indexes past the end of the row's fields. The model reads a missing field as the empty string.
- `std::getline` is modelled by the list of lines it returns. An empty data directory, where `dataDir.back()` is undefined, is not modelled.
- The tests that check little (a `uint32_t` loop started at −1 in one convolution test, a column step of 3 in another). Test files are evidence for the properties and are not modelled.
- `#` comments in PGM headers, which the reader does not support either.
- JobFiles.Trainer.LoadJobList: states that the old jobs stay in front, that every added job is trainable and that an error names a line of the file. It does not state which jobs a file adds; each line's effect is stated by JobFiles.Trainer.ApplySetting, JobFiles.Trainer.AddNetworkJob and JobFiles.Trainer.AddSavedJob.
- JobFiles.Trainer.NextLine: states only that a line adds at most one trainable job and moves past itself, not which job.
- JobFiles.Trainer.ReadLine: states only that a line adds at most one trainable job, not which job.
- JobFiles.Setting: the "weight decay" line accepts (0, 1], but its message says "greater than or equal to 0 and less than 1". The model keeps the check as written and the message as written.
- JobFiles.Setting: "give up after" has no range check; a negative value becomes a huge one through the uint32_t cast, as written.
- Backpropagation.BackPropagate: the cost total added to `_totalTrainingCost` is left out. Costs.TotalCost models it on its own.
- Backpropagation.ForwardPass, Backpropagation.Passed, Backpropagation.Accumulate, Backpropagation.Propagate, Backpropagation.BackPropagateAsWritten and Backpropagation.BackPropagate: their own contracts state only sizes. The values they compute are stated by Backpropagation.ForwardPassChains, Backpropagation.OnTargetLeavesGradients, Backpropagation.PassedOfZero, Backpropagation.IdentityPassesErrorThrough, Backpropagation.AsWrittenScalesErrorByOutput and Backpropagation.MissingActivationDoublesGradient.
- Tensors.Tensor.constructor: the element count is the exact product of the dimensions. The C++ computes the plane size, hyperplane size and size in `uint32_t`, so a shape of 2^32 or more elements wraps to a smaller buffer. Such a tensor breaks every indexing invariant, so it is not modelled.
- Tensors.DecodeTensor: refuses a stream too short for the tensor and a shape of 2^32 or more elements. `Tensor::Load` returns a tensor in both cases: its size wraps, and the elements the stream lacks stay 0.
- Tensors.Tensor.Load: returns null in the two cases Tensors.DecodeTensor refuses, where the C++ returns the tensor described there.
- ConvolutionGradients.WeightErrorRow and ConvolutionGradients.WalkRowSpan are `while` loops, where the C++ has `do`-`while` loops. For a filter offset whose span is empty they add nothing; the C++ adds one δ·activation term (see "## Findings").
- ConvolutionGradients.WeightError, ConvolutionGradients.AddWeightAndBiasErrors and ConvolutionalLayers.ConvolutionalLayer.UpdateWeightAndBiasErrors: they compute the corrected gradient, without the extra term of an empty span.
- Pgm.MaxValError: the message shows the Maxval token as it reads. The C++ prints the double with `ostream <<`, so 1000000 reads "1e+06". The text form of a double is not modelled.
- Mnist.ReadInt: past the end of a short file the model reads 0. The C++ leaves the bytes `fread` could not fill uninitialised.

## Findings

| source | as written | input that shows it | evidently intended | confidence | as-written member | corrected member |
|---|---|---|---|---|---|---|
| FishNet/Tensor.h:110-113 | the debug bounds checks of every multi-index accessor compare with `>`, so an index equal to the dimension passes | `(3, 3)` in a 3×4 tensor passes and addresses offset 15 of 12 | reject indices equal to the dimension (`>=`) | high; not executed | Tensors.AsWrittenCheckAdmitsThreeThree | Tensors.OffsetInBounds |
| FishNet/ConvolutionalLayer.cpp:447-448 | for a filter offset i below the padding p, the first input cell is taken as `(p − i) % stride` | stride 3, padding 2, offset 1: the first output touches input 2, but the table says 1 | `⌈(p − i)/stride⌉·stride − (p − i)` | high; not executed | ConvolutionSpec.FirstInputAsWrittenWrongForStrideThree | ConvolutionSpec.FirstInputIsTouched |
| FishNet/FeedForwardNetwork.cpp:178-181 | the name is read into a buffer of exactly `nameLength` bytes with no terminating zero, then read as a C string | a saved name "ab" followed in memory by 'c' and a zero loads as "abc" | the name is the `nameLength` bytes read | high; not executed | NetworkFiles.NameReadsPastItsBuffer | NetworkFiles.SavedHeaderFieldsSurvive |
| FishNet/FeedForwardNetwork.cpp:213-214 | the 32-bit epoch count is passed to a constructor whose parameter is `uint16_t` (FishNet/FeedForwardNetwork.h:17) | a network saved after 70000 epochs loads as trained for 4464 | the epoch count is kept in 32 bits | high; not executed | NetworkFiles.EpochsWrapOnLoad | NetworkFiles.SavedHeaderFieldsSurvive |
| FishNet/FeedForwardNetwork.cpp:237-238 | `Classify` switches every layer to its testing weights and never back, and `SwitchToTestingWeights` scales again each time | classifying twice with a layer behind keep probability 0.5 turns a weight of 1.0 into 0.25 | switch back to the training weights afterwards, as `Train` does around its test | medium; not executed | Classification.ClassifyTwiceScalesTwice | Classification.ClassifyRestoringKeepsWeights |
| FishNet/FeedForwardNetwork.cpp:788-791 | a weighted layer without activation function records its own output as its derivative | one neuron, weight 1, bias 0, input 2, target 0: the bias gradient is 4 | the identity's derivative, 1, giving a bias gradient of 2 | high; not executed | Backpropagation.MissingActivationDoublesGradient | Backpropagation.IdentityPassesErrorThrough |
| Classifier/PGM.cpp:50-61 | P5 samples are read through plain `char`, which is signed on common platforms | byte 200 reads as −56; the two bytes 0x01 0x80 read as 0xFFFFFF80 instead of 384 | read the bytes as unsigned | high; not executed | Pgm.SignedCharMisreadsHighBytes | Pgm.BinarySamplesInUnitRange |
| Classifier/Faces.cpp:51-55 | for directions with sunglasses, 4 is added to the label before the check for no match | the file name "sunglasses" names no direction and is labelled 3, "up" | refuse a name with no direction | high; not executed | Faces.SunglassesWithoutDirection | Faces.DirectionsSunglassesLabel |
| Classifier/Trainer.cpp:328-330 | the layer size check refuses only 0, and the int is then cast to `uint32_t` | layer size −1 passes and becomes a layer of 4294967295 neurons | "Layer size must be at least 1": refuse every size below 1 | high; not executed | NetworkBlocks.NegativeLayerSizePasses | NetworkBlocks.FullyConnectedRow |
| FishNet/ConvolutionalLayer.cpp:367-379 | the gradient's row and column loops are `do`-`while` loops, so they run once even when a filter offset lies inside the input for no output | length 4, filter 2, stride 5, padding 1: filter offset 0 has an empty span, yet one δ·activation term is added for it | a filter offset with an empty span adds nothing to its weight's gradient | medium; not executed | ConvolutionSpec.EmptySpanStillVisitedAsWritten | ConvolutionGradients.WeightError |
| Classifier/Trainer.cpp:93-95 | the epoch count is stored in a `uint32_t` before the check `< 1`, so a negative count passes; the minibatch size at 131-133 does the same | epochs −1 passes as 4294967295 | "must be at least 1": refuse every count below 1 | high; not executed | JobFiles.NegativeCountPasses | JobFiles.Setting |
