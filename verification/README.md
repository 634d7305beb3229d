# ConvNet network orchestration in Dafny

This project models the orchestration layer of the ConvNet C++ network class `Net`
(`c++/sources/net.cpp`). The network owns a chain of layers: an input layer "i", then
convolution "c", scaling "s" and fully connected "f" layers, with "f" last. The class does
not compute inside the layers. It:

- builds and validates the chain from layer descriptors (`InitLayers`);
- runs minibatch training (`Train`): it checks the data and label dimensions, remaps labels
  for an SVM last layer, sets the class coefficients, allocates the loss history, and orders
  each epoch's samples (shuffled or not). It cuts that order into ceil(n / batchsize)
  batches. Each batch runs a prepare update, a forward pass, the loss and backward pass and
  a commit update, and its loss goes to slot `epoch * numbatches + batch` of the history;
- classifies data with a forward pass (`Classify`);
- computes the terminal loss of the "SVM" and "sigmoid" functions (`Backward`);
- flattens all layer parameters into one vector and loads them back (`GetWeights`,
  `SetWeights`). A successful load turns shuffling off.

The model is functional:

- A layer is an abstract value: its kind, its parameter values, its batch size and, for a
  fully connected layer, its class count, function name and output matrix.
- What the layers compute is a parameter: the forward activations and the updated parameter
  values, each with its parameter count kept.
- Each traversal reports the calls it makes on the layers, in order, so the call protocol
  can be stated and proved.
- Every fatal assertion of the program (`mexAssert`) becomes a `Fail` value of `Result`.
- The per-epoch shuffle is an arbitrary permutation supplied by the caller.

Modules, in dependency order:

| module | file | models |
|---|---|---|
| `Errors` | errors.dfy | the failure values and `Result` |
| `Matrix` | matrix.dfy | rectangular real matrices, entry-wise maps, sums |
| `Loss` | loss.dfy | label remapping and the SVM and sigmoid loss rules |
| `Layers` | layers.dfy | layer kinds, parameters, structure, the layer-call record |
| `Nets` | nets.dfy | the network state and the invariants the operations keep |
| `Chain` | chain.dfy | `Net::InitLayers` |
| `Passes` | passes.dfy | `Net::UpdateWeights`, `Net::Forward`, `Net::Backward`, `Net::Classify`, the batch protocol |
| `Batching` | batching.dfy | batch count, epoch order, cutting into batches, loss-history slots |
| `Training` | training.dfy | `Net::Train` |
| `Serialization` | serialization.dfy | `Net::GetWeights`, `Net::SetWeights` |

## Model

| member | source | states |
|---|---|---|
| Chain.InitLayers | c++/sources/net.cpp:27-63 | succeeds exactly for a valid chain: at least 2 descriptors, "i" first, only "c", "s" or "f" after it, "f" last; the result is a valid net with one freshly initialised layer per descriptor, and nothing else of the net changes |
| Chain.InitFrom | c++/sources/net.cpp:45-57 | the per-descriptor loop succeeds iff every remaining tag is "c", "s" or "f", producing one layer per descriptor; otherwise it fails with the first unknown tag |
| Chain.InitLayersFailures | c++/sources/net.cpp:31-61 | each failure is the first violated check in program order: no descriptors, one descriptor, first not "i", first unknown later tag, last not "f" |
| Layers.InitLayer | c++/sources/net.cpp:42-59 | the layer built for a descriptor has the kind its tag names ("i" input, "c" convolution, "s" scaling, "f" fully connected); an input layer takes the descriptor's map size, every other layer its initial parameters, a fully connected layer its class count and function; it starts with batch size 0 and a correctly shaped output |
| Layers.WithWeights | c++/sources/net.cpp:230-233 | a layer loaded with new parameter values holds exactly those values and keeps its kind, configuration, batch size and output |
| Layers.WithOwnWeights | c++/sources/net.cpp:221-233 | loading a layer with its own parameters gives the same layer back |
| Nets.NewNet | c++/sources/net.cpp:245-247 | a new net has no layers and shuffling on |
| Passes.UpdateLoop | c++/sources/net.cpp:215-219 | the update calls go to layers i..n-1 in ascending order with the phase flag |
| Passes.UpdateFrom | c++/sources/net.cpp:215-219 | the update loop gives every layer from i on its new parameters and leaves earlier layers alone |
| Passes.UpdateWeights | c++/sources/net.cpp:215-219 | one update phase: layer 0 unchanged; each layer 1..n-1 gets the new parameters for its current ones and keeps its kind and configuration; shuffle flag, loss history and class coefficients unchanged; calls go to layers 1..n-1 ascending |
| Passes.UnchangedUpdate | c++/sources/net.cpp:215-219 | an update whose new values equal the current ones leaves the net as it was |
| Passes.ForwardLoop | c++/sources/net.cpp:159-162 | the forward calls go to layers i..n-1 in ascending order with the regime flag |
| Passes.LayerForward | c++/sources/net.cpp:161 | a layer's forward step keeps its parameters and structure, takes its predecessor's batch size and, if fully connected, holds the computed activations as its output |
| Passes.PropagateFrom | c++/sources/net.cpp:159-162 | the forward loop from layer i on keeps earlier layers and passes the batch size down the chain; every later layer keeps its parameters and holds the activations computed for it |
| Passes.Forward | c++/sources/net.cpp:154-169 | loads `count` samples into the input layer, runs layers 1..n-1 in order, and returns the last layer's output, of shape [class count, count] and holding the last layer's activations, as the prediction; the net stays valid, keeps its chain and every layer's parameter values |
| Passes.BackwardLoop | c++/sources/net.cpp:208-211 | the backward calls go to layers i down to 1 |
| Passes.Backward | c++/sources/net.cpp:171-213 | fails with the batch-size mismatch, then the class-count mismatch, then the unknown function, before any layer's backward step; succeeds exactly when all three checks pass, with the loss rule of the last layer's function, a non-negative loss and backward calls from n-1 down to 1 |
| Passes.Classify | c++/sources/net.cpp:140-152 | fails on data that is not three-dimensional, then on a map size different from the input layer's; otherwise it is the forward pass over the data's samples in the classification regime: the prediction is the last layer's output, of shape [class count, samples], holding the last layer's activations, and every layer keeps its parameter values |
| Passes.BatchCallsFollowProtocol | c++/sources/net.cpp:130-133 | a training batch's calls are prepare on 1..n-1, forward on 1..n-1, backward on n-1..1, commit on 1..n-1 |
| Passes.ProtocolSkipsInputLayer | c++/sources/net.cpp:130-133 | under that protocol no call goes to the input layer, and each layer is prepared, run forward, run backward and committed in that order |
| Loss.RemapLabels | c++/sources/net.cpp:93-95 | the SVM remap keeps the label shape and is inverted by (r + 1) / 2 |
| Loss.RemapBinaryGivesSigns | c++/sources/net.cpp:93-95 | the remap sends {0, 1} labels to {-1, +1}, 0 becoming -1 |
| Loss.Margin | c++/sources/net.cpp:187-190 | the clipped margin is max(0, 1 - p*y): it is 0 or 1 - p*y, whichever is larger, and zero exactly when p*y >= 1 |
| Loss.TerminalLoss | c++/sources/net.cpp:186-206 | the loss rule exists exactly for "SVM" and "sigmoid" and fails with the function name otherwise; its derivative has the labels' shape and its loss is non-negative |
| Loss.TerminalLossRules | c++/sources/net.cpp:186-203 | "SVM" selects the squared hinge: derivative -2 * max(0, 1 - p*y) * y, zero wherever p*y >= 1, loss the sum of squared margins over the batch size, zero exactly when every margin is met; "sigmoid" selects the squared error: derivative p - y, loss the sum of squared derivatives over 2 * batch size, zero exactly when the prediction equals the labels |
| Loss.SvmRuleEntries | c++/sources/net.cpp:187-197 | the SVM derivative at each entry is -2 * max(0, 1 - p*y) * y, and the loss is the sum of the squared margins over the batch size |
| Loss.SvmLossProperties | c++/sources/net.cpp:186-197 | the SVM loss is non-negative and zero exactly when every margin is met |
| Loss.SvmDerivativeVanishes | c++/sources/net.cpp:187-193 | the SVM derivative is zero wherever p*y >= 1 |
| Loss.SvmLossFromDerivative | c++/sources/net.cpp:187-197 | with {-1, +1} labels the SVM loss is also the sum of squared derivatives over 4 * batch size, tying the derivative -2 * margin * y to the loss |
| Loss.SigmoidLossProperties | c++/sources/net.cpp:198-203 | the sigmoid derivative at each entry is p - y, the loss is the sum of its squares over 2 * batch size, non-negative and zero exactly when every prediction equals its label |
| Batching.NumBatchesIsCeiling | c++/sources/net.cpp:105 | the batch count is the ceiling of n / batchsize: the least count whose full batches cover n, and zero exactly when n is zero |
| Batching.PermutationHoldsEachOnce | c++/sources/net.cpp:108-114 | a permuted order has length n, names only samples below n and holds each exactly once |
| Batching.EpochOrder | c++/sources/net.cpp:108-114 | an epoch's order is a permutation of 0..n-1: the supplied shuffled order when shuffling is on, the identity order when it is off |
| Batching.Cut | c++/sources/net.cpp:115-119 | `count` passes of the batching loop from iterator position `pos` give `count` batches |
| Batching.Batches | c++/sources/net.cpp:105-119 | an epoch's order is cut into ceil(n / batchsize) batches |
| Batching.CutConcat | c++/sources/net.cpp:115-119 | the batches cut from position `pos` concatenate back to the order from `pos` |
| Batching.CutSlice | c++/sources/net.cpp:115-118 | batch b is the order's slice from b * batchsize to (b + 1) * batchsize, both clipped to the order's end |
| Batching.BatchesPartition | c++/sources/net.cpp:105-119 | an epoch's batches number ceil(n / batchsize), concatenate back to its order, are all full but the last, and the last holds 1..batchsize samples |
| Batching.FullBatch | c++/sources/net.cpp:116 | every batch before the last holds exactly batchsize samples |
| Batching.LastBatch | c++/sources/net.cpp:116 | the last batch holds between 1 and batchsize samples |
| Batching.BatchesDrawFromOrder | c++/sources/net.cpp:117 | every index in a batch comes from the order it was cut from |
| Batching.EachSampleInOneBatch | c++/sources/net.cpp:107-119 | with a permuted order each sample 0..n-1 occurs exactly once across an epoch's batches, and nothing else occurs |
| Batching.EpochEnd | c++/sources/net.cpp:106-132 | the slot after an epoch's last batch is the next epoch's first, and it does not pass numepochs * numbatches |
| Batching.SlotsAreChronological | c++/sources/net.cpp:106-132 | slots lie inside the history, are ordered epoch-major and batch-minor, and are equal only for the same epoch and batch |
| Training.PrepareForward | c++/sources/net.cpp:130-131 | the prepare update followed by the forward pass keeps the chain and loads the batch's sample count into the last layer; the prediction is the last layer's output, of shape [class count, sample count], holding the batch's activations of the last layer; the prepare calls come first, then the forward calls |
| Training.RunBatch | c++/sources/net.cpp:115-133 | one batch succeeds exactly when the last layer's function is known; it then keeps the chain and records the batch's indices, their label columns, the prediction the forward pass produced, the loss Backward's rule gives for that prediction and those labels, and the full batch protocol |
| Training.EpochBatches | c++/sources/net.cpp:107-119 | an epoch's batches number ceil(n / batchsize), and every index names a sample |
| Training.Record | c++/sources/net.cpp:132 | a batch's loss is written to its slot of the loss history and to no other slot |
| Training.AdvanceEpoch | c++/sources/net.cpp:115-133 | one pass of the batch loop extends the epoch's runs by the next batch, whose loss, the one Backward's rule gives for its prediction and label columns, is written to its slot |
| Training.EpochSoFarStep | c++/sources/net.cpp:115-133 | recording a batch run on the net the earlier batches left extends the epoch by one batch; slots outside the epoch stay untouched |
| Training.AllScoredAppend | c++/sources/net.cpp:116-133 | runs whose losses are Backward's losses for their predictions and labels stay so when one sequence of them follows another |
| Training.RunEpoch | c++/sources/net.cpp:115-134 | the batch loop fails exactly when there is a batch and the function is unknown; on success batch b has run over the epoch's batch b, its prediction is the last layer's output under batch b's activations, slot epoch * numbatches + b holds the loss Backward's rule gives for that prediction and batch b's label columns, and no slot outside the epoch changed |
| Training.TrainingLabels | c++/sources/net.cpp:93-95 | the labels training works on have the input labels' shape |
| Training.TrainingLabelsRemapOnlySvm | c++/sources/net.cpp:93-95 | binary labels become {-1, +1} labels, 0 becoming -1, exactly for an SVM last layer, and are left alone otherwise |
| Training.TrainStart | c++/sources/net.cpp:103-106 | training starts with one 0.5 class coefficient per class and a zeroed loss history of numepochs * numbatches slots; the chain and shuffle flag are untouched |
| Training.TrainedSoFarStep | c++/sources/net.cpp:107-135 | an epoch run on the net the earlier epochs left extends training by one epoch, keeping every earlier epoch's runs and losses |
| Training.LossHistory | c++/sources/net.cpp:127-132 | after training, slot e * numbatches + b of the loss history holds the loss the last layer's rule gives for the label columns of batch b of epoch e against the prediction that batch's activations produced, of shape [class count, batch size] |
| Training.EpochRunsCoverOrder | c++/sources/net.cpp:107-119 | after training, each epoch's runs taken in batch order concatenate to that epoch's sample order, the identity order when the net does not shuffle, and hold every sample exactly once |
| Training.EpochRunsAreBatches | c++/sources/net.cpp:115-119 | after training, epoch e's runs taken in batch order are over exactly the batches cut from e's order |
| Training.AdvanceTraining | c++/sources/net.cpp:107-135 | one pass of the epoch loop runs the epoch's batches, cut from its order, and fails exactly when there is a sample and the function is unknown |
| Training.TrainEpochs | c++/sources/net.cpp:103-135 | the epoch loop fails exactly when some batch runs and the function is unknown; on success the loss history has numepochs * numbatches slots and every batch b of every epoch e has its run, over batch b of epoch e's order, whose loss, the one Backward's rule gives for its prediction and label columns, sits at slot e * numbatches + b |
| Training.Train | c++/sources/net.cpp:71-138 | the data-rank, data-size, label-rank, label-class and label-count checks fail in that order; training succeeds exactly when they pass and no batch meets an unknown function; on success the epoch loop has run on the remapped labels as in TrainEpochs, each slot holding its batch's Backward loss |
| Serialization.StartFits | c++/sources/net.cpp:221-233 | no layer's block starts after the end of the flat vector |
| Serialization.FlattenPrefix | c++/sources/net.cpp:222-225 | flattening fewer layers gives a prefix of the flat vector |
| Serialization.Flatten | c++/sources/net.cpp:221-225 | collecting the parameters of layers 1..k-1 gives a vector as long as their parameter counts together |
| Serialization.GetWeights | c++/sources/net.cpp:221-228 | the flat vector has the total parameter count, and layer k's block, which starts after the blocks of layers 1..k-1, holds exactly layer k's parameters |
| Serialization.Load | c++/sources/net.cpp:230-233 | the load loop leaves the input layer alone and gives every later layer k the buffer's block for k, keeping each layer's kind, configuration and output shape |
| Serialization.SetWeights | c++/sources/net.cpp:230-239 | with a buffer of at least the parameter count, the load succeeds exactly when no value is left over and fails with "too long" otherwise; on success every layer holds its block, shuffling is off, and a valid net stays valid |
| Serialization.SetGetRoundTrip | c++/sources/net.cpp:221-239 | loading a net's own flat vector gives the net back with shuffling off |
| Serialization.FlattenBlocks | c++/sources/net.cpp:221-233 | flattening layers whose blocks hold the buffer's values gives the buffer back up to the next block |
| Serialization.GetSetRoundTrip | c++/sources/net.cpp:221-239 | loading a buffer of exactly the parameter count succeeds, and flattening the result gives the buffer back |

## Left out

- NumBatches: requires batchsize > 0. The program computes the count as `ceil` of a double
  quotient (line 105), and a zero batch size there divides by zero. The model uses integer
  ceiling division, which is the same count for every positive batch size.
- Train: requires a positive batch size, for the same reason. TrainEpochs, AdvanceTraining and
  TrainedSoFar inherit that precondition.
- Average: an empty batch gives 0.0. The program divides 0 by 0 at lines 197 and 203 and gets
  NaN. Train never runs an empty batch: every batch holds at least one sample (LastBatch).
  Classify runs no backward pass.
- Backward: for a batch with no columns the loss is 0.0 and non-negative, where the program
  yields NaN. This follows from Average.
- LayerForward: assumes that each layer takes its predecessor's batch size and that a fully
  connected layer's output has shape [length, batchsize]. The layers' own code is not part of
  this model. Forward's shape guarantee rests on this assumption.
- UpdateWeights: the new parameter values of a phase come from a caller-supplied function that
  keeps every layer's parameter count. The momentum and gradient arithmetic happens inside the
  layers and is not modelled.
- SetWeights: requires the buffer to hold at least the net's parameter count. With a shorter
  buffer, a layer's own load runs out of values. That check belongs to the layer code, which
  is not part of this model.
- SetWeights: the program takes the caller's vector by reference (line 230) and the layers
  consume it from the front, so the caller is left with the values that were not used. The
  model takes the buffer as a value and leaves it unchanged.
- SetWeights: on a "too long" failure the program has already loaded every layer (lines
  231-234) before the assertion aborts the call. The model returns only the error.
- WithWeights: a layer's own GetWeights and SetWeights are taken to append, or take off the
  front, exactly its parameter values in order. The layer code is not part of this model.
- Train: on a failure the model returns only the error. The partly trained state that the
  program leaves behind when an assertion aborts the call is not modelled.
- Sample data values and their copy into the batch (lines 120-124) are not modelled. The
  caller-supplied activation function stands for what the layers compute from them. The batch's
  label columns are modelled.
- MATLAB array marshalling (`mexGetDimensions`, `mexGetMatrix`, `mexGetMatrix3D`, `mxGetCell`):
  descriptors, data dimensions and labels are plain sequences and matrices. The descriptor count
  is taken as given rather than as the product of the array's dimensions (lines 33-36).
- Logging (`mexPrintMsg`) has no effect on the state and is left out.
- `std::srand` and `std::random_shuffle` (lines 30, 113): each epoch's shuffled order is an
  arbitrary permutation of 0..n-1 supplied by the caller.
- Net::InitParams (lines 65-69) only parses MATLAB parameters. `Params` holds its result: the
  batch size and epoch count.
- Net::GetTrainError (lines 241-243) returns the loss history, which is the `trainError` field.
- The destructor (lines 249-253) only frees the layers. The class-balancing alternatives are
  commented out in the source (lines 97-101, 236-238); the coefficients are fixed at 0.5.
- Double-precision rounding: all arithmetic is on Dafny `real`.
- A layer's random initialisation of its parameters: a descriptor carries the initial values.
