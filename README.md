# DeepNeuralNets core in Dafny

A model of the CPU core of DeepNeuralNets, a C++ library for feed-forward
and recurrent neural networks built on Eigen. A network there is a graph of
layers (input, dense, activation, adder, multiplier, concatenation,
recurrent) that point at their predecessors, closed by an output layer or
wrapped by a container. The core saves and loads such graphs as tagged
binary chunks, takes and restores weight checkpoints ("DNA"), and trains
on data split into shuffled batches.

How the model is built:

- **Matrices.** Eigen matrices are column-major `Matrix` values over `real`
  (`Matrices`). Every operation that Eigen would refuse for a shape mismatch
  returns a `Failure` instead.
- **Layers.** The layer objects and their raw predecessor pointers become an
  arena: a sequence of `Node`s whose links are indices (`Graph`). The class
  `Nets.Net` holds that sequence and its methods update it in place, as
  the layer methods do. Each layer kind has its own module: `Inputs`,
  `Dense`, `ActivationLayers`, `Utility`, `Combiners` and `Recurrents`. Each
  states the layer's forward and backward step and its save and load.
- **On disk.** The chunk format of `BinSaver` is modelled at the byte level
  (`Bytes`, `BinFormat`). A chunk is a four-character tag and a 32-bit size,
  followed by its payload. Loading runs the handler registered for each
  chunk's tag in file order; saving is the `BinSaver` class, whose `Begin`/`End`
  back-patch the size. Floats go through a codec parameter that must read
  back the values it wrote.
- **Containers and training.** `Containers.NeuralNetContainer` gathers the
  layers of a network, numbers them, and saves each layer's chunk with its
  links written as those numbers. It reloads in two passes: the layers,
  then `FixInputs`. Of its copy, only the choice of the output layer is
  modelled. Its checkpoints and training step are modelled too. The same holds for
  `NetContainers.NetContainer`, which also owns the batching state (order,
  cursor, current batch), and for `Training.TrainingSet`. `Dna` models the
  weight snapshot that a checkpoint stores and restores.

Each operation is related to a partner: its inverse (save/load,
snapshot/restore), the invariant it keeps (`Graph.Wired` on the layer arena,
the `Valid()` predicates of `BinFormat.BinSaver`, `Outputs.OutputLayer`,
`Containers.NeuralNetContainer`, `NetContainers.NetContainer` and
`Training.TrainingSet`, the training order staying a permutation of the
samples), or an independent reference
definition that its loop is proved against.

## Model

| member | source | states |
|---|---|---|
| Matrices.OutPart | src/PVX_NeuralNets.cpp:25-27 | `outPart(m)` is every row but the last |
| Matrices.SetOutPart | src/PVX_NeuralNets_Input.cpp:40 | assigning `outPart(output)` replaces the feature rows and keeps the bias row |
| Matrices.MatMul | src/PVX_NeuralNets_DenseLayer.cpp:245 | entry `(i, j)` of a product is row `i` dotted with column `j` |
| Matrices.Transpose | src/PVX_NeuralNets_DenseLayer.cpp:253 | the transpose swaps rows and columns |
| Matrices.RowBlock | src/PVX_NeuralNets_Combiner.cpp:58 | `Gradient.block(Start, 0, n, cols)` is `n` rows from `Start` |
| Matrices.UnflattenFlatten | src/PVX_NeuralNets_DenseLayer.cpp:131 | mapping a matrix's `data()` back with its shape gives the matrix |
| Matrices.FlattenUnflatten | src/PVX_NeuralNets.cpp:102-108 | a vector mapped to a matrix and read back with `data()` is the vector |
| BinFormat.TagIsLE | DeepNeuralNets/include/PVX_BinSaver.h:79 | `TAG(x,y,z,w)` equals the little-endian reading of the bytes `x, y, z, w` |
| BinFormat.TagBytes | DeepNeuralNets/include/PVX_BinSaver.h:79 | a tag fits an `unsigned int` whose bytes in memory are the four name characters in order |
| BinFormat.TagIsKey | DeepNeuralNets/include/PVX_BinSaver.h:71-79 | `TAG` of a name's characters is the `iName` the header union gives that name |
| BinFormat.KeyInjective | DeepNeuralNets/include/PVX_BinSaver.h:71-77 | two names with the same `iName` key are the same name, so the loader's handler map loses nothing |
| BinFormat.Header | DeepNeuralNets/include/PVX_BinSaver.h:71-77 | a header is 8 bytes and starts with the name |
| BinFormat.Chunk | DeepNeuralNets/include/PVX_BinSaver.h:20-21 | a chunk is its 8-byte header plus the payload |
| BinFormat.ChunkParts | DeepNeuralNets/include/PVX_BinSaver.h:71-77 | the header of a chunk gives back its name and payload size and leaves the following bytes untouched |
| BinFormat.ParseEncode | DeepNeuralNets/include/PVX_BinSaver.h:20-21 | chunks whose sizes fit the 32-bit `Size` are parsed back exactly as they were written |
| BinFormat.EncodeParse | DeepNeuralNets/include/PVX_BinSaver.h:96-107 | a scope that parses is exactly the encoding of the chunks it parses to |
| BinFormat.SplitChunk | DeepNeuralNets/include/PVX_BinSaver.h:71-77 | a scope whose first header fits is that chunk followed by the rest |
| BinFormat.HeaderOf | DeepNeuralNets/include/PVX_BinSaver.h:71-77 | the first eight bytes of a scope are the header its name and size denote |
| BinFormat.EncodeAppend | DeepNeuralNets/include/PVX_BinSaver.h:20-21 | writing two runs of chunks one after the other writes their concatenation |
| BinFormat.ToInt32 | DeepNeuralNets/include/PVX_BinSaver.h:26-27 | the cast to `int` lands in the 32-bit range and keeps every value already in it |
| BinFormat.IntExact | DeepNeuralNets/include/PVX_BinSaver.h:26-27 | every 32-bit `int` written with `write(val)` reads back as itself |
| BinFormat.SizeExact | DeepNeuralNets/include/PVX_BinSaver.h:26-27 | every 64-bit `size_t` written with `write(val)` reads back as itself |
| BinFormat.EncodeAllLength | DeepNeuralNets/include/PVX_BinSaver.h:41-49 | `write(Array, sizeof(T), Count)` emits `Count * sizeof(T)` bytes |
| BinFormat.DecodeEncodeAll | DeepNeuralNets/include/PVX_BinSaver.h:123-130 | a vector written element by element is a whole number of elements and reads back with the same elements |
| BinFormat.ReadAll | DeepNeuralNets/include/PVX_BinSaver.h:99 | `ReadAll(&val)` succeeds exactly when the payload fits the destination, and a payload of the destination's width replaces it |
| BinFormat.Lookup | DeepNeuralNets/include/PVX_BinSaver.h:96 | the payloads handed to a handler are at most the chunks of the scope |
| BinFormat.LookupAppend | DeepNeuralNets/include/PVX_BinSaver.h:96 | the matching payloads of two runs of chunks are those of the first followed by those of the second |
| BinFormat.LookupUnique | DeepNeuralNets/include/PVX_BinSaver.h:96 | in a scope of distinct names, each name finds exactly its own payload |
| BinFormat.LookupMissing | DeepNeuralNets/include/PVX_BinSaver.h:96 | a name no chunk has finds nothing |
| BinFormat.ReadAbsent | DeepNeuralNets/include/PVX_BinSaver.h:116-121 | without a chunk of that name, `Read(name, val)` leaves the variable as it was, or indeterminate if it was never set |
| BinFormat.ReadWritten | DeepNeuralNets/include/PVX_BinSaver.h:116-121 | one chunk holding the exact bytes of `x` reads back as `x`, whatever the variable held |
| BinFormat.ReadTooWide | DeepNeuralNets/include/PVX_BinSaver.h:116-121 | a payload wider than the destination overflows it |
| BinFormat.ReadVectorWritten | DeepNeuralNets/include/PVX_BinSaver.h:123-130 | a chunk written by `Write(name, vector)` reads back as the same vector |
| BinFormat.ReadVectorAbsent | DeepNeuralNets/include/PVX_BinSaver.h:123-130 | without a chunk of that name the vector keeps its contents |
| BinFormat.ReadString | DeepNeuralNets/include/PVX_BinSaver.h:132-138 | the string becomes the last matching payload byte for byte, or keeps its value when there is none |
| BinFormat.ValuesChunkSize | DeepNeuralNets/include/PVX_BinSaver.h:51-59 | `Write(name, vector)` emits one chunk whose `Size` is `size() * sizeof(T)` |
| BinFormat.ChunkSize | DeepNeuralNets/include/PVX_BinSaver.h:20-21 | a chunk starts with its name and, while the payload fits, its payload length |
| BinFormat.BinSaver.constructor | DeepNeuralNets/include/PVX_BinSaver.h:15-18 | a new saver has written nothing and has no open chunk |
| BinFormat.BinSaver.Begin | DeepNeuralNets/include/PVX_BinSaver.h:20 | appends the name and a zero size placeholder, and pushes the placeholder's position on `SizePos` |
| BinFormat.BinSaver.End | DeepNeuralNets/include/PVX_BinSaver.h:21 | pops the innermost open chunk and backpatches its size with the bytes written since, changing nothing else |
| BinFormat.BinSaver.Write | DeepNeuralNets/include/PVX_BinSaver.h:23-27 | appends the raw bytes, with no header |
| BinFormat.BinSaver.WriteChunk | DeepNeuralNets/include/PVX_BinSaver.h:32-39 | `Begin`, the payload, `End` append exactly one chunk and leave the open chunks as they were |
| BinFormat.BinSaver.WriteValue | DeepNeuralNets/include/PVX_BinSaver.h:31-39 | `Write(name, v)` appends one chunk holding the bytes of `v` |
| BinFormat.BinSaver.WriteValues | DeepNeuralNets/include/PVX_BinSaver.h:41-59 | `Write(name, Array, Count)` and `Write(name, vector)` append one chunk holding every element's bytes |
| BinFormat.BinSaver.WriteString | DeepNeuralNets/include/PVX_BinSaver.h:61-68 | `Write(name, string)` appends one chunk holding the raw characters |
| Bytes.FromLE_LE | DeepNeuralNets/include/PVX_BinSaver.h:26-27 | a number written as its `k` little-endian bytes reads back as the same number when it fits |
| Bytes.LE_FromLE | DeepNeuralNets/include/PVX_BinSaver.h:104-105 | the bytes read as a number and written back give the same bytes |
| Graph.ActOf | include/PVX_NeuralNetsCPU.h:18-24 | the cast from a stored `int` to `LayerActivation` keeps the integer's value |
| Graph.ActRoundTrip | src/PVX_NeuralNets_DenseLayer.cpp:106-124 | an activation written as its `int` and cast back (a value no enumerator has included) is the same activation |
| Graph.SchemeOf | include/PVX_NeuralNetsCPU.h:142-148 | the cast from a stored `int` to `TrainScheme` keeps the integer's value |
| Graph.SchemeRoundTrip | src/PVX_NeuralNets_DenseLayer.cpp:107-125 | a training scheme written as its `int` and cast back is the same scheme |
| Graph.NOutput | src/PVX_NeuralNets.cpp:61-63 | `nOutput()` is the row count less the bias row, wrapping to `SIZE_MAX` on an empty buffer |
| Graph.BatchSize | src/PVX_NeuralNets.cpp:65-67 | `BatchSize()` is the column count |
| Graph.GatherReaches | src/PVX_NeuralNets.cpp:69-73 | `Gather(g)` adds to `g` exactly the layers reachable from this one |
| Graph.GatherInputsReaches | src/PVX_NeuralNets.cpp:72 | the loop over the inputs adds exactly the layers reachable from the remaining inputs |
| Graph.GatherExactly | src/PVX_NeuralNets.cpp:69-73 | from an empty set `Gather` collects exactly the reachable layers, all of them in the network |
| Graph.ReachesBelow | src/PVX_NeuralNets.cpp:69-73 | every layer reachable from a layer lies at or below it in the arena |
| Graph.FixLink | src/PVX_NeuralNets.cpp:76-78 | a placeholder holding `p` becomes the layer at `ids[p - 1]`, and anything outside the table fails |
| Graph.FixLinks | src/PVX_NeuralNets.cpp:77-78 | the input loop resolves every input placeholder in place, failing when any one fails |
| Graph.FixInputsResolves | src/PVX_NeuralNets.cpp:75-79 | a non-null predecessor is resolved and nothing else changes; otherwise each input is resolved |
| Graph.RecurrentInputUnresolved | src/PVX_NeuralNets.cpp:75-79 | as written, a recurrent layer keeps its placeholder recurrent input after `FixInputs` |
| Graph.FixInputsFullResolves | src/PVX_NeuralNets.cpp:75-79 | the full resolution also turns the recurrent input's placeholder into a layer |
| Graph.IndexOfLink | src/PVX_NeuralNets_DenseLayer.cpp:108 | `IndexOf.at(p)` gives the layer's saved number and throws for a pointer that has none, `nullptr` included |
| Graph.SetInput | src/PVX_NeuralNets.cpp:81-83 | `Input(inp)` sets the layer's predecessor and changes nothing else in the network |
| Graph.SetInputWired | src/PVX_NeuralNets.cpp:81-83 | the network stays in arena order exactly when the new predecessor is null or an earlier layer |
| Graph.SetInputs | src/PVX_NeuralNets.cpp:85-87 | `Inputs(inp)` replaces the layer's input list and changes nothing else in the network |
| Graph.SetInputsWired | src/PVX_NeuralNets.cpp:85-87 | the network stays in arena order exactly when every new input is an earlier layer |
| Graph.InitialNotComplementary | src/PVX_NeuralNets.cpp:10-11 | as written, the initial `__iRMSprop` of `0.1` is not `1 - __RMSprop` |
| Graph.CorrectedInitialHyper | src/PVX_NeuralNets.cpp:7-13 | the defaults with `__iRMSprop = 0.001`, where every complement is `1 - beta` and `iDropout` is the reciprocal of `Dropout` |
| Graph.Defaults.constructor | src/PVX_NeuralNets.cpp:7-14 | the globals start at the corrected defaults and `__L2 = 0` |
| Graph.Defaults.SetLearnRate | src/PVX_NeuralNets.cpp:31-33 | only the learning rate changes |
| Graph.Defaults.SetMomentum | src/PVX_NeuralNets.cpp:37-40 | the momentum and its complement change together, so complementary settings stay complementary |
| Graph.Defaults.SetRMSprop | src/PVX_NeuralNets.cpp:44-47 | the `RMSprop` rate and its complement change together |
| Graph.Defaults.SetDropout | src/PVX_NeuralNets.cpp:57-60 | the dropout rate and its reciprocal change together |
| Graph.Defaults.SetL2 | src/PVX_NeuralNets.cpp:48-50 | only the L2 coefficient changes |
| Inputs.NewInput | src/PVX_NeuralNets_Input.cpp:19-25 | a new input layer holds one sample of `Size` features plus a bias row, all ones, with no links |
| Inputs.InputData | src/PVX_NeuralNets_Input.cpp:35-44 | `Input(Data)` is refused with the buffer untouched unless the buffer has one row more than `Data`; otherwise the feature block becomes `Data`, the bias row is kept when the batch size is unchanged and is all ones when it changes |
| Inputs.InputFlat | src/PVX_NeuralNets_Input.cpp:28-33 | `Input(Data, Count)` succeeds exactly when `Data` holds `Count` samples of `rows - 1` features; the feature block is read column-major from `Data` and the bias row is kept when the width is unchanged |
| Inputs.MakeRawInput | src/PVX_NeuralNets_Input.cpp:50-54 | `Data` with a row of ones appended, the layer untouched |
| Inputs.MakeRawInputFlat | src/PVX_NeuralNets_Input.cpp:60-62 | `Count` columns of `rows(output) - 1` features read column-major from the buffer, plus the ones row |
| Inputs.MakeRawInputVec | src/PVX_NeuralNets_Input.cpp:56-58 | `size / nInput()` columns of `nInput()` features; a layer with no features divides by zero |
| Inputs.MakeRawInputVecSamples | src/PVX_NeuralNets_Input.cpp:56-62 | a vector of whole samples gives one column per sample, holding that sample's values over a ones row |
| Inputs.InputLoad | src/PVX_NeuralNets_Input.cpp:12-18 | a loaded input layer is `Ones(ICNT + 1, 1)` with the name read, and no links |
| Inputs.InputLoadNeedsCount | src/PVX_NeuralNets_Input.cpp:12-18 | without an `ICNT` chunk the count comes from an uninitialised `int`, so the load is indeterminate |
| Inputs.InputFieldsRead | src/PVX_NeuralNets_Input.cpp:6-11 | the `INPT` fields fit their headers, each name occurs at most once, and each reads back as written |
| Inputs.InputRoundTrip | src/PVX_NeuralNets_Input.cpp:6-18 | a saved input layer reloads as a one-sample layer with the same name and input count |
| Activations.Activate | src/PVX_NeuralNets_DenseLayer.cpp:13-57 | each bound activation maps every entry by its own function and keeps the shape; a value outside `LayerActivation` leaves the pointer unbound |
| Activations.Derivative | src/PVX_NeuralNets_DenseLayer.cpp:16-56 | each bound derivative maps every entry and keeps the shape; an unbound one fails |
| Activations.LinearIdentity | src/PVX_NeuralNets_DenseLayer.cpp:52-57 | the linear activation is the identity and its derivative is all ones |
| Dense.NewDense | src/PVX_NeuralNets_DenseLayer.cpp:156-217 | a new dense layer has `nOutput` rows of `nInput + 1` weights, zero deltas, a one-column `RMSprop` of ones, a ones output of `nOutput + 1` rows, and copies the global hyperparameters; negative sizes are refused |
| Dense.NewDenseOn | src/PVX_NeuralNets_DenseLayer.cpp:219-227 | a layer built on a predecessor links to it and is sized by its `nOutput()` |
| Dense.NInputCountsBias | src/PVX_NeuralNets_DenseLayer.cpp:219-222 | such a layer's `nInput()` is one more than the predecessor's `nOutput()` |
| Dense.DenseForward | src/PVX_NeuralNets_DenseLayer.cpp:232-249 | the feature rows become `Activate(Weights * inp)` and the bias row is kept, or reset to ones when the batch size changed; shapes Eigen refuses fail |
| Dense.DenseBackward | src/PVX_NeuralNets_DenseLayer.cpp:251-256 | the local gradient is the incoming one times the derivative at the feature rows, and the predecessor is sent `outPart(Weights^T * grad)` |
| Dense.Outer | src/PVX_NeuralNets_DenseLayer.cpp:67-84 | `Gradient * Output^T` sums over the batch the gradient of output `i` times input `j`, and needs equal batch sizes |
| Dense.AddTo | src/PVX_NeuralNets_DenseLayer.cpp:68 | `Weights += step` adds entrywise and needs equal shapes |
| Dense.Accumulate | src/PVX_NeuralNets_DenseLayer.cpp:61-91 | the squared-gradient sum is reset to ones of the gradient's shape when the column counts differ, then decayed and increased by the squared gradient entrywise |
| Dense.MomentumDelta | src/PVX_NeuralNets_DenseLayer.cpp:67-71 | the new delta is `step * (rate * iMomentum) + DeltaWeights * Momentum` entrywise |
| Dense.Update | src/PVX_NeuralNets_DenseLayer.cpp:61-94 | each scheme updates exactly the buffers its rule touches: SGD only the weights, Momentum the delta and weights, the adaptive rules the squared-gradient sum; an unbound scheme fails |
| Dense.AdaptiveUpdate | src/PVX_NeuralNets_DenseLayer.cpp:61-69 | Adam, RMSprop and AdaGrad normalise the gradient by the new running sum; Adam then takes a momentum step, the other two a plain one |
| Dense.Apply | src/PVX_NeuralNets_DenseLayer.cpp:67-68 | the delta is stored and added to the weights, with the new running sum |
| Dense.SgdStep | src/PVX_NeuralNets_DenseLayer.cpp:83-85 | an SGD step adds `rate` times the batch's outer-product sum to each weight |
| Dense.MomentumStep | src/PVX_NeuralNets_DenseLayer.cpp:70-73 | a momentum step's delta is `rate * iMomentum` times the outer-product sum plus `momentum` times the old delta, and the weights move by it |
| Dense.ResetBuffers | src/PVX_NeuralNets_DenseLayer.cpp:149-153 | `RMSprop` becomes ones and `DeltaWeights` zeros, shapes and weights kept |
| Dense.ResetIdempotent | src/PVX_NeuralNets_DenseLayer.cpp:149-153 | resetting twice is resetting once |
| Dense.MomentumFromRest | src/PVX_NeuralNets_DenseLayer.cpp:70-73 | right after a reset, a momentum step moves the weights as an SGD step at rate `rate * iMomentum` would |
| Dense.SetRate | src/PVX_NeuralNets_DenseLayer.cpp:142-145 | the layer's own rate changes and nothing else of it |
| Dense.DenseSave | src/PVX_NeuralNets_DenseLayer.cpp:95-111 | one `DENS` chunk holding the fields in the order `Save` writes them; fails when the predecessor has no index |
| Dense.BuildDense | src/PVX_NeuralNets_DenseLayer.cpp:129-140 | the built layer keeps the read name and weights, recomputes the complements, and holds the saved predecessor index cast to a pointer: null for `0`, otherwise a placeholder; a zero dropout makes the reciprocal infinite |
| Dense.DenseLoad | src/PVX_NeuralNets_DenseLayer.cpp:112-141 | a loaded dense layer has a null or placeholder predecessor, never a resolved one, and no input list |
| Dense.DenseLoadNull | src/PVX_NeuralNets_DenseLayer.cpp:112-139 | a `DENS` scope without `INPT`, or with `INPT` = 0, keeps `prev = 0`, so the layer loads with a null predecessor and `FixInputs` leaves it as it is |
| Dense.TailLookup | src/PVX_NeuralNets_DenseLayer.cpp:99-108 | each field after the name is found exactly once in the saved scope |
| Dense.NameLookup | src/PVX_NeuralNets_DenseLayer.cpp:98-127 | the name reads back as written, the empty name included |
| Dense.FieldsFit | src/PVX_NeuralNets_DenseLayer.cpp:95-111 | every saved field fits its 32-bit size |
| Dense.ReadSaved | src/PVX_NeuralNets_DenseLayer.cpp:117-128 | the shape and weights `Load2` reads from a saved scope are those saved |
| Dense.RatesSaved | src/PVX_NeuralNets_DenseLayer.cpp:120-123 | the four rates read back as saved |
| Dense.CodesSaved | src/PVX_NeuralNets_DenseLayer.cpp:124-126 | activation, scheme and predecessor index read back as saved |
| Dense.DenseRoundTrip | src/PVX_NeuralNets_DenseLayer.cpp:95-141 | a saved dense layer reloads with the same name, weights, activation, scheme and rates, its complements recomputed, and its predecessor's saved index as a placeholder |
| Dense.BuildSaved | src/PVX_NeuralNets_DenseLayer.cpp:129-140 | building from what was read gives back the saved layer's parameters |
| ActivationLayers.NewActivation | src/PVX_NeuralNets_Activation.cpp:60-85 | `inp` features plus a bias row, one sample of ones, no predecessor; a negative row count is refused |
| ActivationLayers.NewActivationOn | src/PVX_NeuralNets_Activation.cpp:56-59 | a layer built on a predecessor links to it and has as many feature rows as the predecessor's `nOutput()` |
| ActivationLayers.ActivationNInput | src/PVX_NeuralNets_Activation.cpp:133-135 | `nInput()` is `nOutput()` |
| ActivationLayers.ForwardAsWritten | src/PVX_NeuralNets_Activation.cpp:86-97 | as written the forward step fits only when the predecessor's whole output has one row fewer than this layer's buffer |
| ActivationLayers.ForwardAsWrittenMismatch | src/PVX_NeuralNets_Activation.cpp:56-94 | for every layer built on its predecessor the forward step as written refuses the predecessor's output |
| ActivationLayers.ActivationForward | src/PVX_NeuralNets_Activation.cpp:86-97 | the feature rows become `Activate` of the predecessor's feature rows; the bias row is kept, or reset to ones when the batch size changed |
| ActivationLayers.ForwardFits | src/PVX_NeuralNets_Activation.cpp:56-94 | on every layer built on its predecessor the step on feature rows succeeds |
| ActivationLayers.LocalGradient | src/PVX_NeuralNets_Activation.cpp:99 | `Gradient * Derivative(outPart(output))` entrywise, defined when the gradient has the feature rows' shape |
| ActivationLayers.BackwardAsWritten | src/PVX_NeuralNets_Activation.cpp:98-101 | as written the predecessor is sent the local gradient without its last row |
| ActivationLayers.BackwardAsWrittenDropsRow | src/PVX_NeuralNets_Activation.cpp:100 | the message as written has one row fewer than the layer's `nOutput()`, so the last feature's gradient is lost |
| ActivationLayers.ActivationBackward | src/PVX_NeuralNets_Activation.cpp:98-101 | the predecessor is sent the whole local gradient, one row per feature |
| ActivationLayers.ActivationSave | src/PVX_NeuralNets_Activation.cpp:103-111 | one `ACTV` chunk with `OUTC`, `ACTV`, `INPT`; fails when the predecessor has no index |
| ActivationLayers.ActivationLoad | src/PVX_NeuralNets_Activation.cpp:113-122 | a loaded activation layer's predecessor holds the saved index, null for `0` and a placeholder otherwise, and it has no inputs |
| ActivationLayers.ActivationLoadNull | src/PVX_NeuralNets_Activation.cpp:113-122 | an `INPT` of `0` gives a null predecessor, which `FixInputs` leaves as it is |
| ActivationLayers.FieldsRead | src/PVX_NeuralNets_Activation.cpp:103-117 | each of the three saved fields is found exactly once |
| ActivationLayers.LoadAsWrittenOverflows | src/PVX_NeuralNets_Activation.cpp:106-118 | loading what `Save` wrote always overflows, because the 8-byte `size_t` `OUTC` does not fit the 4-byte `int` |
| ActivationLayers.ActivationRoundTrip | src/PVX_NeuralNets_Activation.cpp:103-122 | with `int` fields a saved layer reloads with the same activation and feature count and its predecessor's index |
| ActivationLayers.IntsRead | src/PVX_NeuralNets_Activation.cpp:113-118 | with `int` fields each value reads back as written |
| Utility.NewAdder | src/PVX_NeuralNets_UtilityLayers.cpp:30-32 | a zero buffer of `InputSize` features plus the bias row, one sample; a negative size is refused |
| Utility.NewAdderOn | src/PVX_NeuralNets_UtilityLayers.cpp:33-35 | the adder lists its inputs in order and is sized by the first input's `nOutput()`; an empty list has no first input |
| Utility.Sum | src/PVX_NeuralNets_UtilityLayers.cpp:42-47 | the running sum succeeds exactly when every output has the first one's shape, and then each entry is the sum of the inputs' entries |
| Utility.EntrySumPrefix | src/PVX_NeuralNets_UtilityLayers.cpp:44-47 | the sum of the first `n` outputs depends on those outputs only |
| Utility.AdderOutput | src/PVX_NeuralNets_UtilityLayers.cpp:40-51 | the adder's output is the entrywise sum of its inputs' outputs with the last row set to ones; it fails on no inputs or differing shapes |
| Utility.SumStops | src/PVX_NeuralNets_UtilityLayers.cpp:44-47 | once the running sum fails at some input, the whole sum fails the same way |
| Utility.AddOutputs | src/PVX_NeuralNets_UtilityLayers.cpp:40-51 | the accumulation loop computes exactly the adder's output |
| Utility.AdderNInput | src/PVX_NeuralNets_UtilityLayers.cpp:55-57 | `nInput()` is the buffer's feature row count |
| Utility.InputIndices | src/PVX_NeuralNets_UtilityLayers.cpp:12-13 | the saved index of each input in order, failing exactly when some input has none |
| Utility.AdderSave | src/PVX_NeuralNets_UtilityLayers.cpp:7-17 | one `ADDR` chunk holding `INPC` and the raw `int` indices inside `LYRS`; fails when an input has no index |
| Utility.AdderLoad | src/PVX_NeuralNets_UtilityLayers.cpp:18-29 | a loaded adder has no predecessor and one placeholder per saved index |
| Utility.AdderRoundTrip | src/PVX_NeuralNets_UtilityLayers.cpp:7-29 | a saved adder reloads as a zero buffer with the saved row count and, in order, one placeholder per input holding that input's index |
| Utility.AdderFieldsRead | src/PVX_NeuralNets_UtilityLayers.cpp:18-23 | the two adder fields are found once each and read back as written |
| Utility.NewMultiplier | src/PVX_NeuralNets_UtilityLayers.cpp:88-90 | a zero buffer of `inputs + 1` rows, one sample; a negative size is refused |
| Utility.NewMultiplierOn | src/PVX_NeuralNets_UtilityLayers.cpp:92-95 | the multiplier lists its inputs in order, with as many rows as the first input's whole output; an empty list has no first input |
| Utility.ProductExcept | src/PVX_NeuralNets_UtilityLayers.cpp:103-124 | the running product over the first `n` outputs except one succeeds exactly when each has the starting shape, and then each entry is the product of their entries |
| Utility.MultiplierOutput | src/PVX_NeuralNets_UtilityLayers.cpp:100-111 | the multiplier's output is the entrywise product of its inputs' whole outputs; it fails on no inputs or differing shapes |
| Utility.ProductStops | src/PVX_NeuralNets_UtilityLayers.cpp:104-107 | once the running product fails at some input, the whole product fails the same way |
| Utility.MultiplyOutputs | src/PVX_NeuralNets_UtilityLayers.cpp:100-111 | the product loop computes exactly the multiplier's output |
| Utility.MultiplierNInput | src/PVX_NeuralNets_UtilityLayers.cpp:128-130 | a multiplier's `nInput()` is its batch size |
| Utility.MultiplierMessage | src/PVX_NeuralNets_UtilityLayers.cpp:112-127 | input `j` is sent `Gradient` times the product of every other input's `RealOutput()`; with fewer than two inputs the list is read past its end |
| Utility.MultiplierSave | src/PVX_NeuralNets_UtilityLayers.cpp:79-86 | one `MULP` chunk holding the raw `int` indices of the inputs; fails when an input has no index |
| Utility.FlatAllCols | src/PVX_NeuralNets_UtilityLayers.cpp:145-149 | with equal row counts, the buffers laid end to end are the columns of every matrix laid end to end |
| Utility.Concat | src/PVX_NeuralNets_UtilityLayers.cpp:141-151 | the result is the copied floats read as `rows(M[0])` by `Σ cols`; an empty list, or inputs holding more floats than that, read or write out of range, and fewer leave the tail unset |
| Utility.ConcatSameRows | src/PVX_NeuralNets_UtilityLayers.cpp:141-151 | with equal row counts the floats fit exactly and the result holds the columns of every matrix, block after block |
| Utility.AllColsBlock | src/PVX_NeuralNets_UtilityLayers.cpp:141-151 | column `j` of block `k` of the concatenation is column `j` of `M[k]` |
| Utility.ColumnTotal | src/PVX_NeuralNets_UtilityLayers.cpp:142-143 | the loop sums every matrix's column count |
| Utility.CopyAll | src/PVX_NeuralNets_UtilityLayers.cpp:145-149 | after the copy loop the buffer holds every matrix's data in order |
| Utility.CopyInto | src/PVX_NeuralNets_UtilityLayers.cpp:147 | `memcpy` at an offset keeps the entries before it and puts the data right after them |
| Utility.SortKeyed | src/PVX_NeuralNets_UtilityLayers.cpp:203 | the pairs sorted by nondecreasing key, as a permutation of the input |
| Utility.InsertKeyed | src/PVX_NeuralNets_UtilityLayers.cpp:203 | inserting into a sorted run keeps it sorted and adds exactly the one pair |
| Utility.Pairs | src/PVX_NeuralNets_UtilityLayers.cpp:199-201 | pair `i` is key `div[i]` with column `i` of `a` |
| Utility.DivercitySort | src/PVX_NeuralNets_UtilityLayers.cpp:198-208 | with one key per column, the result has `a`'s shape and its columns are `a`'s columns in some order sorted by key: column `i` holds the column with the `i`-th smallest key; more keys than columns read past `a`, fewer leave columns unset |
| Utility.ProjectPerm | src/PVX_NeuralNets_UtilityLayers.cpp:204-206 | rearranging the pairs rearranges the columns taken from them |
| Combiners.CombCount | src/PVX_NeuralNets_Combiner.cpp:6-10 | the `int` count of `makeComb` stays in the 32-bit range, each addition wrapping |
| Combiners.OffsetGrows | src/PVX_NeuralNets_Combiner.cpp:44-50 | the running `Start` never moves backwards |
| Combiners.CombCountIsOffset | src/PVX_NeuralNets_Combiner.cpp:6-10 | without wrap-around the count is the sum of the inputs' feature counts |
| Combiners.OffsetPrefix | src/PVX_NeuralNets_Combiner.cpp:44-50 | the offset of block `k` depends on the first `k` outputs only |
| Combiners.NewCombiner | src/PVX_NeuralNets_Combiner.cpp:26-28 | a zero buffer of `inputs + 1` rows, one sample; a negative size is refused |
| Combiners.NewCombinerOn | src/PVX_NeuralNets_Combiner.cpp:30-33 | the combiner lists its inputs in order and its buffer has the inputs' total feature count plus one bias row |
| Combiners.CombinerNInput | src/PVX_NeuralNets_Combiner.cpp:63-65 | `nInput()` is the buffer's feature row count |
| Combiners.Resized | src/PVX_NeuralNets_Combiner.cpp:38-40 | `conservativeResize` gives the new batch width and changes nothing when the width is already right |
| Combiners.Blocks | src/PVX_NeuralNets_Combiner.cpp:41-51 | writing the blocks from `k` on keeps the buffer's shape, failing when a block leaves the buffer |
| Combiners.CombinerForward | src/PVX_NeuralNets_Combiner.cpp:34-54 | the combiner's output takes input `0`'s batch size and the buffer's row count; no inputs means no `InputLayers[0]` |
| Combiners.CombineOutputs | src/PVX_NeuralNets_Combiner.cpp:34-54 | the block loop computes exactly the combiner's output |
| Combiners.BlocksStep | src/PVX_NeuralNets_Combiner.cpp:43-50 | on fitting inputs, block `k` fits at `S_k` and the next `Start` is `S_k + rows_k - 1` |
| Combiners.BlocksSucceed | src/PVX_NeuralNets_Combiner.cpp:41-51 | on fitting inputs every block write succeeds |
| Combiners.BlocksKeep | src/PVX_NeuralNets_Combiner.cpp:46-51 | writing blocks from `k` on keeps the rows above `S_k` |
| Combiners.BlocksPlaceHere | src/PVX_NeuralNets_Combiner.cpp:43-49 | block `k`'s feature row `i` ends at row `S_k + i`, later blocks overwriting only its bias row |
| Combiners.BlocksPlace | src/PVX_NeuralNets_Combiner.cpp:41-51 | block `q`'s feature row `i` ends at row `S_q + i` |
| Combiners.BlocksLast | src/PVX_NeuralNets_Combiner.cpp:46-51 | the buffer's last row is the last input's bias row |
| Combiners.CombinerPlace | src/PVX_NeuralNets_Combiner.cpp:34-54 | input `q`'s feature row `i` lands at row `S_q + i` of the combiner's output |
| Combiners.CombinerSucceeds | src/PVX_NeuralNets_Combiner.cpp:34-54 | inputs that share one batch size and fill the buffer exactly are always combined |
| Combiners.CombinerLastRow | src/PVX_NeuralNets_Combiner.cpp:46-51 | the combiner's last row is the last input's bias row |
| Combiners.CombinerLayout | src/PVX_NeuralNets_Combiner.cpp:34-54 | on fitting inputs, input `q`'s feature rows fill rows `[S_q, S_q + nOutput_q)` and the last row is the last input's bias row |
| Combiners.CombinerMessage | src/PVX_NeuralNets_Combiner.cpp:55-61 | input `k` is sent the `nOutput_k` gradient rows starting at the sum of the earlier feature counts, failing when they leave the gradient |
| Combiners.OffsetsAgree | src/PVX_NeuralNets_Combiner.cpp:44-59 | the backward offsets are the forward offsets |
| Combiners.BackMatchesForward | src/PVX_NeuralNets_Combiner.cpp:34-61 | the gradient rows input `k` receives are exactly the output rows its features went to |
| Combiners.CombinerSave | src/PVX_NeuralNets_Combiner.cpp:12-19 | one `CMBN` chunk holding one raw `int` index per input in order; fails when an input has no index |
| Recurrents.NewRecurrent | src/PVX_NeuralNets_Recurrent.cpp:13-18 | the new layer links to its predecessor and recurrent input and starts with a copy of the predecessor's output; a predecessor that is not a live layer cannot be read |
| Recurrents.RecurrentNInput | src/PVX_NeuralNets_Recurrent.cpp:34-36 | `nInput()` is the recurrent input's feature row count, and needs that input to be a live layer |
| Recurrents.RecurrentSave | src/PVX_NeuralNets_Recurrent.cpp:47-57 | one `RCNN` chunk with `NDID` and the two raw indices in `LYRS`; fails when either link has no index |
| Recurrents.ReadId | src/PVX_NeuralNets_Recurrent.cpp:62 | each `NDID` chunk sets `Id` from its first four bytes, so the last one wins; with none `Id` keeps its value |
| Recurrents.LoadAsWritten | src/PVX_NeuralNets_Recurrent.cpp:58-70 | `Load2` as written: a layer it built would hold the two saved numbers as its predecessor and recurrent input placeholders |
| Recurrents.LoadAsWrittenFails | src/PVX_NeuralNets_Recurrent.cpp:58-70 | as written, loading never yields a layer: the constructor reads the output of the placeholder predecessor |
| Recurrents.Placeholder | src/PVX_NeuralNets_Recurrent.cpp:64-68 | a recurrent layer whose two links are still the saved indices, with an empty output |
| Recurrents.RecurrentLoad | src/PVX_NeuralNets_Recurrent.cpp:58-70 | the loaded layer holds both saved indices as placeholders, and the saved `Id` when it is not negative |
| Recurrents.FieldsRead | src/PVX_NeuralNets_Recurrent.cpp:47-63 | the `NDID` and `LYRS` fields are found once each and read back as written |
| Recurrents.RecurrentRoundTrip | src/PVX_NeuralNets_Recurrent.cpp:47-70 | with the corrected load, a saved layer comes back with both indices as placeholders in their places and its non-negative `Id` |
| Recurrents.IdRead | src/PVX_NeuralNets_Recurrent.cpp:50-62 | a written `int` `Id` reads back as itself |
| Recurrents.LoadWithoutId | src/PVX_NeuralNets_Recurrent.cpp:59-68 | without an `NDID` chunk the layer keeps the default `Id` of `0` |
| Recurrents.CopyAsWritten | src/PVX_NeuralNets_Recurrent.cpp:5-12 | `newCopy` as written: a copy it built would keep the `Id` and hold placeholders in both links |
| Recurrents.CopyAsWrittenFails | src/PVX_NeuralNets_Recurrent.cpp:5-12 | as written, copying a recurrent layer never succeeds: the constructor reads the output of the placeholder predecessor |
| Recurrents.RecurrentCopy | src/PVX_NeuralNets_Recurrent.cpp:5-12 | the copy has the same `Id` and both links as placeholders holding their numbers; fails when a link has no number |
| Network.Feed | src/PVX_NeuralNets_DenseLayer.cpp:232-249 | `FeedForward(Version)` does nothing unless the version is newer and the layer is not an input; otherwise it records the version, keeps the wiring and leaves every later non-input layer alone |
| Network.FeedInputs | src/PVX_NeuralNets_UtilityLayers.cpp:40-47 | the fan-in loop feeds each input before reading its output, collecting one output per input in order and leaving the fan-in layer and those above it alone |
| Network.ChainStep | src/PVX_NeuralNets_Recurrent.cpp:23-29 | a chain layer's own step records the version, keeps the wiring and leaves the layers above it alone |
| Network.FanStep | src/PVX_NeuralNets_UtilityLayers.cpp:40-51 | a fan-in layer's own step needs at least one input and changes only its own output and version |
| Network.FeedIdempotent | src/PVX_NeuralNets_DenseLayer.cpp:233 | a second `FeedForward` with the same version leaves the network unchanged |
| Network.FeedStale | src/PVX_NeuralNets_DenseLayer.cpp:233 | `FeedForward` with a version that is not newer leaves the network unchanged |
| Network.Back | src/PVX_NeuralNets_DenseLayer.cpp:251-256 | `BackPropagate` changes only dense-layer buffers, never an output, a version or the wiring, and an input layer ignores it |
| Network.BackInputs | src/PVX_NeuralNets_UtilityLayers.cpp:52-54 | sending each input its own gradient, in input order, changes only dense-layer buffers |
| Network.RealOutputs | src/PVX_NeuralNets.cpp:25-27 | `RealOutput()` of each input drops its bias row, and fails when an output has no row to drop |
| Network.MultiplierMessages | src/PVX_NeuralNets_UtilityLayers.cpp:112-127 | the multiplier needs two inputs and sends input `t` the gradient times every other input's `RealOutput()` |
| Network.CombinerMessages | src/PVX_NeuralNets_Combiner.cpp:55-60 | the combiner sends input `t` its own block of `nOutput()` gradient rows |
| Network.BackKeepsOutputs | src/PVX_NeuralNets_UtilityLayers.cpp:112-127 | back-propagation keeps every output, so the multiplier may read all outputs before sending the first message |
| Network.Touch | src/PVX_NeuralNets_DenseLayer.cpp:142-153 | a dense layer's own part of `SetLearnRate` sets its rate; that of `ResetMomentum` sets `RMSprop` to ones and `DeltaWeights` to zeros; links, output, activation and scheme stay |
| Network.TouchTwice | src/PVX_NeuralNets_DenseLayer.cpp:142-153 | each layer's own part is idempotent |
| Network.Delegate | src/PVX_NeuralNets_UtilityLayers.cpp:59-77 | the `SetLearnRate`/`ResetMomentum` pass keeps the wiring |
| Network.DelegateInputs | src/PVX_NeuralNets_UtilityLayers.cpp:59-62 | the pass over a fan-in layer's inputs keeps the wiring |
| Network.Visited | src/PVX_NeuralNets_UtilityLayers.cpp:59-77 | the layers the pass visits include the start and lie at or below it |
| Network.TouchAll | src/PVX_NeuralNets_DenseLayer.cpp:142-153 | applying the pass to a set of layers changes exactly the dense layers in the set |
| Network.TouchAllUnion | src/PVX_NeuralNets_UtilityLayers.cpp:59-77 | applying the pass to two sets in turn is applying it once to their union, so a layer reached by two paths is changed as if once |
| Network.DelegateTouches | src/PVX_NeuralNets_DenseLayer.cpp:142-153 | the pass changes exactly the dense layers it reaches, each once, and nothing else; it always completes when every chain layer has a predecessor |
| Network.DelegateChainTouches | src/PVX_NeuralNets_Activation.cpp:127-132 | for a chain layer the pass is the layer's own part followed by its predecessor's pass |
| Network.DelegateInputsTouch | src/PVX_NeuralNets_UtilityLayers.cpp:132-139 | the pass over the inputs changes exactly the dense layers the listed inputs reach |
| Nets.FeedFan | src/PVX_NeuralNets_UtilityLayers.cpp:40-51 | a fan-in layer's `FeedForward` is its input loop followed by its own combining step |
| Nets.FanKeepsSelf | src/PVX_NeuralNets_UtilityLayers.cpp:41-47 | feeding the inputs leaves the fan-in layer itself untouched, so its own step sees its old buffer |
| Nets.Net.constructor | include/PVX_NeuralNetsCPU.h:32-39 | the layer objects, with their links and buffers, held as the arena a container is handed |
| Nets.Net.InputRaw | src/PVX_NeuralNets_Input.cpp:46-48 | `InputRaw(Data)` replaces the input layer's whole buffer, bias row included, and nothing else |
| Nets.Net.Input | src/PVX_NeuralNets_Input.cpp:35-44 | `Input(Data)` returns `0` and changes nothing unless the buffer has one row more than `Data`; otherwise it returns `1` and the layer's buffer is `InputData`'s result |
| Nets.Net.FeedForward | src/PVX_NeuralNets_DenseLayer.cpp:232-249 | the in-place pass succeeds exactly when `Feed` does and leaves the arena `Feed` computes, keeping the wiring |
| Nets.Net.ChainOwnStep | src/PVX_NeuralNets_Recurrent.cpp:23-29 | a chain layer's own step in place is `ChainStep`, and a failed step changes nothing |
| Nets.Net.FeedOne | src/PVX_NeuralNets_UtilityLayers.cpp:45-46 | feeding one input and reading its output advances the input loop by one step |
| Nets.Net.FeedFanIn | src/PVX_NeuralNets_UtilityLayers.cpp:100-111 | a fan-in layer's pass in place is `Feed` |
| Nets.Net.FeedInputLoop | src/PVX_NeuralNets_Combiner.cpp:34-53 | the loop over `InputLayers` in place is `FeedInputs`, returning the outputs it read |
| Nets.Net.BackPropagate | src/PVX_NeuralNets_DenseLayer.cpp:251-256 | `BackPropagate` in place is `Back`, and changes only dense-layer buffers |
| Nets.Net.BackInputLoop | src/PVX_NeuralNets_UtilityLayers.cpp:52-54 | the loop sending each input its message in place is `BackInputs` |
| Nets.Net.Pass | src/PVX_NeuralNets_DenseLayer.cpp:142-153 | `SetLearnRate`/`ResetMomentum` in place is `Delegate`, keeping the wiring |
| Nets.Net.PassInputs | src/PVX_NeuralNets_UtilityLayers.cpp:59-77 | the pass over `InputLayers` in place is `DelegateInputs` |
| Nets.Net.GetData | src/PVX_NeuralNets.cpp:99-105 | `GetData()` is `Size` zeros with each layer's weights copied in at its offset, which for a tiled layout is the weights one after another |
| Nets.Net.SetData | src/PVX_NeuralNets.cpp:106-109 | `SetData(Data)` reads each listed layer's segment into its weights, in layout order |
| Dna.Count | src/PVX_NeuralNets.cpp:93 | `Weights.size()` is rows times columns |
| Dna.Registered | src/PVX_NeuralNets.cpp:89-97 | registering a set of layers adds exactly its dense layers to the map's keys |
| Dna.RegisteredUnion | src/PVX_NeuralNets.cpp:90 | registering two sets in turn is registering their union, since a layer already present is skipped |
| Dna.RegisteredSelf | src/PVX_NeuralNets.cpp:90-95 | a single dense layer is added with its weight count unless already present |
| Dna.RegisterVisits | src/PVX_NeuralNets_UtilityLayers.cpp:36-39 | `DNA(w)` registers exactly the dense layers reachable from the layer, each once, keeps what `w` held, and completes when every chain layer has a predecessor |
| Dna.RegisterChain | src/PVX_NeuralNets.cpp:89-97 | for a chain layer `DNA` registers the layer and then what its predecessor reaches |
| Dna.RegisterInputsVisit | src/PVX_NeuralNets_UtilityLayers.cpp:96-99 | the loop over the inputs registers exactly the dense layers they reach |
| Dna.SegmentsDisjoint | src/PVX_NeuralNets_Output.cpp:129-133 | in `GetDNA`'s layout an earlier layer's segment ends before a later one starts |
| Dna.SegmentInside | src/PVX_NeuralNets_Output.cpp:129-133 | every segment lies inside `[0, Size)` |
| Dna.SegmentsCover | src/PVX_NeuralNets_Output.cpp:129-133 | every position of `[0, Size)` lies in some segment |
| Dna.LayoutStep | src/PVX_NeuralNets_Output.cpp:130-132 | appending a layer at the running `Size` keeps the layout tiled and in order |
| Dna.Layout | src/PVX_NeuralNets_Output.cpp:124-135 | `GetDNA`'s loop lists exactly the registered layers, in order, each with its count, offsets being running sums |
| Dna.WeightsOf | src/PVX_NeuralNets.cpp:92-93 | a listed layer contributes its `count` weights |
| Dna.SnapshotLength | src/PVX_NeuralNets.cpp:99-105 | for a tiled layout the weights one after another fill exactly `Size` values |
| Dna.SnapshotAt | src/PVX_NeuralNets.cpp:101-103 | segment `k` of the snapshot, at its offset, is layer `k`'s weights |
| Dna.Paint | src/PVX_NeuralNets.cpp:99-105 | the vector `GetData` builds has length `Size` |
| Dna.PaintPadded | src/PVX_NeuralNets.cpp:99-105 | the copies fill `[0, End)` with the snapshot and leave zeros after it |
| Dna.PaintTiles | src/PVX_NeuralNets.cpp:99-105 | for a layout tiling `[0, Size)` `GetData()` is the snapshot |
| Dna.Segment | src/PVX_NeuralNets.cpp:108 | a segment read back has the layer's shape and holds exactly those values of `Data` |
| Dna.FlattenInjective | src/PVX_NeuralNets.cpp:102-108 | two weight matrices of one shape with the same `data()` are equal |
| Dna.Restore | src/PVX_NeuralNets.cpp:106-109 | `SetData` keeps the arena's length |
| Dna.RestoreKeepsShape | src/PVX_NeuralNets.cpp:106-109 | `SetData` keeps which layers are dense and every weight shape |
| Dna.RestoreElsewhere | src/PVX_NeuralNets.cpp:106-109 | `SetData` leaves every unlisted layer as it was |
| Dna.RestoreAt | src/PVX_NeuralNets.cpp:107-108 | after `SetData`, listed layer `k` holds its segment of `Data` with its shape kept |
| Dna.RestoreRetrained | src/PVX_NeuralNets.cpp:106-109 | `SetData` changes only dense-layer weights, never a shape, an output or the wiring |
| Dna.RestoreSnapshot | src/PVX_NeuralNets_Output.cpp:106-118 | `SetData(GetData())` changes nothing |
| Dna.SnapshotRestore | src/PVX_NeuralNets_Output.cpp:106-118 | `GetData()` after `SetData(Data)` returns `Data` |
| Dna.SegmentValue | src/PVX_NeuralNets.cpp:99-109 | position `x` of `GetData()` after `SetData(Data)` is `Data[x]` |
| Dna.RestoredWeights | src/PVX_NeuralNets.cpp:106-109 | after `SetData(Data)` listed layer `k`'s `data()` is its segment of `Data` |
| Dna.CheckpointRestores | src/PVX_NeuralNets_Output.cpp:106-118 | a checkpoint taken, then restored after training that kept the shapes, gives every listed layer back its weights and keeps the rest of its state |
| Dna.SnapshotWithin | src/PVX_NeuralNets.cpp:99-105 | every listed segment lies inside `GetData()` |
| Dna.SegmentOfSnapshot | src/PVX_NeuralNets_Output.cpp:110-116 | reading a layer's segment of a snapshot gives back its weight matrix |
| Outputs.Bind | src/PVX_NeuralNets_Output.cpp:6-26 | the constructor binds a strategy exactly for the types `0..2`; mean square is plain with its own error, both softmax types share the cross-entropy error, and any other type binds nothing |
| Outputs.SumSquaresZero | src/PVX_NeuralNets_Output.cpp:39-40 | `vec * vec^T` is never negative and is zero exactly when every entry of the difference is |
| Outputs.MeanSquareError | src/PVX_NeuralNets_Output.cpp:44-48 | the mean-square error exists exactly when the shapes agree and there is a column; with no columns it is `0 / 0` |
| Outputs.MeanSquareZero | src/PVX_NeuralNets_Output.cpp:44-48 | the mean-square error is never negative and is zero exactly when the target equals the output |
| Outputs.CrossEntropyError | src/PVX_NeuralNets_Output.cpp:55-57 | the softmax error exists exactly when the shapes agree and there is a column |
| Outputs.ErrorOf | src/PVX_NeuralNets_Output.cpp:27-29 | `GetErrorFnc` is the bound error, and an unbound one fails |
| Outputs.RowOf | src/PVX_NeuralNets_Output.cpp:33-35 | the `Map` of `Data` is one row holding the first `cols` floats |
| Outputs.OutputFieldsBytes | src/PVX_NeuralNets_Output.cpp:101-104 | the `OUTP` record is a `TYPE` chunk followed by a `LAST` chunk |
| Outputs.OutputFieldsRead | src/PVX_NeuralNets_Container.cpp:37-43 | reading an `OUTP` record back gives the type and the layer number that were written |
| Outputs.Leading | src/PVX_NeuralNets_Output.cpp:84-87 | `memcpy` of `cols` floats of `data()` takes the first `cols` values, which on a one-row output is that row |
| Outputs.OutputLayer.constructor | src/PVX_NeuralNets_Output.cpp:6-26 | the output layer starts over the given last layer and type, with no output, error `-1`, version `0` and an empty checkpoint |
| Outputs.OutputLayer.NOutputs | src/PVX_NeuralNets_Output.cpp:98-100 | `nOutput()` is the last layer's rows less one, `-1` for an empty buffer |
| Outputs.OutputLayer.Gathered | src/PVX_NeuralNets_Output.cpp:93-97 | `Gather()` is exactly the layers reachable from the last layer |
| Outputs.OutputLayer.FeedForward | src/PVX_NeuralNets_Output.cpp:59-83 | a bound pass bumps `Version`, feeds the graph from the last layer with it and sets `output` from that layer's feature rows; an unbound one changes nothing; errors and the checkpoint stay |
| Outputs.OutputLayer.Result | src/PVX_NeuralNets_Output.cpp:89-92 | `Result()` feeds forward again and returns the new `output` |
| Outputs.OutputLayer.ResultFlat | src/PVX_NeuralNets_Output.cpp:84-87 | `Result(res)` copies the first `cols` floats of the new `output` |
| Outputs.OutputLayer.GetError | src/PVX_NeuralNets_Output.cpp:27-29 | `GetError` is the bound error against `output` and changes nothing; for mean square it is zero exactly when the target equals the output |
| Outputs.OutputLayer.Train | src/PVX_NeuralNets_Output.cpp:30-54 | `Train` returns the bound error, records it in `Error` only for mean square, back-propagates `target - output` from the last layer, and changes only dense-layer buffers |
| Outputs.OutputLayer.TrainFlat | src/PVX_NeuralNets_Output.cpp:33-35 | `Train(const float*)` is `Train` on the first `cols` floats as one row |
| Outputs.OutputLayer.ResetMomentum | src/PVX_NeuralNets_Output.cpp:120-122 | `ResetMomentum()` is the pass from the last layer |
| Outputs.OutputLayer.GetDNA | src/PVX_NeuralNets_Output.cpp:124-135 | `GetDNA()` lists exactly the dense layers reachable from the last layer, each once, in a layout tiling `[0, Size)`, and always succeeds when every chain layer has a predecessor |
| Outputs.OutputLayer.SaveCheckpoint | src/PVX_NeuralNets_Output.cpp:106-112 | the layout is built only while it is empty; the checkpoint vector becomes `GetData()` and `CheckpointError` becomes `Error` |
| Outputs.OutputLayer.LoadCheckpoint | src/PVX_NeuralNets_Output.cpp:114-118 | `Error` becomes `CheckpointError`, which is returned, and each checkpointed layer reads back its saved weights |
| Outputs.OutputLayer.Save | src/PVX_NeuralNets_Output.cpp:101-104 | `Save` appends the `TYPE` and `LAST` chunks; when the last layer has no number it stops after the `TYPE` chunk |
| Containers.Enumerate | src/PVX_NeuralNets_Container.cpp:71 | the members of a set below a bound, in ascending order, each once, none missing |
| Containers.Order | src/PVX_NeuralNets_Container.cpp:71-74 | the layers `Gather()` lists are exactly those reachable from the last layer, in ascending order, the last layer among them |
| Containers.Numbering | src/PVX_NeuralNets_Container.cpp:69-75 | `g[l] = i++` numbers exactly the listed layers, the layer at position `k` getting `k + 1` |
| Containers.NumberingInverse | src/PVX_NeuralNets_Container.cpp:42 | every number lies in `1..n` and `Layers.at(number - 1)` is the layer that was numbered |
| Containers.NumberingMonotone | src/PVX_NeuralNets_Container.cpp:69-75 | a layer listed before another gets a smaller number |
| Containers.OrderClosed | src/PVX_NeuralNets_Container.cpp:79-81 | the predecessor and inputs of a saved layer are saved too, so every `IndexOf.at` of a save finds its layer |
| Containers.LayerChunks | src/PVX_NeuralNets_Container.cpp:79-81 | the loop writing the listed layers succeeds exactly when every layer's chunk can be written |
| Containers.SaveFile | src/PVX_NeuralNets_Container.cpp:66-89 | the file body is the `LYRS` chunk of the layers' chunks, then an `OUTP` chunk whose `LAST` is the number of saved layers, the last layer's number; it fails exactly when a layer cannot be written |
| Containers.LoadLayer | src/PVX_NeuralNets_Container.cpp:23-36 | exactly the `ACTV`, `INPT`, `DENS` and `ADDR` chunks have a handler; chunks of other names are skipped |
| Containers.LoadLayerBuilds | src/PVX_NeuralNets_Container.cpp:23-36 | each handler builds a layer of its own class whose links are all still unresolved |
| Containers.Folded | src/PVX_NeuralNets_Container.cpp:23-36 | when every chunk has a handler that succeeds, the load yields one layer per chunk, each the one its handler built, in file order |
| Containers.LoadAll | src/PVX_NeuralNets_Container.cpp:23-36 | the `LYRS` handlers load one layer per chunk, in file order, when each chunk has a handler that succeeds |
| Containers.FoldedAtMost | src/PVX_NeuralNets_Container.cpp:23-36 | a load yields at most one layer per chunk |
| Containers.FoldedSkips | src/PVX_NeuralNets_Container.cpp:23-36 | a chunk with no handler is skipped, so the load yields fewer layers than chunks |
| Containers.LoadSkipsUnhandled | src/PVX_NeuralNets_Container.cpp:23-36 | a `MULP`, `CMBN` or `RCNN` chunk, which multipliers, combiners and recurrent layers save, has no handler, so the scope loads into fewer layers than it has chunks and later numbers shift |
| Containers.OutputOf | src/PVX_NeuralNets_Container.cpp:37-43 | the `OUTP` handler names a loaded layer: `Layers.at(last - 1)` throws unless `1 <= last <= n` |
| Containers.Execute | src/PVX_NeuralNets_Container.cpp:44 | `Execute` keeps the output layer among the loaded layers |
| Containers.FixAll | src/PVX_NeuralNets_Container.cpp:45-46 | the `FixInputs` loop succeeds exactly when each layer's does, giving each layer's fix-up in place |
| Containers.NeuralNetContainer.FixUp | src/PVX_NeuralNets_Container.cpp:45-49 | the loop fixes up every loaded layer as `FixAll` does, failing when one fails, and collects exactly the input layers' positions in order |
| Containers.NeuralNetContainer.Load | src/PVX_NeuralNets_Container.cpp:21-50 | loading succeeds exactly when `LoadFile` does on an arena-ordered graph; the container then owns every loaded layer, and its output layer, type and inputs are the file's |
| Containers.InputPositions | src/PVX_NeuralNets_Container.cpp:47-48 | the container's `Inputs` are exactly the loaded input layers, in order |
| Containers.LoadFile | src/PVX_NeuralNets_Container.cpp:21-50 | a loaded container's output layer is one of its layers and its inputs are its input layers |
| Containers.NodeRoundTrip | src/PVX_NeuralNets_Container.cpp:23-36 | a storable layer of the four loadable classes, saved and loaded and fixed up, keeps what the file carries and links to the positions of the layers it was numbered with |
| Containers.SaveLoad | src/PVX_NeuralNets_Container.cpp:21-89 | saving a storable network and loading the file gives its gathered layers back in saving order, each with what the file keeps and the same links, and the same last layer and output type |
| Containers.EdgeBack | src/PVX_NeuralNets_Container.cpp:45-46 | after a round trip layer `i` links to layer `j` exactly when the saved layers did |
| Containers.InputsBack | src/PVX_NeuralNets_Container.cpp:47-48 | after a round trip the container's inputs are exactly the positions of the saved input layers |
| Containers.SaveLoadEdges | src/PVX_NeuralNets_Container.cpp:21-89 | a round trip gives one layer per gathered layer, the same links between them, the saved input layers as inputs and the saved last layer as output |
| Containers.LastNumbered | src/PVX_NeuralNets_Container.cpp:71-74 | the last layer is the last one listed, so it gets the highest number `n` |
| Containers.CopyOutAsWritten | src/PVX_NeuralNets_Container.cpp:58 | the copy's output is `Layers[IndexOf.at(LastLayer)]`, defined only when that number is below `n` |
| Containers.CopyOutOfRange | src/PVX_NeuralNets_Container.cpp:51-59 | as written the copy indexes one past its layers |
| Containers.CopyOut | src/PVX_NeuralNets_Container.cpp:51-59 | the corrected copy picks the copy of the last layer |
| Containers.Reshape | src/PVX_NeuralNets_Container.cpp:113-118 | `FromVector` divides by zero for zero rows, and gives `r` rows holding `Data` column-major exactly when `r >= 1` divides the size |
| Containers.ReshapeFlatten | src/PVX_NeuralNets_Container.cpp:113-118 | a matrix's `data()` reshaped with its row count gives it back |
| Containers.Presented | src/PVX_NeuralNets_Container.cpp:131-135 | presenting matrices succeeds exactly when there are no more of them than inputs, and changes only outputs |
| Containers.PresentedSets | src/PVX_NeuralNets_Container.cpp:140-144 | matrix `i` lands in input `i` (features for `Input`, the whole buffer for `InputRaw`) and every other layer is untouched |
| Containers.Forward | src/PVX_NeuralNets_Output.cpp:59-63 | a bound output pass keeps the wiring and leaves the last layer with a bias row to drop |
| Containers.Number | src/PVX_NeuralNets_Container.cpp:69-75 | the numbering loop computes `Numbering` |
| Containers.WriteBodies | src/PVX_NeuralNets_Container.cpp:79-81 | the loop appends the listed layers' chunks exactly when each can be written |
| Containers.WriteNode | src/PVX_NeuralNets_Container.cpp:79-81 | one turn of the loop: `l->Save(bin, g)` appends the layer's chunk and extends the written prefix exactly when the chunk can be written |
| Containers.WriteLayers | src/PVX_NeuralNets_Container.cpp:77-83 | the `LYRS` scope is one chunk holding the layers' chunks |
| Containers.Processed | src/PVX_NeuralNets_Container.cpp:131-135 | `Process` succeeds only with no more matrices than inputs and a bound output, keeping the wiring |
| Containers.Trained | src/PVX_NeuralNets_Container.cpp:155-160 | `Train` is `Process` followed by the bound step's error against the fresh output, keeping the wiring |
| Containers.TrainedMeanSquare | src/PVX_NeuralNets_Output.cpp:37-43 | with the mean-square output, training reports zero exactly when the target is the fresh output |
| Containers.Errored | src/PVX_NeuralNets_Container.cpp:178-183 | `Error` is the bound error against the fresh output |
| Containers.ErroredIsTrained | src/PVX_NeuralNets_Container.cpp:155-183 | `Error` reports the error `Train` returns for the same inputs and target |
| Containers.PresentOne | src/PVX_NeuralNets_Container.cpp:132-133 | one turn of the input loop: setting input `i` extends `Presented` from the first `i` matrices to the first `i + 1`, keeping the wiring |
| Containers.PresentAll | src/PVX_NeuralNets_Container.cpp:131-135 | the input loop succeeds exactly when there are no more matrices than inputs, and sets what `Presented` sets |
| Containers.WriteOutput | src/PVX_NeuralNets_Container.cpp:84-88 | the `OUTP` scope is one chunk holding `TYPE` and `LAST`, written exactly when the last layer has a number |
| Containers.NeuralNetContainer.constructor | src/PVX_NeuralNets_Container.cpp:14-20 | the inputs are exactly the gathered input layers and the container owns no layers |
| Containers.NeuralNetContainer.InputsOf | src/PVX_NeuralNets_Container.cpp:14-20 | the loop over the gathered layers keeps exactly the input layers, in order |
| Containers.NeuralNetContainer.Adopt | src/PVX_NeuralNets_Container.cpp:21-50 | a loaded container owns its layers, with its input layers as inputs |
| Containers.NeuralNetContainer.Save | src/PVX_NeuralNets_Container.cpp:66-89 | `Save` appends exactly `SaveFile`'s bytes, and fails when a layer cannot be written |
| Containers.NeuralNetContainer.Release | src/PVX_NeuralNets_Container.cpp:60-65 | the destructor deletes the output and the layers only when `Layers` is not empty |
| Containers.NeuralNetContainer.SaveCheckpoint | src/PVX_NeuralNets_Container.cpp:90-92 | the output layer's `SaveCheckpoint`, leaving the graph untouched |
| Containers.NeuralNetContainer.LoadCheckpoint | src/PVX_NeuralNets_Container.cpp:93-95 | the output layer's `LoadCheckpoint`: the saved error is returned and the saved weights come back |
| Containers.NeuralNetContainer.ResetMomentum | src/PVX_NeuralNets_Container.cpp:96-98 | the pass from the last layer |
| Containers.NeuralNetContainer.MakeRawInput | src/PVX_NeuralNets_Container.cpp:99-101 | `Data` with a ones row appended, failing exactly when there is no input layer |
| Containers.NeuralNetContainer.MakeRawInputVec | src/PVX_NeuralNets_Container.cpp:102-104 | `MakeRawInput(vector)` of the first input layer |
| Containers.NeuralNetContainer.MakeRawInputs | src/PVX_NeuralNets_Container.cpp:105-111 | one raw matrix per input layer, failing exactly when there are fewer matrices than inputs |
| Containers.NeuralNetContainer.FromVector | src/PVX_NeuralNets_Container.cpp:113-118 | `Data` reshaped to `nOutput()` rows |
| Containers.NeuralNetContainer.Present | src/PVX_NeuralNets_Container.cpp:131-135 | the input loop succeeds exactly when there are no more matrices than inputs |
| Containers.NeuralNetContainer.Run | src/PVX_NeuralNets_Container.cpp:155-158 | the inputs set and the output fed give `Processed`'s graph and output, bumping the version and keeping errors and checkpoint |
| Containers.NeuralNetContainer.FeedPresented | src/PVX_NeuralNets_Container.cpp:158 | `Output->FeedForward()` once the inputs are set completes `Processed` |
| Containers.NeuralNetContainer.Process | src/PVX_NeuralNets_Container.cpp:127-144 | `Process` returns the output `Processed` computes and leaves its graph |
| Containers.NeuralNetContainer.ProcessVec | src/PVX_NeuralNets_Container.cpp:120-125 | `ProcessVec` is `ProcessRaw` of the first input's raw matrix, returning the output's floats |
| Containers.NeuralNetContainer.Train | src/PVX_NeuralNets_Container.cpp:145-166 | `Train` returns `Trained`'s error and leaves its graph; the mean-square step records it in `Error` |
| Containers.NeuralNetContainer.Error | src/PVX_NeuralNets_Container.cpp:168-189 | `Error` returns `Errored`'s error, leaves `Error` unchanged and trains nothing |
| NetContainers.InsertById | src/PVX_NeuralNets_NetContainer.cpp:53-55 | inserting a layer into a list sorted by `Id` keeps it sorted and adds exactly that layer |
| NetContainers.SortById | src/PVX_NeuralNets_NetContainer.cpp:53-55 | `std::sort` by `Id` gives a sorted permutation of the dense layers |
| NetContainers.Partition | src/PVX_NeuralNets_NetContainer.cpp:40-52 | the gathered layers split into exactly the input layers, in order, and exactly the dense layers |
| NetContainers.Fed | src/PVX_NeuralNets_NetContainer.cpp:68-73 | `Process`'s graph half succeeds only with no more matrices than inputs, keeping the wiring |
| NetContainers.FedBy | src/PVX_NeuralNets_NetContainer.cpp:71 | once the inputs are set, `Process` is `FeedForward(++Version)` of the last layer |
| NetContainers.ProcessedFeatures | src/PVX_NeuralNets_NetContainer.cpp:63-84 | the container's `Process` returns the last layer's whole buffer, while the bound pass over the same graph keeps its feature rows through the strategy |
| NetContainers.Stepped | src/PVX_NeuralNets_NetContainer.cpp:132-151 | `TrainFnc(target)` returns the bound error against `output` and back-propagates, changing only dense-layer buffers |
| NetContainers.TrainedSteps | src/PVX_NeuralNets_NetContainer.cpp:208-212 | training right after the bound forward pass is the step against the fresh output |
| NetContainers.TrainedStale | src/PVX_NeuralNets_NetContainer.cpp:85-106 | `Train` as written feeds the last layer but takes the error against the `output` stored before the call |
| NetContainers.ErroredStale | src/PVX_NeuralNets_NetContainer.cpp:108-129 | `Error` as written reports the error against the `output` stored before the call |
| NetContainers.NoErrorOfEmpty | src/PVX_NeuralNets_NetContainer.cpp:140-154 | no error can be measured against an output with no columns |
| NetContainers.FreshTrainFails | src/PVX_NeuralNets_NetContainer.cpp:85-129 | as written, `Train` and `Error` before any bound forward pass fail for every input and target |
| NetContainers.StaleTrainIgnoresInputs | src/PVX_NeuralNets_NetContainer.cpp:85-106 | as written, the error `Train` reports does not depend on the inputs presented |
| NetContainers.Window | src/PVX_NeuralNets_NetContainer.cpp:194-196 | the copy loop takes `n` entries of the order from the cursor |
| NetContainers.Refill | src/PVX_NeuralNets_NetContainer.cpp:192-206 | a batch of `tmpOrder.size()` entries: from the cursor when enough remain, otherwise the rest of the order followed by the start of a reshuffled order, the cursor moving on |
| NetContainers.RefillSlices | src/PVX_NeuralNets_NetContainer.cpp:192-206 | the batch is `order[cur..cur+n]`, or the tail of the order followed by the head of the reshuffled one |
| NetContainers.RefillEntries | src/PVX_NeuralNets_NetContainer.cpp:192-206 | the order stays a permutation and every batch entry names a sample |
| NetContainers.RefillCanRepeat | src/PVX_NeuralNets_NetContainer.cpp:197-205 | across the reshuffle a batch may name the same sample twice |
| NetContainers.BatchOf | src/PVX_NeuralNets_NetContainer.cpp:182-187 | a batch is `Reorder2` of the data by `tmpOrder`, or the whole data when training on everything |
| NetContainers.BatchInputs | src/PVX_NeuralNets_NetContainer.cpp:208-216 | every input layer gets its data's batch, failing when an input has no data |
| NetContainers.FullBatch | src/PVX_NeuralNets_NetContainer.cpp:214-216 | without a batch every input layer gets its whole data |
| NetContainers.IteratedBy | src/PVX_NeuralNets_NetContainer.cpp:208-212 | once the batch is gathered, `Iterate` is `Train` on it |
| NetContainers.BatchesFit | src/PVX_NeuralNets_NetContainer.cpp:191-220 | with data aligned to a permutation order, a batch never reads outside the data |
| NetContainers.Added | src/PVX_NeuralNets_NetContainer.cpp:232-249 | the first call takes the data as given; later ones append each input's and the targets' columns, failing on a row mismatch |
| NetContainers.RawOf | src/PVX_NeuralNets_NetContainer.cpp:266-284 | `AddTrainData` adds each input with a ones row, keeping its column count |
| NetContainers.AddedAligned | src/PVX_NeuralNets_NetContainer.cpp:251-254 | adding data whose inputs and targets have the same columns keeps everything aligned with the extended order |
| NetContainers.Concatenate | src/PVX_NeuralNets_NetContainer.cpp:240-245 | the loop appending each item to its input's data computes `Appended` |
| NetContainers.GatherBatch | src/PVX_NeuralNets_NetContainer.cpp:208-210 | the loop `Reorder2` over the input layers computes `BatchInputs` |
| NetContainers.AsIndex | src/PVX_NeuralNets_NetContainer.cpp:299-300 | a `size_t` row count read as Eigen's signed index, `SIZE_MAX` becoming `-1` |
| NetContainers.FeedNet | src/PVX_NeuralNets_NetContainer.cpp:68-73 | the in-place graph half of `Process` is `Fed` |
| NetContainers.ForwardNet | src/PVX_NeuralNets_NetContainer.cpp:156-180 | the bound forward pass in place is `Forward` |
| NetContainers.ProcessNet | src/PVX_NeuralNets_NetContainer.cpp:208-211 | inputs set, then the bound forward pass, in place, is `Processed` |
| NetContainers.StepNet | src/PVX_NeuralNets_NetContainer.cpp:132-151 | `TrainFnc` in place is `Stepped`, changing only dense-layer buffers |
| NetContainers.TrainNet | src/PVX_NeuralNets_NetContainer.cpp:208-212 | a fresh forward pass then `TrainFnc`, in place, is `Trained`, returning the fresh output |
| NetContainers.IterateNet | src/PVX_NeuralNets_NetContainer.cpp:208-218 | gathering the batch and training on it in place is `Iterated` |
| NetContainers.NextBatch | src/PVX_NeuralNets_NetContainer.cpp:193-206 | the two copy loops and the reshuffle compute `Refill` |
| NetContainers.IterateOn | src/PVX_NeuralNets_NetContainer.cpp:191-220 | one `Iterate`: a batch only when `tmpOrder` is shorter than the order, the order stays a permutation, and the error and graph are `Iterated`'s |
| NetContainers.NetContainer.constructor | src/PVX_NeuralNets_NetContainer.cpp:19-56 | `Inputs` are exactly the gathered input layers, `DenseLayers` exactly the gathered dense layers sorted by `Id`, with the default `{1, 0}` batch, no data and the cursor at 0 |
| NetContainers.NetContainer.SetBatchSize | src/PVX_NeuralNets_NetContainer.cpp:188-190 | `tmpOrder.resize(sz)` keeps the first entries, pads with zeros and changes nothing else |
| NetContainers.NetContainer.FromVector | src/PVX_NeuralNets_NetContainer.cpp:298-303 | `Data` reshaped to `nOutput()` rows |
| NetContainers.NetContainer.Process | src/PVX_NeuralNets_NetContainer.cpp:63-84 | the inputs set and the last layer fed: the graph is `Fed`'s and the result is the last layer's whole buffer |
| NetContainers.NetContainer.FeedForwardBound | src/PVX_NeuralNets_NetContainer.cpp:156-180 | the bound forward pass bumps `Version` and sets `output` from the last layer's feature rows |
| NetContainers.NetContainer.TrainStep | src/PVX_NeuralNets_NetContainer.cpp:132-151 | `TrainFnc` returns `Stepped`'s error, records it in `error` only for mean square, and changes only dense-layer buffers |
| NetContainers.NetContainer.Train | src/PVX_NeuralNets_NetContainer.cpp:85-106 | `Train` as written returns `TrainedStale`'s error |
| NetContainers.NetContainer.Error | src/PVX_NeuralNets_NetContainer.cpp:108-129 | `Error` as written returns `ErroredStale`'s error and trains nothing |
| NetContainers.NetContainer.Run | src/PVX_NeuralNets_NetContainer.cpp:208-211 | the inputs set and the bound forward pass give `Processed`'s graph and output |
| NetContainers.NetContainer.TrainFresh | src/PVX_NeuralNets_NetContainer.cpp:85-106 | the corrected `Train` returns `Trained`'s error, with the fresh output |
| NetContainers.NetContainer.ErrorFresh | src/PVX_NeuralNets_NetContainer.cpp:108-129 | the corrected `Error` returns `Errored`'s error |
| NetContainers.NetContainer.Iterate | src/PVX_NeuralNets_NetContainer.cpp:191-220 | the batching state advances as `Refill` says when `tmpOrder` is shorter than the order and is kept otherwise; the error and graph are `Iterated`'s |
| NetContainers.NetContainer.GrowOrder | src/PVX_NeuralNets_NetContainer.cpp:251-260 | the order grows by `n` new entries and becomes the shuffle |
| NetContainers.NetContainer.AddData | src/PVX_NeuralNets_NetContainer.cpp:232-249 | the data becomes `Added`'s and the cursor is reset |
| NetContainers.NetContainer.AddTrainDataRaw | src/PVX_NeuralNets_NetContainer.cpp:232-261 | the data becomes `Added`'s, the cursor is reset and the order grows by the new columns |
| NetContainers.NetContainer.AddTrainData | src/PVX_NeuralNets_NetContainer.cpp:266-296 | the same with every input given a ones row first |
| Training.Range | src/PVX_Training.cpp:35-36 | the numbers `lo .. hi - 1`, in order |
| Training.Extended | src/PVX_Training.cpp:33-36 | `TrainOrder.resize(next + n)` numbered from `next`: the old order followed by its own positions |
| Training.ExtendedPermutation | src/PVX_Training.cpp:33-36 | extending a permutation of `0..n-1` gives the numbers `0..n+k-1` |
| Training.ShuffledPermutation | src/PVX_Training.cpp:37 | any shuffle of the extended order is a permutation one entry longer per new sample |
| Training.PermutationBelow | src/PVX_Training.cpp:33-37 | every entry of the order is below its length |
| Training.PermutationHas | src/PVX_Training.cpp:33-37 | every position below the length occurs in the order |
| Training.Reordered | src/PVX_Training.cpp:5-10 | `Reorder` is defined exactly when every used index is a column of the data, and keeps the rows |
| Training.Reorder | src/PVX_Training.cpp:5-10 | the loop computes `Reordered`, column `i` being column `Order[i]` of the data |
| Training.ReorderedIdentity | src/PVX_Training.cpp:5-10 | reordering by `0..n-1` gives the data back |
| Training.ReorderedByPermutation | src/PVX_Training.cpp:5-10 | reordering by a permutation of the columns always succeeds |
| Training.Beside | src/PVX_Training.cpp:28-29 | `newInput << t, item` needs equal row counts and puts `item`'s columns after `t`'s |
| Training.Appended | src/PVX_Training.cpp:26-31 | every item is appended to its input's data; `InputData[i]` past the end or a row mismatch fails |
| Training.AppendedAligned | src/PVX_Training.cpp:26-36 | appending `w` columns to every input keeps the data aligned with the order extended by `w` |
| Training.TrainingSet.constructor | src/PVX_Training.cpp:22-38 | the input buffers, with an empty order |
| Training.TrainingSet.AppendInputs | src/PVX_Training.cpp:26-31 | the `ForEach` loop leaves the order and makes the data `Appended`'s |
| Training.TrainingSet.AddTrainData | src/PVX_Training.cpp:22-38 | as written, the data is appended and the order grows by `outp.size()` entries, one per target value, and is shuffled |
| Training.TrainingSet.AddTrainDataByColumns | src/PVX_Training.cpp:22-38 | corrected, the order grows by one entry per sample and stays aligned with the data |
| Training.TrainingSet.GrowOrder | src/PVX_Training.cpp:33-37 | the order grows by `n` and becomes the shuffle, a permutation again |
| Training.OrderOutrunsInputs | src/PVX_Training.cpp:34 | as written, with targets of two or more rows the order names a sample the inputs do not have, and reordering by it fails |
| Training.OrderFitsInputs | src/PVX_Training.cpp:26-37 | with one order entry per sample, reordering every input by the order succeeds |

## Left out

- Floating point: `float` becomes `real`. The tanh and sigmoid kernels, the `TanhBias` values and the square roots inside the RMSprop update are a `Kernels` parameter. The exponential and logarithm of the softmax and cross-entropy outputs are an `OutKernels` parameter. Rounding and overflow are not modelled.
- NaN and infinity: a float `0 / 0` becomes `Failure(NotANumber)` and a float `x / 0` becomes `Failure(Infinite)`, where the source would carry on with that value.
- Dropout: the branch taken when `UseDropout` is set (src/PVX_NeuralNets_DenseLayer.cpp:239-243) draws a random mask. The model follows the branch without dropout.
- Randomness: `Eigen::Random` weight initialisation is not modelled. `std::shuffle` with `random_device` is replaced by a `shuffled` parameter that must be a permutation; the sampling itself is not modelled.
- `UpdateWeights`: the source declares it but does not define it for the dense layer. The model takes the update as a parameter `upd`.
- Arena order: layer objects and raw pointers become positions in a sequence of nodes. Position stands for address order, and `Graph.Wired` also requires every link to point to a lower position. The source has no such constraint. `Input()`/`Inputs()` can rewire a layer to one allocated later (src/PVX_NeuralNets.cpp:81-87); the model's `Graph.SetInput` and `Graph.SetInputs` then give a graph that is not `Wired`. This shapes several members:
  - `Containers.Order` and `Dna.Layout` number the layers, and order the pointer-keyed maps, by position.
  - `Containers.NeuralNetContainer.Load` refuses with `BadPointer` a file whose links point to a higher number, which the source's second pass would still fix up.
  - `Containers.CopyOutAsWritten` is always one past the end only because the last layer always gets the highest number; with real addresses it picks a wrong layer.
- Network.ChainStep: the model uses the corrected activation forward step `ActivationForward` (see Findings), not the as-written `outPart(output) = Activate(inp)`. So every `Feed`, `Processed`, `Trained` and `Iterated` result that passes through an activation layer is the intended one, not the one the source computes.
- Network.Back: it uses the corrected backward step `ActivationBackward`, which passes the whole gradient on. The source's `outPart(gradient)` drops a row (see Findings).
- Graph.Defaults.constructor: new dense layers start from `CorrectedInitialHyper`, whose `iRMSprop` is `1 - 0.999`, not the source's `0.1` (see Findings).
- Graph.Defaults.SetDropout: requires a non-zero rate. The source stores `1 / 0`, an infinity, as the reciprocal.
- Dense.BuildDense: a layer saved with a zero dropout rate loads as `Failure(Infinite)`, where the source stores an infinite reciprocal.
- Outputs.OutputLayer.Train: with zero output columns the source sets `Error` to NaN and still back-propagates. The model reports `NotANumber` and changes nothing.
- NetContainers.StepNet: likewise, with zero output columns the source still back-propagates after a NaN error; the model stops.
- NetContainers.FreshTrainFails: for a 0x0 target the source computes a NaN error and back-propagates; the model counts that as a failure too.
- Outputs: `Train_SoftMax` declares a local `Error` that shadows the member, so training a softmax output leaves the stored error as it was. The model does the same.
- `outPart`: it is defined in PVX_NeuralNets_Util.inl, which is not part of this model. It is taken to be every row but the last (the bias row), as its uses imply.
- File I/O: the `BinSaver`/`BinLoader` bodies are not part of this model. Saving and loading work on byte sequences. `Begin` is taken to reserve the four size bytes and `End` to back-patch them.
- Sorting ties: `std::sort` leaves the order of equal keys unspecified. `NetContainers.SortById` and `Utility.DivercitySort` fix one order, and their contracts only promise sortedness and a permutation.
- `Diverse`/`Divercity` (src/PVX_NeuralNets_UtilityLayers.cpp:153-196): they normalise columns and take dot products in float. They are not modelled.
- `NetContainer::MakeRawInput` (src/PVX_NeuralNets_NetContainer.cpp:5-17): the three overloads only forward to the input layers. The model calls `Inputs.MakeRawInput` and `NetContainers.RawOf` directly.
- Concurrency: `Eigen::initParallel` and OpenMP are not modelled.
- Utility.MultiplierOutput, Utility.MultiplyOutputs, Utility.MultiplierMessage and Network.MultiplierMessages give the intended entrywise product. The source accumulates it with `tmp *= …` through an Eigen array wrapper around the temporary that `Output()` or `RealOutput()` returns by value (src/PVX_NeuralNets_UtilityLayers.cpp:100-126). That wrapper dangles once its statement ends, so what the source computes is undefined; the model does not capture it.
- Recurrents.ReadId: `bin2.read<int>()` is not among the `BinLoader` members shown in PVX_BinSaver.h. It is taken to read the first four bytes of the `NDID` chunk as a little-endian `int`.
- NetContainers.NetContainer.SetBatchSize: the source takes an `int`, and a negative size would become a huge `size_t` in `resize`. The model takes a `nat`; negative sizes are out of scope.
- Containers.LoadFile: a file with no `OUTP` scope fails with `Indeterminate`. The source's constructor still completes, with `Output` left null, and fails only when that pointer is used.
- Containers.LoadFile: the `LYRS` handler registers the four layer handlers but does not call `Execute` itself. The model takes the registered handlers to run on the scope's chunks after the handler returns, the only reading under which any layer loads.
- Containers.LoadSkipsUnhandled: `Save` writes `MULP`, `CMBN` and `RCNN` chunks, but the loader has no handler for them. A saved network holding a multiplier, combiner or recurrent layer loses those layers on reload, and the links numbered after them name other layers. The source defines no loader for these classes, so the model has no corrected loader; `Containers.SaveLoad` is stated for networks of the four loadable classes.
- The copy constructor (src/PVX_NeuralNets_Container.cpp:51-59): gathering, numbering and `FixInputs` on the copies are not modelled as a container-level copy, because the `newCopy` bodies of most layer classes are not part of this model. Only the output-layer choice (`Containers.CopyOutAsWritten`, `Containers.CopyOut`) and the recurrent layer's copy (`Recurrents.RecurrentCopy`) are.
- The `MakeDNA` pointers: they point into temporary copies of the weights. `Dna` models the snapshot's contents, not those dangling pointers.

## Findings

| source | as written | input that shows it | evidently intended | confidence | as-written member | corrected member |
|---|---|---|---|---|---|---|
| src/PVX_NeuralNets_Activation.cpp:106-118 | `Save` writes `OUTC` from `nOutput()`, an 8-byte `size_t`, but `Load2` reads it into a 4-byte `int` | any saved activation layer: its `OUTC` payload does not fit the read, so loading fails | write `OUTC` as an `int`, as `ACTV` is | not executed | ActivationLayers.LoadAsWrittenOverflows | ActivationLayers.ActivationRoundTrip |
| src/PVX_NeuralNets_Activation.cpp:94 | `outPart(output) = Activate(inp)` assigns the activated input, bias row included, to the feature rows | any input with `r` rows: `r` rows are assigned to `r - 1` | activate `outPart(inp)` | not executed | ActivationLayers.ForwardAsWrittenMismatch | ActivationLayers.ForwardFits |
| src/PVX_NeuralNets_Activation.cpp:100 | the gradient passed back is `outPart(gradient)`, one row short of the predecessor's feature rows | any gradient with at least one row | pass the whole local gradient | not executed | ActivationLayers.BackwardAsWrittenDropsRow | ActivationLayers.ActivationBackward |
| src/PVX_NeuralNets_Recurrent.cpp:58-70 | `Load2` casts the saved numbers to pointers and hands them to the constructor, which reads the predecessor's output through the placeholder | any saved recurrent layer | store both placeholders and leave them for the second pass | not executed | Recurrents.LoadAsWrittenFails | Recurrents.RecurrentLoad |
| src/PVX_NeuralNets_Recurrent.cpp:5-12 | `newCopy` hands the numbers of both links, cast to pointers, to the constructor, which dereferences the first | copying any network with a recurrent layer | keep both numbers as placeholders for `FixInputs` | not executed | Recurrents.CopyAsWrittenFails | Recurrents.RecurrentCopy |
| src/PVX_NeuralNets.cpp:75-79 | `FixInputs` resolves the predecessor and the inputs but not the recurrent input | a recurrent layer whose input is a saved index | resolve every link | not executed | Graph.RecurrentInputUnresolved | Graph.FixInputsFullResolves |
| src/PVX_NeuralNets_Container.cpp:58 | the copy constructor takes `Layers[IndexOf.at(LastLayer)]`, although `IndexOf` numbers from 1 | a container whose last layer gets the highest number `n`: the copy reads one past the end of its `n` layers (with another numbering, a wrong layer) | `Layers[IndexOf.at(LastLayer) - 1]` | not executed | Containers.CopyOutOfRange | Containers.CopyOut |
| src/PVX_NeuralNets_NetContainer.cpp:85-129 | `Train` and `Error` compute the error from the stored `output`, which they never refresh | a fresh container, whose `output` is still empty | compute the error from the output just fed | not executed | NetContainers.FreshTrainFails | NetContainers.NetContainer.TrainFresh |
| src/PVX_Training.cpp:34 | the training order grows by `outp.size()`, the number of entries, not the number of new samples | adding two samples of two outputs: four new order entries for two samples | grow by the number of columns | not executed | Training.OrderOutrunsInputs | Training.OrderFitsInputs |
| src/PVX_NeuralNets.cpp:11 | the default `__iRMSprop` is `0.1`, while `__RMSprop` is `0.999` and every setter keeps `iRMSprop == 1 - RMSprop` | the defaults themselves | `1 - 0.999` | not executed | Graph.InitialNotComplementary | Graph.CorrectedInitialHyper |
