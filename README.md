# YOLOv3 weight loading and training drivers, modelled in Dafny

This project models three parts of a TensorFlow 2 YOLOv3 implementation:

- **The Darknet weight reader** (`WeightReader`). It parses the weight-file
  header, which is three int32 fields followed by 8 or 4 metadata bytes
  depending on the version. It then walks the flat float32 payload with a
  cursor. Each layer's batch-norm vectors, bias and kernel are assigned in a
  fixed order, and the loader can jump over the detection heads.
  - `weight_file.dfy` models the bytes of the file.
  - `kernel_layout.dfy` models the reshape-and-transpose index map of a
    kernel.
  - `weight_loader.dfy` holds the loader. It is specified by a *plan*, the
    list of reads computed from the network's per-layer schema. `Run`
    executes a plan on a cursor. The `WeightReader` class is proved to end
    in exactly the state `Run` describes.
- **The best-weights training driver** (`train_fn` with `_loop_train`,
  `_loop_validation` and `_setup`), in `train.dfy`. Each epoch produces a
  mean loss: the validation mean when a validation generator is given,
  otherwise the training mean. The loss is appended to the history. The
  weights are saved whenever the loss equals the minimum of the history so
  far.
- **The evaluator-driven trainer** (`Trainer._train_epoch`, `_valid_epoch`,
  `_reset_loggers`), in `trainer_voc.dfy`. The model's trainer is the
  corrected one, with the image loop of the logging cycle fixed (see
  "## Findings"). It is a state machine with these parts:
  - a global step counter;
  - three running loss means;
  - a validation-and-logging cycle every `log_iter` steps, made of two
    validation passes of at most five batches each, followed by a reset;
  - one checkpoint per epoch.

  As written, the cycle instead raises before its reset, and the epoch then
  ends without a checkpoint.

`wrappers.dfy` holds the `Option` and `Result` types.

How the model handles the parts it cannot see:

- Values are kept abstract:
  - a float32 weight is its 32-bit pattern (`Word`), because the loader
    only moves values;
  - losses are `real`;
  - validation batches and annotated images are opaque identifiers.
- The network, the optimizer, the loss functions and the VOC evaluator are
  parameters:
  - a generator yields one loss per drawn batch;
  - a training batch carries the three loss components it produces;
  - the evaluator's results are a given function of the batches appended
    to it, and its images a given function of each batch.

Two behaviours of the code are worth stating outright:

- **Saving on ties.** The code tests `loss_value == min(history)`, so an
  epoch that ties the best loss so far saves again; the save is not reserved
  for a strict new minimum. For the losses [5, 3, 4, 2, 2] the saves happen
  at epochs 0, 1, 3 and 4 (`Train.SavedExample`).
- **Reads past the end of the stream.** The cursor's numpy slice silently
  truncates; such a read is not itself an error:
  - a vector or kernel then fails only because the short value cannot be
    assigned or reshaped (`ShortRead`);
  - a skip past the end never fails.

## Model

| member | source | states |
|---|---|---|
| WeightFile.U32 | models/yolo/net/weights.py:21 | a word is the unsigned little-endian value of its four bytes, below 2^32; inverted by WeightFile.U32RoundTrip |
| WeightFile.Int32 | models/yolo/net/weights.py:10-12 | a header field is the two's-complement value of four little-endian bytes, within the int32 range |
| WeightFile.PayloadStart | models/yolo/net/weights.py:14-18 | the payload starts after 12 header bytes plus 8 metadata bytes when the version test holds, otherwise 4, clamped at the end of a short file |
| WeightFile.Words | models/yolo/net/weights.py:18-21 | a payload is reinterpreted as one word per four bytes, in order; word k is bytes 4k..4k+4 |
| WeightFile.ParseWeightFile | models/yolo/net/weights.py:8-21 | parsing succeeds iff the file holds the 12 header bytes and the payload length is a multiple of 4; on success word k is bytes start+4k..start+4k+4 |
| WeightFile.U32RoundTrip | models/yolo/net/weights.py:21 | decoding the four bytes of a 32-bit pattern returns the pattern |
| WeightFile.Int32RoundTrip | models/yolo/net/weights.py:10-12 | decoding the bytes of any int32 returns it |
| WeightFile.WordsRoundTrip | models/yolo/net/weights.py:18-21 | splitting the bytes of a word sequence returns that sequence |
| WeightFile.ParseEncodeRoundTrip | models/yolo/net/weights.py:8-21 | a file written with metadata of the length the version test asks for parses back to exactly its payload words |
| WeightFile.LongHeader | models/yolo/net/weights.py:14 | defines the version test `major*10 + minor >= 2 and major < 1000 and minor < 1000`; its cases are exercised by WeightFile.HeaderExamples |
| WeightFile.MetadataLength | models/yolo/net/weights.py:14-17 | defines the metadata skipped after the header: 8 bytes when the version test holds, otherwise 4 |
| WeightFile.HeaderExamples | models/yolo/net/weights.py:14-17 | version (0,2) skips 8 metadata bytes; (0,1) and (1000,5) skip 4 |
| KernelLayout.Volume | models/yolo/net/weights.py:78 | defines `np.prod(variable.shape)` for a kernel: the product of its four dimensions, the count `_load_4d_var` reads; WeightLoader.LoadKernelReadsRun states that a kernel consumes it |
| KernelLayout.Reshape | models/yolo/net/weights.py:80 | defines numpy's row-major `reshape` of a run into four dimensions; its shape and cells are proved by ReshapeDims and ReshapeCell |
| KernelLayout.Transpose2310 | models/yolo/net/weights.py:81 | defines `transpose([2, 3, 1, 0])`; its shape and cells are proved by TransposeDims and TransposeCell |
| KernelLayout.KernelArray | models/yolo/net/weights.py:80-81 | defines the kernel `_load_4d_var` assigns: the run reshaped to (s3,s2,s1,s0) and then transposed; its index formula is KernelLayout.KernelIndexFormula |
| KernelLayout.ReshapeDims | models/yolo/net/weights.py:80 | the reshaped run has the requested four dimensions |
| KernelLayout.ReshapeCell | models/yolo/net/weights.py:80 | reshaped element [x0,x1,x2,x3] is the run's value at its row-major position, which lies inside the run |
| KernelLayout.TransposeDims | models/yolo/net/weights.py:81 | permuting the axes by [2,3,1,0] turns d0 x d1 x d2 x d3 into d2 x d3 x d1 x d0 |
| KernelLayout.TransposeCell | models/yolo/net/weights.py:81 | transposed element [y0,y1,y2,y3] is the original element [y3,y2,y0,y1] |
| KernelLayout.KernelIndexFormula | models/yolo/net/weights.py:77-82 | the assigned kernel has shape (s1,s0,s2,s3) and element [i,j,k,l] is the run's value at ((l*s2+k)*s1+i)*s0+j |
| KernelLayout.KernelCell | models/yolo/net/weights.py:77-82 | every position m of the run has a cell of the assigned array whose index formula gives back m |
| KernelLayout.KernelKeepsEveryValue | models/yolo/net/weights.py:77-82 | every value of the run appears in the assigned kernel, so the layout change only moves values |
| WeightLoader.Slice | models/yolo/net/weights.py:68-70 | the numpy slice w[from:to] has the full length iff it ends inside the stream, is never longer, and equals the exact subsequence when in range |
| WeightLoader.SkipSize | models/yolo/net/weights.py:57-66 | defines `_skip`: 255 + 1024*255, 255 + 512*255 and 255 + 256*255 words for layers 81, 93 and 105, and 0 for any other layer; WeightLoader.SkipSizeMatchesDetectionHead ties it to the head's shapes |
| WeightLoader.Exec | models/yolo/net/weights.py:68-82 | defines one read: the cursor advances by the read's size; a vector or kernel is assigned only when the slice is complete (and, for a kernel, square), else the load fails; after a failure nothing changes. Its properties are WeightLoader.LoadVectorReadsRun and WeightLoader.LoadKernelReadsRun |
| WeightLoader.VectorLen | models/yolo/net/weights.py:32-33 | defines `get_variables(layer_idx=i, suffix=name)` for a vector: its length when the layer exposes it, else nothing; used by WeightLoader.LayerPlanReadsExactly |
| WeightLoader.KernelOfLayer | models/yolo/net/weights.py:36-37 | defines `get_variables(layer_idx=i, suffix="kernel")`: the kernel's shape when the layer has one, else nothing; used by WeightLoader.LayerPlanReadsExactly |
| WeightLoader.VectorStep | models/yolo/net/weights.py:31-34 | defines the read for one suffix: one vector read of its length when the layer exposes it, else none |
| WeightLoader.VectorSteps | models/yolo/net/weights.py:30-34 | defines the suffix loop's reads, one VectorStep per name in order; its properties are WeightLoader.VectorStepsOfOrder, VectorStepsReads, VectorStepsComplete and VectorStepsRanked |
| WeightLoader.KernelSteps | models/yolo/net/weights.py:36-38 | defines the kernel read: one when the layer has a kernel, else none; covered by WeightLoader.LayerPlanOrder and LayerPlanReadsExactly |
| WeightLoader.LayerPlan | models/yolo/net/weights.py:25-38 | defines layer i's reads: a single jump of SkipSize(i) when skipped, else its vectors in suffix order and then its kernel; its properties are WeightLoader.LayerPlanOrder, LayerPlanReadsExactly and LayerPlanLayer |
| WeightLoader.LayerPlans | models/yolo/net/weights.py:24 | defines the reads of layers lo..hi-1 in increasing order; used by WeightLoader.LoaderPlan |
| WeightLoader.LoaderLayer | models/yolo/net/weights.py:25 | defines the skip test `skip_detect_layer and i in [...]` for one layer; used by WeightLoader.LoaderPlan |
| WeightLoader.LoaderPlan | models/yolo/net/weights.py:24-55 | defines the reads of `load_origin_weights` (count = num_layers, skips 81, 93 and 105) and `load_bodynet` (count = num_body, skip 53); its properties are WeightLoader.LoaderPlanLayers and LoaderPlanFailed |
| WeightLoader.Run | models/yolo/net/weights.py:24-82 | defines the in-order execution of a plan's reads, one Exec each; its properties are WeightLoader.RunAppend, RunSnoc, RunAfterFailure, RunFailedPrefix and RunOffset |
| WeightLoader.RunAppend | models/yolo/net/weights.py:24-38 | running two plans one after the other is running their concatenation |
| WeightLoader.RunAfterFailure | models/yolo/net/weights.py:24-38 | once a load has failed, no further read changes the cursor or the tensors |
| WeightLoader.RunFailedPrefix | models/yolo/net/weights.py:24-38 | a load that failed within a prefix of the plan ends in that failure whatever follows |
| WeightLoader.RunSnoc | models/yolo/net/weights.py:24-38 | running a plan with one more read performs that read after the plan |
| WeightLoader.RunOffset | models/yolo/net/weights.py:68-70 | the cursor never moves back; after a load without error it equals its start plus the sum of all sizes read |
| WeightLoader.LoadVectorReadsRun | models/yolo/net/weights.py:72-75 | a vector consumes exactly its length; it is assigned the consecutive run unchanged iff the stream is long enough, and otherwise fails with ShortRead and assigns nothing |
| WeightLoader.LoadKernelReadsRun | models/yolo/net/weights.py:77-82 | a kernel consumes its volume; it is assigned the reshaped-and-transposed run iff the run is complete and s0 == s1; otherwise nothing is assigned |
| WeightLoader.SkippedLayerWritesNothing | models/yolo/net/weights.py:25-28 | a skipped layer assigns no tensor, raises no error and only moves the cursor by its skip size |
| WeightLoader.BodySkipIsNoOp | models/yolo/net/weights.py:42-45 | skipping layer 53 in the body loader moves the cursor by 0 and assigns nothing |
| WeightLoader.VectorStepsOfOrder | models/yolo/net/weights.py:30-34 | a layer's vector reads are one optional read each for beta, gamma, moving_mean, moving_variance and bias, in that order |
| WeightLoader.VectorStepsReads | models/yolo/net/weights.py:30-34 | every vector read is of a listed name the layer exposes, with that tensor's length |
| WeightLoader.VectorStepsComplete | models/yolo/net/weights.py:30-34 | every listed name the layer exposes is read |
| WeightLoader.VectorStepsRanked | models/yolo/net/weights.py:30-34 | the vector reads follow the order of the listed names |
| WeightLoader.LayerPlanOrder | models/yolo/net/weights.py:30-38 | a loaded layer's reads belong to that layer, never skip, and come in strictly increasing per-layer order: vectors first, kernel last |
| WeightLoader.LayerPlanReadsExactly | models/yolo/net/weights.py:30-38 | a loaded layer reads a vector or kernel iff the network exposes it, with its exact size; absent names consume nothing |
| WeightLoader.LayerPlanLayer | models/yolo/net/weights.py:24-38 | every read of layer i's plan, skipped or not, belongs to layer i |
| WeightLoader.LoaderPlanLayers | models/yolo/net/weights.py:24 | a loader over count layers reads only layers below count, in increasing layer order |
| WeightLoader.SkipSizeMatchesDetectionHead | models/yolo/net/weights.py:57-66 | for a detection head at 81, 93 or 105, the skip size equals what loading its 255-bias and 1x1 kernel would consume |
| WeightLoader.SkipKeepsCursorInStep | models/yolo/net/weights.py:25-28 | after a detection head the cursor stands at the same place whether the head was loaded or skipped |
| WeightLoader.LoaderPlanFailed | models/yolo/net/weights.py:24-38 | a load that failed within the first i layers ends in that failure, whatever the remaining layers are |
| WeightLoader.Network.constructor | models/yolo/net/weights.py:24-41 | a network over a given per-layer schema, with `num_layers` and `num_body` as given, starts with no value assigned |
| WeightLoader.Network.GetVector | models/yolo/net/weights.py:32-33 | defines `model.get_variables(layer_idx=i, suffix=name)` on the network: WeightLoader.VectorLen of its schema |
| WeightLoader.Network.GetKernel | models/yolo/net/weights.py:36-37 | defines `model.get_variables(layer_idx=i, suffix="kernel")` on the network: WeightLoader.KernelOfLayer of its schema |
| WeightLoader.Network.Assign | models/yolo/net/weights.py:75 | `variable.assign` replaces that one tensor's value and nothing else |
| WeightLoader.WeightReader.FromWords | models/yolo/net/weights.py:20-21 | a reader starts at offset 0 over the given words |
| WeightLoader.WeightReader.Open | models/yolo/net/weights.py:8-21 | construction succeeds iff the file parses; the reader then holds the payload words at offset 0; otherwise it reports the parse error |
| WeightLoader.WeightReader.ReadBytes | models/yolo/net/weights.py:68-70 | the cursor advances by size and the returned value is the possibly truncated slice it passed over |
| WeightLoader.WeightReader.Load1dVar | models/yolo/net/weights.py:72-75 | reading and assigning a vector leaves the reader and network in exactly the state the plan's vector step describes |
| WeightLoader.WeightReader.Load4dVar | models/yolo/net/weights.py:77-82 | reading, reshaping, transposing and assigning a kernel ends in exactly the state the plan's kernel step describes |
| WeightLoader.WeightReader.LoadVectors | models/yolo/net/weights.py:30-34 | the suffix loop ends in the state of running the layer's vector reads |
| WeightLoader.WeightReader.LoadLayer | models/yolo/net/weights.py:29-38 | loading one layer ends in the state of running that layer's plan |
| WeightLoader.WeightReader.LoadLayers | models/yolo/net/weights.py:24-38 | the layer loop ends in the state of running the loader plan over layers 0..count-1 |
| WeightLoader.WeightReader.LoadOriginWeights | models/yolo/net/weights.py:22-38 | the full loader ends in the state of the plan over num_layers layers that may skip 81, 93 and 105 |
| WeightLoader.WeightReader.LoadBodynet | models/yolo/net/weights.py:40-55 | the body loader ends in the state of the plan over num_body layers that may skip 53 |
| Train.Join | models/yolo/train.py:68 | POSIX join: an absolute name wins; otherwise the result starts with the directory, ends with the name, and has a '/' between them when the directory is non-empty |
| Train.Setup | models/yolo/train.py:64-71 | a save name exists iff a non-empty directory is given, and it is join(directory, "weights") |
| Train.SaveFile | models/yolo/train.py:30 | the saved file is the save name followed by ".h5" |
| Train.SavePath | models/yolo/train.py:68 | with a directory set, every save writes `<dir>/weights.h5`, with no doubled slash after a trailing one |
| Train.SumLosses | models/yolo/train.py:37-45 | defines `loss_value += loss` over n consecutive draws starting at a given draw; bounded by Train.SumBounds |
| Train.Mean | models/yolo/train.py:34-48 | defines an epoch's loss: the sum of steps_per_epoch consecutive batch losses divided by steps_per_epoch; bounded by Train.MeanBounds and realised by Train.MeanLoss |
| Train.SumBounds | models/yolo/train.py:37-45 | the sum of n batch losses lies between n times their lower and upper bounds |
| Train.MeanBounds | models/yolo/train.py:34-48 | an epoch's mean loss lies between any bounds on its batch losses |
| Train.EpochLosses | models/yolo/train.py:12-27 | the history has one entry per epoch |
| Train.EpochLossesAt | models/yolo/train.py:13-27 | history entry e is the mean over the e-th consecutive block of steps_per_epoch batches |
| Train.Min | models/yolo/train.py:28 | `min(history)` is an element of the history and no larger than any element |
| Train.SavedEpochs | models/yolo/train.py:27-30 | every saved epoch is an epoch of the history |
| Train.SavedEpochsExactly | models/yolo/train.py:27-30 | epoch e is saved iff its loss is no larger than every loss of epochs 0..e, ties included |
| Train.SavedEpochsIncrease | models/yolo/train.py:13-30 | saves are logged in strictly increasing epoch order |
| Train.FirstEpochSaves | models/yolo/train.py:27-30 | the first epoch always saves |
| Train.LastSaveIsBest | models/yolo/train.py:27-30 | the last saved epoch holds the minimum loss of the whole history |
| Train.SavedExample | models/yolo/train.py:27-30 | losses [5,3,4,2,2] save at epochs 0, 1, 3 and 4: ties re-save |
| Train.SaveLog | models/yolo/train.py:27-30 | defines the save events of a history: none without a save name, else one per saved epoch, all to `<save_fname>.h5`; its step-by-step form is Train.SaveLogSnoc |
| Train.SavedEpochsSnoc | models/yolo/train.py:27-28 | a new epoch adds itself to the saves iff its loss equals the new minimum |
| Train.SaveLogSnoc | models/yolo/train.py:27-30 | a new epoch appends one save event, of that epoch and the save file, iff saving is on and its loss equals the new minimum |
| Train.NoSaveWithoutDirectory | models/yolo/train.py:64-71 | with a missing or empty directory nothing is ever saved |
| Train.BatchGenerator.constructor | models/yolo/train.py:34-38 | a generator with the given steps_per_epoch and per-draw losses starts with no batch drawn |
| Train.BatchGenerator.NextBatch | models/yolo/train.py:38 | drawing a batch advances the generator by one and yields that draw's loss |
| Train.MeanLoss | models/yolo/train.py:34-48 | the epoch loop draws exactly steps_per_epoch batches and returns the mean of their losses |
| Train.EpochLoss | models/yolo/train.py:16-23 | an epoch trains for steps_per_epoch batches and reports the validation mean when a validation generator is given, else the training mean |
| Train.RecordLoss | models/yolo/train.py:27-30 | appending a loss keeps the save log equal to the save rule applied to the extended history |
| Train.TrainFn | models/yolo/train.py:9-32 | after n epochs each generator has drawn n*steps batches, the history is the per-epoch means of the monitored generator in epoch order, and the saves are exactly the save rule over that history |
| TrainerVoc.NatToString | trainers/trainer_voc.py:86 | defines Python's `str(n)` for a natural number: a non-empty string of decimal digits; it reads back by TrainerVoc.NatToStringRoundTrip |
| TrainerVoc.DetectionTag | trainers/trainer_voc.py:86 | defines the tag `"detections_{}".format(i)`; distinct indices give distinct tags by TrainerVoc.DetectionTagsDistinct |
| TrainerVoc.NatToStringRoundTrip | trainers/trainer_voc.py:86 | the decimal text of an image index reads back as that index |
| TrainerVoc.DetectionTagsDistinct | trainers/trainer_voc.py:86 | different image indices get different `detections_<i>` tags |
| TrainerVoc.LoggerVoc | trainers/trainer_voc.py:30 | there is one metric name per label plus one |
| TrainerVoc.LoggerVocDistinct | trainers/trainer_voc.py:30 | the names are `AP@<label>` in label order and then `mAP`, pairwise distinct when the labels are |
| TrainerVoc.MeanMetric.Update | trainers/trainer_voc.py:48-50 | defines `update_state` of `keras.metrics.Mean` on one value: the total takes in the value and the count grows by one |
| TrainerVoc.MeanMetric.Result | trainers/trainer_voc.py:83 | defines `result()`: total over count, and 0 before any update |
| TrainerVoc.ValidBatches | trainers/trainer_voc.py:55-59 | defines the batches a pass feeds before the `break` at index 5: the whole loader when it has at most 5, else its first 5; its property is TrainerVoc.ValidPassCap |
| TrainerVoc.Annotations | trainers/trainer_voc.py:61 | defines the annotated images `append(..., visualize=True)` adds for a run of batches, in batch order; used by TrainerVoc.ValidPass |
| TrainerVoc.ValidPass | trainers/trainer_voc.py:53-64 | defines `_valid_epoch`: at most five batches appended to the unreset evaluator, then the results over everything appended and all annotated images; its properties are TrainerVoc.ValidPassCap and TrainerVoc.CycleFeedsTwice |
| TrainerVoc.Reset | trainers/trainer_voc.py:32-36 | defines `_reset_loggers`: the evaluator is emptied and counted as reset, and the three loss means start over |
| TrainerVoc.Trained | trainers/trainer_voc.py:48-50 | defines `train_step`'s effect on the trainer: each loss mean takes in its component of the batch |
| TrainerVoc.VocScalars | trainers/trainer_voc.py:80-81 | defines the `zip(logger_voc, results)` scalars: one per pair, stopping at the shorter list; their placement is stated by TrainerVoc.LogCycleRecords |
| TrainerVoc.LossScalars | trainers/trainer_voc.py:82-83 | defines the three loss scalars, lossBox, lossConf and lossClass in `logger_losses` order, each the mean's result; stated by TrainerVoc.LogCycleRecords |
| TrainerVoc.ImageSummaries | trainers/trainer_voc.py:85-87 | defines the corrected image records: one `detections_<i>` record per annotated image; stated by TrainerVoc.LogCycleRecords and tied to the loop by TrainerVoc.PicturesImageLoop |
| TrainerVoc.AsWrittenPayloads | trainers/trainer_voc.py:84 | defines what the image loop iterates over as written: the pair (results, images); its effect is TrainerVoc.AsWrittenCycleRaises |
| TrainerVoc.Cycle | trainers/trainer_voc.py:76-88 | defines the corrected logging cycle: two validation passes, the AP/mAP and loss scalars, one record per image of the second pass, then the reset; its properties are TrainerVoc.LogCycleRecords and TrainerVoc.LogCycleResets |
| TrainerVoc.ImageLoop | trainers/trainer_voc.py:85-87 | the image loop writes `detections_<k>` for each element in order while it is a single image, and raises at the first element that is not, iff there is one, keeping what it wrote before |
| TrainerVoc.PicturesImageLoop | trainers/trainer_voc.py:85-87 | over a list of single images the loop never raises and writes exactly one record per image |
| TrainerVoc.CycleAsWritten | trainers/trainer_voc.py:76-88 | defines the cycle as written: the image loop runs over the (results, images) pair, and the reset happens only if the loop finishes; its outcome is TrainerVoc.AsWrittenCycleRaises |
| TrainerVoc.CycleDue | trainers/trainer_voc.py:76 | defines when a cycle runs: the counter is a multiple of log_iter, or log_iter is 0, where numpy's `% 0` gives 0 |
| TrainerVoc.Batch | trainers/trainer_voc.py:67-88 | defines one loop iteration: count, train, and run the corrected cycle when one is due; its properties are TrainerVoc.BatchCounters, TrainerVoc.BatchLogs and TrainerVoc.BatchKeepsPhase |
| TrainerVoc.Batches | trainers/trainer_voc.py:67-88 | defines the batch loop of the corrected trainer: every batch in order, each by TrainerVoc.Batch; its properties are TrainerVoc.BatchesCounters and TrainerVoc.BatchesKeepPhase |
| TrainerVoc.Epoch | trainers/trainer_voc.py:66-89 | defines the corrected `_train_epoch`: every batch in order, then one checkpoint keyed by the epoch; its properties are TrainerVoc.EpochCheckpoint and TrainerVoc.EpochKeepsPhase |
| TrainerVoc.ValidPassCap | trainers/trainer_voc.py:55-61 | a validation pass feeds at most 5 batches: all of a loader of at most 5, else its first 5, appended after what the evaluator already holds, without reset |
| TrainerVoc.CycleFeedsTwice | trainers/trainer_voc.py:77-84 | the two passes of a cycle append the same batches twice to the unreset evaluator |
| TrainerVoc.LogCycleRecords | trainers/trainer_voc.py:76-88 | a cycle writes the AP/mAP scalars zipped with the first pass's results, then lossBox, lossConf and lossClass, then one record per image of the second pass, all at the current step |
| TrainerVoc.LogCycleResets | trainers/trainer_voc.py:88 | after a cycle the three means and the evaluator are empty, the evaluator has been reset exactly once, and global_iter, global_epoch and the checkpoints are unchanged |
| TrainerVoc.CycleAppendsAtStep | trainers/trainer_voc.py:79-87 | a cycle keeps every earlier record, appends at least the three loss scalars, and stamps every new record with the current step |
| TrainerVoc.BatchCounters | trainers/trainer_voc.py:67-77 | a batch advances the counter by one and resets once iff a cycle is due at the new count (a multiple of log_iter, or every count when log_iter is 0) |
| TrainerVoc.BatchLogs | trainers/trainer_voc.py:76-87 | a batch writes summaries iff a cycle is due at the incremented counter, and every record carries the incremented counter |
| TrainerVoc.BatchesCounters | trainers/trainer_voc.py:67-88 | over n batches the counter advances by n, the epoch and checkpoints are unchanged, and one cycle runs per new count at which one is due |
| TrainerVoc.MultiplesAfter | trainers/trainer_voc.py:76 | defines how many of the counts g+1..g+n have a cycle due; its closed forms are TrainerVoc.MultiplesAfterIs and TrainerVoc.MultiplesAfterZero |
| TrainerVoc.MultiplesAfterIs | trainers/trainer_voc.py:76 | for log_iter > 0, the number of multiples of log_iter among g+1..g+n is (g+n)/log_iter - g/log_iter |
| TrainerVoc.MultiplesAfterZero | trainers/trainer_voc.py:76 | with log_iter 0 a cycle is due at every one of the n new counts |
| TrainerVoc.EpochCheckpoint | trainers/trainer_voc.py:89 | in the corrected trainer, every epoch appends exactly one checkpoint, keyed by the epoch number, whatever the cadence; the counter advances by the batch count; (g+n)/log_iter - g/log_iter cycles run when log_iter > 0, one per batch when it is 0 |
| TrainerVoc.MeansInPhase | trainers/trainer_voc.py:48-50 | defines the phase invariant: each loss mean's count is the counter modulo log_iter (0 when log_iter is 0); it is kept by TrainerVoc.BatchKeepsPhase |
| TrainerVoc.BatchesKeepPhase | trainers/trainer_voc.py:67-88 | a run of batches keeps each loss mean's count equal to the number of batches since the last cycle |
| TrainerVoc.BatchKeepsPhase | trainers/trainer_voc.py:48-50 | a batch keeps each loss mean's count equal to the counter modulo log_iter (0 when log_iter is 0) |
| TrainerVoc.EpochKeepsPhase | trainers/trainer_voc.py:66-88 | across an epoch each loss mean's count stays equal to the number of batches since the last cycle |
| TrainerVoc.AsWrittenCycleRaises | trainers/trainer_voc.py:76-88 | as written, every cycle raises at its first image record (the results vector is not an image): the AP/mAP and loss scalars stay written, no image record is written, and neither the evaluator, which holds both passes' batches, nor the loss means are reset |
| TrainerVoc.AsWrittenDropsImages | trainers/trainer_voc.py:84-87 | with three validation batches of one image each, the second pass holds six images; as written the cycle raises after its five scalars, while the corrected cycle writes the five scalars and six image records |
| TrainerVoc.Trainer.constructor | trainers/trainer_voc.py:23-30 | a new trainer has empty loss means, an empty evaluator, and no summaries or checkpoints |
| TrainerVoc.Trainer.ResetLoggers | trainers/trainer_voc.py:32-36 | the evaluator and the three loss means are reset and nothing else changes |
| TrainerVoc.Trainer.TrainStep | trainers/trainer_voc.py:48-50 | each loss mean takes in its component of the batch's loss, and nothing else changes |
| TrainerVoc.Trainer.ValidEpoch | trainers/trainer_voc.py:53-64 | the loop with its break at index 5 ends in the state of the capped validation pass and returns its results and images |
| TrainerVoc.Trainer.LogVocScalars | trainers/trainer_voc.py:80-81 | one scalar is written per (name, result) pair, stopping at the shorter list |
| TrainerVoc.Trainer.LogImages | trainers/trainer_voc.py:85-87 | one image record is written per image, tagged by its index |
| TrainerVoc.Trainer.LogCycle | trainers/trainer_voc.py:76-88 | the logging block ends in the state of the corrected cycle |
| TrainerVoc.Trainer.RunBatch | trainers/trainer_voc.py:68-88 | one loop iteration ends in the state of counting, training and, when a cycle is due, running the corrected cycle |
| TrainerVoc.Trainer.TrainEpoch | trainers/trainer_voc.py:66-89 | the epoch loop of the corrected trainer ends in the state of running every batch and then appending one checkpoint |

## Left out

- Opening and reading the weight file: the model takes the file's bytes as a value.
- The float interpretation of weights: a weight is its 32-bit pattern, because the loader never computes on it.
- The TensorFlow model, its forward pass, `GradientTape`, the optimizer and `@tf.function` tracing: these are foreign calls. A network is only its per-layer schema of tensor shapes plus the values assigned to them.
- `loss_fn`, `loss_yolo` and the `EvaluatorVOC` AP/mAP computation: these are floating-point numerics in modules outside this model. Losses arrive per batch from the generator, and evaluator results are a given function of the appended batches.
- The evaluator's `reset`, which is not part of this model: it is assumed to empty the appended batches and the annotated images.
- The loss terms of a training batch: each counts as one scalar update of its running mean; `keras.metrics.Mean` weighting over tensor elements is not modelled.
- NaN losses: `real` has no NaN, so `loss_value == min(history)` never behaves as it would on a NaN.
- `print`, `tqdm`, `tf.summary` writer internals, `os.makedirs`, `model.save_weights` and `ckpt_manager` internals: these are I/O. The model records only the save events, the summary records and the checkpoint numbers.
- The `if __name__ == '__main__'` scripts in both source files: they are ad-hoc drivers with fixed paths.
- Train.MeanLoss: steps_per_epoch == 0 raises a division by zero in the source; the model requires steps_per_epoch > 0 instead.
- Train.TrainFn, Train.EpochLoss: require the validation generator to be a different object from the training generator. Passing the same generator twice (aliasing) is not modelled.
- Train.BatchGenerator: `next_batch` and `_grad_fn` are merged into one oracle, which gives the loss of the k-th batch the generator draws.
- The training loop's `log_iter` is a natural number: a negative cadence, for which Python's `%` floors, is not modelled. A cadence of 0 is modelled as numpy evaluates `global_iter.numpy() % 0`: the result is 0 (with a runtime warning), so a cycle runs after every batch.
- TrainerVoc.AsWrittenDropsImages: the exception is modelled as "`tf.summary.image` rejects any element that is not a single image". This assumes the evaluator's results are a vector of numbers, since `EvaluatorVOC` is not part of this model. The TensorFlow error type and message, and what the writer may have flushed, are not modelled.
- The test loader is modelled as a restartable, unshuffled sequence. Every `_valid_epoch` call therefore sees the same batches from the first one on. A one-shot or shuffling loader would differ. A one-shot loader would also use up a sixth batch, drawn before the `break` at index 5.
- WeightLoader.WeightReader.Load4dVar: a kernel whose transposed shape does not match its declared shape is reported as `KernelNotSquare`, standing for the error `variable.assign` raises.
- WeightFile.Int32, WeightFile.U32: the bytes are read as little-endian. The source uses the host's native byte order (`struct.unpack('i', ...)` and `np.frombuffer(..., dtype='float32')`), which is little-endian on the usual hosts; big-endian hosts are not modelled.
- The evaluator's `evaluate` and annotation functions are fixed for the whole run. The model therefore does not capture that the AP results and annotated images depend on the network's training so far; no property here depends on them.
- As written, the first due cycle of an epoch raises at the image loop (trainers/trainer_voc.py:86-87), so neither `_reset_loggers` nor `ckpt_manager.save` runs and that epoch saves no checkpoint. TrainerVoc.Epoch, TrainerVoc.EpochCheckpoint and TrainerVoc.Trainer.TrainEpoch describe the corrected trainer.
- Both loaders stop at the first failed assignment, as the exception in the source would. Values assigned before the failure stay assigned.

## Findings

| source | as written | input that shows it | evidently intended | confidence | as-written member | corrected member |
|---|---|---|---|---|---|---|
| trainers/trainer_voc.py:84 | `imgs = self._valid_epoch()` binds the (results, images) pair, so the image loop runs over that pair and never over the annotated images one by one. Its first element is the results vector, which `tf.summary.image` cannot take as an image, so the cycle raises after the scalars are written and before `_reset_loggers`, and training stops at the first cycle | any run that reaches `global_iter % log_iter == 0`; for three validation batches of one annotated image each, the second pass holds six images and none is logged | unpack the pair (`_, imgs = ...`) and write one `detections_<i>` record per annotated image | not executed; high that the images are never logged one by one (from the types of the two lines); medium that the call raises (from the rank `tf.summary.image` requires) | TrainerVoc.AsWrittenDropsImages | TrainerVoc.LogCycleRecords |
