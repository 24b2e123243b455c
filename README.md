# CoVeR bookkeeping model

A Dafny model of the bookkeeping in `CoVeRModel` (CoVerModel.py). CoVeR learns word
embeddings from several corpora at once, with one covariate vector per corpus. The
model covers what happens around the numerics:

- **Tensor merger** (`tensor_merger.dfy`). `fit_corpora` collects one sparse
  co-occurrence dict per corpus, keyed `(focal, context)`. It appends the corpus
  index to every key and unions the dicts into one tensor keyed
  `(focal, context, corpus)`. Vocabulary sizes are added up and `k` counts the corpora.
  Both counters keep growing over repeated fits. The tensor and the `models` list are
  rebuilt from the latest corpora.
- **Batch generator** (`batch_generator.dfy`). `__prepare_batches` turns the merged
  tensor into four parallel columns and cuts them into chunks of `batch_size` with
  `_batchify`. The undersized tail stays as the last chunk.
- **Training skeleton** (`training.dfy`). Each epoch of `train` shuffles the batch
  list in place and skips undersized batches. Each remaining batch is one optimizer
  step. Summaries and t-SNE snapshots are recorded whenever their interval divides
  the step or epoch number.
- **The model object** (`cover_model.dfy`). The class `CoVeRModel` keeps its
  configuration, the tensor, the counters and the shapes of the graph tables.
  `fit_corpora`, its three steps, `train`, the `covariates` property and
  `_device_for_node` work on these fields.

The model treats these as inputs:

- **Per-corpus statistics.** What the external GloVe statistics builder produces for
  a corpus: its co-occurrence dict and its vocabulary size (`CorpusStats`).
- **Iteration order.** The order in which Python iterates over the merged dict.
  This is an `order` sequence that lists every key exactly once (`IsEnumeration`).
- **Shuffle draws.** The random draws of `random.shuffle`, as a function
  `rand(epoch, i)`. `Shuffle` is Fisher–Yates driven by those draws. Its contract
  promises only a permutation.

Error paths follow the code:

- `train` before any fit raises `NotFitToCorpusError`.
- An empty merged tensor makes `zip(*[])` fail to unpack into four names
  (`UnpackError`).
- A second `train` runs all its epochs, then fails at `self.covariance_embeddings.eval()`.
  By then the attribute is already an evaluated array (`AttributeError`).
- `covariates` fails only while no graph exists, that is, before the first
  `fit_corpora`. Between fitting and training it returns the graph tensor. The code
  does this; a description that says it fails until `train` completes does not match
  the code.

## Model

| member | source | states |
|---|---|---|
| TensorMerger.RekeySize | CoVerModel.py:58-62 | appending the corpus index to every key of a corpus dict keeps its size: no two keys collide |
| TensorMerger.MergeEntries | CoVerModel.py:52-63 | the merged tensor holds (f, c, i) -> x exactly when corpus i's dict holds (f, c) -> x, with i in [0, number of corpora); nothing is lost and nothing is added |
| TensorMerger.MergeSize | CoVerModel.py:52-63 | the merged tensor's size is the sum of the per-corpus dict sizes: the union has no collisions |
| TensorMerger.SumVocabAppend | CoVerModel.py:49 | vocabulary sizes add up over corpora: fitting a then b adds up to the same as the list a + b |
| BatchGenerator.Unzip | CoVerModel.py:180 | `zip(*es)` unpacked into four columns fails exactly on an empty list, with an unpacking error; otherwise it gives four columns of len(es) that zip back to es |
| BatchGenerator.FlattenEntries | CoVerModel.py:178-180 | flattening fails exactly on an empty tensor; otherwise its four columns have the tensor's size, and their rows are the tensor's entries with their counts, each exactly once |
| BatchGenerator.RangeLength | CoVerModel.py:197 | `range(start, stop, step)` yields ceil((stop - start) / step) offsets |
| BatchGenerator.RangeAt | CoVerModel.py:197 | the j-th offset is start + j * step, below stop, and the last one is within a step of stop |
| BatchGenerator.RangeOffset | CoVerModel.py:197 | the j-th offset of `range` is start + j * step and lies below stop |
| BatchGenerator.RangeNext | CoVerModel.py:197 | consecutive offsets of `range` are exactly one step apart |
| BatchGenerator.BatchAt | CoVerModel.py:195-198 | batch j is the tuple of the four slices at offset j * batch_size, which lies inside the data |
| BatchGenerator.InnerBatchFull | CoVerModel.py:195-198 | every chunk but the last has batch_size entries in each of its four columns |
| BatchGenerator.LastBatchLength | CoVerModel.py:195-198 | the last chunk holds the 0 < L - b * (count - 1) <= b entries left over |
| BatchGenerator.ConcatPieces | CoVerModel.py:197-198 | the slices at successive offsets join back into the sequence from the starting offset on |
| BatchGenerator.BatchifyShape | CoVerModel.py:195-198 | `_batchify` yields ceil(L / b) batches; all but the last have b entries in every column, the last has L - b * (count - 1) |
| BatchGenerator.BatchifyConcat | CoVerModel.py:195-198 | joining the chunks of each column, in order, gives back that column: nothing is dropped, repeated or reordered |
| BatchGenerator.FullBatchesAreFull | CoVerModel.py:149-150 | only batches with exactly batch_size counts survive the skip, and each comes from the batch list |
| BatchGenerator.FullBatchesAllFull | CoVerModel.py:149-150 | a list of full batches passes the skip unchanged |
| BatchGenerator.BatchifyFullCount | CoVerModel.py:149-150 | exactly floor(L / b) of `_batchify`'s chunks are full and reach an optimizer step |
| BatchGenerator.LastBatchCount | CoVerModel.py:195-198 | the last chunk is full exactly when b divides L |
| BatchGenerator.PrepareBatches | CoVerModel.py:173-181 | no tensor gives NotFitToCorpusError; an unmerged list of dicts gives AttributeError; a merged tensor fails exactly when empty, with the unpacking error; otherwise it gives ceil(|tensor| / b) batches, of which floor(|tensor| / b) are full |
| Training.TicksMembers | CoVerModel.py:158 | the schedule fires at a counter value s below n exactly when (s + 1) % interval == 0 |
| Training.TicksIncreasing | CoVerModel.py:158 | recorded steps are strictly increasing and lie below the final counter |
| Training.TicksCount | CoVerModel.py:158 | a positive interval p fires floor(n / p) times over n counter values |
| Training.Shuffle | CoVerModel.py:146 | the in-place shuffle leaves a permutation of the batch list |
| Training.FullBatchesCounts | CoVerModel.py:147-150 | each batch appears among the survivors as often as in the list when it is full, and never otherwise |
| Training.FullBatchesPermutation | CoVerModel.py:146-150 | shuffling changes which order the full batches are fed in, never which batches or how many |
| Training.RunEpoch | CoVerModel.py:147-161 | one pass feeds exactly the full batches, in list order; the step counter grows by their number; summaries are recorded at the global steps s with (s + 1) % interval == 0 |
| Training.ShuffledEpoch | CoVerModel.py:146-165 | one epoch keeps the list a permutation of itself, feeds a permutation of the full batches, adds their number to the step counter, and extends the summary and snapshot schedules to the new step and epoch |
| Training.StepsAfterProduct | CoVerModel.py:145-161 | the counter after n epochs of p steps each is n * p |
| Training.RunEpochs | CoVerModel.py:145-165 | the batch list stays a permutation of itself; each epoch feeds a permutation of the full batches; total_steps ends at epochs * number of full batches; summaries and t-SNE snapshots follow their schedules |
| CoVeR.DeviceForNode | CoVerModel.py:200-204 | a node goes to "/gpu:0" exactly when its type is "Matmul", and to "/cpu:0" otherwise |
| CoVeR.CoVeRModel.constructor | CoVerModel.py:13-31 | the configuration is stored with the source's defaults; no tensor, zero counters, no covariate embeddings |
| CoVeR.CoVeRModel.FitCorpora | CoVerModel.py:33-37 | the tensor is the merge of these corpora alone, `models` is these corpora, the counters grow by their vocabulary sizes and count, and the graph is sized by the new counters |
| CoVeR.CoVeRModel.IterCorpora | CoVerModel.py:39-50 | the per-corpus dicts are collected afresh in corpus order, while vocab_size and k grow from their previous values |
| CoVeR.CoVeRModel.UpdateTensor | CoVerModel.py:52-63 | the tensor becomes the union of the per-corpus dicts, each rekeyed with its corpus index |
| CoVeR.CoVeRModel.BuildGraph | CoVerModel.py:65-132 | tables are sized vocab_size x embedding_size for focal, context and combined; k x embedding_size for covariates; vocab_size x k for the biases; covariance_embeddings becomes the graph tensor |
| CoVeR.CoVeRModel.RunTraining | CoVerModel.py:136-165 | max(0, num_epochs) epochs, each a permutation of the full batches; the step counter ends at epochs * number of full batches; summaries and snapshots fire only with a log dir and a truthy interval |
| CoVeR.CoVeRModel.Covariates | CoVerModel.py:183-187 | fails exactly while no graph exists, with NotTrainedError; otherwise holds a k x embedding_size table |
| CoVeR.CoVeRModel.Train | CoVerModel.py:134-171 | no tensor gives NotFitToCorpusError and an empty one the unpacking error, both with no other effect; otherwise it runs max(0, num_epochs) epochs, each feeding a permutation of the full batches; total_steps ends at epochs * floor(|tensor| / batch_size); summaries and snapshots fire only with a log dir and a truthy interval; a first run evaluates the covariate embeddings and a second fails with AttributeError; the tensor, counters and graph are unchanged |
| CoVeR.ScenarioMerge | CoVerModel.py:52-63 | two corpora with the same dict merge into four entries, one copy per corpus index |
| CoVeR.MergeCopies | CoVerModel.py:52-63 | corpora sharing one dict d merge into d's entries tagged with every corpus index, with d's counts |
| CoVeR.ScenarioVocab | CoVerModel.py:49 | two vocabularies of size 3 add up to 6 |
| CoVeR.ScenarioEntries | CoVerModel.py:63 | a tensor with exactly the two corpus-tagged copies of the dict is the four-entry map |
| CoVeR.FitTwoCorpora | CoVerModel.py:33-50 | fitting the two corpora gives vocab_size 6, k 2 and a 2 x 8 covariate graph tensor |
| CoVeR.TwoCorpusRun | CoVerModel.py:134-187 | fitting two corpora and training with batch size 2 and the default 50 epochs runs 100 steps, writes no summaries without a log dir, and ends with an evaluated 2 x 8 covariate table |

## Left out

- The graph numerics are not modelled: the random initial tables, the weighting factor, the loss, and the Adagrad optimizer run by `session.run`. The graph keeps only the shapes of its tables, and a training step is recorded as the batch it was fed.
- What a summary contains is not modelled; the model records the global step at which each summary is written.
- Rendering the t-SNE snapshots is not modelled; the model records the epoch of each snapshot.
- The file I/O is not modelled: the `FileWriter` and its `close`, the t-SNE image files and the `print` calls.
- The GloVe statistics builder (`GloVeModel.__fit_to_corpus`) is external. Its output per corpus is an input, so vocabulary filtering and context windows are not modelled.
- `get_glove_model` trains a separate GloVe model and is not part of this model.
- Training.Shuffle: promises only a permutation, not CPython's exact sequence of swaps, because the random source is external.
- The iteration order of Python dicts is an input, so the model does not state insertion-order iteration.
- BatchGenerator.PrepareBatches: requires a positive batch size. `range` with step 0 raises, and a negative size makes the placeholders invalid; the constructor therefore requires `batch_size > 0`.
- CoVeR.CoVeRModel.Covariates: `NotTrainedError` is not defined or imported in the file, so the raise would be a `NameError` in practice. The model keeps it as an abstract `NotTrainedError` outcome.
- CoVeR.CoVeRModel.UpdateTensor: the source overwrites `temp[i]` in the same list object it reads from. The model builds a new list; no other code can observe the difference.
- The graph device placement is not modelled beyond `DeviceForNode`. TensorFlow names its matrix-multiply op type `MatMul`, so the test against `"Matmul"` places every node on the CPU.
- Counts are `real` and ids `int`; the 32-bit and float32 placeholder types are not modelled.
