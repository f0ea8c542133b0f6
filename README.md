# chainer-rnn-ner training core, in Dafny

This project models the training and evaluation control logic of
`bin/train_model.py`. That script trains an LSTM named-entity tagger with Chainer.
The model covers four parts:

- **Singleton replacement** (`replace_singleton`). Rare-word ids are replaced by
  the unknown id 0 at random, once per training batch. The random draw is an
  explicit mask with one bit per singleton occurrence. `Singleton` holds the
  specification. `Updater.Updater.ReplaceSingleton` is the in-place array
  algorithm, proved against that specification.
- **Batch preparation** (`Batch`, `Updater.Updater.UpdateCore`,
  `Evaluator.Evaluator.Evaluate`). Training passes the tokens through singleton
  replacement. Evaluation passes the raw tokens. Labels and character ids are
  passed through unchanged. Both paths build zero initial states of shape
  `(1, N, W)`: `W = unit` for the word-level classes and `W = unit + 50` for the
  character classes. One class with a `Variant` stands for both `LSTMUpdater`
  and `CharLSTMUpdater`, whose code is otherwise identical. The same holds for
  the two evaluators.
- **Loss and accuracy aggregation** (`Classifier`). The loss is a plain sum over
  `zip(y, t)`. The accuracy sum is `Σ accfun(yi, ti) * len(ti)` and the count is
  `Σ len(ti)`. The reported accuracy is their quotient. The two failing cases of
  that division are modelled as errors.
- **Evaluator iterator copy** (`Evaluator`). `evaluate` walks a copy of the
  validation iterator (`BatchCursor.Copy`), so the iterator itself never moves.
  Every evaluation therefore sees the same batches (`EvaluateTwice`).

`lossfun`, `accfun` and the tagger network (`predictor`) are function-valued
`const` fields of the classifier: total, deterministic functions returning
`real` values. Their values are otherwise unconstrained, except where a lemma
states a hypothesis about `accfun` (an accuracy in [0, 1]).

Two behaviours of the code are worth stating outright:

- An empty batch makes `__call__` raise rather than give zero-count metrics.
  With no pairs, `self.accuracy` is still `None`, and `None / 0` raises at
  line 62. A batch whose label sequences are all empty also raises (division
  by zero).
- Evaluation is not read-only. Every call overwrites the target's `y`, `loss`
  and `accuracy` fields. `Evaluate` declares this in its `modifies` clause.

## Model

| member | source | states |
|---|---|---|
| `Singleton.SingletonIds` | bin/train_model.py:75-77 | an id is a key of `id2singleton` iff some word of `singleton` maps to it |
| `Singleton.ScatterAt` | bin/train_model.py:100-102 | `is_singleton[is_singleton] = bool_mask` keeps unflagged positions false and gives the k-th flagged position the k-th mask bit |
| `Singleton.ScatterStep` | bin/train_model.py:101-102 | extending the flags by one position extends the scattered mask by that position's outcome and consumes one more bit iff the position is flagged |
| `Singleton.ScatterCount` | bin/train_model.py:101-102 | as many positions stay selected as the draw has 1-bits |
| `Singleton.ReplacedAt` | bin/train_model.py:97-106 | the result keeps the input's length; a non-singleton keeps its id; a singleton becomes 0 exactly when its bit in the draw (numbered by the singleton occurrences before it) is 1 |
| `Singleton.ChangesOnlySingletons` | bin/train_model.py:100-105 | a position changes only if its id is a singleton id, and then it becomes 0 |
| `Singleton.SelectedCount` | bin/train_model.py:101-105 | the number of replaced positions equals the number of 1-bits, which is at most the sequence length |
| `Singleton.AllFalseMaskIsIdentity` | bin/train_model.py:101-105 | an all-zero draw returns the input unchanged |
| `Singleton.NoSingletonsIsIdentity` | bin/train_model.py:100-106 | a sequence without singleton ids draws no bits and comes back unchanged |
| `Singleton.AllTrueMaskReplacesEverySingleton` | bin/train_model.py:100-105 | an all-one draw replaces every singleton occurrence with 0 and leaves every other id alone |
| `Updater.Updater.ReplaceSingleton` | bin/train_model.py:97-106 | returns a fresh array of the input's length holding exactly the specified replacement; the caller's tokens are untouched |
| `Updater.AssignMasked` | bin/train_model.py:100-102 | the in-place masked assignment leaves the flag array equal to the scatter of the draw over the old flags |
| `Updater.ZeroWhere` | bin/train_model.py:104-105 | the in-place masked assignment writes 0 at selected positions and changes nothing else |
| `Updater.Updater.constructor` | bin/train_model.py:68-77 | the updater stores its settings and the singleton ids, i.e. the values of `singleton` |
| `Updater.Updater.UpdateCore` | bin/train_model.py:79-95 | the target receives the training inputs of the batch and the batch's labels in training mode; its `y`, `loss` and `accuracy` fields are left as the aggregation over that call sets them, and the step's loss, accuracy and count are those of the aggregation |
| `Batch.StateWidth` | bin/train_model.py:134-137 | the state width is `unit` for the word-level classes and `unit + 50` for the character classes |
| `Batch.Zeros` | bin/train_model.py:88-91 | the initial state has shape `(d0, d1, d2)` and every entry is 0 |
| `Batch.Labels` | bin/train_model.py:85 | one label list per example, the example's `x[2]` unchanged |
| `Batch.Characters` | bin/train_model.py:130-131 | one character-id list per example, the example's `x[1]` unchanged |
| `Batch.TrainingInputsShape` | bin/train_model.py:126-137 | training inputs have one token list per example with its length kept; each token is its own id or, for a singleton id, 0; states are zero of shape `(1, N, W)`; characters are passed exactly for the character variant |
| `Batch.EvaluationInputsShape` | bin/train_model.py:206-213 | evaluation inputs carry the raw `x[0]` of every example, with the same state and character shapes as training |
| `Batch.TrainingWithoutDrawsIsEvaluation` | bin/train_model.py:82-85 | training with an all-zero draw for every example prepares exactly the evaluation inputs |
| `Batch.NoSingletonsTrainsOnRawTokens` | bin/train_model.py:82-85 | a batch without singleton ids trains on exactly the evaluation inputs |
| `Classifier.Zip` | bin/train_model.py:46 | the visited pairs are `(y[i], t[i])` for `i` below the shorter length |
| `Classifier.LossSumAppend` | bin/train_model.py:46-50 | the loss of concatenated pair lists is the sum of their losses |
| `Classifier.BatchLossAdditive` | bin/train_model.py:46-50 | the batch loss is summed, not averaged: the loss of a batch is the loss of its first part plus the loss of the rest |
| `Classifier.TokenCountZero` | bin/train_model.py:53-61 | the count is 0 iff every zipped label sequence is empty |
| `Classifier.TokenCountPositive` | bin/train_model.py:53-61 | one non-empty zipped label sequence makes the count positive |
| `Classifier.WeightedBounds` | bin/train_model.py:57 | a sequence's accuracy in [0, 1] weighted by its length lies between 0 and that length |
| `Classifier.AccuracySumBounds` | bin/train_model.py:55-61 | with every accuracy in [0, 1], the accumulated accuracy lies between 0 and the count |
| `Classifier.ReportedAccuracyInUnitInterval` | bin/train_model.py:53-62 | with every accuracy in [0, 1], a call that returns reports an accuracy in [0, 1] |
| `Classifier.CallFailsIffNoTokens` | bin/train_model.py:46-62 | a call fails iff accuracy is computed and no zipped label sequence has a token |
| `Classifier.PerfectPredictionsReportOne` | bin/train_model.py:53-62 | perfect predictions on a batch with a token report accuracy 1, and the count is the total label length |
| `Classifier.Classifier.constructor` | bin/train_model.py:29-36 | stores the predictor and the two scoring functions, turns accuracy on, and clears `y`, `loss`, `accuracy` |
| `Classifier.Classifier.Call` | bin/train_model.py:38-63 | sets `y` to the predictor's output and `loss`/`accuracy` to the accumulated sums; returns `(loss, accuracy, count)` with the reported quotient, or the error the division raises |
| `Classifier.Classifier.AccumulateLoss` | bin/train_model.py:46-50 | the loss loop leaves `self.loss` as the sum of the pair losses, `None` when there is no pair |
| `Classifier.Classifier.AccumulateAccuracy` | bin/train_model.py:53-61 | the accuracy loop leaves the length-weighted sum in `self.accuracy` and returns the total label length |
| `Evaluator.RemainingCoversDataset` | bin/train_model.py:265-266 | a fresh pass yields the examples from the cursor on, each once and in order, in batches of at most `batch_size` |
| `Evaluator.BatchCursor.Drain` | bin/train_model.py:169-171 | looping over the iterator itself, without the copy, yields every remaining batch in order and leaves it yielding nothing, so a second evaluation over it would see no batch |
| `Evaluator.BatchCursor.constructor` | bin/train_model.py:265-266 | a new validation iterator starts at position 0 in epoch 0 |
| `Evaluator.BatchCursor.Copy` | bin/train_model.py:169 | `copy.copy` gives a fresh cursor with the same dataset, batch size, position and epoch |
| `Evaluator.BatchCursor.Next` | bin/train_model.py:171 | `next` yields the first remaining batch and leaves the rest, or stops without moving |
| `Evaluator.SweepStep` | bin/train_model.py:171-183 | one batch of a pass either ends it with its error or adds its aggregate to those gathered so far |
| `Evaluator.SweepPerBatch` | bin/train_model.py:171-183 | a successful pass gives one aggregate per batch, the outcome of calling the target on that batch's raw inputs with `train=False` |
| `Evaluator.Evaluator.constructor` | bin/train_model.py:157-164 | the evaluator stores its iterator, target, variant and unit |
| `Evaluator.Evaluator.Evaluate` | bin/train_model.py:166-184 | the iterator's position and epoch are unchanged, and the result is the pass over its remaining batches with evaluation inputs |
| `Evaluator.Evaluator.EvaluateTwice` | bin/train_model.py:169 | two successive evaluations give the same result, because the copied iterator leaves the original unmoved |

## Left out

- Chainer autograd (`cleargrads`, `loss.backward()`), `optimizer.update()`, Adam and `GradientClipping(5)`. These are framework calls whose logic is not in the source. `GradientClipping` is added only for the `bilstm` and `lstm` model types.
- The tagger networks (`NERTagger`, `BiNERTagger`, `BiCharNERTagger`), `F.softmax_cross_entropy` and `F.accuracy`. They are foreign code. The classifier holds them as arbitrary functions.
- Floating point. Losses, accuracies and state entries are `real`.
- `np.random.randint`. The draw is a mask argument whose length the caller guarantees (`Batch.MasksFit`).
- The `int32` conversion of token and label ids (`xp.array(..., dtype=int32)`). Ids are unbounded integers and no wrap-around is modelled.
- GPU/cupy selection (`self.xp`, `to_gpu`).
- `main()`: argument parsing, the run directory and `settings.json`, data loading, GloVe loading, snapshots, progress and log reports, `trainer.run()`.
- `reporter.report`, `report_scope` and `DictSummary`. `Evaluate` returns the per-batch aggregates; the mean over batches is not computed.
- The training iterator. `UpdateCore` receives the batch its `next()` returned; the epoch wrap-around and shuffling of a repeating iterator are not modelled.
- Evaluator.BatchCursor: models a non-repeating `SerialIterator` only as far as `evaluate` depends on it, in dataset order. Chainer shuffles by default, and that order is not modelled. The iterator's code is not part of the source.
- Evaluator.Evaluator.Evaluate: does not state the values left in the target's `y`, `loss` and `accuracy` fields after the pass, which are those of the last batch called.
- Classifier.Classifier.Call: does not model `assert len(args) >= 2`, which every caller meets. The two failing divisions are the errors `NoPairs` and `ZeroTokenCount`; Python's exception types (`TypeError`, `ZeroDivisionError`) are not modelled as such.
- Classifier.Classifier: `predictor`, `lossfun` and `accfun` are fixed deterministic functions, so the model's parameters never change between calls, a training-mode call has no dropout randomness, and backend nondeterminism is not modelled. `Evaluator.Evaluator.EvaluateTwice` relies on this: no training step can run between its two evaluations, and its result would not hold across an `optimizer.update()`.
