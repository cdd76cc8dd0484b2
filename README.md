# Checkpoint history and training-loop control of the NMT engine trainer

This project models the bookkeeping half of `NMTEngineTrainer`, the class that trains
ModernMT's neural decoder. The model has three parts.

- **The checkpoint history** is `NMTEngineTrainer.State`, module `CheckpointHistory`.
  - It keeps a bounded list of the best checkpoints, ordered by perplexity, plus the
    current checkpoint.
  - `add_checkpoint` decides which checkpoint files are removed from disk. Removal is a
    ghost log of deleted file names.
  - The list is ordered with Python's stable sort. The model writes that sort as a stable
    insertion sort, `SortByPerplexity`. It proves that the result is sorted, is a
    permutation of its input, and is stable.
- **The running totals** are `_Stats`, module `TrainingStats`. The counters a training
  step adds to are a class with an `Update` method. The totals of a window of steps are
  the function `Accumulate`.
- **The control skeleton of `train_model`** is in module `TrainingControl`. It covers:
  - the termination policy;
  - the best-perplexity and stall bookkeeping of validation;
  - the switch that activates learning-rate decay;
  - the step-modulo schedules for reports, validation, decay and checkpoints.

  The loop is the method `Trainer.TrainModel`. It is proved against `Trace`, a step
  function over the control variables `(step, best, stalled, decayActive)`. Its logs are
  proved against further functions of that trace:
  - the reports, `Reports`;
  - the checkpoints handed to the history, `SavedCheckpoints`;
  - the learning-rate decay events, `DecayEvents`.

  The resulting history is what replaying those checkpoints through `add_checkpoint`
  gives, which is `Replayed`.

  A zero period makes the `%` of its test raise `ZeroDivisionError`, ending
  `train_model`, whenever that test is evaluated:
  - the report and checkpoint tests, in every iteration;
  - the validation test, only with a validation set;
  - the decay test, only while the switch is on.

  `Raises` says which test of an iteration raises. `Raised` says whether a run ends that way. The logs
  of the raising iteration hold only what it did before the test that raised.

The tensor work is abstract. Three function parameters and a batch count stand for it:
- `batch(step)`: the totals one training step adds;
- `evaluate(step)`: the validation perplexity measured at a step;
- `trainingPerplexity(totals)`: the perplexity of a window's totals;
- `supply`: the number of batches the data iterator hands out. It yields consecutive
  steps starting at `state.last_step`.

## Model

| member | source | states |
|---|---|---|
| `CheckpointHistory.InsertPermutes` | src/decoder-neural/src/main/python/nmmt/NMTEngineTrainer.py:114-115 | Putting a record into the list adds exactly that record to the multiset of records |
| `CheckpointHistory.InsertSorts` | src/decoder-neural/src/main/python/nmmt/NMTEngineTrainer.py:114-115 | Inserting into a list sorted by perplexity keeps it sorted |
| `CheckpointHistory.SortSortsAndPermutes` | src/decoder-neural/src/main/python/nmmt/NMTEngineTrainer.py:115 | The sort by perplexity returns an ascending list that is a permutation of its input |
| `CheckpointHistory.SortIsStable` | src/decoder-neural/src/main/python/nmmt/NMTEngineTrainer.py:115 | Records of equal perplexity keep their relative order through the sort |
| `CheckpointHistory.InsertKeepsTies` | src/decoder-neural/src/main/python/nmmt/NMTEngineTrainer.py:114-115 | An appended record goes behind every record it ties with; each tie group keeps its order |
| `CheckpointHistory.SortedIsFixpoint` | src/decoder-neural/src/main/python/nmmt/NMTEngineTrainer.py:115 | Sorting a history that is already in order leaves it unchanged |
| `CheckpointHistory.InsertPositionSplits` | src/decoder-neural/src/main/python/nmmt/NMTEngineTrainer.py:114-115 | A newcomer lands behind exactly the records whose perplexity is at most its own |
| `CheckpointHistory.EvictedFilesExactly` | src/decoder-neural/src/main/python/nmmt/NMTEngineTrainer.py:118-120 | A file is deleted for the evicted records exactly when some evicted record has it and it is not the file just written |
| `CheckpointHistory.ContainsIffPresent` | src/decoder-neural/src/main/python/nmmt/NMTEngineTrainer.py:98-102 | `_contains` holds exactly when some history record has the same file name |
| `CheckpointHistory.HistoryEmptyIffNoFile` | src/decoder-neural/src/main/python/nmmt/NMTEngineTrainer.py:86-87 | The history is empty exactly when `_contains` holds for no file |
| `CheckpointHistory.State.Empty` | src/decoder-neural/src/main/python/nmmt/NMTEngineTrainer.py:86-87 | `empty` holds exactly when the history contains no file name |
| `CheckpointHistory.SortByPerplexity` | src/decoder-neural/src/main/python/nmmt/NMTEngineTrainer.py:115 | The sort keeps the number of records. Order, permutation and stability are the lemmas above |
| `CheckpointHistory.SortedSplit` | src/decoder-neural/src/main/python/nmmt/NMTEngineTrainer.py:117-122 | Cutting a sorted list at `size` gives a sorted kept part, no worse than any dropped record, that with the dropped part rebuilds the list |
| `CheckpointHistory.RetainIsBoundedBestPrefix` | src/decoder-neural/src/main/python/nmmt/NMTEngineTrainer.py:114-122 | After an add, the history is sorted and holds `min(size, old length + 1)` records. It and the evicted records hold exactly the old records and the new one. Every kept record is at least as good as every evicted one |
| `CheckpointHistory.NewFileSurvivesItsAdd` | src/decoder-neural/src/main/python/nmmt/NMTEngineTrainer.py:104-122 | When the previous current checkpoint has another file, the add never deletes the file it has just written, even when the new record is evicted |
| `CheckpointHistory.InsertMembers` | src/decoder-neural/src/main/python/nmmt/NMTEngineTrainer.py:114 | Inserting keeps every old record and adds only the new one |
| `CheckpointHistory.InsertKeepsFilesDistinct` | src/decoder-neural/src/main/python/nmmt/NMTEngineTrainer.py:114-115 | Inserting a record with a new file name into a list with distinct file names keeps the names distinct |
| `CheckpointHistory.SortKeepsFilesDistinct` | src/decoder-neural/src/main/python/nmmt/NMTEngineTrainer.py:115 | Sorting keeps file names distinct |
| `CheckpointHistory.RetainedFilesSurvive` | src/decoder-neural/src/main/python/nmmt/NMTEngineTrainer.py:117-122 | With distinct file names, eviction deletes no file of a record that stays in the history |
| `CheckpointHistory.NewRecordDroppedIffWorst` | src/decoder-neural/src/main/python/nmmt/NMTEngineTrainer.py:114-122 | On a sorted history of at most `size` records, a new record is dropped by its own add exactly when the history is full and every kept record is at least as good, so ties favour older records |
| `CheckpointHistory.ReplayOneMore` | src/decoder-neural/src/main/python/nmmt/NMTEngineTrainer.py:104-122 | Replaying one more checkpoint applies one more `add_checkpoint` to history, current checkpoint and deletions |
| `CheckpointHistory.ContainsAppend` | src/decoder-neural/src/main/python/nmmt/NMTEngineTrainer.py:98-102 | After an append, `_contains` holds for a file exactly when it held before or the new record has that file |
| `CheckpointHistory.FileAfterAdd` | src/decoder-neural/src/main/python/nmmt/NMTEngineTrainer.py:114-122 | After one add, every file of the old history or of the new record is still in the history, is the new record's, or is deleted with the evicted records |
| `CheckpointHistory.NoCheckpointFileLeftBehind` | src/decoder-neural/src/main/python/nmmt/NMTEngineTrainer.py:104-122 | Over any series of adds, every file of the starting history, of the starting current checkpoint or of an added record ends up in the history, as the current checkpoint's file, or deleted. A record evicted by its own add keeps its file only until the next add |
| `CheckpointHistory.State.constructor` | src/decoder-neural/src/main/python/nmmt/NMTEngineTrainer.py:81-91 | A new state has no current checkpoint and an empty history, is empty, and `last_step` is 0 |
| `CheckpointHistory.State.DeleteCheckpoint` | src/decoder-neural/src/main/python/nmmt/NMTEngineTrainer.py:93-96 | Deleting a checkpoint records its file name in the deletion log |
| `CheckpointHistory.State.DeleteEvicted` | src/decoder-neural/src/main/python/nmmt/NMTEngineTrainer.py:118-120 | The eviction loop deletes, in order, the file of every evicted record except the file just written |
| `CheckpointHistory.State.DropSuperseded` | src/decoder-neural/src/main/python/nmmt/NMTEngineTrainer.py:105-106 | The current checkpoint's file is deleted exactly when there is a current checkpoint and no record of the history has its file |
| `CheckpointHistory.State.TruncateHistory` | src/decoder-neural/src/main/python/nmmt/NMTEngineTrainer.py:117-122 | A history longer than `size` keeps its first `size` records; the files of the dropped records, except the file just written, are deleted in order |
| `CheckpointHistory.State.AddCheckpoint` | src/decoder-neural/src/main/python/nmmt/NMTEngineTrainer.py:104-122 | Afterwards `checkpoint` is the new record and `last_step` is its step. The history is sorted, at most `size` long, and equal to the first `size` records of the stably sorted old history plus the new record. The files deleted are the previous current checkpoint's, exactly when its file is no longer in the history, then those of the evicted records other than the new one |
| `TrainingStats.AccumulateSplits` | src/decoder-neural/src/main/python/nmmt/NMTEngineTrainer.py:23-27 | The totals of a window are the counter-wise sum of the totals of the two parts of any split of it |
| `TrainingStats.Stats.constructor` | src/decoder-neural/src/main/python/nmmt/NMTEngineTrainer.py:16-21 | New totals are all zero |
| `TrainingStats.Stats.Update` | src/decoder-neural/src/main/python/nmmt/NMTEngineTrainer.py:23-27 | Each counter grows by its own argument |
| `TrainingControl.Validate` | src/decoder-neural/src/main/python/nmmt/NMTEngineTrainer.py:286-290 | A first or strictly smaller result becomes the best and resets the stall counter to 0, and a reset always means the result is the new best. Otherwise the best is kept and the counter grows by exactly 1. The best never increases and is at most the latest result |
| `TrainingControl.TrackFindsFirstMinimum` | src/decoder-neural/src/main/python/nmmt/NMTEngineTrainer.py:253-254 | After a series of results, the best is the minimum, first reached at some index `k`. The stall counter is the number of results after `k`, and there is no best exactly when there was no result |
| `TrainingControl.StalledMeansNoRecentImprovement` | src/decoder-neural/src/main/python/nmmt/NMTEngineTrainer.py:263 | A stall counter of at least `e` means none of the last `e` results beat every result before them |
| `TrainingControl.NextDecay` | src/decoder-neural/src/main/python/nmmt/NMTEngineTrainer.py:295-306 | The decay switch is on only while something is stalled, and only if it was on or the step is past `lr_start_decay_at`. It is turned on whenever something is stalled past that step, and stays on while something is stalled |
| `TrainingControl.TraceEnds` | src/decoder-neural/src/main/python/nmmt/NMTEngineTrainer.py:260-265 | With no batch left, once the stop rule fires, or when the next iteration raises, no further iteration completes |
| `TrainingControl.TraceFollowsStopRule` | src/decoder-neural/src/main/python/nmmt/NMTEngineTrainer.py:260-269 | Steps advance one at a time. Every completed iteration starts from a state that does not ask to stop, and does not raise. A run shorter than the supply ends in a state that asks to stop or whose next iteration raises |
| `TrainingControl.RunEnds` | src/decoder-neural/src/main/python/nmmt/NMTEngineTrainer.py:260-265 | A loop that has ended, by running out of batches, by the stop rule or by a raise, has completed the whole trace, and it has raised exactly when the next iteration after a state that does not ask to stop raises |
| `TrainingControl.TraceRespectsStepsLimit` | src/decoder-neural/src/main/python/nmmt/NMTEngineTrainer.py:263-265 | With `steps_limit` set, no iteration counts past the limit, whatever the starting step |
| `TrainingControl.TraceStallsBounded` | src/decoder-neural/src/main/python/nmmt/NMTEngineTrainer.py:263-265 | The stall counter of a completed iteration never exceeds `early_stop`, whatever the starting counter |
| `TrainingControl.TraceStep` | src/decoder-neural/src/main/python/nmmt/NMTEngineTrainer.py:260-292 | A run that does not stop is one iteration followed by the run from its result, with that iteration's validation first |
| `TrainingControl.ResumeTracks` | src/decoder-neural/src/main/python/nmmt/NMTEngineTrainer.py:286-290 | Feeding further results to the progress of earlier ones equals tracking all of them |
| `TrainingControl.TraceResumesValidations` | src/decoder-neural/src/main/python/nmmt/NMTEngineTrainer.py:283-290 | The progress at the end of a run is that of feeding it the run's validation results, in order |
| `TrainingControl.TraceTracksValidations` | src/decoder-neural/src/main/python/nmmt/NMTEngineTrainer.py:252-290 | The loop's best perplexity and stall counter are those of the validation results seen so far |
| `TrainingControl.DecayStaysJustified` | src/decoder-neural/src/main/python/nmmt/NMTEngineTrainer.py:295-306 | Once every state has the switch on only while stalled and past `lr_start_decay_at`, every later state does too |
| `TrainingControl.DecayOnlyWhenStalled` | src/decoder-neural/src/main/python/nmmt/NMTEngineTrainer.py:252-306 | From the start of training, the switch is on only while validation is stalled and the step is past `lr_start_decay_at`, whatever the optimizer's flag was before |
| `TrainingControl.DecayEventsFromTrace` | src/decoder-neural/src/main/python/nmmt/NMTEngineTrainer.py:308-309 | Every decay event is at a multiple of `lr_decay_steps` and at a step whose switch is on |
| `TrainingControl.DecayOnlyAfterStartWhileStalled` | src/decoder-neural/src/main/python/nmmt/NMTEngineTrainer.py:295-309 | The learning rate is decayed only at multiples of `lr_decay_steps`, past `lr_start_decay_at`, and at a step where validation is stalled |
| `TrainingControl.ReportLogOneMore` | src/decoder-neural/src/main/python/nmmt/NMTEngineTrainer.py:271-274 | One more iteration extends the reports by its report, if its step is a multiple of `report_steps` |
| `TrainingControl.SavedLogOneMore` | src/decoder-neural/src/main/python/nmmt/NMTEngineTrainer.py:312-326 | One more iteration extends the saved checkpoints by its checkpoint, if it saves one |
| `TrainingControl.ValidationPeriodUnusedWithoutValidSet` | src/decoder-neural/src/main/python/nmmt/NMTEngineTrainer.py:283 | Without a validation set, `validation_steps` changes neither the run nor whether it raises, even when it is 0 |
| `TrainingControl.ZeroPeriodRaisesAtOnce` | src/decoder-neural/src/main/python/nmmt/NMTEngineTrainer.py:272-313 | A zero report or checkpoint period, or a zero validation period with a validation set, makes the first iteration raise. No iteration completes. The run raises exactly when there is a batch and the stop rule does not fire at the start |
| `TrainingControl.ZeroDecayPeriodKeepsSwitchOff` | src/decoder-neural/src/main/python/nmmt/NMTEngineTrainer.py:295-308 | With a zero `lr_decay_steps`, every completed iteration has the decay switch off. The run raises at the decay test exactly when the next iteration turns the switch on |
| `TrainingControl.Digits` | src/decoder-neural/src/main/python/nmmt/NMTEngineTrainer.py:318 | The `%d` digits of a natural number are never empty and are decimal digits only |
| `TrainingControl.DigitsInjective` | src/decoder-neural/src/main/python/nmmt/NMTEngineTrainer.py:318 | Different natural numbers have different digit strings |
| `TrainingControl.DecimalStringSign` | src/decoder-neural/src/main/python/nmmt/NMTEngineTrainer.py:318 | The `%d` rendering starts with a minus sign exactly for a negative number |
| `TrainingControl.DecimalStringInjective` | src/decoder-neural/src/main/python/nmmt/NMTEngineTrainer.py:318 | Different integers render differently under `%d` |
| `TrainingControl.CheckpointFileInjective` | src/decoder-neural/src/main/python/nmmt/NMTEngineTrainer.py:318 | Within one save path, two checkpoint file names are equal exactly when their steps are equal |
| `TrainingControl.SavedStepsIncrease` | src/decoder-neural/src/main/python/nmmt/NMTEngineTrainer.py:313-322 | Over iterations with increasing steps, each saved checkpoint is named after its own step. The saved steps increase and never pass the last iteration |
| `TrainingControl.TraceSavesDistinctFiles` | src/decoder-neural/src/main/python/nmmt/NMTEngineTrainer.py:260-322 | The checkpoints one run hands to the history come in increasing step order and have distinct file names, which is what `_contains` and the eviction loop rely on when they compare by file name |
| `TrainingControl.DecayLogOneMore` | src/decoder-neural/src/main/python/nmmt/NMTEngineTrainer.py:308-309 | A log of decay events grows by the event of one more iteration, if it has one |
| `TrainingControl.TraceOneMore` | src/decoder-neural/src/main/python/nmmt/NMTEngineTrainer.py:260-269 | The iterations so far plus one more, followed by the rest of the run, still form the whole run |
| `TrainingControl.Optimizer.UpdateLearningRate` | src/decoder-neural/src/main/python/nmmt/NMTEngineTrainer.py:308-309 | A decay event is recorded at its step |
| `TrainingControl.Trainer.constructor` | src/decoder-neural/src/main/python/nmmt/NMTEngineTrainer.py:135-145 | Missing options become the defaults of `Options`: reports every 100 steps, validation, checkpoints and decay every 10000, decay from step 50000, early stop after 10 stalls, 5 checkpoints, no step limit. A missing state becomes an empty history of `n_avg_checkpoints` records. A missing optimizer starts decay at `lr_decay_start_at` with the switch off. Given ones are used as they are |
| `TrainingControl.Trainer.UpdateDecay` | src/decoder-neural/src/main/python/nmmt/NMTEngineTrainer.py:294-310 | The switch becomes `NextDecay` of the old switch. A decay event is recorded exactly when the new switch is on at a multiple of `lr_decay_steps`. It raises exactly when the new switch is on and `lr_decay_steps` is 0 |
| `TrainingControl.Trainer.SaveCheckpoint` | src/decoder-neural/src/main/python/nmmt/NMTEngineTrainer.py:322 | The state stays equal to replaying every saved checkpoint, now including the new one |
| `TrainingControl.Trainer.CheckpointPhase` | src/decoder-neural/src/main/python/nmmt/NMTEngineTrainer.py:312-326 | A checkpoint is saved exactly at multiples of `checkpoint_steps` when there is a save path. It carries the validation perplexity, measured now if not yet, or without a validation set the training perplexity of the window. The window then restarts. It raises exactly when `checkpoint_steps` is 0, and then saves nothing |
| `TrainingControl.Trainer.TrainAndReport` | src/decoder-neural/src/main/python/nmmt/NMTEngineTrainer.py:268-274 | Trains one step into both windows. At multiples of `report_steps` it logs the report window's totals since the last report and restarts that window. It raises exactly when `report_steps` is 0, after the training step |
| `TrainingControl.Trainer.ValidationBlock` | src/decoder-neural/src/main/python/nmmt/NMTEngineTrainer.py:280-292 | Validates exactly when there is a validation set and the step is a multiple of `validation_steps`, and returns that perplexity and the progress after it. It raises exactly when there is a validation set and `validation_steps` is 0 |
| `TrainingControl.Trainer.ValidateAndDecay` | src/decoder-neural/src/main/python/nmmt/NMTEngineTrainer.py:280-310 | It raises at the validation test with a validation set and zero `validation_steps`, or at the decay test when the new switch is on and `lr_decay_steps` is 0. Otherwise, together with the decay block, it yields the control of one `Advance` and logs that iteration's decay event. A raise at the decay test leaves the switch updated but logs no decay event |
| `TrainingControl.Trainer.TrainValidateAndDecay` | src/decoder-neural/src/main/python/nmmt/NMTEngineTrainer.py:267-310 | Runs one iteration up to the checkpoint block. It raises at the first test that `Raises` names before that block. The reports and the decay switch and events include the iteration exactly when it got past their test |
| `TrainingControl.Trainer.Iteration` | src/decoder-neural/src/main/python/nmmt/NMTEngineTrainer.py:267-326 | One loop body raises exactly as `Raises` says for its `Advance`. If it completes, it moves the controls by one `Advance` and extends the reports, decay events and checkpoints by that iteration. If it raises, the logs include it only up to the test that raised, and no checkpoint is saved. It keeps both windows' totals and the replayed checkpoint state |
| `TrainingControl.Trainer.LoopPass` | src/decoder-neural/src/main/python/nmmt/NMTEngineTrainer.py:260-326 | One pass of the loop keeps the loop invariant: the iterations so far start `Trace`, and the logs, windows and replayed state are theirs. When the pass raises, those iterations are the whole trace and the raise is `Raised` |
| `TrainingControl.Trainer.TrainModel` | src/decoder-neural/src/main/python/nmmt/NMTEngineTrainer.py:237-331 | The completed iterations are exactly `Trace` from `last_step` with no best and no stall. The run raises exactly as `Raised` says, and the saved checkpoints are those of the trace. Without a raise, the final decay switch, reports and decay events are the trace's. With one, they also include the raising iteration up to the test that raised. The checkpoint state is what replaying the saved checkpoints gives |

## Left out

- Tensor work: the model, the criterion, `_compute_memory_efficient_loss`, `_train_step` and `_evaluate`. A training step is `batch(step)` and a validation is `evaluate(step)`. Both are deterministic functions of the step.
- The float metrics of `_Stats` (`accuracy`, `loss`, `perplexity` through `math.exp`), the `min(valid_loss, 100)` clamp and the wall-clock throughput. Perplexity is a `real` used only for comparison. The loss is summed as a `real`.
- Fallback checkpoint perplexity: `trainingPerplexity` stands for `checkpoint_stats.perplexity`.
- Files: `save_to_file`, `load_from_file`, `engine.save` and the state-file write are left out. The `glob`/`os.remove` of `_delete_checkpoint` is a file name appended to a ghost log.
- Logging, including the epoch message, which depends on the dataset length.
- The data iterator. It is an abstract supply of `supply` batches with consecutive steps from `last_step`. `loop=True` and `start_position` are not modelled, so an endless iterator is a large supply. `batch_size` and `max_generator_batches` belong to the iterator and the generator, so `Options` carries them only to list the defaults of `Options.__init__`.
- The epoch test `step % len(train_dataset)` raises `ZeroDivisionError` on an empty training set. The model has no dataset length, so it does not represent that raise. The raises of the four schedules are modelled.
- `KeyboardInterrupt` handling, which returns the state from wherever the loop was.
- `Optim` is not part of this model. The optimizer is its decay switch, its `lr_start_decay_at`, and a log of the steps at which `updateLearningRate` ran. The learning rate itself and `reset_learning_rate` are left out.
- `TrainingControl.Trainer.constructor` and `TrainingControl.Optimizer.constructor`: `Optim` is not part of this model. That a new optimizer starts with the decay switch off, no decay events and `lr_start_decay_at` from `lr_decay_start_at` is an assumption about `Optim`. It is not derived from its code.
- `CheckpointHistory.State.constructor`: `size` and `Options.nAvgCheckpoints` are natural numbers. With a negative `n_avg_checkpoints`, Python's negative slicing would evict the last records on every add and keep the others. The model does not cover that case.
- `CheckpointHistory.RetainedFilesSurvive`: proved under distinct file names. Two records sharing a file name can have that file deleted through the other record. `TrainingControl.TraceSavesDistinctFiles` shows that the checkpoints of one run do have distinct file names. The model does not relate them to the records of a state loaded from an earlier run.
- The Java launchers `WorkerMain.java` and `MasterNodeMain.java` are process and CLI plumbing over classes that are not part of this model.
