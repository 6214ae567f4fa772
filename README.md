# DispNet training control, modelled in Dafny

This project models the control logic of the DispNet training script
(`train.py`). The script runs a `while step < n_steps` loop. At each step it
looks up the loss weights and learning rate for the step's schedule phase,
runs one training step, and adds the loss to `l_mean`. It then tests, logs
and saves on fixed periods. On restart it recovers the starting step from
the id of the latest checkpoint.

TensorFlow is an oracle here. Each pass of the loop consumes one `Batch`
holding the training loss, the training error and the `N_test` test errors
the session returns. Running out of batches plays the part of the input
pipeline's `OutOfRangeError`. The side effects of each completed pass are
recorded as one `Iteration`:
- the configuration fed to the training step;
- whether the phase notice was logged;
- the new test error, if a test ran;
- the summary (mean window loss and training error), if one was written;
- the `global_step` a checkpoint was saved with, if one was saved.

Modules:
- `Wrappers`: `Option`, `Result` and the Python exceptions on the modelled paths.
- `PyRuntime`: Python list indexing (negative indices included), POSIX
  `os.path.join`, `str(int)` and `int(str)`.
- `Schedule`: the weight table, the learning-rate list built by the
  `extend` loop, and the phase lookup.
- `Cadence`: the `step % period == 0` gate.
- `Checkpoint`: the model name, checkpoint ids, and step recovery.
- `TrainingLoop`: the loop as the `Trainer` class (fields `step`, `lMean`,
  `lastError`, `trace`, `status`). Its methods are proved against the pure
  functions `Next` (one pass) and `RunFrom` (the whole loop). The module
  also holds the test loop `RunTests` and the end-to-end `Train`.
- `LoopProperties`: what a whole run guarantees.

Details of the code that the model keeps:
- The cadence gate has no `step > 0` test. From a non-negative start, step 0
  never fires only because the gate is checked after `step += 1`.
- `if ckpt:` treats an empty checkpoint id like a missing one, and the loop
  starts at step 0.
- Resumption does not look for the last separator. It drops
  `len(os.path.join(ckpt_dir, model_name)) + 1` characters and never checks
  that they match (`Checkpoint.ResumeIgnoresPrefix`).
- `int()` accepts a sign. So a checkpoint id with a negative tail starts the
  loop at a negative step. There the phase is negative and Python indexes
  from the end of both lists (`Schedule.DispNetNegativeStep`).
- The weight table has a single phase. So from a non-negative start every
  step trains with learning rate `1e-4`, and the halved rates are never used
  (`Schedule.DispNetHyperParamsConstant`).
- A start in `[-50000, -1]` trains at `lr_schedule[-1]`, the last and
  smallest halved rate, and a run resumed at step -1 reaches step 0 after
  its first pass, where the test, log and save gates all fire
  (`LoopProperties.NegativeStartReachesStepZero`).

Three defects are modelled by their evident intent, and each is recorded under
Findings:
- Checkpoints are saved under `model_name`, not the undefined `MODEL_NAME`.
- The log line reports the pass's training error, not the list the test loop rebinds `err` to.
- Running out of input ends the loop as `Exhausted`.

## Model

| member | source | states |
|---|---|---|
| `PyRuntime.PyIndex` | train.py:93-94 | `s[i]` succeeds exactly for `-len(s) <= i < len(s)` and returns an element of `s`; otherwise IndexError (partner: `Schedule.LookupInBounds`, `Schedule.DispNetNegativeStep`) |
| `PyRuntime.SliceFrom` | train.py:77 | `s[k:]` is the part of `s` after its first `k` characters, and empty past the end |
| `PyRuntime.JoinPath` | train.py:77 | `os.path.join(a, b)` is `b` when `b` is absolute. Otherwise it starts with `a` and ends with `b`, with nothing between them when `a` is empty or ends in `/`, and exactly one `/` between them otherwise |
| `PyRuntime.NatToString` | train.py:128 | `str(n)` of a natural is a non-empty run of digits with no leading zero unless `n` is 0 |
| `PyRuntime.IntToString` | train.py:128 | `str(n)` is non-empty, starts with `-` exactly for a negative `n`, and is all digits otherwise; `int()` reads it back (`PyRuntime.ParseIntRoundTrip`) |
| `PyRuntime.ParseInt` | train.py:77 | `int(s)` succeeds exactly on an optionally signed run of digits, otherwise ValueError; an unsigned result is non-negative |
| `PyRuntime.DigitsValueOfNatToString` | train.py:77 | reading back the digits of `str(n)` gives `n` |
| `PyRuntime.ParseIntRoundTrip` | train.py:77 | `int(str(n)) == n` for every int |
| `Schedule.Repeat` | train.py:52 | `[x] * n` has length `n` and every element `x` |
| `Schedule.LrTable` | train.py:52-54 | after `b` passes of the `extend` loop the list has `5 + 3b` entries |
| `Schedule.BuildLrSchedule` | train.py:52-54 | the `extend` loop builds exactly `LrTable(20)`, 65 entries |
| `Schedule.LrTableClosedForm` | train.py:52-54 | entry `k` is `1e-4` halved once per block before it |
| `Schedule.LrTableStartsAtBase` | train.py:52 | the first five entries are `1e-4` |
| `Schedule.LrTableHalves` | train.py:53-54 | each entry after the fifth is half the last entry of the previous block |
| `Schedule.LrTableNonIncreasing` | train.py:52-54 | the learning-rate list never increases |
| `Schedule.PhaseIndex` | train.py:91 | the phase is `step // schedule_step` or the last phase, whichever is smaller, and a valid phase for any step >= 0 (partner: `Schedule.LookupInBounds`) |
| `Schedule.Lookup` | train.py:91-94 | the only way a lookup fails is IndexError |
| `Schedule.LookupInBounds` | train.py:91-94 | for a step >= 0 and `len(lr) >= len(weights) > 0`, the phase is a valid index into both tables and the lookup returns those entries |
| `Schedule.LookupPerPhase` | train.py:91-94 | steps with equal `step // schedule_step` get identical weights and learning rate |
| `Schedule.LookupClampsToLastPhase` | train.py:91-94 | every step at or past `(len(weights) - 1) * schedule_step` gets the last entry |
| `Schedule.DispNetSchedule` | train.py:51-54 | the script's table is valid for lookup and has 65 learning rates |
| `Schedule.DispNetHyperParamsConstant` | train.py:91-94 | with the script's table every step >= 0 trains with weights `[1,0,0,0,0,0]` and rate `1e-4` |
| `Schedule.DispNetNegativeStep` | train.py:91-94 | a step in `[-50000, -1]` reads the last (smallest) rate; a lower step raises IndexError |
| `Cadence.Fires` | train.py:109 | the gate raises ZeroDivisionError exactly for a zero period |
| `Cadence.FiresAtMultiples` | train.py:119 | every multiple of the period fires |
| `Cadence.FiresOnlyAtMultiples` | train.py:119 | only multiples of the period fire |
| `Cadence.QuietBeforeFirstPeriod` | train.py:126 | no step strictly between 0 and a positive period fires |
| `Checkpoint.ModelName` | train.py:31-39 | the model is `DispNet` exactly when the correlation type is `none`, and `DispNetCorr1D` otherwise |
| `Checkpoint.SavePath` | train.py:77 | the saver's path prefix is `os.path.join(ckpt_dir, model_name)`; resumption strips its length plus one (partner: `Checkpoint.CheckpointRoundTrip`) |
| `Checkpoint.CheckpointId` | train.py:128 | the id the saver gives a checkpoint written at `global_step=n`: the save path, `-`, then `str(n)`; it resumes at `n` (`Checkpoint.CheckpointRoundTrip`) and names only `n` (`Checkpoint.CheckpointIdInjective`) |
| `Checkpoint.ResumeStep` | train.py:73-80 | no checkpoint, or an empty id, resumes at 0; the only failure is a ValueError on a present, non-empty id |
| `Checkpoint.CheckpointRoundTrip` | train.py:77 | a checkpoint written at step `n` resumes at exactly `n` |
| `Checkpoint.CheckpointIdInjective` | train.py:128 | ids written at different steps differ, so an id determines its step |
| `Checkpoint.ResumeIgnoresPrefix` | train.py:77 | any prefix of the right length is accepted: the step is `int()` of the tail alone |
| `Checkpoint.ResumeFailsOnMalformedTail` | train.py:77 | an empty id resumes at 0; a non-empty one resumes exactly when its tail is a decimal, and otherwise fails, never silently at step 0 |
| `Checkpoint.SavePathAsWritten` | train.py:127-128 | as written the save path raises NameError |
| `TrainingLoop.Next` | train.py:91-128 | a pass that finds the input exhausted ends the loop |
| `TrainingLoop.RunFrom` | train.py:90-128 | the loop always ends: Completed, Exhausted or Crashed |
| `TrainingLoop.TestMean` | train.py:115 | `test_err / float(N_test)`: an average, lying within the range of the test errors (`TrainingLoop.TestMeanBounds`) and computed by the test loop (`TrainingLoop.RunTests`) |
| `TrainingLoop.TestMeanBounds` | train.py:110-115 | when every test error lies in `[lo, hi]`, so does the test error the loop reports |
| `TrainingLoop.Initial` | train.py:71-89 | the state before the first pass: the starting step, `l_mean = 0`, `last_error = 1000`, no records; the `Trainer` constructor builds exactly it |
| `TrainingLoop.RunTests` | train.py:110-115 | the test loop returns the sum of the `N_test` test errors divided by `N_test` |
| `TrainingLoop.Trainer.constructor` | train.py:71-89 | a fresh loop has `l_mean = 0`, `last_error = 1000`, the starting step and no records |
| `TrainingLoop.Trainer.Iterate` | train.py:91-128 | the body, including the redundant reassignment at lines 97-99, leaves exactly the state `Next` specifies |
| `TrainingLoop.Trainer.Run` | train.py:90-128 | the loop leaves exactly the state `RunFrom` specifies |
| `TrainingLoop.Train` | train.py:37-128 | a malformed checkpoint id stops the script before the loop; otherwise the result is the run of the script's setup from the recovered step |
| `TrainingLoop.ErrAtLogLine` | train.py:112-113 | `err` is the list from the last test call exactly when a test ran in the pass |
| `TrainingLoop.LogLineAsWritten` | train.py:124 | as written the log line fails exactly when `err` holds a list; otherwise it carries `err` |
| `TrainingLoop.PassEndAsWritten` | train.py:119-128 | as written, the end of a pass can fail only on a save step |
| `TrainingLoop.OutOfRangeHandlerAsWritten` | train.py:130-131 | as written the exhaustion handler crashes |
| `LoopProperties.NextCompletes` | train.py:91-128 | from a step >= 0 with positive periods, a pass advances `step` by 1 and appends one record. It resets `l_mean` on a log step and adds the loss otherwise. It changes `last_error` only on a test step, and feeds the current `last_error` |
| `LoopProperties.RunFirstPass` | train.py:90-128 | a run with budget and input left is its first pass, which advances the step by one, resets or extends `l_mean`, and stays first in the record, followed by the run from there |
| `LoopProperties.RunShape` | train.py:90-108 | from step `s >= 0` a run makes `min(len(feed), max(0, n_steps - s))` passes. It ends Completed with `step == n_steps` (or at `s` when `s >= n_steps`), or Exhausted when the input runs out, and earlier records are kept |
| `LoopProperties.RunRecord` | train.py:91-128 | pass `j` started at `s + j` and fed the schedule entry of that step. It logs the "switching weights" notice exactly when the step is a multiple of `schedule_step`, including the multiples past the last phase, where the clamped entry does not change. It tests and saves exactly when `s + j + 1` is a multiple of `save_step`, and logs exactly when it is a multiple of `log_step`, with the pass's own training error |
| `LoopProperties.RunReachesBudget` | train.py:90-108 | with enough input, a run from `0 <= s <= n_steps` makes `n_steps - s` passes and ends Completed at `n_steps` |
| `LoopProperties.TestAndSaveTogether` | train.py:108-128 | tests and saves fire on the same passes, only at positive multiples of `save_step` past the start, and a save records the step after the pass |
| `LoopProperties.SavedCheckpointsResume` | train.py:126-128 | a pass that saved wrote `global_step` equal to the step after it, and the id written then resumes the loop at exactly that step |
| `LoopProperties.ScheduleRestartSafe` | train.py:91-94 | two runs over the same table, e.g. an uninterrupted one and a resumed one, feed the same weights and rate on any common step |
| `LoopProperties.AccumulatedStep` | train.py:107-125 | the accumulator formula goes to 0 on a log step and adds the pass's loss otherwise |
| `LoopProperties.LossSinceIsWindow` | train.py:107-125 | the accumulator as the loop updates it, pass by pass, equals the window sum: the losses since the last log step, or the initial value plus all losses |
| `LoopProperties.LossAccumulatorFrom` | train.py:107-125 | the induction step behind `LossAccumulator`, from any point of a run |
| `LoopProperties.LossAccumulator` | train.py:107-125 | at the end of a run `l_mean` is the sum of the losses since the last log step, or the initial value plus all losses if no log step was reached |
| `LoopProperties.SummaryOfFirstPass` | train.py:119-121 | the summary of a run's first pass, if any, is the starting `l_mean` plus the pass's loss, divided by `log_step` |
| `LoopProperties.SummaryFrom` | train.py:119-121 | a summary carries `l_mean` before the pass plus the pass's loss, divided by `log_step` |
| `LoopProperties.WindowAtLogStep` | train.py:107-125 | on a log step, `l_mean` plus the pass's loss is the sum of the last `log_step` losses, or the initial value plus all losses in a first window that began before the run |
| `LoopProperties.SummaryIsWindowMean` | train.py:119-125 | each summary is the mean of the last `log_step` losses, or of the initial `l_mean` plus all losses for a first window that began before the run |
| `LoopProperties.LastErrorAtEnd` | train.py:89-117 | at the end of a run `last_error` is the latest test mean, else its initial value |
| `LoopProperties.FedLastError` | train.py:100-117 | every pass feeds the `last_error` current when it started: the latest earlier test mean, else the initial value |
| `LoopProperties.LogLineAsWrittenFailsOnTestSteps` | train.py:113-124 | as written the log line raises TypeError on a step that both tests and logs, e.g. step 1000 with the default periods |
| `LoopProperties.SaveStepsCrashAsWritten` | train.py:108-128 | as written every save step ends the pass with an exception: TypeError at line 124 when it is also a log step, otherwise NameError at line 127; no other pass fails there. The corrected pass records the checkpoint on that step |
| `LoopProperties.NegativeStartReachesStepZero` | train.py:91-128 | with the script's table, a pass from step -1 trains at the smallest rate `lr_schedule[-1]`, completes at step 0, and tests, logs and saves there |
| `LoopProperties.ExhaustionEndsGracefully` | train.py:130-131 | running out of input ends the loop as Exhausted with nothing else changed |

## Left out

- The TensorFlow session, the DispNet graph, and the internals of `saver.restore` and `saver.save`: their results are the `Batch` oracle and their effects are the `Iteration` records. The summary writer is not modelled beyond the mean loss it receives.
- Argument parsing, creating the checkpoint directory, logger setup and the summary-writer setup (train.py:13-41): configuration and I/O. The flags become parameters of `Train`.
- `tf.train.latest_checkpoint`, which reads the checkpoint state file: the latest id is an input.
- The queue runners and the coordinator's start, stop and join (train.py:67-68, 133-136): background concurrency.
- Restoring preinitialization weights through `get_var_to_restore_list` (train.py:82-87): it lives in `util`, which is not part of this model.
- Wall-clock timing (train.py:104, 106, 124): nondeterministic, and only logged.
- Floating point: losses, errors, the halving of `1e-4` and the averaging are exact `real`s.
- Log lines of a pass that ends by an exception: the trace records completed passes only. For example, a phase notice followed by exhaustion of the input is not recorded.
- An `OutOfRangeError` raised inside the test loop or the summary call: each `Batch` carries all the test errors of its pass.
- The stale `last_error` that the summary call receives in `feed_dict` on a test step: the summary records only the mean loss and the training error.
- `PyRuntime.ParseInt`: Python's `int()` also accepts surrounding whitespace, `_` between digits and non-ASCII digits. The model rejects these with ValueError, because the saver never writes them.
- The as-written defects are modelled one pass at a time (`TrainingLoop.PassEndAsWritten`, `TrainingLoop.OutOfRangeHandlerAsWritten`). There is no as-written run, so the end of a whole run at its first save step is not stated as a lemma about runs.
- The `LoopProperties` lemmas assume positive periods and a start step >= 0. The operations themselves also handle a zero period (ZeroDivisionError), a negative period and a negative step.

## Findings

| source | as written | input that shows it | evidently intended | confidence | as-written member | corrected member |
|---|---|---|---|---|---|---|
| train.py:127-128 | the save path uses `MODEL_NAME`, which is never defined, so the first save step that is not also a log step raises NameError and no checkpoint is written (on a save step that is also a log step, the TypeError of the next row comes first) | `log_step = 300`, `save_step = 1000`, step 1000; with the default periods (100 and 1000) step 1000 raises the TypeError first | save under `model_name`, the name resumption strips from the id | high; not executed | `TrainingLoop.PassEndAsWritten` (`LoopProperties.SaveStepsCrashAsWritten`) | `Checkpoint.CheckpointId` (`Checkpoint.CheckpointRoundTrip`, `LoopProperties.SavedCheckpointsResume`) |
| train.py:113-124 | the test loop rebinds `err` to the list `sess.run([test_error])` returns, and the debug line then formats that list with `%f`, raising TypeError | `log_step = 100`, `save_step = 1000` (the defaults), step 1000 | log the training error of the pass | high; not executed | `TrainingLoop.LogLineAsWritten` (`LoopProperties.LogLineAsWrittenFailsOnTestSteps`) | `TrainingLoop.Next` (`LoopProperties.RunRecord`: the summary carries the pass's training error) |
| train.py:130-131 | the `OutOfRangeError` handler calls `logging.INFO(...)` with the undefined `FLAGS` among its arguments, so exhaustion raises NameError | an input pipeline that runs out before `n_steps` | end the loop normally when the input is exhausted | high; not executed | `TrainingLoop.OutOfRangeHandlerAsWritten` | `LoopProperties.ExhaustionEndsGracefully` |
