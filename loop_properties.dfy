/**
 * What the training loop promises over a whole run: one step per pass, the
 * configuration of every pass determined by its step, the cadence of tests,
 * summaries and checkpoints, the running loss window, the feedback of the
 * last test error, and checkpoints that resume where they were written.
 */
module LoopProperties {
  import opened Wrappers
  import opened PyRuntime
  import opened Schedule
  import opened Cadence
  import opened Checkpoint
  import opened TrainingLoop

  /** A usable table and positive log and save periods. */
  predicate ValidSetup(setup: Setup)
  {
    ValidSchedule(setup.schedule) && setup.logStep > 0 && setup.saveStep > 0
  }

  function Max(a: int, b: int): int { if a >= b then a else b }

  /**
   * A pass that started at step `s` and consumed batch `b`: it fed the
   * schedule entry of `s`; it logged the "switching weights" notice exactly
   * when `s` is a multiple of `schedule_step`; it tested and saved exactly
   * when `s + 1` is a multiple of the save period, and logged exactly when
   * `s + 1` is a multiple of the log period.
   */
  ghost predicate IterationMatches(setup: Setup, it: Iteration, s: int, b: Batch)
    requires ValidSetup(setup)
  {
    var post := s + 1;
    var tested := post % setup.saveStep == 0;
    && it.step == s
    && Lookup(setup.schedule, s) == Success(HyperParams(it.fed.weights, it.fed.lr))
    && it.notice == (s % ScheduleStep == 0)
    && it.test == (if tested then Some(TestMean(b.tests)) else None)
    && it.save == (if tested then Some(post) else None)
    && (it.summary.Some? <==> post % setup.logStep == 0)
    && (it.summary.Some? ==> it.summary.value.trainError == b.trainError)
  }

  /** One pass from a non-negative step under a valid setup completes and advances the step by one. */
  lemma NextCompletes(setup: Setup, st: LoopState, b: Batch)
    requires ValidSetup(setup) && st.status == Running && st.step >= 0 && |b.tests| == NTest
    ensures var r := Next(setup, st, Some(b));
            && r.status == Running
            && r.step == st.step + 1
            && |r.trace| == |st.trace| + 1
            && r.trace[..|st.trace|] == st.trace
            && IterationMatches(setup, r.trace[|st.trace|], st.step, b)
            && r.lMean == (if (st.step + 1) % setup.logStep == 0 then 0.0 else st.lMean + b.loss)
            && r.lastError == (if (st.step + 1) % setup.saveStep == 0 then TestMean(b.tests) else st.lastError)
            && r.trace[|st.trace|].fed.testError == st.lastError
            && r.trace[|st.trace|].summary == (if (st.step + 1) % setup.logStep == 0
                                               then Some(Summary((st.lMean + b.loss) / (setup.logStep as real), b.trainError))
                                               else None)
  {
    LookupInBounds(setup.schedule, st.step);
    var r := Next(setup, st, Some(b));
    assert r.trace[..|st.trace|] == st.trace;
  }

  /**
   * A run from a non-negative step does `max(0, n_steps - step)` passes if
   * the input lasts, and ends `Completed` with `step == n_steps` (or at its
   * start when that is already past); otherwise it ends `Exhausted` after one
   * pass per batch. Earlier passes are kept as they were.
   */
  lemma {:induction false} RunShape(setup: Setup, st: LoopState, feed: seq<Batch>)
    requires ValidSetup(setup) && st.status == Running && st.step >= 0 && WellFormedFeed(feed)
    ensures var r := RunFrom(setup, st, feed);
            var k := |r.trace| - |st.trace|;
            && k >= 0
            && r.trace[..|st.trace|] == st.trace
            && k == Min(|feed|, Max(0, setup.nSteps - st.step))
            && r.step == st.step + k
            && r.status == (if |feed| >= setup.nSteps - st.step then Completed else Exhausted)
    decreases |feed|
  {
    if st.step >= setup.nSteps {
    } else if feed == [] {
      LookupInBounds(setup.schedule, st.step);
    } else {
      NextCompletes(setup, st, feed[0]);
      var next := Next(setup, st, Some(feed[0]));
      RunShape(setup, next, feed[1..]);
      var r := RunFrom(setup, st, feed);
      assert r == RunFrom(setup, next, feed[1..]);
      assert r.trace[..|next.trace|] == next.trace;
      assert r.trace[..|st.trace|] == next.trace[..|st.trace|];
    }
  }

  /**
   * A run with budget and input left is its first pass followed by the run
   * from there, and that pass stays first in the record.
   */
  lemma RunFirstPass(setup: Setup, st: LoopState, feed: seq<Batch>)
    requires ValidSetup(setup) && st.status == Running && st.step >= 0 && WellFormedFeed(feed)
    requires st.step < setup.nSteps && feed != []
    ensures var next := Next(setup, st, Some(feed[0]));
            var r := RunFrom(setup, st, feed);
            && r == RunFrom(setup, next, feed[1..])
            && next.status == Running && next.step == st.step + 1
            && next.lMean == (if (st.step + 1) % setup.logStep == 0 then 0.0 else st.lMean + feed[0].loss)
            && |next.trace| == |st.trace| + 1 <= |r.trace|
            && r.trace[|st.trace|] == next.trace[|st.trace|]
            && IterationMatches(setup, r.trace[|st.trace|], st.step, feed[0])
  {
    NextCompletes(setup, st, feed[0]);
    var next := Next(setup, st, Some(feed[0]));
    RunShape(setup, next, feed[1..]);
    var r := RunFrom(setup, st, feed);
    assert r.trace[..|next.trace|] == next.trace;
  }

  /** Pass `j` of a run started at step `start + j`, consumed batch `j`, and did what its step calls for. */
  lemma {:induction false} RunRecord(setup: Setup, st: LoopState, feed: seq<Batch>, j: nat)
    requires ValidSetup(setup) && st.status == Running && st.step >= 0 && WellFormedFeed(feed)
    requires |st.trace| + j < |RunFrom(setup, st, feed).trace|
    ensures j < |feed|
    ensures IterationMatches(setup, RunFrom(setup, st, feed).trace[|st.trace| + j], st.step + j, feed[j])
    decreases j
  {
    if st.step >= setup.nSteps {
    } else if feed == [] {
      LookupInBounds(setup.schedule, st.step);
    } else {
      RunFirstPass(setup, st, feed);
      if j > 0 {
        var next := Next(setup, st, Some(feed[0]));
        RunRecord(setup, next, feed[1..], j - 1);
        assert feed[1..][j - 1] == feed[j];
        assert |next.trace| + (j - 1) == |st.trace| + j;
        assert next.step + (j - 1) == st.step + j;
      }
    }
  }

  /** With enough input a run from `start <= n_steps` ends `Completed` at exactly `n_steps` after `n_steps - start` passes. */
  lemma RunReachesBudget(setup: Setup, start: int, feed: seq<Batch>)
    requires ValidSetup(setup) && 0 <= start <= setup.nSteps && WellFormedFeed(feed)
    requires |feed| >= setup.nSteps - start
    ensures var r := RunFrom(setup, Initial(start), feed);
            r.status == Completed && r.step == setup.nSteps && |r.trace| == setup.nSteps - start
  {
    RunShape(setup, Initial(start), feed);
  }

  /** Tests and checkpoints happen on the same passes, and none on a step at or before the start. */
  lemma TestAndSaveTogether(setup: Setup, st: LoopState, feed: seq<Batch>, j: int)
    requires ValidSetup(setup) && st.status == Running && st.step >= 0 && WellFormedFeed(feed)
    requires |st.trace| <= j < |RunFrom(setup, st, feed).trace|
    ensures var it := RunFrom(setup, st, feed).trace[j];
            && it.test.Some? == it.save.Some?
            && (it.save.Some? ==> it.save == Some(it.step + 1))
            && it.step + 1 > st.step
            && (it.test.Some? ==> it.step + 1 > 0 && (it.step + 1) % setup.saveStep == 0)
  {
    RunRecord(setup, st, feed, j - |st.trace|);
  }

  /**
   * A pass that saved wrote the step after it, and the checkpoint id it wrote
   * resumes the loop at exactly that step.
   */
  lemma SavedCheckpointsResume(setup: Setup, it: Iteration, s: int, b: Batch)
    requires ValidSetup(setup) && IterationMatches(setup, it, s, b) && it.save.Some?
    ensures it.save == Some(it.step + 1)
    ensures ResumeStep(Some(CheckpointId(setup.ckptDir, setup.modelName, it.save.value)), setup.ckptDir, setup.modelName)
            == Success(it.step + 1)
  {
    CheckpointRoundTrip(setup.ckptDir, setup.modelName, it.step + 1);
  }

  /**
   * Resuming does not shift the schedule: two runs over the same table feed
   * the same weights and learning rate on any step both of them train.
   */
  lemma {:induction false} ScheduleRestartSafe(setup1: Setup, st1: LoopState, feed1: seq<Batch>, i: int,
                            setup2: Setup, st2: LoopState, feed2: seq<Batch>, j: int)
    requires ValidSetup(setup1) && st1.status == Running && st1.step >= 0 && WellFormedFeed(feed1)
    requires ValidSetup(setup2) && st2.status == Running && st2.step >= 0 && WellFormedFeed(feed2)
    requires setup1.schedule == setup2.schedule
    requires |st1.trace| <= i < |RunFrom(setup1, st1, feed1).trace|
    requires |st2.trace| <= j < |RunFrom(setup2, st2, feed2).trace|
    requires RunFrom(setup1, st1, feed1).trace[i].step == RunFrom(setup2, st2, feed2).trace[j].step
    ensures RunFrom(setup1, st1, feed1).trace[i].fed.weights == RunFrom(setup2, st2, feed2).trace[j].fed.weights
    ensures RunFrom(setup1, st1, feed1).trace[i].fed.lr == RunFrom(setup2, st2, feed2).trace[j].fed.lr
  {
    var r1 := RunFrom(setup1, st1, feed1);
    var r2 := RunFrom(setup2, st2, feed2);
    var k1 := i - |st1.trace|;
    var k2 := j - |st2.trace|;
    RunRecord(setup1, st1, feed1, k1);
    RunRecord(setup2, st2, feed2, k2);
    var it1 := r1.trace[|st1.trace| + k1];
    var it2 := r2.trace[|st2.trace| + k2];
    assert IterationMatches(setup1, it1, st1.step + k1, feed1[k1]);
    assert IterationMatches(setup2, it2, st2.step + k2, feed2[k2]);
  }

  /** Sum of the training losses of a run of batches. */
  function SumLoss(bs: seq<Batch>): real
  {
    if bs == [] then 0.0 else SumLoss(bs[..|bs| - 1]) + bs[|bs| - 1].loss
  }

  lemma SumLossAppend(feed: seq<Batch>, a: nat, m: nat)
    requires a <= m < |feed|
    ensures SumLoss(feed[a..m + 1]) == SumLoss(feed[a..m]) + feed[m].loss
  {
    assert feed[a..m + 1][..m - a] == feed[a..m];
  }

  /**
   * `l_mean` after `k` passes of a run that started at step `start` with
   * accumulator `l0`: the losses since the last log step, or `l0` plus every
   * loss when no log step has been reached.
   */
  ghost function Accumulated(logStep: int, l0: real, start: int, feed: seq<Batch>, k: nat): real
    requires logStep > 0 && k <= |feed|
  {
    var d := (start + k) % logStep;
    if d < k then SumLoss(feed[k - d..k]) else l0 + SumLoss(feed[..k])
  }

  lemma ModUnique(a: int, p: int, q: int, r: int)
    requires p > 0 && 0 <= r < p && a == q * p + r
    ensures a % p == r
  {
    var q', r' := a / p, a % p;
    assert (q - q') * p == r' - r;
    if q - q' >= 1 {
      assert false;
    } else if q - q' <= -1 {
      assert false;
    }
  }

  lemma ModSucc(x: int, p: int)
    requires p > 0
    ensures (x + 1) % p == 0 ==> x % p == p - 1
    ensures (x + 1) % p != 0 ==> (x + 1) % p == x % p + 1
  {
    var q, r := x / p, x % p;
    assert x == q * p + r && 0 <= r < p;
    if r + 1 < p {
      ModUnique(x + 1, p, q, r + 1);
    } else {
      ModUnique(x + 1, p, q + 1, 0);
    }
  }

  lemma AccumulatedStep(logStep: int, l0: real, start: int, feed: seq<Batch>, k: nat)
    requires logStep > 0 && k < |feed|
    ensures Accumulated(logStep, l0, start, feed, k + 1)
         == if (start + k + 1) % logStep == 0 then 0.0 else Accumulated(logStep, l0, start, feed, k) + feed[k].loss
  {
    ModSucc(start + k, logStep);
    var d := (start + k) % logStep;
    if (start + k + 1) % logStep != 0 {
      if d < k {
        SumLossAppend(feed, k - d, k);
      } else {
        SumLossAppend(feed, 0, k);
      }
    }
  }

  /**
   * `l_mean` after `k` passes as the loop computes it, one pass at a time:
   * reset to zero when the incremented step is a log step, else the loss added.
   */
  ghost function LossSince(logStep: int, l0: real, start: int, feed: seq<Batch>, k: nat): real
    requires logStep > 0 && k <= |feed|
    decreases k
  {
    if k == 0 then l0
    else if (start + k) % logStep == 0 then 0.0
    else LossSince(logStep, l0, start, feed, k - 1) + feed[k - 1].loss
  }

  /** The pass-by-pass accumulator is the window sum `Accumulated`. */
  lemma {:induction false} LossSinceIsWindow(logStep: int, l0: real, start: int, feed: seq<Batch>, k: nat)
    requires logStep > 0 && k <= |feed|
    ensures LossSince(logStep, l0, start, feed, k) == Accumulated(logStep, l0, start, feed, k)
    decreases k
  {
    if k == 0 {
      assert feed[..0] == [];
    } else {
      LossSinceIsWindow(logStep, l0, start, feed, k - 1);
      AccumulatedStep(logStep, l0, start, feed, k - 1);
    }
  }

  /** `l_mean` at the end of a run started `k` passes into `feed`, by induction on what remains. */
  lemma {:induction false} LossAccumulatorFrom(setup: Setup, l0: real, start: int, feed: seq<Batch>, st: LoopState, k: nat)
    requires ValidSetup(setup) && st.status == Running && start >= 0 && WellFormedFeed(feed)
    requires k <= |feed| && st.step == start + k
    requires st.lMean == LossSince(setup.logStep, l0, start, feed, k)
    ensures var r := RunFrom(setup, st, feed[k..]);
            k <= r.step - start <= |feed| && r.lMean == LossSince(setup.logStep, l0, start, feed, r.step - start)
    decreases |feed| - k
  {
    var rest := feed[k..];
    if st.step >= setup.nSteps {
    } else if rest == [] {
      LookupInBounds(setup.schedule, st.step);
    } else {
      assert rest[0] == feed[k];
      NextCompletes(setup, st, feed[k]);
      var next := Next(setup, st, Some(feed[k]));
      assert rest[1..] == feed[k + 1..];
      LossAccumulatorFrom(setup, l0, start, feed, next, k + 1);
    }
  }

  /**
   * The running loss holds exactly the losses since the last log step:
   * `l_mean` is reset on log steps and only there.
   */
  lemma {:induction false} LossAccumulator(setup: Setup, st: LoopState, feed: seq<Batch>)
    requires ValidSetup(setup) && st.status == Running && st.step >= 0 && WellFormedFeed(feed)
    ensures var r := RunFrom(setup, st, feed);
            0 <= r.step - st.step <= |feed| && r.lMean == Accumulated(setup.logStep, st.lMean, st.step, feed, r.step - st.step)
  {
    assert feed[0..] == feed;
    LossAccumulatorFrom(setup, st.lMean, st.step, feed, st, 0);
    var r := RunFrom(setup, st, feed);
    LossSinceIsWindow(setup.logStep, st.lMean, st.step, feed, r.step - st.step);
  }

  /** The summary of the first pass of a run carries `l_mean` plus its loss, over the log period. */
  lemma SummaryOfFirstPass(setup: Setup, st: LoopState, feed: seq<Batch>)
    requires ValidSetup(setup) && st.status == Running && st.step >= 0 && WellFormedFeed(feed)
    requires st.step < setup.nSteps && feed != []
    ensures |st.trace| < |RunFrom(setup, st, feed).trace|
    ensures var it := RunFrom(setup, st, feed).trace[|st.trace|];
            it.summary.Some? ==> it.summary.value.meanLoss == (st.lMean + feed[0].loss) / (setup.logStep as real)
  {
    RunFirstPass(setup, st, feed);
    NextCompletes(setup, st, feed[0]);
  }

  /** The summary of pass `m` carries `l_mean` before it plus its loss, over the log period. */
  lemma {:induction false} SummaryFrom(setup: Setup, l0: real, start: int, feed: seq<Batch>, st: LoopState, k: nat, m: nat)
    requires ValidSetup(setup) && st.status == Running && start >= 0 && WellFormedFeed(feed)
    requires k <= m && k <= |feed| && st.step == start + k
    requires st.lMean == LossSince(setup.logStep, l0, start, feed, k)
    requires |st.trace| + (m - k) < |RunFrom(setup, st, feed[k..]).trace|
    ensures m < |feed|
    ensures var it := RunFrom(setup, st, feed[k..]).trace[|st.trace| + (m - k)];
            it.summary.Some? ==>
              it.summary.value.meanLoss == (LossSince(setup.logStep, l0, start, feed, m) + feed[m].loss) / (setup.logStep as real)
    decreases m - k
  {
    var rest := feed[k..];
    if st.step >= setup.nSteps {
    } else if rest == [] {
      LookupInBounds(setup.schedule, st.step);
    } else {
      assert rest[0] == feed[k];
      if m == k {
        SummaryOfFirstPass(setup, st, rest);
      } else {
        RunFirstPass(setup, st, rest);
        var next := Next(setup, st, Some(feed[k]));
        assert rest[1..] == feed[k + 1..];
        SummaryFrom(setup, l0, start, feed, next, k + 1, m);
        assert |next.trace| + (m - (k + 1)) == |st.trace| + (m - k);
      }
    }
  }

  /** On a log step, the accumulator plus the pass's loss is the sum over the window that ends there. */
  lemma WindowAtLogStep(L: int, l0: real, start: int, feed: seq<Batch>, m: nat)
    requires L > 0 && m < |feed| && (start + m + 1) % L == 0
    ensures LossSince(L, l0, start, feed, m) + feed[m].loss
            == if m + 1 > L then SumLoss(feed[m + 1 - L..m + 1]) else l0 + SumLoss(feed[..m + 1])
  {
    LossSinceIsWindow(L, l0, start, feed, m);
    ModSucc(start + m, L);
    assert (start + m) % L == L - 1;
    var acc := Accumulated(L, l0, start, feed, m);
    if m + 1 > L {
      assert acc == SumLoss(feed[m - (L - 1)..m]);
      SumLossAppend(feed, m + 1 - L, m);
    } else {
      assert acc == l0 + SumLoss(feed[..m]);
      SumLossAppend(feed, 0, m);
      assert feed[0..m] == feed[..m] && feed[0..m + 1] == feed[..m + 1];
    }
  }

  /**
   * Every summary reports the mean of its log window: the `log_step` losses
   * ending at it, or, for the first window of a run that started inside a
   * window, the starting `l_mean` plus every loss so far.
   */
  lemma {:induction false} SummaryIsWindowMean(setup: Setup, st: LoopState, feed: seq<Batch>, m: nat)
    requires ValidSetup(setup) && st.status == Running && st.step >= 0 && WellFormedFeed(feed)
    requires |st.trace| + m < |RunFrom(setup, st, feed).trace|
    requires RunFrom(setup, st, feed).trace[|st.trace| + m].summary.Some?
    ensures m < |feed|
    ensures var L := setup.logStep;
            RunFrom(setup, st, feed).trace[|st.trace| + m].summary.value.meanLoss
              == (if m + 1 > L then SumLoss(feed[m + 1 - L..m + 1]) else st.lMean + SumLoss(feed[..m + 1])) / (L as real)
  {
    assert feed[0..] == feed;
    var r := RunFrom(setup, st, feed);
    var it := r.trace[|st.trace| + m];
    SummaryFrom(setup, st.lMean, st.step, feed, st, 0, m);
    RunRecord(setup, st, feed, m);
    assert IterationMatches(setup, it, st.step + m, feed[m]);
    WindowAtLogStep(setup.logStep, st.lMean, st.step, feed, m);
  }

  /** `last_error` after a sequence of passes: the result of the latest test pass among them, else `e0`. */
  function LastTest(e0: real, passes: seq<Iteration>): real
    decreases passes
  {
    if passes == [] then e0
    else LastTest(if passes[0].test.Some? then passes[0].test.value else e0, passes[1..])
  }

  /**
   * `last_error` changes only on test passes, where it becomes the mean of
   * the `N_test` test errors: at the end of a run it is the latest test
   * result, or its starting value when no test ran.
   */
  lemma {:induction false} LastErrorAtEnd(setup: Setup, st: LoopState, feed: seq<Batch>)
    requires ValidSetup(setup) && st.status == Running && st.step >= 0 && WellFormedFeed(feed)
    ensures var r := RunFrom(setup, st, feed);
            |st.trace| <= |r.trace| && r.lastError == LastTest(st.lastError, r.trace[|st.trace|..])
    decreases |feed|
  {
    var r := RunFrom(setup, st, feed);
    RunShape(setup, st, feed);
    if st.step >= setup.nSteps {
    } else if feed == [] {
      LookupInBounds(setup.schedule, st.step);
    } else {
      NextCompletes(setup, st, feed[0]);
      var next := Next(setup, st, Some(feed[0]));
      assert r == RunFrom(setup, next, feed[1..]);
      LastErrorAtEnd(setup, next, feed[1..]);
      RunShape(setup, next, feed[1..]);
      var it := next.trace[|st.trace|];
      assert r.trace[..|next.trace|] == next.trace;
      assert r.trace[|st.trace|..] == [it] + r.trace[|next.trace|..];
      assert next.lastError == if it.test.Some? then it.test.value else st.lastError;
    }
  }

  /** Every pass feeds the `last_error` current when it started: the latest earlier test result, else the starting value. */
  lemma {:induction false} FedLastError(setup: Setup, st: LoopState, feed: seq<Batch>, j: nat)
    requires ValidSetup(setup) && st.status == Running && st.step >= 0 && WellFormedFeed(feed)
    requires |st.trace| + j < |RunFrom(setup, st, feed).trace|
    ensures var r := RunFrom(setup, st, feed);
            r.trace[|st.trace| + j].fed.testError == LastTest(st.lastError, r.trace[|st.trace|..|st.trace| + j])
    decreases j
  {
    var r := RunFrom(setup, st, feed);
    if st.step >= setup.nSteps {
    } else if feed == [] {
      LookupInBounds(setup.schedule, st.step);
    } else {
      NextCompletes(setup, st, feed[0]);
      var next := Next(setup, st, Some(feed[0]));
      assert r == RunFrom(setup, next, feed[1..]);
      RunShape(setup, next, feed[1..]);
      var it := next.trace[|st.trace|];
      assert r.trace[..|next.trace|] == next.trace;
      assert r.trace[|st.trace|] == it;
      if j > 0 {
        FedLastError(setup, next, feed[1..], j - 1);
        assert next.lastError == if it.test.Some? then it.test.value else st.lastError;
        assert r.trace[|st.trace|..|st.trace| + j] == [it] + r.trace[|next.trace|..|next.trace| + (j - 1)];
        assert r.trace[|st.trace| + j] == r.trace[|next.trace| + (j - 1)];
      } else {
        assert r.trace[|st.trace|..|st.trace| + j] == [];
      }
    }
  }

  /**
   * As written, a pass whose incremented step is both a test step and a log
   * step fails to format its log line; with the default periods (100 and
   * 1000) the first such step is 1000.
   */
  lemma LogLineAsWrittenFailsOnTestSteps(setup: Setup, s: int, b: Batch, meanLoss: real)
    requires ValidSetup(setup) && |b.tests| == NTest
    requires (s + 1) % setup.saveStep == 0 && (s + 1) % setup.logStep == 0
    ensures LogLineAsWritten(meanLoss, ErrAtLogLine(b, (s + 1) % setup.saveStep == 0)) == Failure(TypeError)
  {
  }

  /**
   * As written, every save step ends the pass with an exception: TypeError
   * at the debug line when it is also a log step, otherwise NameError at
   * the save path. Every other pass ends normally. The corrected pass saves
   * the checkpoint on that step instead.
   */
  lemma SaveStepsCrashAsWritten(setup: Setup, st: LoopState, b: Batch)
    requires ValidSetup(setup) && st.status == Running && st.step >= 0 && |b.tests| == NTest
    ensures var post := st.step + 1;
            var r := PassEndAsWritten(setup, post, b, st.lMean + b.loss);
            && (r.Failure? <==> post % setup.saveStep == 0)
            && (r.Failure? ==> r.error == if post % setup.logStep == 0 then TypeError else NameError("MODEL_NAME"))
    ensures (st.step + 1) % setup.saveStep == 0 ==>
              Next(setup, st, Some(b)).trace[|st.trace|].save == Some(st.step + 1)
  {
    NextCompletes(setup, st, b);
  }

  /**
   * A run resumed at step -1 (a checkpoint id with the tail "-1") trains at
   * the last, smallest rate of the table, and its first pass reaches step 0,
   * where the test, log and save gates all fire.
   */
  lemma NegativeStartReachesStepZero(setup: Setup, st: LoopState, b: Batch)
    requires ValidSetup(setup) && setup.schedule == DispNetSchedule()
    requires st.status == Running && st.step == -1 && |b.tests| == NTest
    ensures var r := Next(setup, st, Some(b));
            r.status == Running && r.step == 0 && |r.trace| == |st.trace| + 1
    ensures var it := Next(setup, st, Some(b)).trace[|st.trace|];
            it.fed.lr == Lr(LrBlocks) && it.test.Some? && it.summary.Some? && it.save == Some(0)
  {
    DispNetNegativeStep(-1);
  }

  /**
   * Running out of input ends the loop as `Exhausted` with nothing else
   * changed.
   */
  lemma ExhaustionEndsGracefully(setup: Setup, st: LoopState)
    requires ValidSetup(setup) && st.status == Running && st.step >= 0
    ensures Next(setup, st, None) == st.(status := Exhausted)
  {
    LookupInBounds(setup.schedule, st.step);
  }
}
