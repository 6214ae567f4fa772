/**
 * The training loop of the DispNet script as a state machine over `step`,
 * the running loss `l_mean` and `last_error`. The TensorFlow session is an
 * oracle: each pass of the loop consumes one `Batch` holding what the
 * training call and the test calls return; running out of batches is the
 * input pipeline's OutOfRangeError.
 */
module TrainingLoop {
  import opened Wrappers
  import opened PyRuntime
  import opened Schedule
  import opened Cadence
  import opened Checkpoint

  /** `N_test`: test-error calls per test pass. */
  const NTest: nat := 1000

  /** `last_error` before any test pass. */
  const InitialTestError: real := 1000.0

  /** What the session returns during one pass: the training loss and error, and the `N_test` test errors. */
  datatype Batch = Batch(loss: real, trainError: real, tests: seq<real>)

  /** The `feed_dict` of the training call: loss weights, learning rate and the current `last_error`. */
  datatype Feed = Feed(weights: seq<real>, lr: real, testError: real)

  /** A log-step record: the mean loss of the window and the training error of the step. */
  datatype Summary = Summary(meanLoss: real, trainError: real)

  /**
   * The side effects of one completed pass of the loop body. `step` is the
   * step the body started at, the one the configuration was looked up for;
   * the test, summary and save of the pass are tagged `step + 1`.
   */
  datatype Iteration = Iteration(
    step: int,
    fed: Feed,
    notice: bool,             // "switching weights" info lines
    test: Option<real>,       // new `last_error` after a test pass
    summary: Option<Summary>, // summary and debug line of a log step
    save: Option<int>)        // `global_step` of the checkpoint saved under `SavePath`

  /** Running, or how the loop ended. */
  datatype Status = Running | Completed | Exhausted | Crashed(error: PyError)

  /** Everything the loop reads but never changes. */
  datatype Setup = Setup(
    schedule: Schedule,
    logStep: int,
    saveStep: int,            // also `test_step`
    nSteps: int,
    ckptDir: string,
    modelName: string)

  datatype LoopState = LoopState(step: int, lMean: real, lastError: real, trace: seq<Iteration>, status: Status)

  function Sum(xs: seq<real>): real
  {
    if xs == [] then 0.0 else Sum(xs[..|xs| - 1]) + xs[|xs| - 1]
  }

  /** `test_err / float(N_test)` after the test loop. */
  function TestMean(tests: seq<real>): real
  {
    Sum(tests) / (NTest as real)
  }

  /** A sum of values that all lie in `[lo, hi]` lies between `|xs| * lo` and `|xs| * hi`. */
  lemma {:induction false} SumBounds(xs: seq<real>, lo: real, hi: real)
    requires forall i :: 0 <= i < |xs| ==> lo <= xs[i] <= hi
    ensures (|xs| as real) * lo <= Sum(xs) <= (|xs| as real) * hi
    decreases |xs|
  {
    if xs != [] {
      var init := xs[..|xs| - 1];
      assert forall i :: 0 <= i < |init| ==> init[i] == xs[i];
      SumBounds(init, lo, hi);
      var n := |init| as real;
      assert Sum(xs) == Sum(init) + xs[|xs| - 1];
      assert (|xs| as real) * lo == n * lo + lo && (|xs| as real) * hi == n * hi + hi;
    }
  }

  /** The test error reported is an average: it lies within the range of the `N_test` errors it averages. */
  lemma TestMeanBounds(tests: seq<real>, lo: real, hi: real)
    requires |tests| == NTest
    requires forall i :: 0 <= i < |tests| ==> lo <= tests[i] <= hi
    ensures lo <= TestMean(tests) <= hi
  {
    SumBounds(tests, lo, hi);
  }

  /** The session answers every test loop with exactly `N_test` values. */
  predicate WellFormedFeed(feed: seq<Batch>)
  {
    forall i :: 0 <= i < |feed| ==> |feed[i].tests| == NTest
  }

  /** Lines 71 and 89, once the starting step is known. */
  function Initial(start: int): LoopState
  {
    LoopState(start, 0.0, InitialTestError, [], Running)
  }

  /** The setup the script builds from its flags. */
  function DispNetSetup(corrType: string, ckptDir: string, logStep: int, saveStep: int, nSteps: int): Setup
  {
    Setup(DispNetSchedule(), logStep, saveStep, nSteps, ckptDir, ModelName(corrType))
  }

  /**
   * One pass of the loop body (lines 91-128); `b` is None when the input
   * pipeline is exhausted at the training call. The checkpoint is saved
   * under the model name (the source's `MODEL_NAME` is undefined).
   */
  function Next(setup: Setup, st: LoopState, b: Option<Batch>): (r: LoopState)
    requires st.status == Running
    ensures b.None? ==> r.status != Running
  {
    match Lookup(setup.schedule, st.step)
    case Failure(e) => st.(status := Crashed(e))
    case Success(hp) =>
      if b.None? then st.(status := Exhausted)
      else
        var batch := b.value;
        var fed := Feed(hp.weights, hp.lr, st.lastError);
        var step := st.step + 1;
        var lMean := st.lMean + batch.loss;
        match Fires(step, setup.saveStep)
        case Failure(e) => st.(step := step, lMean := lMean, status := Crashed(e))
        case Success(tested) =>
          var lastError := if tested then TestMean(batch.tests) else st.lastError;
          match Fires(step, setup.logStep)
          case Failure(e) => LoopState(step, lMean, lastError, st.trace, Crashed(e))
          case Success(logged) =>
            var summary := if logged then Some(Summary(lMean / (setup.logStep as real), batch.trainError)) else None;
            var save := if tested then Some(step) else None;
            var it := Iteration(st.step, fed, st.step % ScheduleStep == 0,
                                if tested then Some(lastError) else None, summary, save);
            LoopState(step, if logged then 0.0 else lMean, lastError, st.trace + [it], Running)
  }

  /** `while step < n_steps`, one batch per pass, until the loop ends. */
  function RunFrom(setup: Setup, st: LoopState, feed: seq<Batch>): (r: LoopState)
    requires st.status == Running
    ensures r.status != Running
    decreases |feed|
  {
    if st.step >= setup.nSteps then st.(status := Completed)
    else
      var next := Next(setup, st, if feed == [] then None else Some(feed[0]));
      if next.status != Running then next else RunFrom(setup, next, feed[1..])
  }

  /** The test loop, lines 110-115: `N_test` test-error calls, summed and averaged. */
  method RunTests(tests: seq<real>) returns (mean: real)
    requires |tests| == NTest
    ensures mean == TestMean(tests)
  {
    var total := 0.0;
    for j := 0 to NTest
      invariant total == Sum(tests[..j])
    {
      assert tests[..j + 1][..j] == tests[..j];
      total := total + tests[j];
    }
    assert tests[..NTest] == tests;
    mean := total / (NTest as real);
  }

  /** The loop's mutable state, owned by the single control thread. */
  class Trainer {
    const setup: Setup
    var step: int
    var lMean: real
    var lastError: real
    var trace: seq<Iteration>
    var status: Status

    function State(): LoopState
      reads this
    {
      LoopState(step, lMean, lastError, trace, status)
    }

    constructor (setup: Setup, start: int)
      ensures this.setup == setup && State() == Initial(start)
    {
      this.setup := setup;
      step := start;
      lMean := 0.0;
      lastError := InitialTestError;
      trace := [];
      status := Running;
    }

    /** One pass of the loop body, in the script's order of statements. */
    method Iterate(b: Option<Batch>)
      requires status == Running
      requires b.Some? ==> |b.value.tests| == NTest
      modifies this
      ensures State() == Next(setup, old(State()), b)
    {
      var phase := PhaseIndex(step, |setup.schedule.weights|);
      var w := PyIndex(setup.schedule.weights, phase);
      if w.None? { status := Crashed(IndexError); return; }
      var lr := PyIndex(setup.schedule.lrs, phase);
      if lr.None? { status := Crashed(IndexError); return; }
      var fed := Feed(w.value, lr.value, lastError);
      var notice := false;
      if step % ScheduleStep == 0 {
        // lines 97-99 recompute the phase and assign the same entries again
        phase := PhaseIndex(step, |setup.schedule.weights|);
        w := PyIndex(setup.schedule.weights, phase);
        lr := PyIndex(setup.schedule.lrs, phase);
        fed := Feed(w.value, lr.value, fed.testError);
        notice := true;
      }
      if b.None? { status := Exhausted; return; }
      var batch := b.value;
      lMean := lMean + batch.loss;
      step := step + 1;
      if setup.saveStep == 0 { status := Crashed(ZeroDivisionError); return; }
      var test: Option<real> := None;
      if step % setup.saveStep == 0 {
        var testErr := RunTests(batch.tests);
        lastError := testErr;
        test := Some(testErr);
      }
      if setup.logStep == 0 { status := Crashed(ZeroDivisionError); return; }
      var summary: Option<Summary> := None;
      if step % setup.logStep == 0 {
        lMean := lMean / (setup.logStep as real);
        summary := Some(Summary(lMean, batch.trainError));
        lMean := 0.0;
      }
      var save: Option<int> := None;
      if step % setup.saveStep == 0 {
        save := Some(step);
      }
      trace := trace + [Iteration(step - 1, fed, notice, test, summary, save)];
    }

    /** Lines 90-128: the loop, then `Completed` when `step` reaches `n_steps`. */
    method Run(feed: seq<Batch>)
      requires status == Running && WellFormedFeed(feed)
      modifies this
      ensures State() == RunFrom(setup, old(State()), feed)
    {
      var i := 0;
      while status == Running && step < setup.nSteps
        invariant 0 <= i <= |feed|
        invariant status == Running ==> RunFrom(setup, State(), feed[i..]) == RunFrom(setup, old(State()), feed)
        invariant status != Running ==> State() == RunFrom(setup, old(State()), feed)
        decreases |feed| - i, if status == Running then 1 else 0
      {
        if i == |feed| {
          Iterate(None);
        } else {
          assert feed[i..][1..] == feed[i + 1..];
          Iterate(Some(feed[i]));
          i := i + 1;
        }
      }
      if status == Running {
        status := Completed;
      }
    }
  }

  /**
   * The script end to end: model name, learning-rate list, resumption, then
   * the loop. A malformed checkpoint id stops it before the loop.
   */
  method Train(corrType: string, ckptDir: string, logStep: int, saveStep: int, nSteps: int,
               latest: Option<string>, feed: seq<Batch>) returns (r: Result<LoopState, PyError>)
    requires WellFormedFeed(feed)
    ensures var resumed := ResumeStep(latest, ckptDir, ModelName(corrType));
            resumed.Failure? ==> r == Failure(resumed.error)
    ensures var resumed := ResumeStep(latest, ckptDir, ModelName(corrType));
            resumed.Success? ==>
              r == Success(RunFrom(DispNetSetup(corrType, ckptDir, logStep, saveStep, nSteps), Initial(resumed.value), feed))
  {
    var modelName := ModelName(corrType);
    var lrs := BuildLrSchedule();
    var setup := Setup(Schedule(DispNetWeights, lrs), logStep, saveStep, nSteps, ckptDir, modelName);
    var start := ResumeStep(latest, ckptDir, modelName);
    if start.Failure? {
      return Failure(start.error);
    }
    var trainer := new Trainer(setup, start.value);
    trainer.Run(feed);
    return Success(trainer.State());
  }

  /**
   * What `err` holds when line 124 formats it: the training error of the
   * pass or, after a test pass, the one-element list that the last test
   * call at line 113 rebound it to.
   */
  datatype ErrBinding = TrainErr(value: real) | TestErrList(values: seq<real>)

  function ErrAtLogLine(b: Batch, tested: bool): (err: ErrBinding)
    requires |b.tests| == NTest
    ensures tested <==> err.TestErrList?
  {
    if tested then TestErrList([b.tests[NTest - 1]]) else TrainErr(b.trainError)
  }

  /** Line 124 as written: formatting a list with `%f` raises TypeError. */
  function LogLineAsWritten(meanLoss: real, err: ErrBinding): (r: Result<Summary, PyError>)
    ensures r.Failure? <==> err.TestErrList?
    ensures r.Success? ==> r.value.trainError == err.value
  {
    match err
    case TrainErr(e) => Success(Summary(meanLoss, e))
    case TestErrList(_) => Failure(TypeError)
  }

  /**
   * Lines 119-128 as written, for a pass whose incremented step is `step`
   * and whose running loss is `lMean`: a log step formats `err` into the
   * debug line, then a save step evaluates `MODEL_NAME`. The result is the
   * summary the pass wrote, or the exception that ended it.
   */
  function PassEndAsWritten(setup: Setup, step: int, b: Batch, lMean: real): (r: Result<Option<Summary>, PyError>)
    requires |b.tests| == NTest && setup.logStep != 0 && setup.saveStep != 0
    ensures r.Failure? ==> step % setup.saveStep == 0
  {
    var tested := step % setup.saveStep == 0;
    var logged: Result<Option<Summary>, PyError> :=
      if step % setup.logStep != 0 then Success(None)
      else match LogLineAsWritten(lMean / (setup.logStep as real), ErrAtLogLine(b, tested))
           case Success(summary) => Success(Some(summary))
           case Failure(e) => Failure(e);
    if logged.Failure? || !tested then logged
    else match SavePathAsWritten(setup.ckptDir, setup.modelName)
         case Failure(e) => Failure(e)
         case Success(_) => logged
  }

  /**
   * Line 131 as written: the handler's format arguments name the undefined
   * `FLAGS`, so exhaustion of the input ends in a NameError.
   */
  function OutOfRangeHandlerAsWritten(): (s: Status)
    ensures s.Crashed?
  {
    Crashed(NameError("FLAGS"))
  }
}
