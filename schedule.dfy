/**
 * The hyperparameter schedule of the DispNet training script: a table of
 * loss-weight vectors, a table of learning rates, and the lookup that maps a
 * step to its phase and reads both tables at that phase.
 */
module Schedule {
  import opened Wrappers
  import opened PyRuntime

  /** `schedule_step`: number of steps per phase. */
  const ScheduleStep: int := 50000

  /** `weights_schedule`: a single phase that puts all weight on the finest output scale. */
  const DispNetWeights: seq<seq<real>> := [[1.0, 0.0, 0.0, 0.0, 0.0, 0.0]]

  /** The first learning rate, `1e-4`. */
  const BaseLr: real := 0.0001

  /** Blocks appended by the `extend` loop, `range(20)`. */
  const LrBlocks: nat := 20

  datatype Schedule = Schedule(weights: seq<seq<real>>, lrs: seq<real>)

  /** What one step feeds the model: its loss-weight vector and its learning rate. */
  datatype HyperParams = HyperParams(weights: seq<real>, lr: real)

  function Repeat(x: real, n: nat): (r: seq<real>)
    ensures |r| == n && forall i :: 0 <= i < n ==> r[i] == x
  {
    if n == 0 then [] else Repeat(x, n - 1) + [x]
  }

  /**
   * `lr_schedule` after `blocks` passes of the `extend` loop: five copies of
   * the base rate, then per pass three copies of half the current last entry.
   */
  function LrTable(blocks: nat): (r: seq<real>)
    ensures |r| == 5 + 3 * blocks
  {
    if blocks == 0 then Repeat(BaseLr, 5)
    else
      var prev := LrTable(blocks - 1);
      prev + Repeat(prev[|prev| - 1] / 2.0, 3)
  }

  /** The rate of the `block`-th block (block 0 is the first five entries): `1e-4 / 2^block`. */
  function Lr(block: nat): (r: real)
    ensures r > 0.0
  {
    if block == 0 then BaseLr else Lr(block - 1) / 2.0
  }

  /** The block that entry `k` of the learning-rate list belongs to. */
  function BlockOf(k: nat): nat
  {
    if k < 5 then 0 else (k - 5) / 3 + 1
  }

  /** Builds `lr_schedule` the way the script does, by repeated `extend`. */
  method BuildLrSchedule() returns (lrs: seq<real>)
    ensures lrs == LrTable(LrBlocks)
    ensures |lrs| == 65
  {
    lrs := Repeat(BaseLr, 5);
    for i := 0 to LrBlocks
      invariant lrs == LrTable(i)
    {
      ghost var prev := lrs;
      lrs := lrs + Repeat(lrs[|lrs| - 1] / 2.0, 3);
      assert LrTable(i + 1) == prev + Repeat(prev[|prev| - 1] / 2.0, 3);
    }
  }

  lemma BlockOfNewEntry(b: nat, j: nat)
    requires b >= 1 && j < 3
    ensures BlockOf(5 + 3 * (b - 1) + j) == b
    ensures BlockOf(4 + 3 * (b - 1)) == b - 1
  {
    assert (3 * (b - 1) + j) / 3 == b - 1;
    if b >= 2 {
      assert 4 + 3 * (b - 1) - 5 == 3 * (b - 2) + 2;
      assert (3 * (b - 2) + 2) / 3 == b - 2;
    }
  }

  /** Entry `k` of the list built by the loop is `1e-4 / 2^BlockOf(k)`. */
  lemma {:induction false} LrTableClosedForm(blocks: nat, k: nat)
    requires k < 5 + 3 * blocks
    ensures LrTable(blocks)[k] == Lr(BlockOf(k))
  {
    if blocks > 0 {
      var prev := LrTable(blocks - 1);
      if k < |prev| {
        LrTableClosedForm(blocks - 1, k);
      } else {
        LrTableClosedForm(blocks - 1, |prev| - 1);
        BlockOfNewEntry(blocks, k - |prev|);
      }
    }
  }

  /** The first five entries are `1e-4`. */
  lemma LrTableStartsAtBase(blocks: nat, k: nat)
    requires k < 5
    ensures LrTable(blocks)[k] == BaseLr
  {
    LrTableClosedForm(blocks, k);
  }

  /** Every entry after the first five is half the last entry of the block before it. */
  lemma LrTableHalves(blocks: nat, k: nat)
    requires 5 <= k < 5 + 3 * blocks
    ensures var prevLast := 5 + 3 * ((k - 5) / 3) - 1;
            0 <= prevLast < k && LrTable(blocks)[k] == LrTable(blocks)[prevLast] / 2.0
  {
    var q := (k - 5) / 3;
    var prevLast := 5 + 3 * q - 1;
    LrTableClosedForm(blocks, k);
    LrTableClosedForm(blocks, prevLast);
    assert BlockOf(k) == q + 1;
    if q >= 1 {
      BlockOfNewEntry(q, 2);
      assert prevLast == 5 + 3 * (q - 1) + 2;
    }
  }

  lemma {:induction false} LrAntitone(m: nat, n: nat)
    requires m <= n
    ensures Lr(n) <= Lr(m)
    decreases n - m
  {
    if m < n {
      LrAntitone(m, n - 1);
    }
  }

  lemma BlockOfMonotone(i: nat, j: nat)
    requires i <= j
    ensures BlockOf(i) <= BlockOf(j)
  {
    if i >= 5 {
      assert (i - 5) / 3 <= (j - 5) / 3;
    }
  }

  /** The learning-rate list never increases. */
  lemma LrTableNonIncreasing(blocks: nat, i: nat, j: nat)
    requires i <= j < 5 + 3 * blocks
    ensures LrTable(blocks)[j] <= LrTable(blocks)[i]
  {
    LrTableClosedForm(blocks, i);
    LrTableClosedForm(blocks, j);
    BlockOfMonotone(i, j);
    LrAntitone(BlockOf(i), BlockOf(j));
  }

  /** `min(step // schedule_step, len(weights_schedule) - 1)`; `//` by a positive divisor is Dafny's `/`. */
  function PhaseIndex(step: int, phases: int): (r: int)
    ensures r <= phases - 1 && r <= step / ScheduleStep
    ensures r == phases - 1 || r == step / ScheduleStep
    ensures step >= 0 && phases > 0 ==> 0 <= r < phases
  {
    Min(step / ScheduleStep, phases - 1)
  }

  /** Lines 91-94: the phase, then `weights_schedule[phase]` and `lr_schedule[phase]` (an IndexError leaves the loop). */
  function Lookup(s: Schedule, step: int): (r: Result<HyperParams, PyError>)
    ensures r.Failure? ==> r.error == IndexError
  {
    var phase := PhaseIndex(step, |s.weights|);
    match PyIndex(s.weights, phase)
    case None => Failure(IndexError)
    case Some(w) =>
      match PyIndex(s.lrs, phase)
      case None => Failure(IndexError)
      case Some(lr) => Success(HyperParams(w, lr))
  }

  /** A non-empty weight table whose phases all have a learning rate. */
  predicate ValidSchedule(s: Schedule)
  {
    0 < |s.weights| <= |s.lrs|
  }

  /** For every non-negative step the phase indexes both tables, with no IndexError. */
  lemma LookupInBounds(s: Schedule, step: int)
    requires ValidSchedule(s) && step >= 0
    ensures var p := PhaseIndex(step, |s.weights|);
            0 <= p < |s.weights| && p < |s.lrs| &&
            Lookup(s, step) == Success(HyperParams(s.weights[p], s.lrs[p]))
  {
  }

  /** The lookup depends on the step only through `step // schedule_step`. */
  lemma LookupPerPhase(s: Schedule, step1: int, step2: int)
    requires step1 / ScheduleStep == step2 / ScheduleStep
    ensures Lookup(s, step1) == Lookup(s, step2)
  {
  }

  /** From the start of the last phase on, the last entry is held (clamped, not wrapped). */
  lemma LookupClampsToLastPhase(s: Schedule, step: int)
    requires ValidSchedule(s)
    requires step >= (|s.weights| - 1) * ScheduleStep
    ensures Lookup(s, step) == Success(HyperParams(s.weights[|s.weights| - 1], s.lrs[|s.weights| - 1]))
  {
    LookupInBounds(s, step);
  }

  /** The table the script builds. */
  function DispNetSchedule(): (s: Schedule)
    ensures ValidSchedule(s) && |s.lrs| == 65
  {
    Schedule(DispNetWeights, LrTable(LrBlocks))
  }

  /**
   * With one weight phase the script trains every non-negative step with the
   * first weight vector and `1e-4`: the halved rates are never read.
   */
  lemma DispNetHyperParamsConstant(step: int)
    requires step >= 0
    ensures Lookup(DispNetSchedule(), step) == Success(HyperParams(DispNetWeights[0], BaseLr))
  {
    LookupInBounds(DispNetSchedule(), step);
    LrTableStartsAtBase(LrBlocks, 0);
  }

  /**
   * A negative step (reachable only from a checkpoint id with a negative tail)
   * gives a negative phase, which Python reads from the end of both lists:
   * phase -1 gets the smallest rate, anything lower is an IndexError.
   */
  lemma DispNetNegativeStep(step: int)
    requires step < 0
    ensures -ScheduleStep <= step ==> Lookup(DispNetSchedule(), step) == Success(HyperParams(DispNetWeights[0], Lr(LrBlocks)))
    ensures step < -ScheduleStep ==> Lookup(DispNetSchedule(), step) == Failure(IndexError)
  {
    if -ScheduleStep <= step {
      assert step / ScheduleStep == -1;
      LrTableClosedForm(LrBlocks, 64);
    } else {
      assert step / ScheduleStep <= -2;
    }
  }
}
