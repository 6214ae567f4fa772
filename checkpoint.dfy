/**
 * Checkpoint naming and step recovery: a checkpoint written at step `n` is
 * identified by `os.path.join(ckpt_dir, model_name) + "-" + str(n)`, and a
 * restart recovers `n` by dropping the prefix's length plus one and parsing
 * the rest with `int()`.
 */
module Checkpoint {
  import opened Wrappers
  import opened PyRuntime

  /** `model_name`: "DispNet", suffixed "Corr1D" unless the correlation layer is "none". */
  function ModelName(corrType: string): (r: string)
    ensures r == "DispNet" <==> corrType == "none"
    ensures r == "DispNet" || r == "DispNetCorr1D"
  {
    if corrType != "none" then "DispNetCorr1D" else "DispNet"
  }

  /** The path handed to the saver: `os.path.join(ckpt_dir, model_name)`. */
  function SavePath(ckptDir: string, modelName: string): string
  {
    JoinPath(ckptDir, modelName)
  }

  /** The id the saver gives a checkpoint written with `global_step=step`. */
  function CheckpointId(ckptDir: string, modelName: string, step: int): string
  {
    SavePath(ckptDir, modelName) + "-" + IntToString(step)
  }

  /**
   * The starting step: 0 without a checkpoint (no id, or an empty one, which
   * `if ckpt:` treats as false); otherwise `int()` of the id with the first
   * `len(join(ckpt_dir, model_name)) + 1` characters dropped. A malformed
   * tail is a ValueError, never a silent 0.
   */
  function ResumeStep(latest: Option<string>, ckptDir: string, modelName: string): (r: Result<int, PyError>)
    ensures latest.None? || latest == Some("") ==> r == Success(0)
    ensures r.Failure? ==> latest.Some? && latest.value != "" && r.error == ValueError
  {
    match latest
    case None => Success(0)
    case Some(id) =>
      if id == "" then Success(0)
      else ParseInt(SliceFrom(id, |SavePath(ckptDir, modelName)| + 1))
  }

  /** A checkpoint written at step `n` resumes at step `n`. */
  lemma CheckpointRoundTrip(ckptDir: string, modelName: string, n: int)
    ensures ResumeStep(Some(CheckpointId(ckptDir, modelName, n)), ckptDir, modelName) == Success(n)
  {
    var p := SavePath(ckptDir, modelName);
    var id := CheckpointId(ckptDir, modelName, n);
    assert SliceFrom(id, |p| + 1) == IntToString(n);
    ParseIntRoundTrip(n);
  }

  /** Distinct steps get distinct ids: an id names the step it was written at. */
  lemma CheckpointIdInjective(ckptDir: string, modelName: string, n1: int, n2: int)
    ensures CheckpointId(ckptDir, modelName, n1) == CheckpointId(ckptDir, modelName, n2) ==> n1 == n2
  {
    CheckpointRoundTrip(ckptDir, modelName, n1);
    CheckpointRoundTrip(ckptDir, modelName, n2);
  }

  /**
   * The prefix is never compared with the save path: any id whose tail after
   * the right number of characters is a decimal resumes at that number.
   */
  lemma ResumeIgnoresPrefix(ckptDir: string, modelName: string, prefix: string, tail: string)
    requires |prefix| == |SavePath(ckptDir, modelName)| + 1
    ensures ResumeStep(Some(prefix + tail), ckptDir, modelName) == ParseInt(tail)
  {
    assert SliceFrom(prefix + tail, |prefix|) == tail;
  }

  /**
   * A present, non-empty checkpoint id resumes exactly when its tail is an
   * optionally signed decimal; an empty one counts as no checkpoint.
   */
  lemma ResumeFailsOnMalformedTail(id: string, ckptDir: string, modelName: string)
    ensures id == "" ==> ResumeStep(Some(id), ckptDir, modelName) == Success(0)
    ensures var tail := SliceFrom(id, |SavePath(ckptDir, modelName)| + 1);
            id != "" ==> (ResumeStep(Some(id), ckptDir, modelName).Success? <==> IsDecimal(tail))
  {
  }

  /**
   * Lines 127-128 as written name `MODEL_NAME`, which the script never
   * defines: evaluating the save path raises NameError, so no checkpoint is
   * ever written.
   */
  function SavePathAsWritten(ckptDir: string, modelName: string): (r: Result<string, PyError>)
    ensures r.Failure?
  {
    Failure(NameError("MODEL_NAME"))
  }
}
