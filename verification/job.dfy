/**
 One job fire: fix the target end, run the primary capture, and on a
 non-zero exit hand the remaining time to the retry rule. The wall clock
 and the capture process are inputs: the readings the job would take and
 the outcomes the process would report.
 */
module Job {
  import opened Timestamp
  import opened Settings
  import opened Budget
  import opened RetryPlanner
  import opened Capture

  /**
   What the outside world supplies to one fire. `primaryFailedAt` is read
   only after a non-zero exit, and the retry fields only when a retry starts.
   */
  datatype Readings = Readings(
    jobStart: int,               // microseconds, when the target end is fixed
    primaryStartedAt: DateTime,  // names the primary's output file
    primaryOutcome: Outcome,
    primaryFailedAt: int,        // microseconds, when the remaining time is computed
    retryStartedAt: DateTime,    // names the fallback's output file
    retryOutcome: Outcome)

  /** How a fire ends. */
  datatype Status =
    | Recorded(kind: Kind)          // a capture exited 0 and left its file
    | NotRetried(reason: Reason)    // primary failed, no fallback launched
    | RetryFailed                   // primary and fallback both exited non-zero
    | Uncaught                      // the last capture raised something other than a non-zero exit

  /** The captures launched, in order, and the final status. */
  datatype Run = Run(trace: seq<Attempt>, status: Status)

  /** `retry_recording`: at most one fallback capture; its failure is terminal. */
  function RetryRecording(cfg: Config, remaining: int, startedAt: DateTime, outcome: Outcome): (run: Run)
    ensures |run.trace| <= 1
    ensures |run.trace| == 1 <==> remaining > 0 && remaining > cfg.minRetryDuration
    ensures remaining <= 0 ==> run == Run([], NotRetried(NoRemainingTime))
    ensures 0 < remaining <= cfg.minRetryDuration ==> run == Run([], NotRetried(NotEnoughTime))
    ensures |run.trace| == 1 ==>
      && run.trace[0].url == cfg.fallbackUrl
      && run.trace[0].kind == Retry
      && run.trace[0].duration == remaining
      && run.trace[0].startedAt == startedAt
    ensures |run.trace| == 1 ==> (run.status == Recorded(Retry) <==> outcome == Completed)
    ensures |run.trace| == 1 ==> (run.status == RetryFailed <==> outcome == NonZeroExit)
    ensures |run.trace| == 1 ==> (run.status == Uncaught <==> outcome == Raised)
  {
    match Decide(remaining, cfg.minRetryDuration)
    case Skip(reason) => Run([], NotRetried(reason))
    case Launch(duration) =>
      var a := Attempt(cfg.fallbackUrl, duration, Retry, startedAt);
      var status := match outcome
        case Completed => Recorded(Retry)
        case NonZeroExit => RetryFailed
        case Raised => Uncaught;
      Run([a], status)
  }

  /** The remaining time the job computes after a non-zero primary exit. */
  function RemainingAfterFailure(cfg: Config, r: Readings): (rem: int)
    ensures rem > 0 <==> r.primaryFailedAt - r.jobStart <= BudgetSeconds(cfg) * MicrosPerSecond - MicrosPerSecond
    ensures r.jobStart <= r.primaryFailedAt ==> rem <= BudgetSeconds(cfg) <= cfg.fullDurationSeconds
  {
    var rem := Remaining(TargetEnd(cfg, r.jobStart), r.primaryFailedAt);
    assert r.jobStart <= r.primaryFailedAt ==> rem <= BudgetSeconds(cfg) by {
      if r.jobStart <= r.primaryFailedAt {
        RemainingWithinBudget(cfg, r.jobStart, r.primaryFailedAt);
      }
    }
    rem
  }

  /** The primary capture every fire starts with. */
  function PrimaryAttempt(cfg: Config, r: Readings): Attempt
  {
    Attempt(cfg.primaryUrl, cfg.fullDurationSeconds, Full, r.primaryStartedAt)
  }

  /** `job`. */
  function RunJob(cfg: Config, r: Readings): (run: Run)
    ensures 1 <= |run.trace| <= 2
    ensures run.trace[0] == Attempt(cfg.primaryUrl, cfg.fullDurationSeconds, Full, r.primaryStartedAt)
    ensures r.primaryOutcome == Completed ==> |run.trace| == 1 && run.status == Recorded(Full)
    ensures r.primaryOutcome == Raised ==> |run.trace| == 1 && run.status == Uncaught
    ensures |run.trace| == 2 <==>
      r.primaryOutcome == NonZeroExit && Decide(RemainingAfterFailure(cfg, r), cfg.minRetryDuration).Launch?
    ensures |run.trace| == 2 ==>
      && (run.status == Recorded(Retry) <==> r.retryOutcome == Completed)
      && (run.status == RetryFailed <==> r.retryOutcome == NonZeroExit)
      && (run.status == Uncaught <==> r.retryOutcome == Raised)
  {
    var target := TargetEnd(cfg, r.jobStart);
    var primary := PrimaryAttempt(cfg, r);
    match r.primaryOutcome
    case Completed => Run([primary], Recorded(Full))
    case Raised => Run([primary], Uncaught)
    case NonZeroExit =>
      var remaining := Remaining(target, r.primaryFailedAt);
      var rest := RetryRecording(cfg, remaining, r.retryStartedAt, r.retryOutcome);
      Run([primary] + rest.trace, rest.status)
  }

  /**
   The fallback of a fire, when there is one, follows a non-zero primary exit,
   uses the fallback url with kind "retry", and asks for exactly the remaining time.
   */
  lemma FallbackShape(cfg: Config, r: Readings)
    requires r.primaryOutcome == NonZeroExit
    requires Decide(RemainingAfterFailure(cfg, r), cfg.minRetryDuration).Launch?
    ensures |RunJob(cfg, r).trace| == 2
    ensures RunJob(cfg, r).trace[1]
         == Attempt(cfg.fallbackUrl, RemainingAfterFailure(cfg, r), Retry, r.retryStartedAt)
    ensures RunJob(cfg, r).trace[1].duration > cfg.minRetryDuration
    ensures RunJob(cfg, r).trace[1].duration > 0
  {
  }

  /** Primary failure with no fallback: the status names which of the two skip reasons applied. */
  lemma NoFallbackReason(cfg: Config, r: Readings)
    requires r.primaryOutcome == NonZeroExit
    ensures RemainingAfterFailure(cfg, r) <= 0 ==>
      RunJob(cfg, r) == Run([PrimaryAttempt(cfg, r)], NotRetried(NoRemainingTime))
    ensures 0 < RemainingAfterFailure(cfg, r) <= cfg.minRetryDuration ==>
      RunJob(cfg, r) == Run([PrimaryAttempt(cfg, r)], NotRetried(NotEnoughTime))
  {
  }

  /** A failed primary started after the job started never gets a fallback longer than the full duration. */
  lemma FallbackWithinBudget(cfg: Config, r: Readings)
    requires r.jobStart <= r.primaryFailedAt
    requires r.primaryOutcome == NonZeroExit
    requires Decide(RemainingAfterFailure(cfg, r), cfg.minRetryDuration).Launch?
    ensures RunJob(cfg, r).trace[1].duration <= BudgetSeconds(cfg) <= cfg.fullDurationSeconds
  {
    RemainingWithinBudget(cfg, r.jobStart, r.primaryFailedAt);
  }

  /** With whole-second readings, the fallback asks for the budget minus the seconds the primary used. */
  lemma FallbackIsBudgetMinusElapsed(cfg: Config, r: Readings)
    requires r.jobStart % MicrosPerSecond == 0 && r.primaryFailedAt % MicrosPerSecond == 0
    requires r.primaryOutcome == NonZeroExit
    requires Decide(RemainingAfterFailure(cfg, r), cfg.minRetryDuration).Launch?
    ensures RunJob(cfg, r).trace[1].duration
         == BudgetSeconds(cfg) - (r.primaryFailedAt - r.jobStart) / MicrosPerSecond
  {
    RemainingIsBudgetMinusElapsed(cfg, r.jobStart, r.primaryFailedAt);
  }

  /** With a positive full duration, every capture a fire launches asks for a positive number of seconds. */
  lemma DurationsPositive(cfg: Config, r: Readings)
    requires cfg.fullDurationSeconds > 0
    ensures forall i :: 0 <= i < |RunJob(cfg, r).trace| ==> RunJob(cfg, r).trace[i].duration > 0
  {
  }

  /** The status names the kind of the capture that produced the file, and that capture is the last one. */
  lemma RecordedByLastAttempt(cfg: Config, r: Readings)
    requires RunJob(cfg, r).status.Recorded?
    ensures RunJob(cfg, r).status.kind == RunJob(cfg, r).trace[|RunJob(cfg, r).trace| - 1].kind
    ensures RunJob(cfg, r).status.kind == Full <==> |RunJob(cfg, r).trace| == 1
  {
  }

  /** The fallback's file name equals the primary's exactly when both start in the same second. */
  lemma SameSecondFallbackCollides(cfg: Config, r: Readings)
    requires Valid(r.primaryStartedAt) && Valid(r.retryStartedAt)
    requires r.primaryOutcome == NonZeroExit
    requires Decide(RemainingAfterFailure(cfg, r), cfg.minRetryDuration).Launch?
    ensures |RunJob(cfg, r).trace| == 2
    ensures FileName(RunJob(cfg, r).trace[0].startedAt) == FileName(RunJob(cfg, r).trace[1].startedAt)
        <==> WholeSecond(r.primaryStartedAt) == WholeSecond(r.retryStartedAt)
  {
    FileNameCollision(r.primaryStartedAt, r.retryStartedAt);
  }
}
