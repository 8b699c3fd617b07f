/** The three-way decision `retry_recording` takes on the remaining time. */
module RetryPlanner {

  /** Why no fallback capture is launched. */
  datatype Reason = NoRemainingTime | NotEnoughTime

  datatype Decision = Skip(reason: Reason) | Launch(duration: int)

  /**
   No time left: skip. Some time, but no more than the threshold: skip.
   More than the threshold: one fallback capture sized to the exact remaining time.
   */
  function Decide(remaining: int, threshold: int): (d: Decision)
    ensures d == Skip(NoRemainingTime) <==> remaining <= 0
    ensures d == Skip(NotEnoughTime) <==> 0 < remaining <= threshold
    ensures d.Launch? <==> remaining > 0 && remaining > threshold
    ensures d.Launch? ==> d.duration == remaining
  {
    if remaining <= 0 then Skip(NoRemainingTime)
    else if remaining > threshold then Launch(remaining)
    else Skip(NotEnoughTime)
  }

  /** A launched fallback always asks for a positive duration above the threshold. */
  lemma LaunchedDurationPositive(remaining: int, threshold: int)
    requires Decide(remaining, threshold).Launch?
    ensures Decide(remaining, threshold).duration > 0
    ensures Decide(remaining, threshold).duration > threshold
  {
  }

  /** Exactly at the threshold there is no retry: the comparison is strict. */
  lemma ThresholdIsExclusive(threshold: int)
    requires threshold > 0
    ensures Decide(threshold, threshold) == Skip(NotEnoughTime)
    ensures Decide(threshold + 1, threshold) == Launch(threshold + 1)
  {
  }
}
