/**
 Concrete fires of the shipped configuration: ten-minute budget, retry
 threshold of ten seconds, job started at 06:00:00 on 1 June 2024.
 */
module JobScenarios {
  import opened Decimal
  import opened Timestamp
  import opened Settings
  import opened Budget
  import opened RetryPlanner
  import opened Capture
  import opened Job

  const SixAm := DateTime(2024, 6, 1, 6, 0, 0, 0)

  /**
   A fire whose primary ends as `primary` when the clock has advanced `failedAfter`
   microseconds. The fallback's start reading, 06:09:10, is an arbitrary fixed
   value: it only names the fallback's file and does not follow `failedAfter`.
   */
  function Fire(primary: Outcome, failedAfter: int, retry: Outcome): (r: Readings)
    ensures Valid(r.primaryStartedAt) && Valid(r.retryStartedAt)
  {
    Readings(0, SixAm, primary, failedAfter, SixAm.(minute := 9, second := 10), retry)
  }

  /** The four-digit year field of that reading. */
  lemma YearField()
    ensures ZeroPad(2024, 4) == "2024"
  {
    assert ZeroPad(2, 1) == "2";
    assert ZeroPad(20, 2) == "20";
    assert ZeroPad(202, 3) == "202";
  }

  /** The two-digit fields of that reading. */
  lemma TwoDigitFields()
    ensures ZeroPad(6, 2) == "06" && ZeroPad(1, 2) == "01" && ZeroPad(0, 2) == "00"
  {
    assert ZeroPad(0, 1) == "0";
  }

  /** Six o'clock on 1 June 2024 names the file "20240601_060000.mp3". */
  lemma SixAmFileName()
    ensures FileName(SixAm) == "20240601_060000.mp3"
  {
    YearField();
    TwoDigitFields();
  }

  /** The primary succeeds: one capture, of the primary url for the full 600 seconds, and nothing else. */
  lemma PrimarySucceeds(failedAfter: int, retry: Outcome)
    ensures RunJob(Recorder, Fire(Completed, failedAfter, retry))
         == Run([Attempt(Recorder.primaryUrl, 600, Full, SixAm)], Recorded(Full))
  {
    RecorderBudget();
  }

  /** The command line of that capture, word for word. */
  lemma PrimaryCommandLine()
    ensures CommandLine(Recorder.ffmpegPath, Attempt(Recorder.primaryUrl, 600, Full, SixAm))
         == ["/usr/bin/ffmpeg", "-i", Recorder.primaryUrl, "-t", "600", "20240601_060000.mp3"]
  {
    SixAmFileName();
    assert NatToString(60) == "60" by {
      assert NatToString(6) == "6";
    }
    assert IntToString(600) == "600";
  }

  /** The primary fails after 550 seconds: one fallback of exactly 50 seconds. */
  lemma FailsAfter550Seconds(retry: Outcome)
    ensures RunJob(Recorder, Fire(NonZeroExit, 550 * MicrosPerSecond, retry)).trace[1].duration == 50
    ensures RunJob(Recorder, Fire(NonZeroExit, 550 * MicrosPerSecond, retry)).trace[1].url == Recorder.fallbackUrl
  {
    var r := Fire(NonZeroExit, 550 * MicrosPerSecond, retry);
    RecorderBudget();
    assert RemainingAfterFailure(Recorder, r) == 50;
    FallbackShape(Recorder, r);
  }

  /** The primary fails at once: the fallback gets the whole 600 seconds. */
  lemma FailsImmediately(retry: Outcome)
    ensures |RunJob(Recorder, Fire(NonZeroExit, 0, retry)).trace| == 2
    ensures RunJob(Recorder, Fire(NonZeroExit, 0, retry)).trace[1].duration == 600
  {
    var r := Fire(NonZeroExit, 0, retry);
    RecorderBudget();
    assert RemainingAfterFailure(Recorder, r) == 600;
  }

  /** The primary fails after 595 seconds: 5 seconds left is not enough, no fallback. */
  lemma FailsAfter595Seconds(retry: Outcome)
    ensures RunJob(Recorder, Fire(NonZeroExit, 595 * MicrosPerSecond, retry)).status
         == NotRetried(NotEnoughTime)
    ensures |RunJob(Recorder, Fire(NonZeroExit, 595 * MicrosPerSecond, retry)).trace| == 1
  {
    var r := Fire(NonZeroExit, 595 * MicrosPerSecond, retry);
    RecorderBudget();
    assert RemainingAfterFailure(Recorder, r) == 5;
    NoFallbackReason(Recorder, r);
  }

  /** Exactly ten seconds left does not retry. */
  lemma TenSecondsLeftDoesNotRetry(retry: Outcome)
    ensures RunJob(Recorder, Fire(NonZeroExit, 590 * MicrosPerSecond, retry)).status
         == NotRetried(NotEnoughTime)
  {
    var r := Fire(NonZeroExit, 590 * MicrosPerSecond, retry);
    RecorderBudget();
    assert RemainingAfterFailure(Recorder, r) == 10;
    NoFallbackReason(Recorder, r);
  }

  /** 10.9 seconds left truncates to ten, which does not retry either. */
  lemma AlmostElevenSecondsLeftDoesNotRetry(retry: Outcome)
    ensures RunJob(Recorder, Fire(NonZeroExit, 589 * MicrosPerSecond + 100000, retry)).status
         == NotRetried(NotEnoughTime)
  {
    var r := Fire(NonZeroExit, 589 * MicrosPerSecond + 100000, retry);
    RecorderBudget();
    assert TruncateToSeconds(10900000) == 10;
    assert RemainingAfterFailure(Recorder, r) == 10;
    NoFallbackReason(Recorder, r);
  }

  /** Half a second past the target end truncates to zero seconds: no remaining time. */
  lemma OverrunBelowOneSecond(retry: Outcome)
    ensures RunJob(Recorder, Fire(NonZeroExit, 600 * MicrosPerSecond + 500000, retry)).status
         == NotRetried(NoRemainingTime)
  {
    var r := Fire(NonZeroExit, 600 * MicrosPerSecond + 500000, retry);
    RecorderBudget();
    assert TruncateToSeconds(-500000) == 0;
    assert RemainingAfterFailure(Recorder, r) == 0;
    NoFallbackReason(Recorder, r);
  }

  /** A failed fallback ends the fire after exactly two captures. */
  lemma FallbackFailsTerminally()
    ensures RunJob(Recorder, Fire(NonZeroExit, 30 * MicrosPerSecond, NonZeroExit)).status == RetryFailed
    ensures |RunJob(Recorder, Fire(NonZeroExit, 30 * MicrosPerSecond, NonZeroExit)).trace| == 2
  {
    var r := Fire(NonZeroExit, 30 * MicrosPerSecond, NonZeroExit);
    RecorderBudget();
    assert RemainingAfterFailure(Recorder, r) == 570;
  }
}
