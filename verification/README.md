# Radio keyword recorder: the recording job, modelled in Dafny

The recorder captures a live radio stream at fixed times of day. Each job
fire runs `ffmpeg` against the primary stream for the full duration
(600 seconds). If that capture exits non-zero, the job works out how many
seconds were left until the end time it fixed before starting. It then
runs at most one fallback capture against the secondary stream for exactly
that long, as long as more than `MIN_RETRY_DURATION` (10) seconds remain.
Each capture writes to a file named from its start time, `YYYYMMDD_HHMMSS.mp3`.

This project models that decision logic as pure functions. The clock
readings and the capture outcomes are inputs, and a job fire returns the
sequence of captures it launched and how it ended.

| module | file | models |
|---|---|---|
| `Settings` | settings.dfy | the constants, as a `Config` value; the whole-minute budget |
| `Decimal` | decimal.dfy | zero-padded `strftime` fields and `str(int)`, with their parsers |
| `Timestamp` | timestamp.dfy | `datetime` readings and the output file name |
| `Budget` | budget.dfy | the target end time and `int(total_seconds())` of what is left |
| `RetryPlanner` | retry_planner.dfy | the three-way retry rule |
| `Capture` | capture.dfy | one attempt: its file name and its six-word command line |
| `Job` | job.dfy | `retry_recording` and `job` over injected readings and outcomes |
| `JobMachine` | job_machine.dfy | the same job fire as a Start/Primary/Retrying/Done state machine |
| `JobScenarios` | job_scenarios.dfy | concrete fires of the shipped configuration |

Modelling choices:

- Clock readings used for the time budget are integer microseconds, the
  resolution of `datetime`. `int((target_end_time - datetime.now()).total_seconds())`
  becomes `Budget.TruncateToSeconds`, which rounds toward zero. An overrun
  of less than one second therefore gives 0 remaining seconds, not -1. Either
  way no retry happens.
- The capture process is an oracle. `Completed` is exit status 0,
  `NonZeroExit` is `CalledProcessError`, and `Raised` is any other
  exception, such as a missing ffmpeg binary. `job` catches only
  `CalledProcessError`, so `Raised` ends the fire with status `Uncaught`.
  This applies to both the primary and the fallback capture.
- The retry threshold, URLs, full duration and ffmpeg path are fields of
  `Settings.Config`. `Settings.Recorder` holds the shipped values.
- The target end time is `start + timedelta(minutes=FULL_DURATION_SECONDS // 60)`,
  a whole number of minutes after the start. It falls short of start plus
  the full duration unless the full duration is a multiple of 60, which
  600 is (`Settings.RecorderBudget`).
- The primary attempt is labelled "full" (`Capture.Label`), and the
  fallback is labelled "retry".

## Model

| member | source | states |
|---|---|---|
| Settings.FullDurationMinutes | main.py:13 | FULL_DURATION_MINUTES is the floor of the full duration over 60: m*60 <= seconds < m*60+60 |
| Settings.BudgetSeconds | main.py:13 | the whole-minute budget never exceeds the full duration, is within 60 s of it, and equals it for whole-minute durations |
| Settings.RecorderBudget | main.py:9-15 | with the shipped constants the budget is 10 minutes = 600 s, equal to the full duration, and the threshold is 10 |
| Decimal.ZeroPad | main.py:21 | a `strftime` field is exactly `width` decimal digits; that it reads back as its number is `Decimal.DigitsValueOfZeroPad` |
| Decimal.DigitsValueOfZeroPad | main.py:21 | reading a zero-padded `strftime` field gives back the number written |
| Decimal.ZeroPadOfDigitsValue | main.py:21 | every digit run is the zero-padded text of its own value (the padding loses nothing) |
| Decimal.ZeroPadInjective | main.py:21 | two equal-width padded fields are equal iff their numbers are |
| Decimal.NatToStringOfDigitsValue | main.py:25 | the text `str` gives a natural is the unique canonical digit run for it |
| Decimal.IntToString | main.py:25 | `str(n)` is non-empty and starts with a minus sign iff n is negative; that it parses back to n is `Decimal.IntToStringRoundTrip` |
| Decimal.IntToStringRoundTrip | main.py:25 | `str(duration)` parses back to exactly `duration`, negative values included |
| Decimal.ParseIntCanonical | main.py:25 | any text that parses as an integer is exactly `str` of that integer |
| Timestamp.FileName | main.py:21-22 | the output file name is 19 characters for every valid `datetime`: characters 0-7 and 9-14 are digits, 8 is "_", and it ends ".mp3" |
| Timestamp.FileNameFields | main.py:21-22 | the digit fields of the name read back as year, month, day, hour, minute and second of the start reading |
| Timestamp.ParseFileNameRoundTrip | main.py:21-22 | parsing a file name recovers its start time truncated to the second |
| Timestamp.FileNameOfParsed | main.py:21-22 | every name that parses is exactly the file name of the time it parses to |
| Timestamp.FileNameCollision | main.py:21-22 | two start times give the same file name iff they fall in the same second |
| Budget.TargetEnd | main.py:53 | the target end lies a whole number of minutes after the start reading, at most the full duration after it and less than a minute short of it |
| Budget.TruncateToSeconds | main.py:60 | `int()` of a microsecond difference in seconds rounds toward zero: bounds for both signs |
| Budget.Remaining | main.py:60 | remaining seconds are positive iff at least a second is left, negative iff the target was overrun by at least a second |
| Budget.RemainingWithinBudget | main.py:53-60 | a failure at or after the start leaves at most the budget, itself at most the full duration |
| Budget.RemainingIsBudgetMinusElapsed | main.py:53-60 | for whole-second readings the remaining time is exactly budget minus elapsed seconds |
| Job.RemainingAfterFailure | main.py:60 | the remaining time is positive iff the primary failed at least a second before the target end, and for a failure not before the start it is at most the budget and the full duration |
| RetryPlanner.Decide | main.py:36-47 | no retry iff remaining <= 0 (no remaining time) or 0 < remaining <= threshold (not enough); otherwise a retry of exactly `remaining` seconds |
| RetryPlanner.LaunchedDurationPositive | main.py:40-43 | a launched fallback asks for a positive duration above the threshold |
| RetryPlanner.ThresholdIsExclusive | main.py:40-47 | remaining == threshold does not retry, threshold + 1 does |
| Capture.Label | main.py:43-57 | the `attempt_type` label is "full" exactly for the primary kind and "retry" exactly for the fallback kind |
| Capture.CommandLine | main.py:25 | the argv has six words, the url at index 2, `str(duration)` at index 4 parsing back to the duration, and last the file name, which parses back to the start second |
| Capture.CommandLineRoundTrip | main.py:21-25 | the command line has six words and reads back as url at index 2, duration text at 4, and last a file name that parses back to the start second |
| Capture.CommandLineOfParsed | main.py:21-25 | every command line of that shape whose words parse is exactly the one built for the attempt they describe |
| Job.RetryRecording | main.py:36-47 | at most one fallback; one iff remaining > 0 and > threshold; it uses the fallback url, kind "retry", duration exactly `remaining`; both skip reasons; the status is Recorded, RetryFailed or Uncaught exactly as the fallback completes, exits non-zero or raises another exception |
| Job.RunJob | main.py:50-61 | one or two captures, the first exactly the primary url for the full duration with kind "full"; a successful or raising primary ends the fire alone; a second capture iff the primary exited non-zero and the retry rule launches; with a second capture the fire ends Recorded(Retry), RetryFailed or Uncaught exactly as the fallback completes, exits non-zero or raises another exception |
| Job.FallbackShape | main.py:56-61 | a second capture happens only after a non-zero primary exit and is the fallback url, kind "retry", exactly the remaining seconds, above the threshold |
| Job.NoFallbackReason | main.py:36-47 | after a non-zero primary exit with no fallback, the status says "no remaining time" or "not enough time" as the remaining time dictates |
| Job.FallbackWithinBudget | main.py:53-61 | if the failure reading is not before the start reading, the fallback never exceeds the budget or the full duration |
| Job.FallbackIsBudgetMinusElapsed | main.py:53-61 | with whole-second readings the fallback's duration is the budget minus the elapsed seconds |
| Job.DurationsPositive | main.py:40-57 | with a positive full duration every launched capture asks for a positive duration |
| Job.RecordedByLastAttempt | main.py:42-57 | a recorded fire was recorded by its last capture, and it is the primary iff it is the only capture |
| Job.SameSecondFallbackCollides | main.py:21-22 | the fallback's file name equals the primary's iff both start in the same second |
| JobMachine.Step | main.py:50-61 | each step of the state machine launches at most one capture and Done is terminal |
| JobMachine.RetryingStep | main.py:36-47 | from Retrying, one step of the state machine does exactly what `retry_recording` does |
| JobMachine.MachineAgreesWithJob | main.py:50-61 | three steps from Start reach Done with exactly the captures and status `job` produces |
| JobMachine.DoneStaysDone | main.py:44-45 | after Done no further capture is ever launched: retry depth is one |
| JobScenarios.SixAmFileName | main.py:21-22 | a capture at 06:00:00 on 1 June 2024 writes "20240601_060000.mp3" |
| JobScenarios.PrimarySucceeds | main.py:56-57 | a successful primary gives the single capture (primary url, 600 s, "full") and no retry |
| JobScenarios.PrimaryCommandLine | main.py:21-25 | that capture runs `/usr/bin/ffmpeg -i <primary url> -t 600 20240601_060000.mp3` |
| JobScenarios.FailsAfter550Seconds | main.py:56-61 | a failure after 550 s launches a 50 s fallback on the fallback url |
| JobScenarios.FailsImmediately | main.py:56-61 | an immediate failure launches a 600 s fallback |
| JobScenarios.FailsAfter595Seconds | main.py:40-47 | a failure after 595 s leaves 5 s: not enough, no fallback |
| JobScenarios.TenSecondsLeftDoesNotRetry | main.py:40-47 | exactly 10 s left does not retry |
| JobScenarios.AlmostElevenSecondsLeftDoesNotRetry | main.py:40-60 | 10.9 s left truncates to 10 and does not retry |
| JobScenarios.OverrunBelowOneSecond | main.py:37-39 | an overrun of half a second truncates to 0 and reports no remaining time |
| JobScenarios.FallbackFailsTerminally | main.py:42-45 | a failed fallback ends the fire after two captures with status RetryFailed |

## Left out

- The scheduler (`schedule.every().day.at(...)`, the `run_pending`/`sleep(1)` loop and `SCHEDULED_TIMES`, main.py:9 and 64-73): third-party timing and a non-terminating poll loop with no decision logic of its own.
- Running ffmpeg (`subprocess.run`, the `os.devnull` redirection, main.py:30-31): external process I/O, replaced by the `Capture.Outcome` oracle. ffmpeg's own enforcement of the `-t` bound is not modelled.
- The microsecond clock readings are unbounded integers, not limited to the range of `datetime`. For a fire less than `FULL_DURATION_MINUTES` before the end of year 9999, main.py:53 raises `OverflowError` before any capture starts; that overflow is not modelled, and `Job.RunJob` always launches the primary.
- `datetime.now()` (main.py:21, 53, 60): clock readings are inputs (`Job.Readings`). Converting between the microsecond readings and the calendar reading that names the file is not modelled; the two are independent inputs.
- Budget.TruncateToSeconds: models exact truncation of the microsecond difference, not the float rounding of `total_seconds()`. The two agree for differences far below 2^53 microseconds.
- Timestamp.FileName: writes the year with four digits. For years below 1000 the padding of `%Y` depends on the platform's C library; for years 1000-9999 both conventions agree.
- Console messages (main.py:27, 33, 38, 41, 45, 47, 59): the outcome is the `Job.Status` value and its `RetryPlanner.Reason` tag, not text. `Capture.Label` keeps the "full"/"retry" labels.
- Overwriting an existing output file: what ffmpeg does when two captures share a file name is outside the model. `Job.SameSecondFallbackCollides` only states when the names coincide.
- Notification, e-mail and configuration loading: no such code exists in main.py.
