/**
 The job fire as a state machine: Start, Primary, Retrying, Done. Each
 step launches at most one capture, so one capture is in flight at a time.
 This is a second, step-wise description of the same behaviour as
 `Job.RunJob`, and the two are proved to agree.
 */
module JobMachine {
  import opened Settings
  import opened Budget
  import opened RetryPlanner
  import opened Capture
  import opened Job

  datatype Phase =
    | Start
    | Primary(target: int)
    | Retrying(remaining: int)
    | Done(status: Status)

  datatype State = State(phase: Phase, trace: seq<Attempt>)

  const Initial := State(Start, [])

  /** One transition; Done is terminal. */
  function Step(cfg: Config, r: Readings, s: State): (s': State)
    ensures s.trace <= s'.trace && |s'.trace| <= |s.trace| + 1
    ensures s.phase.Done? ==> s' == s
  {
    match s.phase
    case Start => State(Primary(TargetEnd(cfg, r.jobStart)), s.trace)
    case Primary(target) =>
      var trace := s.trace + [PrimaryAttempt(cfg, r)];
      (match r.primaryOutcome
       case Completed => State(Done(Recorded(Full)), trace)
       case Raised => State(Done(Uncaught), trace)
       case NonZeroExit => State(Retrying(Remaining(target, r.primaryFailedAt)), trace))
    case Retrying(remaining) =>
      (match Decide(remaining, cfg.minRetryDuration)
       case Skip(reason) => State(Done(NotRetried(reason)), s.trace)
       case Launch(d) =>
         var trace := s.trace + [Attempt(cfg.fallbackUrl, d, Retry, r.retryStartedAt)];
         match r.retryOutcome
         case Completed => State(Done(Recorded(Retry)), trace)
         case NonZeroExit => State(Done(RetryFailed), trace)
         case Raised => State(Done(Uncaught), trace))
    case Done(_) => s
  }

  function Execute(cfg: Config, r: Readings, s: State, steps: nat): (s': State)
    ensures s.trace <= s'.trace && |s'.trace| <= |s.trace| + steps
    decreases steps
  {
    if steps == 0 then s else Execute(cfg, r, Step(cfg, r, s), steps - 1)
  }

  /** Three steps from Start reach Done, with the trace and status `RunJob` computes. */
  lemma {:induction false} MachineAgreesWithJob(cfg: Config, r: Readings)
    ensures Execute(cfg, r, Initial, 3).phase.Done?
    ensures Run(Execute(cfg, r, Initial, 3).trace, Execute(cfg, r, Initial, 3).phase.status)
         == RunJob(cfg, r)
  {
    var s1 := Step(cfg, r, Initial);
    var s2 := Step(cfg, r, s1);
    var s3 := Step(cfg, r, s2);
    assert Execute(cfg, r, s2, 1) == s3;
    assert Execute(cfg, r, s1, 2) == s3;
    assert Execute(cfg, r, Initial, 3) == s3;
    var primary := PrimaryAttempt(cfg, r);
    assert s1 == State(Primary(TargetEnd(cfg, r.jobStart)), []);
    match r.primaryOutcome
    case Completed =>
      assert s3 == s2 == State(Done(Recorded(Full)), [primary]);
    case Raised =>
      assert s3 == s2 == State(Done(Uncaught), [primary]);
    case NonZeroExit =>
      var remaining := RemainingAfterFailure(cfg, r);
      assert s2 == State(Retrying(remaining), [primary]);
      RetryingStep(cfg, r, remaining, [primary]);
  }

  /** From Retrying, one step does what `retry_recording` does. */
  lemma RetryingStep(cfg: Config, r: Readings, remaining: int, trace: seq<Attempt>)
    ensures var rest := RetryRecording(cfg, remaining, r.retryStartedAt, r.retryOutcome);
      Step(cfg, r, State(Retrying(remaining), trace)) == State(Done(rest.status), trace + rest.trace)
  {
  }

  /** Once Done, further steps change nothing: a fire never launches a third capture. */
  lemma {:induction false} DoneStaysDone(cfg: Config, r: Readings, s: State, steps: nat)
    requires s.phase.Done?
    ensures Execute(cfg, r, s, steps) == s
  {
    if steps > 0 {
      DoneStaysDone(cfg, r, Step(cfg, r, s), steps - 1);
    }
  }
}
