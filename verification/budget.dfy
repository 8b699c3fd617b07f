/**
 The job's time budget. Clock readings are `datetime` values taken as
 integer microseconds; the remaining time is `int()` of a `total_seconds()`
 difference, which truncates toward zero.
 */
module Budget {
  import opened Settings

  const MicrosPerSecond := 1000000

  /** The end time fixed before the primary capture starts: start plus whole minutes. */
  function TargetEnd(cfg: Config, start: int): (target: int)
    ensures (target - start) % (60 * MicrosPerSecond) == 0
    ensures target - start <= cfg.fullDurationSeconds * MicrosPerSecond < target - start + 60 * MicrosPerSecond
  {
    var m := FullDurationMinutes(cfg);
    assert m * 60 * MicrosPerSecond == m * (60 * MicrosPerSecond);
    start + m * 60 * MicrosPerSecond
  }

  /**
   `int(micros / 10**6)`: the whole seconds in a signed duration, rounded toward
   zero. A slightly negative difference therefore becomes 0, not -1.
   */
  function TruncateToSeconds(micros: int): (s: int)
    ensures micros >= 0 ==> 0 <= s && s * MicrosPerSecond <= micros < (s + 1) * MicrosPerSecond
    ensures micros < 0 ==> s <= 0 && (s - 1) * MicrosPerSecond < micros <= s * MicrosPerSecond
  {
    if micros >= 0 then micros / MicrosPerSecond else -((-micros) / MicrosPerSecond)
  }

  /** The seconds left until `target` when the clock reads `now`. */
  function Remaining(target: int, now: int): (r: int)
    ensures r > 0 <==> target - now >= MicrosPerSecond
    ensures r < 0 <==> now - target >= MicrosPerSecond
  {
    TruncateToSeconds(target - now)
  }

  /** A failure after the job started never leaves more than the whole-minute budget, itself at most the full duration. */
  lemma RemainingWithinBudget(cfg: Config, start: int, now: int)
    requires start <= now
    ensures Remaining(TargetEnd(cfg, start), now) <= BudgetSeconds(cfg) <= cfg.fullDurationSeconds
  {
    var r := Remaining(TargetEnd(cfg, start), now);
    var diff := TargetEnd(cfg, start) - now;
    assert diff <= BudgetSeconds(cfg) * MicrosPerSecond;
  }

  /** When both readings fall on whole seconds, the remaining time is the budget minus the elapsed seconds, exactly. */
  lemma RemainingIsBudgetMinusElapsed(cfg: Config, start: int, now: int)
    requires start % MicrosPerSecond == 0 && now % MicrosPerSecond == 0
    ensures Remaining(TargetEnd(cfg, start), now)
         == BudgetSeconds(cfg) - (now - start) / MicrosPerSecond
  {
    var elapsed := (now - start) / MicrosPerSecond;
    assert now - start == elapsed * MicrosPerSecond;
    var diff := TargetEnd(cfg, start) - now;
    assert diff == (BudgetSeconds(cfg) - elapsed) * MicrosPerSecond;
  }
}
