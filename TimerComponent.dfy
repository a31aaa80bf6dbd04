/**
 * The Gaussian timer component as an object: its eight pieces of state are
 * fields, and each handler updates them in the order the component's setters
 * run. Each handler is proved to leave the object in the state that the
 * corresponding function of TimerState gives, and to keep TimerState.Inv.
 */
module TimerComponent {
  import opened Dice
  import opened TimerState

  class GaussianTimer {
    var meanSeconds: real
    var stdDev: real
    var sides: int
    var isRunning: bool
    var rolls: seq<int>
    var nextRollTime: Option<real>
    var countdown: Option<real>
    var timeRemaining: Option<real>

    /** The fields as one value. */
    function Snapshot(): State
      reads this
    {
      State(meanSeconds, stdDev, sides, isRunning, rolls, nextRollTime, countdown, timeRemaining)
    }

    ghost predicate Valid()
      reads this
    {
      Inv(Snapshot())
    }

    /** The first render: every field at its initial value. */
    constructor ()
      ensures Snapshot() == Initial()
      ensures Valid()
    {
      meanSeconds := 5.0;
      stdDev := 1.0;
      sides := 6;
      isRunning := false;
      rolls := [];
      nextRollTime := None;
      countdown := None;
      timeRemaining := None;
    }

    /** The start handler, at clock time `now` with Gaussian sample `raw`. */
    method StartTimer(now: real, raw: real)
      requires Valid()
      modifies this
      ensures Valid()
      ensures Snapshot() == Start(old(Snapshot()), now, raw)
      ensures isRunning && rolls == [] && nextRollTime.Some? && nextRollTime.value >= now + 500.0
    {
      isRunning := true;
      rolls := [];
      var firstRollDelay := DelayFloor(raw);
      nextRollTime := Some(now + firstRollDelay * 1000.0);
    }

    /** The stop handler; also run by the interval when it rolls a 1. */
    method StopTimer()
      modifies this
      ensures old(Valid()) ==> Valid()
      ensures Snapshot() == Stop(old(Snapshot()))
      ensures !isRunning && nextRollTime.None? && timeRemaining.None? && countdown.None?
      ensures rolls == old(rolls)
    {
      isRunning := false;
      nextRollTime := None;
      timeRemaining := None;
      countdown := None;
    }

    /**
     * One firing of the 100 ms interval at clock time `now`, with `u` the
     * Math.random() draw for the die and `raw` the Gaussian sample for the
     * next delay. The callback was created with the deadline current at the
     * time, kept here as `seen`; the countdown refresh reads it, not the
     * deadline the callback itself may schedule.
     */
    method IntervalTick(now: real, u: real, raw: real)
      requires Valid()
      requires 0.0 <= u < 1.0
      modifies this
      ensures Valid()
      ensures Snapshot() == Tick(old(Snapshot()), now, u, raw)
      ensures |old(rolls)| <= |rolls| <= |old(rolls)| + 1 && rolls[..|old(rolls)|] == old(rolls)
    {
      if !isRunning {
        return;  // no interval is armed while stopped
      }
      var seen := nextRollTime;
      if Truthy(seen) && now >= seen.value {
        var result := RollDie(u, sides);
        rolls := rolls + [result];
        if result == 1 {
          StopTimer();
          return;
        }
        var nextDelay := DelayFloor(raw);
        nextRollTime := Some(now + nextDelay * 1000.0);
      }
      if Truthy(seen) {
        var remaining := Max(0.0, (seen.value - now) / 1000.0);
        timeRemaining := Some(remaining);
        countdown := Some(remaining);
      }
    }

    /** The mean-time input; it is disabled, so fires nothing, while running. */
    method MeanChanged(value: real)
      requires Valid()
      modifies this
      ensures Valid()
      ensures Snapshot() == EditMean(old(Snapshot()), value)
    {
      if !isRunning {
        meanSeconds := ClampMean(value);
      }
    }

    /** The standard-deviation input; disabled while running. */
    method StdDevChanged(value: real)
      requires Valid()
      modifies this
      ensures Valid()
      ensures Snapshot() == EditStdDev(old(Snapshot()), value)
    {
      if !isRunning {
        stdDev := ClampStdDev(value);
      }
    }

    /** The die-sides input, taking whole numbers; disabled while running. */
    method SidesChanged(value: int)
      requires Valid()
      modifies this
      ensures Valid()
      ensures Snapshot() == EditSides(old(Snapshot()), value)
    {
      if !isRunning {
        sides := ClampSides(value);
      }
    }
  }
}
