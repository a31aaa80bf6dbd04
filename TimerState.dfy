/**
 * The die-roll scheduler of the Gaussian timer as a state machine on values.
 *
 * A `State` holds the eight pieces of component state (three configuration
 * inputs and five scheduling fields). `Start`, `Stop`, `Tick` and the three
 * configuration edits give the state after one user action or one firing of
 * the 100 ms interval; `Run` replays a sequence of them. Times are real
 * milliseconds; the clock, the die draw and the Gaussian sample are inputs.
 */
module TimerState {
  import opened Dice

  datatype Option<T> = None | Some(value: T)

  datatype State = State(
    meanSeconds: real,
    stdDev: real,
    sides: int,
    isRunning: bool,
    rolls: seq<int>,
    nextRollTime: Option<real>,   // absolute deadline of the next roll, ms
    countdown: Option<real>,      // the number shown, before one-decimal formatting
    timeRemaining: Option<real>)  // seconds until the deadline

  /** JavaScript truthiness of a number-or-null: present and not zero. */
  predicate Truthy(t: Option<real>) {
    t.Some? && t.value != 0.0
  }

  /** The interval callback's roll condition: `nextRollTime && now >= nextRollTime`. */
  predicate Due(s: State, now: real) {
    Truthy(s.nextRollTime) && now >= s.nextRollTime.value
  }

  /** Every entry of `rolls` lies in [lo, hi]. */
  predicate AllIn(rolls: seq<int>, lo: int, hi: int) {
    forall i :: 0 <= i < |rolls| ==> lo <= rolls[i] <= hi
  }

  /** A 1 can occur only as the last entry. */
  predicate OneOnlyLast(rolls: seq<int>) {
    forall i :: 0 <= i < |rolls| - 1 ==> rolls[i] != 1
  }

  /**
   * What holds of every state the component can reach: the configuration is
   * in range; a deadline is pending exactly while running; nothing is shown
   * while stopped; the shown countdown is never negative; while running every
   * roll is a face of the current die other than 1; whatever the die was,
   * no roll exceeds the largest die; and a 1 is only ever the final roll.
   */
  ghost predicate Inv(s: State) {
    && s.meanSeconds >= MinMeanSeconds
    && s.stdDev >= MinStdDevSeconds
    && MinSides <= s.sides <= MaxSides
    && (s.isRunning <==> s.nextRollTime.Some?)
    && (!s.isRunning ==> s.timeRemaining.None?)
    && s.countdown == s.timeRemaining
    && (s.timeRemaining.Some? ==> s.timeRemaining.value >= 0.0)
    && AllIn(s.rolls, 1, MaxSides)
    && (s.isRunning ==> AllIn(s.rolls, 2, s.sides))
    && OneOnlyLast(s.rolls)
  }

  /** The state on first render: mean 5 s, deviation 1 s, a six-sided die, stopped. */
  function Initial(): (s: State)
    ensures Inv(s)
    ensures !s.isRunning && s.rolls == []
  {
    State(5.0, 1.0, 6, false, [], None, None, None)
  }

  /**
   * The start button: running, history cleared, first roll due at least half
   * a second from `now`. The countdown fields are left as they were.
   */
  function Start(s: State, now: real, raw: real): (r: State)
    ensures r.isRunning && r.rolls == []
    ensures r.nextRollTime.Some? && r.nextRollTime.value >= now + 500.0
    ensures raw >= MinDelaySeconds ==> r.nextRollTime == Some(now + raw * 1000.0)
    ensures raw <= MinDelaySeconds ==> r.nextRollTime == Some(now + 500.0)
    ensures r.timeRemaining == s.timeRemaining && r.countdown == s.countdown
    ensures r.meanSeconds == s.meanSeconds && r.stdDev == s.stdDev && r.sides == s.sides
  {
    s.(isRunning := true, rolls := [], nextRollTime := Some(Deadline(now, raw)))
  }

  /**
   * The stop button, and the stop on rolling a 1: not running, no deadline,
   * no countdown, and the history kept.
   */
  function Stop(s: State): (r: State)
    ensures !r.isRunning
    ensures r.nextRollTime.None? && r.timeRemaining.None? && r.countdown.None?
    ensures r.rolls == s.rolls
    ensures r.meanSeconds == s.meanSeconds && r.stdDev == s.stdDev && r.sides == s.sides
  {
    s.(isRunning := false, nextRollTime := None, timeRemaining := None, countdown := None)
  }

  /**
   * The countdown refresh at the end of the interval callback. It reads the
   * deadline `seen` when the callback was created, which on a rolling tick
   * is the deadline just passed, not the one just scheduled.
   */
  function Refresh(s: State, seen: Option<real>, now: real): (r: State)
    ensures Truthy(seen) ==> r.timeRemaining.Some? && r.timeRemaining.value >= 0.0
    ensures Truthy(seen) && now < seen.value ==>
              r.timeRemaining == Some((seen.value - now) / 1000.0)
    ensures Truthy(seen) && now >= seen.value ==> r.timeRemaining == Some(0.0)
    ensures r.countdown == (if Truthy(seen) then r.timeRemaining else s.countdown)
    ensures !Truthy(seen) ==> r == s
    ensures r.(timeRemaining := s.timeRemaining, countdown := s.countdown) == s
  {
    if Truthy(seen) then
      var remaining := Max(0.0, (seen.value - now) / 1000.0);
      s.(timeRemaining := Some(remaining), countdown := Some(remaining))
    else s
  }

  /**
   * One firing of the 100 ms interval at time `now`, with `u` the uniform
   * draw for the die and `raw` the Gaussian sample for the next delay.
   * While stopped no interval is armed, so nothing changes.
   */
  function Tick(s: State, now: real, u: real, raw: real): (r: State)
    requires 0.0 <= u < 1.0
    requires s.sides >= 1
    ensures r.meanSeconds == s.meanSeconds && r.stdDev == s.stdDev && r.sides == s.sides
    ensures !s.isRunning ==> r == s
    // not yet due: history, running flag and deadline untouched
    ensures s.isRunning && !Due(s, now) ==>
              r.rolls == s.rolls && r.isRunning && r.nextRollTime == s.nextRollTime
    ensures s.isRunning && !Due(s, now) && Truthy(s.nextRollTime) ==>
              r.timeRemaining == Some((s.nextRollTime.value - now) / 1000.0)
              && r.timeRemaining.value > 0.0 && r.countdown == r.timeRemaining
    ensures s.isRunning && !Truthy(s.nextRollTime) ==> r == s
    // due: exactly one face of the die appended, earlier entries untouched
    ensures s.isRunning && Due(s, now) ==>
              |r.rolls| == |s.rolls| + 1 && r.rolls[..|s.rolls|] == s.rolls
              && 1 <= r.rolls[|s.rolls|] <= s.sides
    // the appended face is the one the draw `u` rolls
    ensures s.isRunning && Due(s, now) ==> r.rolls == s.rolls + [RollDie(u, s.sides)]
    // a 1 stops the run with no new deadline
    ensures s.isRunning && Due(s, now) && r.rolls[|r.rolls| - 1] == 1 ==>
              !r.isRunning && r.nextRollTime.None?
              && r.timeRemaining.None? && r.countdown.None?
    // any other face keeps running, next roll at least half a second away
    ensures s.isRunning && Due(s, now) && r.rolls[|r.rolls| - 1] != 1 ==>
              r.isRunning && r.nextRollTime.Some?
              && r.nextRollTime.value >= now + 500.0 && r.nextRollTime.value > now
              && (raw >= MinDelaySeconds ==> r.nextRollTime == Some(now + raw * 1000.0))
              && (raw <= MinDelaySeconds ==> r.nextRollTime == Some(now + 500.0))
              && r.timeRemaining == Some(0.0) && r.countdown == Some(0.0)
  {
    if !s.isRunning then s
    else if Due(s, now) then
      var result := RollDie(u, s.sides);
      var rolled := s.(rolls := s.rolls + [result]);
      if result == 1 then Stop(rolled)
      else Refresh(rolled.(nextRollTime := Some(Deadline(now, raw))), s.nextRollTime, now)
    else Refresh(s, s.nextRollTime, now)
  }

  /** Mean-interval edit: the input is disabled while running. */
  function EditMean(s: State, x: real): (r: State)
    ensures s.isRunning ==> r == s
    ensures !s.isRunning ==> r == s.(meanSeconds := r.meanSeconds) && r.meanSeconds >= MinMeanSeconds
    ensures !s.isRunning && x >= MinMeanSeconds ==> r.meanSeconds == x
    ensures !s.isRunning && x < MinMeanSeconds ==> r.meanSeconds == MinMeanSeconds
  {
    if s.isRunning then s else s.(meanSeconds := ClampMean(x))
  }

  /** Standard-deviation edit: the input is disabled while running. */
  function EditStdDev(s: State, x: real): (r: State)
    ensures s.isRunning ==> r == s
    ensures !s.isRunning ==> r == s.(stdDev := r.stdDev) && r.stdDev >= MinStdDevSeconds
    ensures !s.isRunning && x >= MinStdDevSeconds ==> r.stdDev == x
    ensures !s.isRunning && x < MinStdDevSeconds ==> r.stdDev == MinStdDevSeconds
  {
    if s.isRunning then s else s.(stdDev := ClampStdDev(x))
  }

  /** Die-sides edit: the input is disabled while running. */
  function EditSides(s: State, x: int): (r: State)
    ensures s.isRunning ==> r == s
    ensures !s.isRunning ==> r == s.(sides := r.sides) && MinSides <= r.sides <= MaxSides
    ensures !s.isRunning && MinSides <= x <= MaxSides ==> r.sides == x
    ensures !s.isRunning && x < MinSides ==> r.sides == MinSides
    ensures !s.isRunning && x > MaxSides ==> r.sides == MaxSides
  {
    if s.isRunning then s else s.(sides := ClampSides(x))
  }

  /**
   * A due tick stops the run exactly when the draw is below 1/sides: the
   * chance of stopping at each roll is one in `sides`.
   */
  lemma TickStopsExactlyOnLowDraw(s: State, now: real, u: real, raw: real)
    requires s.isRunning && Due(s, now)
    requires 0.0 <= u < 1.0 && s.sides >= 1
    ensures !Tick(s, now, u, raw).isRunning <==> u < 1.0 / s.sides as real
  {
    RollDieFace(u, s.sides, 1);
  }

  /** Stopping twice is stopping once. */
  lemma StopIdempotent(s: State)
    ensures Stop(Stop(s)) == Stop(s)
  {
  }

  /** A stopped component ignores ticks and stop commands. */
  lemma StoppedIgnoresTickAndStop(s: State, now: real, u: real, raw: real)
    requires !s.isRunning && s.nextRollTime.None? && s.timeRemaining.None? && s.countdown.None?
    requires 0.0 <= u < 1.0 && s.sides >= 1
    ensures Tick(s, now, u, raw) == s
    ensures Stop(s) == s
  {
  }

  // ---------------------------------------------------------------------
  // Each action preserves Inv

  lemma StartPreservesInv(s: State, now: real, raw: real)
    requires Inv(s)
    ensures Inv(Start(s, now, raw))
  {
  }

  lemma StopPreservesInv(s: State)
    requires Inv(s)
    ensures Inv(Stop(s))
  {
  }

  lemma TickPreservesInv(s: State, now: real, u: real, raw: real)
    requires Inv(s)
    requires 0.0 <= u < 1.0
    ensures Inv(Tick(s, now, u, raw))
  {
  }

  lemma EditsPreserveInv(s: State, m: real, d: real, n: int)
    requires Inv(s)
    ensures Inv(EditMean(s, m)) && Inv(EditStdDev(s, d)) && Inv(EditSides(s, n))
  {
  }

  // ---------------------------------------------------------------------
  // Runs: a sequence of user actions and interval firings

  datatype Event =
    | StartClicked(now: real, raw: real)
    | StopClicked
    | IntervalFired(now: real, u: real, raw: real)
    | MeanEdited(mean: real)
    | StdDevEdited(stdDev: real)
    | SidesEdited(sides: int)

  /** A die draw comes from Math.random(), so lies in [0, 1). */
  predicate WellFormed(e: Event) {
    e.IntervalFired? ==> 0.0 <= e.u < 1.0
  }

  predicate AllWellFormed(evs: seq<Event>) {
    forall i :: 0 <= i < |evs| ==> WellFormed(evs[i])
  }

  /** No start click among the events: one run, or the idle time after it. */
  predicate NoStart(evs: seq<Event>) {
    forall i :: 0 <= i < |evs| ==> !evs[i].StartClicked?
  }

  function Step(s: State, e: Event): (r: State)
    requires WellFormed(e)
    requires s.sides >= 1
    ensures r.sides >= 1
  {
    match e
    case StartClicked(now, raw) => Start(s, now, raw)
    case StopClicked => Stop(s)
    case IntervalFired(now, u, raw) => Tick(s, now, u, raw)
    case MeanEdited(x) => EditMean(s, x)
    case StdDevEdited(x) => EditStdDev(s, x)
    case SidesEdited(x) => EditSides(s, x)
  }

  function Run(s: State, evs: seq<Event>): State
    requires AllWellFormed(evs)
    requires s.sides >= 1
    decreases |evs|
  {
    if evs == [] then s else Run(Step(s, evs[0]), evs[1..])
  }

  lemma StepPreservesInv(s: State, e: Event)
    requires Inv(s)
    requires WellFormed(e)
    ensures Inv(Step(s, e))
  {
  }

  /** Every reachable state satisfies Inv. */
  lemma {:induction false} RunPreservesInv(s: State, evs: seq<Event>)
    requires Inv(s)
    requires AllWellFormed(evs)
    ensures Inv(Run(s, evs))
    decreases |evs|
  {
    if evs != [] {
      StepPreservesInv(s, evs[0]);
      RunPreservesInv(Step(s, evs[0]), evs[1..]);
    }
  }

  /**
   * From the first render, whatever happens: the configuration is in range,
   * every roll is between 1 and 100, a 1 is only ever the final roll, and a
   * final 1 means the timer has stopped.
   */
  lemma ReachableHistory(evs: seq<Event>)
    requires AllWellFormed(evs)
    ensures var r := Run(Initial(), evs);
      && MinSides <= r.sides <= MaxSides && r.meanSeconds >= MinMeanSeconds
      && r.stdDev >= MinStdDevSeconds
      && AllIn(r.rolls, 1, MaxSides)
      && OneOnlyLast(r.rolls)
      && (r.rolls != [] && r.rolls[|r.rolls| - 1] == 1 ==> !r.isRunning)
  {
    RunPreservesInv(Initial(), evs);
  }

  /** Without a start click the history only grows at its end. */
  lemma {:induction false} RunExtendsHistory(s: State, evs: seq<Event>)
    requires AllWellFormed(evs)
    requires NoStart(evs)
    requires s.sides >= 1
    ensures |s.rolls| <= |Run(s, evs).rolls|
    ensures Run(s, evs).rolls[..|s.rolls|] == s.rolls
    decreases |evs|
  {
    if evs != [] {
      var t := Step(s, evs[0]);
      assert |s.rolls| <= |t.rolls| && t.rolls[..|s.rolls|] == s.rolls;
      RunExtendsHistory(t, evs[1..]);
      var r := Run(t, evs[1..]);
      assert r.rolls[..|s.rolls|] == r.rolls[..|t.rolls|][..|s.rolls|];
    }
  }

  /**
   * Once stopped, only a start click resumes: until then no roll is added,
   * so after a 1 there is never another roll in that run.
   */
  lemma {:induction false} StoppedStaysStopped(s: State, evs: seq<Event>)
    requires AllWellFormed(evs)
    requires NoStart(evs)
    requires s.sides >= 1
    requires !s.isRunning
    ensures !Run(s, evs).isRunning
    ensures Run(s, evs).rolls == s.rolls
    decreases |evs|
  {
    if evs != [] {
      StoppedStaysStopped(Step(s, evs[0]), evs[1..]);
    }
  }

  /**
   * A worked run: defaults, start at time 0, every Gaussian sample 5 s, the
   * die showing 4 four times (draw 0.5) and then 1 (draw 0). The history is
   * [4, 4, 4, 4, 1], the timer has stopped, and a further firing adds nothing.
   */
  lemma FiveRollScenario()
    ensures var evs := [StartClicked(0.0, 5.0),
                        IntervalFired(5000.0, 0.5, 5.0), IntervalFired(10000.0, 0.5, 5.0),
                        IntervalFired(15000.0, 0.5, 5.0), IntervalFired(20000.0, 0.5, 5.0),
                        IntervalFired(25000.0, 0.0, 5.0), IntervalFired(30000.0, 0.5, 5.0)];
      AllWellFormed(evs)
      && Run(Initial(), evs).rolls == [4, 4, 4, 4, 1]
      && !Run(Initial(), evs).isRunning
  {
  }
}
