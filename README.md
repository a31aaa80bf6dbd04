# Gaussian timer: the die-roll scheduler

The Gaussian timer is a React widget. It rolls an N-sided die at random intervals and stops when a roll shows 1. Each interval is a Gaussian sample with a configurable mean and standard deviation, floored at half a second. A 100 ms interval drives the scheduling. On each firing it checks whether the deadline has passed. If it has, it rolls the die and appends the result to the history. On a 1 it stops; on any other face it draws the next deadline. Then it refreshes the countdown. The start button clears the history and schedules the first roll. The stop button clears the deadline and the countdown but keeps the history. Three number inputs set the mean, the deviation and the number of sides. Each clamps what is typed, and none can be edited while the timer runs.

The model has three modules:

- `Dice` (Dice.dfy): the pure expressions. These are the half-second delay floor and the absolute deadline built from it, the three input clamps, and the die roll `floor(u * sides) + 1`. The roll is proved to land on a face of the die. Each face comes up for exactly one sub-interval of [0, 1) of width 1/sides, and every face can come up.
- `TimerState` (TimerState.dfy): the scheduler as a state machine on values. A `State` holds the component's eight `useState` fields. `Start`, `Stop`, `Tick` and the three edits give the state after one action. `Inv` is the invariant every reachable state keeps. `Run` replays a sequence of actions. Lemmas prove that `Inv` holds along any run, that the history only grows within a run, that a stopped timer stays stopped until the next start, and that the worked five-roll run ends in `[4, 4, 4, 4, 1]`.
- `TimerComponent` (TimerComponent.dfy): the component as a class. It has the same eight fields as mutable state, and its handlers (`StartTimer`, `StopTimer`, `IntervalTick` and the three `...Changed` inputs) update them in the order the source's setters run. Each handler is proved to produce exactly the state the matching `TimerState` function gives, and to keep `Inv`.

Times are `real` milliseconds (the clock) and `real` seconds (delays, countdown). The clock (`Date.now()`) is the parameter `now`. The die's `Math.random()` draw is the parameter `u`, with 0 <= u < 1. The Box-Muller sample `generateGaussian(mean, stdDev)` is the parameter `raw`, any real.

The model follows these details of the code:

- `nextRollTime` is tested with JavaScript truthiness, so a deadline of exactly 0 counts as absent (`TimerState.Truthy`).
- While the timer is stopped, no interval is armed, so a tick changes nothing.
- The countdown refresh reads the deadline the callback captured when it was created. On a tick that rolls a face other than 1, that deadline is the one just passed. So the time remaining shown on that tick is 0, not the time to the new deadline. The new deadline shows from the next firing on.
- `countdown` holds the number that the source formats with `toFixed(1)`. It always equals `timeRemaining`.
- Start does not reset `timeRemaining` or `countdown`.

## Model

| member | source | states |
|---|---|---|
| `Dice.DelayFloor` | src/GaussianTimer.js:158 | the delay waited is at least 0.5 s and at least the raw Gaussian sample, and equals one of the two, for any sample including negative ones |
| `Dice.Deadline` | src/GaussianTimer.js:158-159 | a deadline drawn at `now` is at least 500 ms after `now`; a sample of at least 0.5 s is used unchanged (times 1000) |
| `Dice.ClampMean` | src/GaussianTimer.js:232 | a stored mean is at least 0.5 s; an input of at least 0.5 is kept as typed, anything smaller becomes 0.5 |
| `Dice.ClampStdDev` | src/GaussianTimer.js:246 | a stored deviation is at least 0.1 s; an input of at least 0.1 is kept, anything smaller becomes 0.1 |
| `Dice.ClampSides` | src/GaussianTimer.js:261 | a stored side count is in [2, 100]; inputs in range are kept, inputs below become 2 and inputs above become 100 (whole-number input, see Findings) |
| `Dice.ClampsIdempotent` | src/GaussianTimer.js:231-262 | clamping an already clamped value leaves it unchanged, for all three inputs |
| `Dice.RollDie` | src/GaussianTimer.js:148-150 | for any draw in [0, 1), the roll is a face of the die: 1 <= face <= sides |
| `Dice.RollDieFace` | src/GaussianTimer.js:148-150 | uniformity: the roll is `k` exactly when the draw lies in [(k-1)/sides, k/sides), in both directions |
| `Dice.EveryFaceReachable` | src/GaussianTimer.js:149 | every face 1..sides is rolled by some draw in [0, 1) |
| `Dice.ClampSidesAsWritten` | src/GaussianTimer.js:260-262 | the clamp as written, on the number typed: the result is in [2, 100]; an in-range input passes through unchanged, fraction included; inputs below 2 store 2 and above 100 store 100 |
| `Dice.RollDieAsWritten` | src/GaussianTimer.js:149 | the roll as written, with a possibly fractional side count: at least 1 and below sides + 1, so it can exceed a fractional side count by less than one |
| `Dice.FractionalSidesRollAboveSides` | src/GaussianTimer.js:260-262 | typing 2.5 stores 2.5, and a draw of 0.9 then rolls 3, which is above the stored side count |
| `TimerState.Initial` | src/GaussianTimer.js:4-11 | the first-render state (mean 5, deviation 1, six sides, stopped, empty history, no deadline or countdown) satisfies the invariant |
| `TimerState.Start` | src/GaussianTimer.js:153-160 | after start: running, history empty, deadline at least 500 ms after `now`: exactly `now + raw*1000` for samples of at least 0.5 s and exactly `now + 500` otherwise; countdown and configuration untouched |
| `TimerState.Stop` | src/GaussianTimer.js:163-169 | after stop: not running, deadline, time remaining and countdown all absent, history and configuration kept |
| `TimerState.Refresh` | src/GaussianTimer.js:199-204 | with a truthy captured deadline, the time remaining is max(0, (deadline - now)/1000), so never negative, and the countdown shows the same; otherwise nothing changes; nothing else changes in either case |
| `TimerState.Tick` | src/GaussianTimer.js:175-205 | stopped: no change. Not due: history, running flag and deadline kept, time remaining (deadline - now)/1000 > 0. Due: exactly one entry appended, the face `RollDie(u, sides)` that the draw rolls, earlier entries untouched; a 1 stops with no deadline or countdown; another face keeps running with the deadline `now + max(0.5, raw)*1000` (at least 500 ms after `now`) and a countdown of 0 |
| `TimerState.EditMean` | src/GaussianTimer.js:231-234 | while running nothing changes; while stopped only the mean changes: an input of at least 0.5 is kept, a smaller one stores exactly 0.5 |
| `TimerState.EditStdDev` | src/GaussianTimer.js:245-247 | while running nothing changes; while stopped only the deviation changes: an input of at least 0.1 is kept, a smaller one stores exactly 0.1 |
| `TimerState.EditSides` | src/GaussianTimer.js:260-263 | while running nothing changes; while stopped only the side count changes: an input in [2, 100] is kept, one below stores 2 and one above stores 100 |
| `TimerState.TickStopsExactlyOnLowDraw` | src/GaussianTimer.js:181-189 | a due tick stops the run exactly when the die draw is below 1/sides, in both directions |
| `TimerState.StopIdempotent` | src/GaussianTimer.js:163-169 | stopping twice gives the same state as stopping once |
| `TimerState.StoppedIgnoresTickAndStop` | src/GaussianTimer.js:172-176 | a stopped timer with nothing pending is unchanged by a tick and by a stop |
| `TimerState.StartPreservesInv` | src/GaussianTimer.js:153-160 | start keeps the invariant |
| `TimerState.StopPreservesInv` | src/GaussianTimer.js:163-169 | stop keeps the invariant |
| `TimerState.TickPreservesInv` | src/GaussianTimer.js:176-205 | a tick keeps the invariant: while running every roll is a face other than 1, a 1 appears only last, and the countdown is never negative |
| `TimerState.EditsPreserveInv` | src/GaussianTimer.js:231-263 | the three input edits keep the invariant, including the configuration ranges |
| `TimerState.Step` | src/GaussianTimer.js:153-263 | one user action or interval firing; the die keeps at least one face |
| `TimerState.StepPreservesInv` | src/GaussianTimer.js:153-263 | every action keeps the invariant |
| `TimerState.RunPreservesInv` | src/GaussianTimer.js:172-211 | the invariant holds after any sequence of actions from a state satisfying it |
| `TimerState.ReachableHistory` | src/GaussianTimer.js:180-189 | after any sequence of actions from the first render: configuration in range, every roll in [1, 100], a 1 only as the final roll, and a final 1 means the timer has stopped |
| `TimerState.RunExtendsHistory` | src/GaussianTimer.js:180-183 | without a start click, the history only grows at its end: the earlier history is a prefix of the later one |
| `TimerState.StoppedStaysStopped` | src/GaussianTimer.js:186-189 | once stopped, and until a start click, the timer stays stopped and no roll is added, so nothing follows a final 1 |
| `TimerState.FiveRollScenario` | src/GaussianTimer.js:153-205 | defaults, start at 0, samples of 5 s, four 4s and then a 1: the history is [4, 4, 4, 4, 1], the timer has stopped, and a further firing adds nothing |
| `TimerComponent.GaussianTimer.constructor` | src/GaussianTimer.js:4-11 | the fields start at the first-render values, which satisfy the invariant |
| `TimerComponent.GaussianTimer.StartTimer` | src/GaussianTimer.js:153-160 | the fields become `TimerState.Start` of the old fields: running, empty history, deadline at least 500 ms away; the invariant is kept |
| `TimerComponent.GaussianTimer.StopTimer` | src/GaussianTimer.js:163-169 | the fields become `TimerState.Stop` of the old fields: history kept, deadline and countdown cleared; the invariant is kept |
| `TimerComponent.GaussianTimer.IntervalTick` | src/GaussianTimer.js:176-205 | the fields become `TimerState.Tick` of the old fields, the history gains at most one entry at its end, and the invariant is kept |
| `TimerComponent.GaussianTimer.MeanChanged` | src/GaussianTimer.js:231-234 | the fields become `TimerState.EditMean` of the old fields; the invariant is kept |
| `TimerComponent.GaussianTimer.StdDevChanged` | src/GaussianTimer.js:245-247 | the fields become `TimerState.EditStdDev` of the old fields; the invariant is kept |
| `TimerComponent.GaussianTimer.SidesChanged` | src/GaussianTimer.js:260-263 | the fields become `TimerState.EditSides` of the old fields; the invariant is kept |

## Left out

- The Box-Muller arithmetic (`Math.log`, `Math.sqrt`, `Math.cos`) is not modelled. Its result is the free input `raw`, and only the `Math.max(0.5, ...)` floor applied to it is modelled. Floating point is not represented.
- `Math.random()` can return exactly 0 as `u1`. `Math.log(0)` is then -Infinity, `Math.sqrt` gets +Infinity, and the sample is +Infinity or -Infinity (NaN if the cosine is exactly 0). A -Infinity sample is floored to 0.5 s, which the model covers. A +Infinity sample sets `nextRollTime` to Infinity, so the timer never rolls again until it is stopped. Reals have no infinities or NaN, so that stuck state is not represented.
- `Math.random()` and `Date.now()` are parameters (`u`, `now`). Nothing constrains successive clock values, so "a running timer's deadline is never more than one interval behind the clock" depends on the host firing on time and is not modelled.
- The `useEffect`/`setInterval`/`clearInterval` re-arming and cleanup are not modelled. One firing of the interval is one call of `Tick` / `IntervalTick`.
- `TimerState.Event` allows a start click while running and a stop click while stopped. The single toggle button never sends either. The invariants are proved over this larger set of runs, so they also hold for the runs the button can produce.
- React's batching of `set*` calls is not modelled. Each handler writes each field at most once, so applying the writes in order gives the same final state.
- `toFixed(1)` formatting is not modelled. `countdown` holds the number it would format.
- Styling, JSX rendering and the progress-bar width are not modelled. They are presentation only.
- `Number(...)` parsing of the input text is not modelled. The inputs are given as numbers; an empty field reads as 0, which the clamps already cover.
- `Dice.ClampSides`, `TimerState.EditSides` and `TimerComponent.GaussianTimer.SidesChanged` take a whole number. The source accepts any number typed, fractions included. That case is modelled separately by `Dice.ClampSidesAsWritten` and `Dice.RollDieAsWritten` (see Findings).

## Findings

| source | as written | input that shows it | evidently intended | confidence | as-written member | corrected member |
|---|---|---|---|---|---|---|
| src/GaussianTimer.js:260-262 and :149 | the sides input stores `Math.min(100, Math.max(2, Number(value)))`, which keeps fractions, and `rollDie` multiplies the draw by that stored number | typing 2.5 stores 2.5; a draw of 0.9 then rolls `floor(2.25) + 1 = 3`, above the side count | the side count is a whole number in [2, 100] and every roll is a face in [1, sides] | medium, not executed | `Dice.FractionalSidesRollAboveSides` | `Dice.RollDie` (with the whole-number `Dice.ClampSides`) |
