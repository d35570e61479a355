# Limbo round engine in Dafny

A model of the round engine of the Limbo game (`src/components/LimboGame.js`),
a single-player crash/limbo betting simulation. The player enters a bet and a
target multiplier and places the bet. The game draws a hidden crash point
between 1.01 and 12.00 and shows a multiplier that grows every animation
frame. If the multiplier reaches the crash point, the round is lost. If it
reaches the target first, the round cashes out automatically and pays the bet
times the target, rounded to cents. Either way the crash point goes to the
front of a list of the last five crash points.

Modules, one per part of the engine:

- `Rounding` (`rounding.dfy`): `+(x.toFixed(2))` as `Round2` on exact reals.
  It rounds half-up for non-negative values and rounds the absolute value for
  negative ones.
- `Crash` (`crash.dfy`): `generateCrashMultiplier` as `GenerateCrash(r)`. The
  random draw `r` is a parameter.
- `History` (`history.dfy`): the `[crash, ...prev].slice(0, 5)` update as
  `PushHistory`, and `Replay` for several rounds in a row.
- `Round` (`round.dfy`): the component as the class `LimboGame`. Its fields
  are the React state (`running`, `currentMult`, `crashMult`, `result`,
  `history`), the refs (`cashed` for `cashedRef`, `scheduled` for "an
  animation frame is pending") and the values the frame callback captures
  when a round starts (`betAmt`, `targetMult`, `crash`). `PlaceBet`, `Tick`
  and `Reset` are `placeBet`, the inner `tick` and `resetRound`. The pure
  functions `ValidateBet` and `Decide` state the bet check and the three-way
  frame decision. `Valid()` is the invariant all three methods keep:
  - a frame is pending exactly while a round runs;
  - while running, `0 < currentMult < crash` and `currentMult < targetMult`,
    and the cash-out latch is clear;
  - the latch is set exactly when the result is a win;
  - a win has `targetMult < crash`, shows the target and pays
    `Round2(betAmt * targetMult)`;
  - a loss shows the crash point and pays 0.
- `Scenarios` (`scenarios.dfy`): whole rounds driven through the class, proved
  from the method contracts alone.

Browser pieces become inputs:
- `Math.random()` is the draw `r` in [0, 1).
- `Math.exp(0.8 * elapsed)` is the sampled multiplier `curr > 0` given to `Tick`.
- `requestAnimationFrame`/`cancelAnimationFrame` become the `scheduled` flag.
  The caller runs `Tick` only while a frame is pending.
- `parseFloat` is an `Option<real>`, with `None` for NaN.
- The saved history is the constructor's argument, of any length.

React applies state updates later, when it re-renders. `tick` reads only the
refs `cashedRef` and `startRef` and the constants its closure captured, never
the state. So
the model applies every update at once, and no decision changes.

Behaviour of the code worth noting, against the header comment of
`LimboGame.js` ("Starts at 1.00×", "If current >= targetMultiplier before
crash → auto cash out"):
- A target below the crash point does not guarantee a win. `tick` samples
  the multiplier once per frame, and a frame can jump past both the target
  and the crash point. The crash test comes first, so that round is lost.
  `JumpPastBothScenario` shows it. Only the converse holds: every win has
  `targetMult < crash`.
- The code does not promise that the live multiplier is at least 1.00 while
  running. It stores whatever `Math.exp` of the elapsed frame time gives,
  and that is at least 1 only when the frame time is not before the start time.
- Starting a round cancels nothing. The code relies on the Place Bet button
  being disabled while a round runs, so `PlaceBet` requires `!running`.
- The bet check rejects NaN and values `<= 0` but not `Infinity`.

## Model

| member | source | states |
|---|---|---|
| Rounding.Round2 | src/components/LimboGame.js:27 | the result lies on the hundredths grid, at most 0.005 from the input, half-up for non-negative inputs and sign-symmetric for negative ones |
| Rounding.HalfUp | src/components/LimboGame.js:113 | for a non-negative input, the hundredth `r` with `r - 0.005 <= x < r + 0.005`, itself non-negative |
| Rounding.Round2Fixes | src/components/LimboGame.js:27 | a value already on the hundredths grid is returned unchanged |
| Rounding.Round2Idempotent | src/components/LimboGame.js:27 | rounding an already rounded value changes nothing |
| Rounding.Round2Monotone | src/components/LimboGame.js:27 | rounding preserves the order of two values |
| Crash.CubeOfDrawBelowOne | src/components/LimboGame.js:25-26 | `Math.pow(r, 3)` of a draw in [0, 1) stays in [0, 1) |
| Crash.CubeMonotone | src/components/LimboGame.js:26 | cubing preserves the order of non-negative values |
| Crash.GenerateCrash | src/components/LimboGame.js:23-28 | every draw in [0, 1) gives a crash point in [1.01, 12.00] on the hundredths grid, equal to 1.01 exactly when `1 + 11 r^3 < 1.015`, and otherwise (from 1.005 up) the half-up rounding of `1 + 11 r^3` |
| Crash.GenerateCrashMonotone | src/components/LimboGame.js:23-28 | a larger draw never gives a lower crash point |
| Crash.SmallDrawsClamp | src/components/LimboGame.js:27 | every draw whose `11 r^3` is below 0.005 is clamped by `Math.max` to exactly 1.01 |
| History.PushHistory | src/components/LimboGame.js:105 | the new list has length `min(5, old length + 1)`, starts with the crash point and continues with the old list in order |
| History.ReplayNewestFirst | src/components/LimboGame.js:115 | after one or more rounds the list holds their crash points newest first, then the saved entries, `min(5, saved + rounds)` in all |
| History.SixRoundsFillHistory | src/components/LimboGame.js:105 | after six rounds the list has exactly five entries: the five latest crash points, most recent first |
| Round.ValidateBet | src/components/LimboGame.js:76-83 | a round may start if and only if the bet is a number above 0 and the target a number above 1.0; a bad bet is reported before a bad target |
| Round.Decide | src/components/LimboGame.js:99-117 | a frame crashes if and only if the sample reaches the crash point; a cash-out needs `target <= curr < crash` with the latch clear; a target at or above the crash point never cashes out |
| Round.Payout | src/components/LimboGame.js:113 | the payout is on the cents grid, within half a cent of `bet * target`, and for a non-negative product the half-up rounding of it |
| Round.LimboGame.constructor | src/components/LimboGame.js:31-48 | a new component is idle: not running, multiplier 1, no crash point, no result, latch clear, no frame pending, history as saved |
| Round.LimboGame.PlaceBet | src/components/LimboGame.js:72-93 | rejects exactly the bets `ValidateBet` rejects and then changes nothing; otherwise the round runs with multiplier 1, no result, latch clear, the crash point `GenerateCrash(r)`, a frame pending, history untouched; keeps `Valid()` |
| Round.LimboGame.Tick | src/components/LimboGame.js:95-121 | follows `Decide`: a crash shows the crash point, stops and records a loss unless cashed; a cash-out sets the latch, shows the target and pays `Payout`; both prepend the crash point with `PushHistory` and leave no frame pending, so no later frame of the round can run; otherwise shows the sample and requests the next frame; keeps `Valid()` |
| Round.LimboGame.Reset | src/components/LimboGame.js:61-70 | cancels the pending frame and leaves the component idle with multiplier 1, no crash point, no result and the latch clear; history untouched |
| Scenarios.DrawForFive | src/components/LimboGame.js:23-28 | the draw 0.714 gives the crash point 5.00 |
| Scenarios.DrawForTwo | src/components/LimboGame.js:23-28 | the draw 0.45 gives the crash point 2.00 |
| Scenarios.WinScenario | src/components/LimboGame.js:109-116 | bet 10, target 2.00, crash point 5.00: the round is won, pays 20.00, shows 2.00, and the history's newest entry is 5.00 |
| Scenarios.LossScenario | src/components/LimboGame.js:99-106 | bet 10, target 5.00, crash point 2.00: the round is lost with payout 0, shows 2.00, and the history's newest entry is 2.00 |
| Scenarios.JumpPastBothScenario | src/components/LimboGame.js:99-116 | with target 2.00 below the crash point 5.00, a frame sampled at 6.00 still loses the round |
| Scenarios.RejectedBetScenario | src/components/LimboGame.js:76-83 | a zero bet and then a target of exactly 1.0 are refused, and the game stays idle |
| Scenarios.ResetMidRoundScenario | src/components/LimboGame.js:61-70 | a reset during a running round leaves no frame pending and the game idle at multiplier 1 |
| Scenarios.ResetTwice | src/components/LimboGame.js:61-70 | a second reset leaves the state of the first unchanged |
| Scenarios.SixRounds | src/components/LimboGame.js:105 | six rounds played through the component, whatever the saved history, leave exactly the five latest crash points in the history, most recent first |

## Left out

- Rendering, CSS classes and `src/App.js` (`LimboGame.js:126-216`): presentation only.
- `formatMoney` and `formatMult` (`LimboGame.js:15-21`): locale- and IEEE-754-dependent string formatting.
- Loading and saving the history in `localStorage` (`LimboGame.js:37-44`, `51-53`): storage I/O. The history a session starts from is the constructor's argument.
- `Math.random`, `performance.now`, `Math.exp(GROWTH_RATE * elapsed)` and `startRef` (`LimboGame.js:25`, `92-97`): randomness, clocks and transcendental floats. The draw and the sampled multiplier are parameters, and the multiplier is only known to be positive. The growth curve itself (`exp(0.8 t)`, increasing from 1) is not modelled.
- `requestAnimationFrame`, `cancelAnimationFrame` and the unmount cleanup (`LimboGame.js:55-59`, `120`, `123`): browser scheduling, modelled only as the `scheduled` flag.
- `parseFloat` and `alert` (`LimboGame.js:73-83`): library parsing and UI output. Inputs arrive parsed; errors are returned as `BetError`.
- Floating point: all numbers are exact reals. `Infinity` is not representable, so the code's acceptance of an infinite bet or target is not modelled. `toFixed(2)`'s tie behaviour on binary doubles is approximated by exact half-up rounding. Its switch to exponent notation at 1e21 and above is not modelled either.
- Round.LimboGame.Tick: keeps `0 < currentMult` while running rather than `1 <= currentMult`, because the sampled multiplier is at least 1 only when the frame time is not earlier than the round's start time, which the code does not check.
