# Vida Submarina: the game-state object

"Vida Submarina" is a small browser game in which the player catches falling
plastic with a net. Its game logic so far lives in one JavaScript object,
`game` in `game.js`. The object has four fields: `lives`, `score`,
`difficulty` and `isRunning`. Six methods update those fields:

- `startGame` resets the fields. It does nothing if a game is already running.
- `stopGame` clears the running flag.
- `addScore` adds points and then re-checks the difficulty.
- `loseLife` takes a life, never going below zero. When no lives are left it ends the game.
- `checkDifficulty` applies the score thresholds 10 and 20.
- `gameOver` stops the game.

This project models that object in Dafny and proves its bookkeeping rules.
It has two modules:

- `GameObject` (`game.dfy`) holds the class `Game`. Its fields and methods
  match the source's, and each method changes only the fields the source
  changes, in place. Each method's postcondition gives its new fields outright.
  It also ties the snapshot `Model()` to the matching transition function of
  `GameRules`.
- `GameRules` (`game_rules.dfy`) holds the same object as a value.
  `State` is a snapshot of the four fields. There is one transition function
  per method, and `Run` applies a sequence of calls in order. The lemmas state
  what holds over any history of calls:
  - lives stay within 0..3, and a running game always has a life left;
  - when every `addScore` adds non-negative points, difficulty is always the
    tier of the score: 1 below 10, 2 from 10 to 19, and 3 from 20 on;
  - within one game, starting from a state whose difficulty is its score's
    tier (any fresh start), when every `addScore` adds non-negative points, neither
    the score nor the difficulty goes down; a `startGame` call made while the
    game runs is ignored and does not begin a new game.

The model states what the code does, which is less than one might expect:

- Apart from `startGame`'s guard (game.js:8), no method checks `isRunning`:
  `addScore`, `loseLife`, `checkDifficulty`, `stopGame` and `gameOver` act on a
  stopped game just as on a running one.
- `points` may be any integer, including a negative one. With negative points
  the difficulty can drop (`NegativePointsLowerDifficulty`).
- A `loseLife` call made with no lives left calls `gameOver` again, and
  stops the game again. One might expect game over to be signalled once per
  game; the code signals it on every such call (`LoseLifeAtZero`,
  `LoseLifeCallsGameOver`).

## Model

| member | source | states |
|---|---|---|
| `GameRules.InitialState` | game.js:2-5 | the object starts with lives 3, score 0, difficulty 1 and not running, a state that meets both invariants |
| `GameRules.StartGame` | game.js:7-12 | afterwards the game is running; a call while running changes nothing; a call while stopped leaves lives 3, score 0 and difficulty 1 |
| `GameRules.StartForgetsHistory` | game.js:8-12 | starting any two stopped states gives the same state, so the reset does not depend on earlier history |
| `GameRules.StopGame` | game.js:18-19 | the running flag is cleared and lives, score and difficulty are unchanged |
| `GameRules.StopIdempotent` | game.js:18-19 | stopping twice equals stopping once, and `gameOver` has the same effect on the fields as `stopGame` |
| `GameRules.GameOver` | game.js:54-55 | ends with the game not running and lives, score and difficulty unchanged |
| `GameRules.AddScore` | game.js:23-25 | the score becomes the old score plus the points; difficulty becomes 3 from 20, 2 from 10 to 19, and is otherwise unchanged; lives and the running flag are untouched |
| `GameRules.CheckDifficulty` | game.js:40-45 | only difficulty changes, by the rule `NextDifficulty` (game.js:41-44): from score 10 on it equals the threshold tier, below 10 it keeps its old value |
| `GameRules.Tier` | game.js:40-45 | the threshold tier of a score is always between 1 and 3 |
| `GameRules.TierMonotone` | game.js:40-45 | a higher score never has a lower tier |
| `GameRules.NextDifficultyAboveThreshold` | game.js:41-44 | from score 10 on, the update rule gives the tier whatever the old difficulty |
| `GameRules.NextDifficultyTracksTier` | game.js:40-45 | if the score has not gone down and the old difficulty was the old score's tier, the rule gives the new score's tier |
| `GameRules.ThresholdsExact` | game.js:40-45 | after a fresh start, scores 9, 10, 19 and 20 give difficulties 1, 2, 2 and 3 |
| `GameRules.NegativePointsLowerDifficulty` | game.js:23-25 | adding 25 and then -10 moves difficulty from 3 down to 2, because the rule only raises difficulty at the thresholds |
| `GameRules.LoseLifeCallsGameOver` | game.js:29-37 | `loseLife` calls `gameOver` exactly when it is called with at most one life, including every call at zero |
| `GameRules.LoseLife` | game.js:29-37 | by the guarded decrement `LivesAfterLoss` (game.js:30-31), lives drop by exactly 1 when positive and are otherwise unchanged, so they never become negative; score and difficulty are unchanged; the game keeps running exactly when it ran before and `gameOver` was not called |
| `GameRules.LoseLifeAtZero` | game.js:29-37 | with no lives left, the call only stops the game (again), calls `gameOver` again, and a further call changes nothing |
| `GameRules.StepKeepsLives` | game.js:29-37 | every method keeps lives within 0..3 and keeps a life for a running game |
| `GameRules.StepKeepsTier` | game.js:23-25 | every method call, when its points are non-negative, keeps difficulty equal to the tier of the score |
| `GameRules.RunKeepsLives` | game.js:29-37 | any sequence of calls keeps lives within 0..3 and a life for a running game |
| `GameRules.RunKeepsTier` | game.js:40-45 | any sequence of calls with non-negative points keeps difficulty at the tier of the score |
| `GameRules.RunNeverLowersDifficulty` | game.js:40-45 | from a state whose difficulty is its score's tier (any fresh start), within one game (every `startGame` call finds the game running and is ignored) with non-negative points, score and difficulty never decrease |
| `GameRules.RepeatedStartStaysInGame` | game.js:8 | a `startGame` call while running is ignored, so start, score 12, start, four lost lives stays one game and ends at lives 0, score 12, difficulty 2, stopped |
| `GameRules.HistoryFromInitial` | game.js:1-46 | from the initial values, every history with non-negative points keeps both invariants |
| `GameObject.Game.constructor` | game.js:2-5 | a new object has lives 3, score 0, difficulty 1 and is not running |
| `GameObject.Game.StartGame` | game.js:7-12 | while running, no field changes; otherwise the object is running with lives 3, score 0 and difficulty 1 |
| `GameObject.Game.StopGame` | game.js:18-19 | only the running flag changes, and it becomes false |
| `GameObject.Game.AddScore` | game.js:23-25 | only score and difficulty change: the score becomes the old score plus the points, and the thresholds set difficulty |
| `GameObject.Game.LoseLife` | game.js:29-37 | only lives and the running flag change: the guarded decrement, then stopped when no life is left, else running as before |
| `GameObject.Game.CheckDifficulty` | game.js:40-45 | only difficulty changes: 3 from score 20, 2 from 10 to 19, otherwise as before |
| `GameObject.Game.GameOver` | game.js:54-55 | only the running flag changes, and it becomes false |
| `GameObject.PlayToGameOver` | game.js:29-37 | start, score 12, a second start (ignored), then four `loseLife` calls leave lives 0, the game stopped, score 12 and difficulty 2 |

## Left out

- `updateHUD` (game.js:48-52) only writes the fields into the page. It changes no field, so the methods leave it out. The model assumes the three page elements `lives`, `score` and `difficulty` exist: if one is missing, `document.getElementById` returns null and `updateHUD` throws, which in `loseLife` (game.js:32) would end the call after the decrement and before the game-over check.
- The `alert` and `console.log` calls (game.js:14-15, game.js:20, game.js:56) are output only. `LoseLifeCallsGameOver` records when `loseLife` would raise the game-over alert.
- `window.game = game` (game.js:62) binds the object to the browser global; the model creates the object with the class constructor instead.
- `app.js` only switches page sections and wires click handlers. It holds no game state and is not part of this model.
- `GameRules.AddScore`, `GameObject.Game.AddScore`: `points` is modelled as an integer. The JavaScript number type also admits fractions, `NaN` and infinities, and loses precision above 2^53; the model does not capture these.
- The per-frame game loop is not part of this model, because game.js does not implement it yet. That covers item spawning, movement, collision, the countdown timer, pointer smoothing and zig-zag motion.
