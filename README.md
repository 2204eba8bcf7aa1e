# Sweetwater Arcade core, modelled in Dafny

This project models the core of the Sweetwater Arcade browser game (`src/js/game.js`). The core has two parts.

- **The stage orchestrator** (`SweetwaterArcade`). It holds the session record: score, awareness, remaining time and current persona. It also holds the current stage. It walks the fixed stage order marketing → wildCustomer → sales → merch → itHub → warehouse → celebration, and returns to the title state after the last stage. It is the only way other code changes score (`addScore`) and capped awareness (`updateAwareness`). There are two exceptions: `showTitleScreen` and the marketing stage's completion both write the configured baseline straight into awareness.
- **The sales stage's snake game** (`SalesStage`). It is a tick-driven simulation on a 20×12 grid. Each tick first commits the buffered direction. Then one of three things happens. On a wall hit, the snake is steered to a safe direction. On a body hit, it either takes a penalty or, below 0.5 awareness, ends the game. Otherwise it moves one cell, and if it lands on the pickup it collects it: score, awareness, a new pickup and a speed-up. Key presses buffer only perpendicular turns.

Layout:

| file | module | what it holds |
|---|---|---|
| `options.dfy` | `Options` | `Option`, used where the original uses `null`/`undefined` |
| `session_rules.dfy` | `SessionRules` | the session record as a value; the stage order and `indexOf`; the score and awareness rules; persona choice; `Math.floor(Math.random() * n)` as `PickIndex` |
| `arcade.dfy` | `Arcade` | class `SweetwaterArcade`, whose methods update its fields by those rules; class `MarketingStage` |
| `snake_rules.dfy` | `SnakeRules` | the sales stage's fields as a value `SnakeState`; one function per part of a tick (`WallHit`, `BodyHit`, `Collect`, `Spawn`, `Tick`, `InitGame`, `BufferTurn`); `Run` over many ticks; lemmas |
| `sales_stage.dfy` | `Sales` | class `SalesStage`, with the original's fields updated in place; each method is proved to produce exactly what the matching `SnakeRules` function gives, both for its own fields and for the orchestrator's session record |

Randomness is passed in as parameters. Every `Math.random()` becomes a real draw in [0, 1) supplied by the caller, and the index is computed as the original does, `floor(draw * n)`. A tick's draws are grouped in `Draws`: the wall-turn draw, the spawn loop's cell draws (a finite sequence), the 30% preferred coin and the symbol draw. The original's resampling loop never gives up. The model stops when the supplied cell draws run out and reports the step as `stalled`. A stalled step is the state the original holds while it is still resampling. At that point score, awareness and counters are already updated, the old pickup is still set, and the speed is not yet lowered.

Configuration is given to the orchestrator's constructor: the marketing baseline multiplier (absent if the configuration did not load) and the persona list.

The code has these properties, which the model keeps:

- The tick interval stops at 118 ms. The code lowers it by 3 only while it is above 120, so 250 reaches 118 after 44 collections (`SpeedSchedule`).
- Snake cells need not be distinct. A wall turn inserts the new head without checking the body (`WallTurnCanOverlapBody`). So distinctness is not part of the invariant `Inv`.
- Moving onto the current tail cell counts as a body hit, because the tail is still in place when the head is tested (`TailCellIsABodyHit`).
- A key press in the current heading's own direction is ignored. Only perpendicular presses are buffered (`BufferTurn`).
- Score is not kept non-negative. Awareness has no lower clamp (`AwarenessCanGoNegative`), so a negative awareness makes `addScore` subtract.
- Awareness can exceed 3.0. Both `showTitleScreen` and `MarketingStage.completeStage` write the configured baseline without the cap. The next `updateAwareness` call caps it, and `startGame` makes one through the marketing stage's `start()`. The constructor starts at the literal 1.2, not at the baseline.
- `gameSpeed` is set only by the constructor and is never reset when the sales stage starts again (`InitGame`).

## Model

| member | source | states |
|---|---|---|
| `SessionRules.Baseline` | src/js/game.js:111 | the configured baseline multiplier when it is present and non-zero, otherwise 1.2; never 0 |
| `SessionRules.ScoreGain` | src/js/game.js:158-161 | the gain is the floor of points × awareness: at most the product and more than the product minus 1 |
| `SessionRules.ScoreExamples` | src/js/game.js:158-159 | `addScore(100)` at awareness 2.0 adds 200; `addScore(25)` at 1.2 adds 30 |
| `SessionRules.CapAwareness` | src/js/game.js:163-165 | the result is at most 3.0 and at most old + amount, and equals old + amount unless it is 3.0 |
| `SessionRules.AdjustAllCapped` | src/js/game.js:163-165 | after any sequence of awareness updates (at least one, or from a start at most 3.0) awareness is at most 3.0 |
| `SessionRules.PenaltiesAccumulate` | src/js/game.js:163-165 | from awareness at most 3.0, n penalties of p lower awareness by exactly n·p: there is no lower clamp |
| `SessionRules.AwarenessCanGoNegative` | src/js/game.js:647 | 25 wall penalties of 0.05 from the 1.2 baseline leave awareness negative |
| `SessionRules.IndexOf` | src/js/game.js:140 | the first position of the stage in the list, or -1 exactly when it is absent |
| `SessionRules.IndexOfDistinct` | src/js/game.js:136-140 | in a list without repeats, the index of the i-th entry is i |
| `SessionRules.NextStageOf` | src/js/game.js:135-147 | a successor is always a stage of the order; a stage outside the order (the title) is followed by marketing |
| `SessionRules.NextStageFollowsOrder` | src/js/game.js:136-143 | each of the first six stages of the order is followed by the next one |
| `SessionRules.OnlyCelebrationEndsTheRun` | src/js/game.js:141-147 | `nextStage` returns to the title exactly when the current stage is the celebration |
| `SessionRules.PickIndex` | src/js/game.js:179 | `floor(draw × n)` for a draw in [0,1) is a valid index into n entries (0 when n is 0) |
| `SessionRules.Available` | src/js/game.js:177-178 | the filtered list holds exactly the personas whose id differs from the current persona's |
| `SessionRules.ChoosePersona` | src/js/game.js:176-185 | no persona exactly when the list is empty; otherwise one from the list, whose id differs from the current one exactly when some persona's does |
| `Arcade.SweetwaterArcade.constructor` | src/js/game.js:3-12 | the title stage with score 0, awareness 1.2, timer 0 and no persona |
| `Arcade.SweetwaterArcade.ShowTitleScreen` | src/js/game.js:103-119 | the stage becomes the title and the session record is reset: score 0, awareness the baseline, timer 0, no persona |
| `Arcade.SweetwaterArcade.StartGame` | src/js/game.js:121-128 | the stage becomes marketing; awareness is capped at 3.0, as the marketing stage's `start()` does through `updateAwareness(0)` (src/js/game.js:227); score, timer and persona are kept |
| `Arcade.SweetwaterArcade.NextStage` | src/js/game.js:135-148 | from a stage other than the celebration, the stage becomes its successor and the record is unchanged; from the celebration, the title state is installed |
| `Arcade.SweetwaterArcade.AddScore` | src/js/game.js:158-161 | the score grows by exactly the scaled, floored reward; nothing else changes |
| `Arcade.SweetwaterArcade.UpdateAwareness` | src/js/game.js:163-165 | awareness becomes the capped sum; nothing else changes |
| `Arcade.SweetwaterArcade.SelectRandomPersona` | src/js/game.js:176-185 | the current persona (and the result) is the one `ChoosePersona` picks for the draw; nothing else changes |
| `Arcade.MarketingStage.Start` | src/js/game.js:226-227 | awareness is capped at 3.0 (`updateAwareness(0)`); score, timer, persona and current stage are kept |
| `Arcade.MarketingStage.CompleteStage` | src/js/game.js:271-274 | awareness becomes the baseline, uncapped, whatever it was before; nothing else changes |
| `SnakeRules.FreshIsValid` | src/js/game.js:418-425 | the state the stage's constructor sets up satisfies the invariant |
| `SnakeRules.SymbolsFor` | src/js/game.js:537-542 | a non-empty list: the stage's table entry for the persona of a preferred pickup when the persona's id is in the table, the neutral list otherwise |
| `SnakeRules.DrawnCell` | src/js/game.js:528-529 | each cell the spawn loop draws is on the board |
| `SnakeRules.FirstFree` | src/js/game.js:526-530 | a found cell is on the board, off the snake, and the first drawn cell that is off the snake: every earlier draw hits the snake; none is found only when every drawn cell is on the snake |
| `SnakeRules.Spawn` | src/js/game.js:525-545 | the pickup is on the board and off the snake, preferred exactly when the coin is below 0.3, with a symbol from the right list; spawning fails only when every draw hits the snake |
| `SnakeRules.NextSpeed` | src/js/game.js:612-617 | the interval falls by exactly 3 when it is above 120 and otherwise stays; from 118 or more it stays at or above 118 |
| `SnakeRules.SpeedSchedule` | src/js/game.js:425 | from 250 the interval after n collections is 250 − 3n up to n = 44, and 118 from then on |
| `SnakeRules.SafeDirections` | src/js/game.js:624-628 | for a unit heading: exactly three unit directions, none the reverse of the heading, and every non-reverse unit direction among them |
| `SnakeRules.BufferTurn` | src/js/game.js:691-719 | while running, a key's direction is buffered exactly when it is perpendicular to the heading; otherwise nothing changes; the buffered direction never reverses the heading |
| `SnakeRules.WallHit` | src/js/game.js:620-650 | the new direction is the draw's pick of the safe directions; the snake becomes the turned head plus all but its last cell when the turned head is on the board, and is kept otherwise; only the snake and the buffered direction change; awareness takes the capped −0.05 |
| `SnakeRules.BodyHit` | src/js/game.js:652-668 | the head never moves; only the snake and the running flag change; awareness is unchanged or takes the capped −0.2; from awareness 0.5 up, the new snake is the old one without its last cell while it is longer than 3, and the old one otherwise |
| `SnakeRules.Collect` | src/js/game.js:591-618 | the snake, directions and running flag are kept; the interval stays within [118, old]; awareness at most 3.0 stays so |
| `SnakeRules.Tick` | src/js/game.js:554-589 | the invariant (bounds, length ≥ 3 while running, unit non-reversing directions, interval in [118, 250]) is kept; the interval never rises; awareness at most 3.0 stays so; a stopped game is left unchanged; a stopped game is not restarted |
| `SnakeRules.Advance` | src/js/game.js:577-585 | a move onto a free in-bounds cell keeps the game running and the directions; the head is that cell, the body follows, and the length grows by one exactly when the pickup is there |
| `SnakeRules.InitGame` | src/js/game.js:475-489 | the start snake heading right; the interval is not reset; unless spawning stalls, the game runs with a pickup off the snake |
| `SnakeRules.ClearTick` | src/js/game.js:577-585 | on a clear tick the new head is the old head plus the committed direction, the body follows, and the length grows by one exactly when the head lands on the pickup |
| `SnakeRules.CollectingTick` | src/js/game.js:591-618 | collecting scores 100 or 25 scaled by the awareness before the bonus, adds 0.1 capped awareness only for a preferred pickup, counts it, and (unless stalled) places a pickup off the snake and takes one speed step |
| `SnakeRules.WallTick` | src/js/game.js:565-569 | on a wall hit the game keeps running, the length is kept, the turn is one of three non-reversing directions, the head moves only if the turned cell is on the board, and awareness takes the capped −0.05 |
| `SnakeRules.BodyTick` | src/js/game.js:571-575 | on a body hit the game stops exactly when awareness is below 0.5 (then nothing else changes); otherwise awareness takes the capped −0.2 and the snake loses exactly its last cell while the length is above 3, and is kept otherwise |
| `SnakeRules.Run` | src/js/game.js:547-552 | any sequence of ticks keeps the invariant |
| `SnakeRules.GameOverIsFinal` | src/js/game.js:674-676 | once the game is over, any number of later ticks change nothing |
| `SnakeRules.RunSpeedMonotone` | src/js/game.js:612-617 | over any run the interval never rises and never drops below 118 |
| `SnakeRules.RunAwarenessCapped` | src/js/game.js:597 | over any run, awareness that starts at most 3.0 stays at most 3.0 |
| `SnakeRules.RunNeverRestarts` | src/js/game.js:555 | ticking never restarts a stopped game |
| `SnakeRules.TailCellIsABodyHit` | src/js/game.js:572-575 | a concrete snake whose head moves onto its own tail cell takes the body-hit penalty and shrinks |
| `SnakeRules.WallTurnCanOverlapBody` | src/js/game.js:640-644 | a concrete wall turn makes cell (1,0) the new head while it is also the last cell, so the snake holds the same cell twice |
| `SnakeRules.TurnRightOntoBody` | src/js/game.js:640-644 | a snake heading up from (0,0) with (1,0) as its fourth cell, turned right by the draw, gets (1,0) as both head and last cell |
| `Sales.SampleFreeCell` | src/js/game.js:526-530 | the resampling loop returns exactly the first free drawn cell, which is on the board and off the snake |
| `Sales.CollectSafeDirections` | src/js/game.js:622-628 | the pushes build exactly `SafeDirections` of the heading |
| `Sales.SalesStage.constructor` | src/js/game.js:412-437 | an empty snake heading right, no pickup, not running, interval 250, the persona symbol table installed; the invariant holds |
| `Sales.SalesStage.Start` | src/js/game.js:439-473 | both counters are reset, then the fields are what `InitGame` gives |
| `Sales.SalesStage.InitSnakeGame` | src/js/game.js:475-489 | the fields become what `InitGame` gives and the invariant holds |
| `Sales.SalesStage.SpawnPickup` | src/js/game.js:525-545 | the pickup becomes the one `Spawn` gives, or stays as it was when the draws run out |
| `Sales.SalesStage.UpdateSnake` | src/js/game.js:554-589 | the stage's fields and the orchestrator's session record become exactly what `Tick` gives, the invariant is kept, and the current stage is untouched |
| `Sales.SalesStage.MoveHead` | src/js/game.js:577-585 | fields and session record become what `Advance` gives |
| `Sales.SalesStage.CollectPickup` | src/js/game.js:591-618 | fields and session record become what `Collect` gives |
| `Sales.SalesStage.HandleWallCollision` | src/js/game.js:620-650 | fields and session record become what `WallHit` gives |
| `Sales.SalesStage.HandleSelfCollision` | src/js/game.js:652-668 | fields and session record become what `BodyHit` gives |
| `Sales.SalesStage.GameOver` | src/js/game.js:674-676 | only the running flag is cleared |
| `Sales.SalesStage.HandleKey` | src/js/game.js:691-719 | only the buffered direction changes, to what `BufferTurn` gives, and the invariant is kept |

## Left out

- Rendering and the HUD are not modelled: `renderBoard`, `updateHUD`, `updateGameInfo`, the `innerHTML` templates and the awareness-bar glow in `updateAwareness`. They only draw state. The two pickup counters are kept as plain integer fields.
- `loadConfigs` and `init` are not modelled, because they use network I/O and `async`. The baseline multiplier and the persona list are constructor parameters instead, and a failed load is an absent baseline and an empty list. A `NaN` baseline (also falsy) cannot be expressed with `real`.
- Timers and scheduling are not modelled: the `requestAnimationFrame` countdowns (`startTimer` in each stage), the `setInterval` game loop, the `setTimeout` delays and `Date.now`. Each tick is an explicit `UpdateSnake` call. `gameSpeed` is kept as a field, but nothing schedules by it. The session's `timer` is only reset, never counted down.
- Event wiring is not modelled: `setupEventListeners`, `handleKeyPress`, `handleMenuClick`, each stage's `setupKeyboardListener` registration and removal, and the key-code mapping. A key press is a directional `Intent`. Space-to-continue is a call to the relevant method.
- `NextStage` does not call the next stage's `start()`. The model makes that dispatch a separate call: `MarketingStage.Start`, `SelectRandomPersona` for the wild-customer stage, `SalesStage.Start` for the sales stage. `MerchStage`, `ITHubStage` and `WarehouseStage` only schedule `nextStage`; `CelebrationStage` only schedules `showTitleScreen`. `StartGame` applies the marketing stage's `updateAwareness(0)` cap itself, since that is the only part of the marketing `start()` that touches the session record.
- `SalesStage.completeStage` and `MarketingStage.completeStage`'s delayed `nextStage` are not modelled, because they only cancel timers and listeners and then schedule `nextStage` (modelled as `NextStage`).
- The placeholder stages `TitleStage`, `MerchStage`, `ITHubStage`, `WarehouseStage` and `CelebrationStage` are not modelled. `TitleStage` has no `start()`. The merch, IT-hub and warehouse stages only wait and then call `nextStage` (modelled as `NextStage`). The celebration stage waits and then calls `showTitleScreen` (modelled as `ShowTitleScreen`).
- `WildCustomerStage` is not modelled beyond `SelectRandomPersona`. The rest of it is markup, timer and listener. Its lookup tables `getPersonaEmoji`, `getPersonaDescription` and `getPersonaNeeds` are left out as trivial display strings.
- `showCredits` is not modelled. It only logs.
- The `gameState` fields `selectedUpgrade` and `stageStartTime` are not modelled. The core only ever resets them.
- Awareness and score arithmetic use exact `real` values, not IEEE-754 doubles. Rounding from repeated small penalties, and the exact `floor` of products such as 25 × 1.2 in floating point, are not modelled.
- `Math.random` is replaced by caller-supplied draws in [0, 1). The model says nothing about their distribution.
- SampleFreeCell: the original's resampling loop is unbounded. The model consumes a finite sequence of draws and reports a stalled step when they run out. It does not capture a run that keeps drawing forever.
