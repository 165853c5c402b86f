# GameController: a verified model of a flappy-bird simulation core

This project models `GameController` (`src/game.ts`), the simulation core of a
side-scrolling "flappy bird" game. The controller owns one `Frame`: two pipe pairs,
the bird, the ground, the score and the `gameOver`/`gameStarted` flags. It also owns a
hidden vertical `velocity`. Callers drive it with four operations:

- `newGame` installs a fresh frame.
- `start` does the same and sets `gameStarted`.
- `nextFrame` advances the game by one step: it scrolls and recycles the pipe pairs,
  checks for a ground or pipe collision, decays the velocity, awards points and moves
  the bird.
- `jump` adds upward velocity.

Layout:

- `game_state.dfy`, module `GameState`:
  - the records (`Frame`, `Bird`, `Ground`, `PipePair`, `Pipe`);
  - the read-only constructor parameters, as a `Config` value, with their defaults in
    `DefaultConfig`;
  - the pure routines: the three random draws, `createPipe`, `checkPipe` and
    `hasCollidedWithPipe`;
  - the functions that specify `movePipe` (`MovedPipe`), one `nextFrame` (`Step`) and
    `jump` (`Jumped`);
  - `Run`, which folds `Step` and `Jumped` over a sequence of calls.
- `game_controller.dfy`, module `Controller`: class `GameController`. Its fields are
  `config`, the mutable `pipeGap`, `frame` and `velocity`. Its methods change them in
  place, step by step as the source does, and each method is proved equal to its
  specifying function. The class invariant `Valid()` carries three facts that the
  lemmas establish:
  - once `newGame` has run, every pair has the shape `createPipe` gives it (top pipe
    at 0, a whole-number gap in [155, 180], full-height bottom pipe, width
    `pipeWidth`), and the bird, ground and playfield size keep their configured
    values; this holds for every configuration;
  - the velocity never falls to `-slowVelocityBy`, under the conditions of
    `PhysicsConfig` (`slowVelocityBy > 0` and `jumpVelocity >= 0`);
  - the two pipe pairs stay staggered, so at most one pair is ever hidden, under the
    conditions of `StaggerConfig` (positive speed, a spawn threshold right of the
    hiding point, a wide enough playfield).
  The default parameters meet both conditions.
- `game_lemmas.dfy`, module `GameLemmas`: the properties of the rules.

The model follows the code in these respects:

- `nextFrame` moves the second pair against the first pair *after* the first pair has
  moved (`src/game.ts:152-159`). The second pair's respawn test therefore sees the
  first pair's new `left` and `show`, not the ones it had before the step. The
  pipeline invariant is proved for this order.
- The ground test (`src/game.ts:161-167`) runs before the bird moves, so a
  collision-free step can carry the bird past the ground limit; the next `nextFrame`
  clamps it back and ends the game. Whether this happens depends on the velocity.
  With the defaults and velocity 0 the bird falls 2.25 per step from 380 and lands
  exactly on the limit 740 (`DefaultStillBirdNeverPassesGround`). With velocity
  -0.2, what a jump of 10 leaves after 34 decays of 0.3, the bird is at 740.15 after
  147 steps with the game still running (`BirdCanSinkIntoGroundForOneFrame`).
- `newGame` and `start` do not reset `velocity`. A jump made after the game ended
  carries over into the next game. The model keeps this.
- The score test does not look at `show`. The model keeps this too.
- With the default configuration a new pair passes `left == -pipeWidth` after 400
  moves and is hidden by the 401st move (`DefaultPairLeavesAfterWidthPlusOneMoves`).
  It scores on exactly one of its positions (`DefaultSpeedScoresOncePerPass`). With a
  speed of 0.7 it never scores (`FractionalSpeedNeverScores`).

Random draws, that is `Math.random()`, are parameters of type `Roll`, a real in
`[0, 1)`. A `PipeRolls` value holds the three draws `createPipe` makes, in the order
it makes them. `newGame` and `start` take one `PipeRolls` per pair. `nextFrame` takes
one per pair; it uses that value only if the pair respawns.

## Model

| member | source | states |
|---|---|---|
| GameState.RandomYForTopPipe | src/game.ts:86-91 | the top pipe's height lies in `[minTopForTopPipe, maxTopForTopPipe]` whenever min <= max, strictly below max when min < max |
| GameState.RandomTextForPipe | src/game.ts:93-116 | the label index drawn is below the number of labels (17) |
| GameState.RandomGapForPipe | src/game.ts:118-123 | the gap drawn is a whole number in [155, 180] |
| GameState.CreatePipe | src/game.ts:125-145 | the top pipe has top 0; the bottom pipe starts a whole-number gap in [155, 180] below the top pipe's height and has the playfield height; the top height is within its bounds; both pipes carry the same label; left is width - pipeWidth, width is pipeWidth, show is the argument |
| GameLemmas.EveryGapCanBeDrawn | src/game.ts:118-123 | every whole gap in [155, 180] is produced by some draw, so the range is exact |
| GameLemmas.EveryLabelCanBeDrawn | src/game.ts:113-115 | every label index below 17 is produced by some draw |
| GameLemmas.CheckPipeIsOverlap | src/game.ts:228-230 | checkPipe holds exactly when the closed column spans of the pair and of the bird share a point |
| GameLemmas.FirstOverlappingPairDecides | src/game.ts:232-242 | when the first pair is visible and overlapping, the collision verdict is "not strictly inside its opening", and the second pair never affects it |
| GameLemmas.SecondPairDecidesOtherwise | src/game.ts:244-255 | when the first pair does not overlap, a collision happens exactly when the second pair is visible, overlapping and not cleared |
| GameLemmas.CollisionNeedsOverlap | src/game.ts:232-256 | no collision is reported unless some visible pair overlaps the bird |
| GameLemmas.TouchingAnEdgeCollides | src/game.ts:237-241 | bird.top equal to the top pipe's height, or bird bottom equal to the bottom pipe's top, counts as a collision |
| GameLemmas.MovePipeOutcomes | src/game.ts:203-220 | a visible pair at left <= -pipeWidth is hidden in place and not respawned; any other visible pair moves left by exactly speed; a hidden pair is replaced by createPipe(true) exactly when the other pair is visible and left of the spawn threshold, and is otherwise returned unchanged |
| GameLemmas.VisibleMoveIgnoresOther | src/game.ts:209-217 | moving a visible pair depends neither on the other pair nor on the draws |
| GameLemmas.ScrollsAtSpeed | src/game.ts:204-211 | n consecutive moves of a visible pair that has not passed the left edge shift it by n * speed and keep it visible |
| GameLemmas.DefaultPairLeavesAfterWidthPlusOneMoves | src/game.ts:203-211 | with the default configuration a new pair is at left -50, still visible, after 400 moves, and the 401st move hides it there |
| GameLemmas.DefaultSpeedScoresOncePerPass | src/game.ts:179-190 | with the default configuration, of the 401 positions movePipe gives a new pair before it is hidden, exactly one (after 361 moves) is the scoring position |
| GameLemmas.FractionalSpeedNeverScores | src/game.ts:179-190 | with speed 0.7 a new pair stays visible for 572 moves and none of the positions movePipe gives it passes the exact-equality scoring test |
| GameLemmas.NewFrameIsFresh | src/game.ts:60-84 | after newGame: score 0, not over, not started, bird centred at birdX, first pair visible, second hidden; after start the same but started |
| GameLemmas.SecondJumpIsIgnored | src/game.ts:222-226 | a second jump leaves the velocity unchanged exactly when the velocity after the first is positive or jumpVelocity is 0 |
| GameLemmas.DoubleJumpRaisesOnce | src/game.ts:222-226 | when jumpVelocity >= slowVelocityBy > 0 and the velocity is above -slowVelocityBy, two jumps in a row add jumpVelocity at most once |
| GameLemmas.ApplyKeepsVelocityFloor | src/game.ts:174-177 | one nextFrame or jump keeps the velocity above -slowVelocityBy |
| GameLemmas.VelocityFloorOverRun | src/game.ts:174-177 | any sequence of nextFrame and jump calls keeps the velocity above -slowVelocityBy |
| GameLemmas.InertStepChangesNothing | src/game.ts:147-150 | nextFrame leaves frame and velocity unchanged when the game is over or not started |
| GameLemmas.InertFrameIsFinal | src/game.ts:147-150 | once over (or before start), no sequence of nextFrame and jump calls changes the frame, so gameOver stays true until newGame |
| GameLemmas.GroundEndsGame | src/game.ts:161-167 | bird.top at or past height - groundHeight - birdSize: the bird is clamped to that limit and the game ends, after both pairs have moved; score and velocity stay |
| GameLemmas.PipeCollisionEndsGame | src/game.ts:169-172 | a pipe collision against the moved pairs ends the game with bird, score and velocity unchanged |
| GameLemmas.FlightStep | src/game.ts:174-192 | with no collision, the velocity drops by slowVelocityBy only if positive, the score grows by the number of pairs at left + pipeWidth == birdX - speed, and the bird moves by gravity^2 minus the decayed velocity; nothing else but the pairs changes |
| GameLemmas.StepIsMonotone | src/game.ts:147-195 | one nextFrame never lowers the score, never clears gameOver and never changes gameStarted |
| GameLemmas.ScoreNeverDecreases | src/game.ts:179-190 | over any sequence of nextFrame and jump calls the score never decreases, gameStarted never changes and gameOver is never cleared |
| GameLemmas.FallingTick | src/game.ts:161-192 | with no upward velocity, one running step ends the game or lowers the bird by gravity^2 minus the velocity, keeping the velocity |
| GameLemmas.FallsWithoutJumps | src/game.ts:161-192 | with no upward velocity and no jumps, the game is over after n steps once (n - 1) * gravity^2 covers the distance to the ground limit |
| GameLemmas.DefaultFallStep | src/game.ts:147-192 | with the defaults and velocity v <= 0, one nextFrame from the state after k steps without jumps gives the state after k + 1: bird at 380 + k(2.25 - v) until the step after it reached 740, then over and resting on 740, with the first pair never near the bird and the second never spawned |
| GameLemmas.DefaultFallRun | src/game.ts:147-192 | the same description holds after any number of nextFrame calls without jumps |
| GameLemmas.DefaultGameEndsWithin161Steps | src/game.ts:161-192 | with the default configuration, a started game with no upward velocity is over after 161 or more nextFrame calls without jumps, and it ended on the ground: the bird rests exactly on the ground limit 740 |
| GameLemmas.DefaultStillBirdNeverPassesGround | src/game.ts:161-192 | with the defaults and velocity 0, bird.top never exceeds the ground limit, whatever number of nextFrame calls is made without jumps |
| GameLemmas.BirdCanSinkIntoGroundForOneFrame | src/game.ts:161-192 | with the defaults and velocity -0.2, 147 nextFrame calls without jumps leave the game running with bird.top at 740.15, past the ground limit 740 |
| GameLemmas.NewFrameHasShape | src/game.ts:60-84 | the frames newGame and start install have both pairs shaped as createPipe makes them and bird, ground and size from the configuration |
| GameLemmas.StepKeepsShape | src/game.ts:147-195 | one nextFrame keeps that shape: movePipe only hides, scrolls or replaces a pair by createPipe |
| GameLemmas.RunKeepsShape | src/game.ts:147-226 | any sequence of nextFrame and jump calls keeps that shape |
| GameLemmas.DefaultConfigIsSound | src/game.ts:43-58 | the default parameters satisfy the conditions of the pipeline and velocity invariants |
| GameLemmas.NewFrameIsStaggered | src/game.ts:60-84 | the frame newGame and start install satisfies the pipeline invariant |
| GameLemmas.MovedPipesStaggered | src/game.ts:152-159 | moving the first pair, then the second against the moved first, keeps the pipeline invariant: at least one pair visible, visible pairs far enough apart |
| GameLemmas.StepKeepsStaggered | src/game.ts:147-195 | one nextFrame keeps the pipeline invariant |
| GameLemmas.StaggeredOverRun | src/game.ts:147-226 | any sequence of nextFrame and jump calls keeps the pipeline invariant, so at most one pair is hidden at any time |
| Controller.GameController.constructor | src/game.ts:38-58 | stores the configuration and pipeGap, velocity 0, no frame yet |
| Controller.GameController.NewGame | src/game.ts:60-84 | installs NewFrame and returns it; velocity and pipeGap unchanged; invariant kept |
| Controller.GameController.Start | src/game.ts:197-201 | installs NewFrame with gameStarted set and returns it; velocity unchanged; invariant kept |
| Controller.GameController.MovePipe | src/game.ts:203-220 | its in-place updates of show and left yield exactly MovedPipe |
| Controller.GameController.NextFrame | src/game.ts:147-195 | the new frame and velocity are exactly Step of the old ones; the returned frame is the new frame; invariant kept |
| Controller.GameController.Jump | src/game.ts:222-226 | adds jumpVelocity when the velocity is <= 0, otherwise leaves it; invariant kept |

## Left out

- `Math.random` is not modelled. Each draw is a `Roll` parameter with its range, and the model says nothing about the distribution of the draws.
- The label strings are cosmetic. A pipe keeps the index of its label, not the text.
- Positions, sizes and the velocity are reals, not IEEE-754 doubles. The repeated `-= 0.3` and `Math.pow(gravity, 2)` are exact in the model. The spawn threshold `width * (1 - 0.7)` is exactly 120 in the model but 120.00000000000001 in JavaScript. So in JavaScript a pair at exactly `left == 120` already triggers a respawn, and in the model it does not.
- `pipeGap` is a field that nothing reads, as in the source.
- The controller's state before the first `newGame` is not modelled. `NextFrame` requires that `newGame` has run (ghost field `hasFrame`).
- The source returns the frame object by reference, so a caller could mutate it. The model returns the frame as a value, so it does not capture that aliasing.
- Rendering, input handling and the tick driver are not part of this model.
- GameLemmas.StaggeredOverRun: the "at most one pair is hidden" invariant is proved only for configurations that satisfy `StaggerConfig`: positive speed, a spawn threshold right of the hiding point, and a wide enough playfield. The defaults satisfy it.
- GameLemmas.DoubleJumpRaisesOnce: "two jumps raise the velocity once" is proved only when `jumpVelocity >= slowVelocityBy`. Otherwise a small jump from a slightly negative velocity can leave it non-positive, and the second jump then adds again (`SecondJumpIsIgnored` states the exact condition).
- GameLemmas.FallsWithoutJumps: the lemma assumes no upward velocity at the start. It does not bound how long a positive velocity takes to decay, because that depends on the rounding of the repeated subtraction.
