# Pong simulation core, modelled in Dafny

A model of the simulation core of a two-player Pong game written in Rust on
the ggez engine. Each core source file has its own module:

- `Impacts` (`impact.dfy`, for `src/impact.rs`): the impact animation. Two
  integer counters pick the sprite on show. Every `FRAME_SPEED` (6) calls the
  animation moves to the next sprite, and it stops on the last one.
- `Bats` (`bat.dfy`, for `src/bat.rs`): a bat. Two keys move it up and down,
  and its collider rectangle follows it. It also carries a `score` that only
  the ball changes.
- `Balls` (`ball.dfy`, for `src/ball.rs`): the ball. It covers integration,
  bouncing off the top and bottom walls, the speed ramp, the check against a
  bat (direction forcing, the impact it owns, goals and scoring) and the reset
  to the centre.
- `GameStates` (`game_state.dfy`, for `src/game_state.rs`): the match. It has
  the phases Menu, Running and Over, the per-frame pipeline, the win check at
  10 and the choice of winner.
- `Screen` (`screen.dfy`): the screen size from `src/main.rs`. It also holds
  the small value types the entities share: `Vec2`, `Rect`, `Image` sizes,
  `Sprite` handles and `Option`.

Each module has two layers:

- A value type (`ImpactVal`, `BatVal`, `BallVal`, `GameVal`) with pure step
  functions. The lemmas about the game are stated on these.
- A class with the Rust struct's fields. Its methods update those fields in
  place, as the source does, and each method is proved to leave `Model()`
  equal to the step function applied to the old `Model()`.

The ball owns its impact as an `Option<Impact>`. A hit on a bat replaces it
with a freshly allocated object.

The engine's inputs become parameters:

- the frame length `dt` and the frame number `ticks` (the timer);
- whether W, S, Up, Down and Space are held (the keyboard);
- one random draw per ball-against-bat check (the random generator). A draw
  is two magnitudes in [150, 250) and two sign bits (the `Draw` type).

Positions, velocities, `dt` and speed are `real`s. Rectangles overlap when
they share a point, edges included. That is the rule of ggez's
`Rect::overlaps`, whose code is not part of this model.

Some behaviours of the code are easy to misread. The model follows the code,
and these lemmas pin each one down:

- **Bat clamp.** One might expect `move_up` and `move_down` to keep the bat
  on the screen. They snap it to an edge only when it is already at or past
  that edge (src/bat.rs:25-39). Otherwise they take a full step, so one frame
  can carry a bat on the screen off it. `Bats.UpdateCanLeaveScreen` gives an
  input that does this. `Bats.UpdateStaysWithinOneStep` proves the bound the
  code does keep: the bat stays within one frame's step of the screen.
- **Speed.** The speed multiplier only rises while the ball is in play
  (src/ball.rs:126-131). `reset` sets it back to 1.0 after every goal
  (src/ball.rs:65-69). So it is non-decreasing only on frames without a goal
  (`GameStates.RunningTickScoresAtMostOnce`), and it always stays in [1, 3]
  (`Balls.Updated`, `Balls.Collided`).
- **Goals.** A running frame checks the ball against bat 1 and then bat 2
  (src/game_state.rs:90-93). A goal found in the check against bat 1 (the
  ball past the right edge, scored by bat 1) puts the ball back in the
  centre before bat 2 is checked. So at most one goal counts per frame, and
  none while the ball is on the screen (`GameStates.RunningTickScoresAtMostOnce`,
  `Balls.Collided`).
- **Ties.** `get_winner_text` (src/game_state.rs:62-68) names Player 1 whenever
  bat 1 has 10, and Player 2 otherwise. The case of both bats at 10 would go to
  Player 1, but no reachable state has it (`GameStates.NoTieEver`).
- **Score field.** `src/bat.rs` declares no `score` field (src/bat.rs:8-12).
  `src/ball.rs:105,111` and `src/game_state.rs:63,71` nevertheless use
  `bat.score`. The model gives the bat a `score: nat` that starts at 0 and that
  only the ball's check against the bat raises.

## Model

| member | source | states |
|---|---|---|
| `Impacts.Fresh` | src/impact.rs:32-45 | a new impact has frame counter 0, frame-rate counter 6 and shows its first sprite, keeps the given position and sprite list, and satisfies the impact invariant (shown sprite matches the frame counter, frame-rate counter at most 6) |
| `Impacts.Animated` | src/impact.rs:47-60 | one call keeps position and sprite list; the frame counter goes up by one exactly when the frame-rate counter is 5, and stays otherwise; past the last sprite (the early return) the frame-rate counter stays 5 and the sprite stays; otherwise at 5 the frame-rate counter wraps to 0 and the next sprite is shown; below 5 the frame-rate counter goes up by one and the sprite stays; the result's frame-rate counter is below 6 and the impact invariant is kept |
| `Impacts.AnimatedTimes` | src/impact.rs:66-68 | n calls keep position and sprites, raise the frame counter by at most n and keep the impact invariant |
| `Impacts.FreshSchedule` | src/impact.rs:43-60 | from a fresh impact with L sprites, after n calls (1 <= n < 6L) the frame counter is n/6, the frame-rate counter n%6 and the sprite the (n/6)-th; from 6L calls on, the last sprite stays, the frame-rate counter stays 5 and the frame counter is n - 5L, growing without bound |
| `Impacts.LastSpriteAfter` | src/impact.rs:47-57 | the last sprite is reached after exactly 6(L-1) calls (30 for the six impact sprites) and not before |
| `Impacts.StaysOnLastSprite` | src/impact.rs:48-52 | once the frame counter has reached the last sprite, no number of further calls changes the sprite |
| `Impacts.KeepsCounting` | src/impact.rs:48-52 | past the end of the sprite list, with the frame-rate counter at 5 (where every impact past its last sprite has it, see `FreshSchedule`), every call increments the frame counter by one and changes nothing else |
| `Impacts.Impact.constructor` | src/impact.rs:32-45 | frame counter 0, frame-rate counter 6, first sprite shown; requires a non-empty sprite list, which the source indexes |
| `Impacts.Impact.Animate` | src/impact.rs:47-60 | updates the fields in place, with the early return, to exactly `Animated` of the old state |
| `Impacts.Impact.Update` | src/impact.rs:66-68 | one `Animate` |
| `Bats.Created` | src/bat.rs:17-23 | a new bat is at its position, keeps its sprite (whose height fixes the line `move_down` snaps to), has score 0, and its 20x125 collider starts at (x + sprite width, y), to the right of the sprite |
| `Bats.MovedUp` | src/bat.rs:25-31 | only y changes; from y <= 0 it becomes exactly 0, otherwise it drops by exactly PLAYER_SPEED*dt with no clamp; from y >= 0 with dt >= 0 the result lies in [-PLAYER_SPEED*dt, y] |
| `Bats.MovedDown` | src/bat.rs:33-39 | only y changes; at or below SCREEN_HEIGHT - sprite height it snaps to that line, otherwise it rises by exactly PLAYER_SPEED*dt; from above the line the result lies in [y, line + PLAYER_SPEED*dt] |
| `Bats.Updated` | src/bat.rs:41-60 | x, sprite and score never change; no key leaves the position unchanged; with both keys up is applied before down; the collider ends at (x+70, y+15) with its size unchanged |
| `Bats.UpdateStaysWithinOneStep` | src/bat.rs:25-53 | for a bat whose sprite is no taller than the screen, with frames of at most maxDt seconds, a bat within one step (PLAYER_SPEED*maxDt) of the screen stays within one step, whatever keys are held |
| `Bats.UpdateCanLeaveScreen` | src/bat.rs:25-31 | a bat on the screen at y = 1 leaves it in one frame of 0.01 s with the up key held |
| `Bats.Bat.constructor` | src/bat.rs:17-23 | the fields equal `Created` |
| `Bats.Bat.MoveUp` | src/bat.rs:25-31 | updates the position in place to exactly `MovedUp` |
| `Bats.Bat.MoveDown` | src/bat.rs:33-39 | updates the position in place to exactly `MovedDown` |
| `Bats.Bat.Update` | src/bat.rs:41-60 | applies the keys and moves the collider in place, to exactly `Updated` |
| `Balls.StartVec` | src/ball.rs:42-58 | each component has the drawn magnitude, in [150, 250), and is negative exactly when its sign bit is set |
| `Balls.RandomStartVec` | src/ball.rs:42-58 | builds the vector with mutable locals; the result has both components in [150, 250) in size, with the drawn signs, and equals `StartVec` |
| `Balls.Created` | src/ball.rs:30-40 | a new ball is at its position with speed 1.0, the drawn start velocity (`StartVec`), a 24x24 collider at its position and no impact; it satisfies the ball invariant (speed in [1, 3], both velocity components in [150, 250) in size, 24x24 collider) |
| `Balls.ResetTo` | src/ball.rs:65-69 | position is the screen centre, speed 1.0, velocity a fresh start vector; collider and impact are untouched; the ball invariant is kept |
| `Balls.Updated` | src/ball.rs:115-132 | adds velocity*speed*dt to each coordinate and moves the collider there; vx never changes and abs(vy) is kept; vy changes iff the ball heads up past the top or down past the bottom, and afterwards it points back onto the screen; speed never exceeds 3, never drops from at most 3, changes only on frames whose number is a multiple of 100 and then rises by 0.1 below the cap and becomes exactly 3 when the step reaches or passes it; the ball invariant is kept |
| `Balls.AwayFrom` | src/ball.rs:93-97 | the forced horizontal velocity keeps abs(vx), is >= 0 for bat 1 and <= 0 for bat 2 |
| `Balls.Collided` | src/ball.rs:71-113 | only the bat's score changes, by exactly one and only on a goal (x < 0 against bat 2, x > SCREEN_WIDTH against bat 1); a goal resets the ball to the centre at speed 1.0; without a goal the position, speed and vy stay, and an overlap forces vx away from the bat; an overlap replaces the impact with a fresh one at (x-10, y) advanced once, otherwise an existing impact is advanced once and None stays None; the ball invariant is kept |
| `Balls.CollisionIdempotentOnVelocity` | src/ball.rs:93-97 | checking the same bat twice without a goal leaves the velocity and the bat as after the first check |
| `Balls.Ball.constructor` | src/ball.rs:30-40 | the fields equal `Created` |
| `Balls.Ball.Reset` | src/ball.rs:65-69 | updates position, speed and velocity in place to exactly `ResetTo`, keeping the impact object |
| `Balls.Ball.Update` | src/ball.rs:115-132 | updates the fields in place to exactly `Updated`, keeping the impact object |
| `Balls.Ball.CollisionWithBat` | src/ball.rs:71-113 | updates the ball, its impact (a newly allocated one on a hit) and the bat's score in place to exactly `Collided` |
| `GameStates.NewGame` | src/game_state.rs:32-55 | a new game is in Menu with dt 0 and the loaded impact sprites; bat 1 is a new bat at (0,150), bat 2 a new bat at (650,150), both with score 0; the ball is a new ball at the centre at speed 1.0 |
| `GameStates.Winner` | src/game_state.rs:62-68 | the announced winner is Player 1 exactly when bat 1 has 10, and Player 2 otherwise |
| `GameStates.CheckedWinner` | src/game_state.rs:70-74 | only the phase changes; it becomes Over iff it was Over or either score is 10 |
| `GameStates.RunningTick` | src/game_state.rs:84-95 | after a running frame (bat 1, bat 2, ball, check against bat 1, then bat 2, then the win check) the phase is Over iff a score is 10, and Running otherwise |
| `GameStates.Updated` | src/game_state.rs:78-103 | the phase moves only Menu to Running or Running to Over; outside Running the bats and the ball do not change |
| `GameStates.NewGameInv` | src/game_state.rs:32-55 | a new game is in Menu with dt 0, bats at (0,150) and (650,150), the ball at the centre, and satisfies the match invariant |
| `GameStates.RunningTickScoresAtMostOnce` | src/game_state.rs:84-95 | a running frame leaves both scores alone or raises exactly one of them by one; on a frame without a goal the ball's speed does not drop |
| `GameStates.UpdatedKeepsInv` | src/game_state.rs:78-103 | one frame keeps the match invariant (Menu: no scores; Running: both below 10; Over: exactly one at 10), moves the phase only forwards, and a running frame ends in Over iff a score reached 10 |
| `GameStates.MenuWaitsForSpace` | src/game_state.rs:97-101 | in Menu, a frame moves to Running iff Space is held and changes nothing else |
| `GameStates.OverIsFinal` | src/game_state.rs:102 | once Over, any sequence of frames changes nothing, scores included |
| `GameStates.RunKeepsInv` | src/game_state.rs:78-103 | every sequence of frames keeps the match invariant |
| `GameStates.NoTieEver` | src/game_state.rs:70-74 | from a new game, after any frames, no score exceeds 10, the two bats never both have 10, and the match is Over iff one has |
| `GameStates.WinnerReachedTen` | src/game_state.rs:62-68 | in a reachable Over state the winner is Player 1 iff bat 1 has 10 and Player 2 iff bat 2 has 10 |
| `GameStates.Player1WinsAndMatchFreezes` | src/game_state.rs:62-74 | the frame on which bat 1 reaches 10 ends the match with Player 1 as winner and bat 2 below 10, and no later frame changes anything |
| `GameStates.GameState.constructor` | src/game_state.rs:32-55 | the fields equal `NewGame` (Menu, dt 0) and the match invariant holds |
| `GameStates.GameState.CheckWinnerCondition` | src/game_state.rs:70-74 | sets the phase in place to exactly `CheckedWinner` |
| `GameStates.GameState.MoveAll` | src/game_state.rs:84-89 | stores dt, then updates bat 1 (W/S), bat 2 (Up/Down) and the ball in place |
| `GameStates.GameState.CheckBothBats` | src/game_state.rs:90-93 | checks the ball against bat 1, then against bat 2, in place |
| `GameStates.GameState.Tick` | src/game_state.rs:84-95 | the running branch, in place, equal to exactly `RunningTick` |
| `GameStates.GameState.Update` | src/game_state.rs:78-106 | dispatches on the phase, in place, to exactly `Updated`, and keeps the match invariant |

## Left out

- Rendering is not modelled: every `render` and `draw` function, the text and font handling, `graphics::present` and `timer::yield_now`. These are engine calls that do not affect the simulation.
- Audio is not modelled: `play_hit_sound`, `play_goal_sound`, `play_game_theme`, the theme-restart check in `update`, and the sound sources held by `Impact`, `Ball` and `GameState`. These are foreign side effects. The model treats them as no-ops, so it does not model an audio failure aborting a frame.
- Asset loading (`src/assets.rs`, `Impact::load_assets`) and window and event-loop setup (`src/main.rs`) are not modelled. Loaded images become their sizes (`Image`) or opaque handles (`Sprite`). The impact sprites are any non-empty list; the game loads six.
- The ball's own sprite and the game's background image are used only for drawing, so they are left out.
- `thread_rng` is not modelled. Its output is passed in as `Draw` values, one per ball-against-bat check.
- f32 arithmetic is modelled with unbounded reals, so rounding is not captured. The impact's i32 counters are modelled as unbounded `nat`s, so a frame counter overflow after about 2.1e9 calls past the last sprite is not captured.
- ggez's `Rect::overlaps` and `Rect::move_to` are written out on `Rect`, because their code is not part of this model.
