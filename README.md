# Classic Pong — a verified model of the game core

This project models the game logic of a two-player Pong game written for the
Python Arcade library (`pong_game.py`): a left paddle steered with W/S, a right
paddle steered with UP/DOWN, a ball that bounces off the top and bottom walls
and off the paddles, a score for each player, and resets of the ball and of the
whole match. Each frame the window's `on_update` steers the paddles from the
keys held, moves the paddles and then the ball, turns the ball back from the
first paddle it overlaps, and scores a ball that left the court to the left or
to the right.

Layout:

- `config.dfy` (`Config`): the constants of the game, as integers like the
  source, plus their exact real counterparts (court edges, centre, half sizes).
- `sprites.dfy` (`Sprites`): value records `PaddleState` and `BallState`, the
  functions `PaddleStep` and `BallStep` that specify one `update` of each
  sprite, the serve draw (`Sign`, `Serve`, `Pick`, `Served`), and the classes
  `Paddle` and `Ball` whose `Update` methods change their fields in place and
  are proved equal to those functions.
- `controls.dfy` (`Controls`): keys, and the mapping from the held-key set to
  each paddle's velocity.
- `rules.dfy` (`Rules`): a snapshot `GameState` of a whole game, the collision
  test and response, one tick (`Tick`), the game reset, the key handlers, and
  lemmas about any sequence of these events (`Run`).
- `game.dfy` (`Game`): the class `PongGame` with the paddles, the ball, the
  scores and the held-key set as fields; `OnUpdate`, `ResetGame`,
  `OnKeyPress` and `OnKeyRelease` update them in place and are each proved to
  produce the state the matching `Rules` function gives for the old state, and
  `ResetBall` is proved to replace only the ball, with `Sprites.Served`.

Positions and velocities are exact `real`s. `random.choice([-BALL_SPEED,
BALL_SPEED])` is an injected draw: a `Serve` holds which of the two entries
each of the two calls picked, and `ServedIsOnto` shows every one of the four
diagonal serves is reachable. Sprite edges are `top = center_y + h/2` and
`bottom = center_y - h/2`, with a paddle 80 high and the ball a 10 by 10
square.

`on_update` is one method in the source. Here its three blocks (key handling,
paddle collision, scoring) are the methods `SteerPaddles`, `CheckPaddleHit`
and `CheckScore`, called by `OnUpdate` in the source's order. `__init__` and
`setup` are one constructor.

Two details of the key handling follow `on_update` and `on_key_press` closely.
When both keys of a pair are held, the up key wins because `on_update` checks
it first (`Controls.PaddleVelocity`). ESC and R are added to the held-key set
like any other key, and R stays held until it is released.

## Model

| member | source | states |
|---|---|---|
| `Sprites.Pick` | pong_game.py:57-58 | a drawn component is -3 or +3, never 0, and positive exactly for the second entry |
| `Sprites.PickIsOnto` | pong_game.py:229-230 | every serve component -3 and +3 is produced by some draw |
| `Sprites.PaddleStep` | pong_game.py:85-93 | after a paddle step, bottom >= 0 and top <= 600. An edge that left the court is put exactly on its boundary. A paddle still inside ends at old centre + change_y. centre x, change_y and width are unchanged |
| `Sprites.Paddle.constructor` | pong_game.py:73-83 | a new paddle is at rest at the origin with the given width |
| `Sprites.Paddle.SetTop` | pong_game.py:90-91 | assigning `top` moves only the centre, so that the top edge is the given value |
| `Sprites.Paddle.SetBottom` | pong_game.py:92-93 | assigning `bottom` moves only the centre, so that the bottom edge is the given value |
| `Sprites.Paddle.Update` | pong_game.py:85-93 | the in-place update leaves the paddle in the state `PaddleStep` gives for its old state |
| `Sprites.Served` | pong_game.py:54-58 | a served ball is at (400, 300), and each velocity component is -3 or +3, so neither is zero. Its signs follow the draw |
| `Sprites.ServedIsOnto` | pong_game.py:225-230 | all four diagonal serve velocities are reachable |
| `Sprites.BallStep` | pong_game.py:60-67 | the ball moves by its velocity and change_x is kept. change_y is negated when the moved ball's top is >= 600 or its bottom <= 0, and kept otherwise. For a nonzero change_y its sign flips iff the ball touches a wall |
| `Sprites.Ball.constructor` | pong_game.py:47-58 | a new ball is a served ball |
| `Sprites.Ball.Update` | pong_game.py:60-67 | the in-place update leaves the ball in the state `BallStep` gives for its old state |
| `Controls.PaddleVelocity` | pong_game.py:182-194 | the velocity is +5 when the up key is held (even with the down key held), -5 when only the down key is held, and 0 otherwise. It is positive iff the up key is held |
| `Controls.LeftVelocity` | pong_game.py:182-187 | player 1's velocity: +5 with W held, -5 with only S held, 0 otherwise |
| `Controls.RightVelocity` | pong_game.py:189-194 | player 2's velocity: +5 with UP held, -5 with only DOWN held, 0 otherwise |
| `Controls.VelocityDependsOnOwnKeys` | pong_game.py:182-194 | two key sets that agree on a paddle's two keys give that paddle the same velocity |
| `Controls.OtherKeysDoNotMatter` | pong_game.py:182-194 | pressing or releasing a key outside a player's pair leaves that player's velocity unchanged |
| `Rules.Overlaps` | pong_game.py:201 | a ball that overlaps a paddle has its centre less than 45 (5 + 40) above or below the paddle's centre |
| `Rules.FirstHit` | pong_game.py:201-205 | the hit is none iff the ball overlaps neither paddle. It is player 1 whenever player 1 is overlapped, otherwise player 2 if overlapped. A reported paddle is always overlapped |
| `Rules.Deflect` | pong_game.py:202-207 | a hit negates change_x, keeps the position, and adds 2 * (ball y - paddle y) / 40 to change_y. change_y grows iff the ball is above the paddle's centre and shrinks iff below, so a dead-centre hit leaves it unchanged. On an overlap the change is less than 2.25 in size |
| `Rules.Steer` | pong_game.py:181-194 | sets player 1's change_y from W/S and player 2's from UP/DOWN. The ball, the scores and the keys are untouched |
| `Rules.Move` | pong_game.py:196-198 | both paddles take a `PaddleStep` and end inside the court, then the ball takes a `BallStep`. Scores and keys are untouched |
| `Rules.Rebound` | pong_game.py:200-211 | with no overlapped paddle the state is unchanged. Otherwise the ball gets `Deflect` with player 1 if it overlaps player 1, else with player 2. Paddles, scores and keys are untouched |
| `Rules.Score` | pong_game.py:213-223 | with x the ball centre's x, player 2 gains exactly one point iff x < 0, and player 1 exactly one iff x > 800. The other player's score is unchanged when one scores, neither changes iff 0 <= x <= 800, and no score decreases. A scored ball is re-served, any other ball is kept, and paddles and keys are untouched |
| `Rules.Tick` | pong_game.py:178-223 | a tick keeps the held keys, the paddles' x and width, and sets each paddle's change_y from its own keys. Both paddles end inside the court. With x = ball x + change_x: x < 0 gives player 2 exactly one point and a served ball; otherwise x > 800 gives player 1 exactly one point and a served ball; otherwise neither score changes and the ball is at its moved position. Then change_x is negated when the moved ball overlaps a moved paddle, and with no overlap the ball is exactly its `BallStep` |
| `Rules.GameReset` | pong_game.py:247-255 | a game reset zeroes both scores, serves the ball, and puts both paddles at y = 300 inside the court. It keeps their x (20 and 780), change_y and width, and the held keys |
| `Rules.GameResetIdempotent` | pong_game.py:247-255 | resetting twice equals resetting once with the second draw. With the same draw it equals one reset |
| `Rules.KeyPressed` | pong_game.py:232-240 | a press adds the key to the held set. A key other than R changes nothing else. R also resets the game |
| `Rules.KeyReleased` | pong_game.py:242-245 | a release removes the key from the held set, changes nothing else, and is a no-op when the key is not held |
| `Rules.PressThenRelease` | pong_game.py:232-245 | a press followed by a release leaves the key not held and every other key as it was. For a key other than R that was not held, the state is back where it started |
| `Rules.Initial` | pong_game.py:123-143 | for a positive paddle width, the game starts with paddles at (20, 300) and (780, 300) at rest, a served ball, scores 0 and no keys held. The start is well formed |
| `Rules.StepPreservesWellformed` | pong_game.py:178-255 | a press, release or tick keeps paddles at their margins and inside the court, and keeps the ball's horizontal speed at 3 |
| `Rules.RunPreservesWellformed` | pong_game.py:178-255 | any sequence of events keeps the game well formed: paddles inside the court, and horizontal speed 3 |
| `Rules.ReachableIsWellformed` | pong_game.py:123-255 | for a positive paddle width, every state reachable from the start is well formed |
| `Rules.RunScoresGrowByAtMostOnePerFrame` | pong_game.py:213-223 | with no reset key pressed, neither score decreases, and the two scores together grow by at most the number of ticks |
| `Game.PongGame.constructor` | pong_game.py:99-143 | for a positive paddle width, the new game is `Initial`, and its two paddles are distinct objects |
| `Game.PongGame.OnUpdate` | pong_game.py:178-223 | the in-place update leaves the game in the state `Tick` gives for its old state and draw |
| `Game.PongGame.SteerPaddles` | pong_game.py:181-194 | sets both paddles' change_y from the held keys and changes nothing else |
| `Game.PongGame.CheckPaddleHit` | pong_game.py:200-211 | applies `Deflect` with the first paddle hit and changes nothing else. With no hit, nothing changes |
| `Game.PongGame.CheckScore` | pong_game.py:213-223 | scores the ball per the two edge tests and re-serves it, or changes nothing |
| `Game.PongGame.ResetBall` | pong_game.py:225-230 | the ball becomes the served ball for the draw. Nothing else changes |
| `Game.PongGame.OnKeyPress` | pong_game.py:232-240 | the game becomes `KeyPressed` of its old state |
| `Game.PongGame.OnKeyRelease` | pong_game.py:242-245 | the game becomes `KeyReleased` of its old state |
| `Game.PongGame.ResetGame` | pong_game.py:247-255 | the game becomes `GameReset` of its old state |

## Left out

- Rendering: `on_draw`, the textures, colours, the centre line and the score and help text are presentation only.
- Sound: loading the two sounds (and the fallback when they are missing) and `arcade.play_sound` are I/O on external assets. The model emits no hit or score cue.
- Window lifecycle: `arcade.Window`, `set_background_color`, `arcade.run`, `main`, and ESC closing the window are platform plumbing. ESC is still recorded in the held-key set.
- Rules.Overlaps: a strict overlap of axis-aligned rectangles. It does not model Arcade's own hit-box geometry in `check_for_collision_with_list`.
- Sprites.Paddle.constructor: the paddle's width is a parameter, positive for the game's two paddles. The source's uniform `scale` of a 15-pixel texture sets the real sprite width inside Arcade, which is not part of this model. The height 80 is fixed.
- The `SpriteList` containers are not modelled. The two paddles and the ball are fields, and the list order (player 1 before player 2) decides the first hit.
- `random.choice` is an injected `Serve` draw, not a generator.
- Python floating-point rounding (in `80 / 15` and in the deflection term) is not modelled. Arithmetic is exact over reals.
- `delta_time` and the key handlers' `modifiers` argument are ignored, as in the source. Motion is per tick.
