# Pong game engine — verified model

This project models the per-frame logic of the Pong clone's `GameEngine`
(`game/game_engine.py`). The engine owns two paddles (the human player on
the left, the AI on the right), a ball and two scores. Its methods are:

- construction: both paddles start vertically centred and the ball starts at
  the field centre;
- `handle_input`: the W and S keys move the player paddle by 10;
- `update`: one game tick. It moves the ball, bounces it off each paddle,
  bounces it off the top and bottom walls, scores a point at the left or
  right wall and resets the ball, then lets the AI paddle track;
- `check_game_over`: decides whether someone has reached 5 points.

Layout:

- `geometry.dfy` (module `Geometry`): integer rectangles, pygame's
  `colliderect` as strict overlap, `abs`, and clamping.
- `entities.dfy` (module `Entities`): the `Paddle` and `Ball` classes. Their
  source (`game/paddle.py`, `game/ball.py`) is not part of this model. Each
  of their methods states an ASSUMED contract: move-and-clamp, move by the
  velocity, reset to the field centre with the velocity kept.
- `rules.dfy` (module `Rules`): the rules as values. It has one function per
  tick step, `Tick` for the whole of `update`, `HandleInput`, and
  `GameDecision` for `check_game_over`. The functions' contracts state
  what each step and each tick guarantees. The lemmas cover the decision
  after a tick and runs of many frames.
- `engine.dfy` (module `Engine`): the `GameEngine` class. It updates its
  objects in place, step by step, in the source's order. Each method is
  proved to leave the state that the `Rules` function prescribes.

The order inside `update` is kept. The ball's rectangle is taken once,
right after the ball moves. Both paddle tests use that snapshot, even after
the player bounce has moved the ball.

Python's `//` by 2 is floor division. Dafny's `/` by a positive divisor is
also floor division, so `width / 2` and `height / 2` match the source for
every integer. Python integers are unbounded, like Dafny's `int`, so there
is no wrap-around to model.

## Model

| member | source | states |
|---|---|---|
| `Geometry.CollideIffCommonPoint` | game/game_engine.py:40 | Strict rectangle overlap (the model of `colliderect`) holds exactly when some pixel lies inside both rectangles, for rectangles of positive size |
| `Geometry.Collide` | game/game_engine.py:40-46 | The model of `colliderect`: rectangles whose edges only touch do not collide, and a rectangle of positive size whose top-left pixel lies inside the other does collide |
| `Geometry.Abs` | game/game_engine.py:41-56 | Python's `abs`: the result is non-negative and equals v or -v |
| `Geometry.Clamp` | game/game_engine.py:27-29 | The clamp assumed inside `Paddle.move`: the result lies in [lo, hi], values already inside are kept, values below go to lo and values above go to hi |
| `Entities.Paddle.constructor` | game/game_engine.py:16-17 | A paddle has the position and size it was built with |
| `Entities.Paddle.Rect` | game/game_engine.py:39-45 | Assumed `rect()`: the rectangle has the paddle's top-left corner (x, y) and its width and height |
| `Entities.Paddle.Move` | game/game_engine.py:27-29 | Assumed `move(dy, h)`: y becomes old y + dy, clamped into [0, h - height] |
| `Entities.Paddle.AutoTrack` | game/game_engine.py:67 | Assumed `auto_track`: the paddle moves by a displacement the unmodelled policy picks, clamped. It ends inside [0, h - height] when the field can hold it |
| `Entities.Ball.constructor` | game/game_engine.py:18 | A ball has the position, size, field size and velocity it was built with |
| `Entities.Ball.Rect` | game/game_engine.py:36 | Assumed `rect()`: the rectangle has the ball's top-left corner (x, y) and its width and height |
| `Entities.Ball.Move` | game/game_engine.py:35 | Assumed `move()`: the position advances by (vx, vy) and the velocity is kept |
| `Entities.Ball.Reset` | game/game_engine.py:61-64 | Assumed `reset()`: the position becomes (screen width // 2, screen height // 2) and the velocity is kept |
| `Rules.Initial` | game/game_engine.py:10-21 | After construction: both scores are 0, both paddles are at y = height // 2 - 50, and the ball is at the centre (rounded down) with the serve velocity. The paddles are inside a field of height >= 100, and the game is not over. (The paddles' x positions, 10 and width - 20, are fixed for every state by `PlayerRect` and `AiRect`.) |
| `Rules.MovePaddle` | game/game_engine.py:27-29 | One clamped paddle move: the paddle ends inside a field that can hold it. A target inside the field is reached exactly. From an in-field start it moves in the direction of dy, by at most abs(dy) |
| `Rules.HandleInput` | game/game_engine.py:24-29 | Only the player paddle's y changes, and with no key nothing changes. After a key press it lies inside the field. From an in-field start it moves by at most 10; with W alone it never moves down and with S alone it never moves up; it moves up only when W alone is held, and moves down only when S is held (W and S together can push a paddle near the top down to y = 10) |
| `Rules.MoveBall` | game/game_engine.py:35 | The ball's displacement equals its velocity, and the velocity is kept |
| `Rules.PlayerBounce` | game/game_engine.py:39-42 | The bounce fires only when the snapshot overlaps the player paddle and vx < 0. With vx >= 0 nothing changes. When it fires, vx becomes -vx (positive), x becomes paddle x + width, and the ball no longer overlaps the paddle. y, vy and the speed are kept |
| `Rules.AiBounce` | game/game_engine.py:45-48 | The bounce fires only on overlap with vx > 0. With vx <= 0 nothing changes. When it fires, vx becomes -vx (negative), x becomes paddle x - 7, and there is no overlap afterwards. y, vy and the speed are kept |
| `Rules.WallBounce` | game/game_engine.py:51-56 | Only y and vy change, and the speed is kept. With y <= 0: y becomes 0 and vy becomes abs(vy). Otherwise, with y + 7 >= height: y becomes height - 7 and vy becomes -abs(vy). Otherwise nothing changes. Afterwards 0 <= y <= height - 7 when height >= 7 |
| `Rules.Resolved` | game/game_engine.py:35-56 | After moving, both paddle bounces on one snapshot and the wall step, the speed on each axis is kept and the ball is inside the field vertically |
| `Rules.PointScored` | game/game_engine.py:59-64 | The AI scores exactly when x <= 0. The player scores exactly when 0 < x and x + 7 >= width. There is no point exactly when the ball lies strictly between the side walls |
| `Rules.ResetBall` | game/game_engine.py:61-64 | The reset ball is at the field centre, rounded down on each axis, and keeps its velocity |
| `Rules.Tick` | game/game_engine.py:33-67 | Each tick has exactly one of three outcomes. The AI gains 1 when the resolved ball's x <= 0. Otherwise the player gains 1 when x + 7 >= width. Otherwise nothing is scored. The ball is reset only on a point, so no score falls and the two never rise together. Velocity signs may flip, their sizes never change. The field and the player paddle are kept. The AI paddle ends inside a field of height >= 100. The ball ends with 0 <= y <= height - 7 when height >= 13 |
| `Rules.GameDecision` | game/game_engine.py:84-90 | The game goes on exactly when both scores are below 5. With player score >= 5 the player wins, even if the AI also has 5. Otherwise the AI wins |
| `Rules.NoTieAfterTick` | game/game_engine.py:84-90 | If the game was going on before a tick, the two sides cannot both have 5 after it. The winner named is the side that has just reached exactly 5 |
| `Rules.RunScores` | game/game_engine.py:59-64 | Over any sequence of frames, no score falls and the total rises by at most one per frame |
| `Rules.RunKeepsSpeed` | game/game_engine.py:33-67 | Over any sequence of frames, the ball's speed on each axis is kept |
| `Rules.RunKeepsPaddles` | game/game_engine.py:24-67 | Over any sequence of frames, the field size is kept and both paddles stay inside it |
| `Rules.RightWallScenario` | game/game_engine.py:59-64 | On an 800x400 field, a ball at (798, 200) with vx = 5 gives the player one point, leaves the AI's score at 0, and resets the ball to (400, 200), for every vy |
| `Rules.TopWallScenario` | game/game_engine.py:51-53 | A ball with y = -3 and vy = -4 ends at y = 0 with vy = 4, at every field height (the top test wins even where both walls apply) |
| `Engine.GameEngine.constructor` | game/game_engine.py:10-21 | The new engine's state is `Rules.Initial`: 10x100 paddles at x = 10 and x = width - 20, a 7x7 ball at the centre, and scores 0 |
| `Engine.GameEngine.HandleInput` | game/game_engine.py:24-29 | W then S, each through `Paddle.Move`. The new state is `Rules.HandleInput` of the old one |
| `Engine.GameEngine.Update` | game/game_engine.py:33-67 | The steps run in place, in order, with one ball snapshot. The new state is `Rules.Tick` of the old one |
| `Engine.GameEngine.BounceOffPlayer` | game/game_engine.py:39-42 | The ball's new value is `Rules.PlayerBounce` of its old value. Nothing but the ball may change |
| `Engine.GameEngine.BounceOffAi` | game/game_engine.py:45-48 | The ball's new value is `Rules.AiBounce` of its old value. Nothing but the ball may change |
| `Engine.GameEngine.BounceOffWalls` | game/game_engine.py:51-56 | The ball's new value is `Rules.WallBounce` of its old value. Nothing but the ball may change |
| `Engine.GameEngine.ScorePoint` | game/game_engine.py:59-64 | At most one score rises by 1, the left wall first. The ball is reset exactly when a point is scored |
| `Engine.GameEngine.CheckGameOver` | game/game_engine.py:84-90 | Returns `Rules.GameDecision` of the two scores. The result is "go on" exactly when both scores are below 5 |

## Left out

- `render` (drawing paddles, ball, centre line and scores) is display output.
- Font creation is library state with no logic.
- The display side of `check_game_over` is left out: the winner banner, the display flip, the 3-second delay, `pygame.quit()` and `exit()`. The model returns `Over(winner)` where the source shows the winner and ends the process. The final `return True` is never reached in the source.
- `pygame.key.get_pressed()` is left out. The W and S key states are boolean parameters.
- `game/paddle.py` and `game/ball.py` are not part of this model. The paddle and ball methods carry assumed contracts, and their bodies are the simplest code meeting them.
- Entities.Paddle.AutoTrack: this contract is weaker than the real tracking policy. The policy (step size, direction toward the ball) lives in game/paddle.py, outside this model, so the model takes the AI's displacement as a parameter (`aiDelta`). It fixes only that the move is clamped into the field.
- The ball's initial velocity is chosen by the `Ball` constructor in game/ball.py, outside this model. The engine constructor takes it as parameters.
- The host loop is not part of this model. `Rules.Run` assumes that each frame does input, then one tick.
- The best-of-N target score, the replay menu and the reset between matches are left out. game/game_engine.py has none of them, only a fixed target of 5 and process exit.
