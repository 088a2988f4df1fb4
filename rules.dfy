/** The game rules of `GameEngine` stated on values: one tick of `update`
    broken into its steps, the keyboard step of `handle_input`, and the
    winner decision of `check_game_over`. The engine class is proved to
    follow these functions; the lemmas here state what they guarantee. */
module Rules {
  import opened Geometry

  const PaddleWidth := 10
  const PaddleHeight := 100
  const BallSize := 7
  /** The player paddle's fixed left edge. */
  const PlayerX := 10
  /** How far one held key moves the player paddle per frame. */
  const PaddleStep := 10
  /** The score that ends the game. */
  const WinningScore := 5
  const PlayerWins := "Player Wins!"
  const AiWins := "AI Wins!"

  /** Ball position (top-left corner) and velocity. */
  datatype BallState = BallState(x: int, y: int, vx: int, vy: int)

  /** Everything `update` and `handle_input` read or change: the field size,
      the two paddles' y (their x is fixed), the ball and the scores. */
  datatype State = State(width: int, height: int, playerY: int, aiY: int,
                         ball: BallState, playerScore: nat, aiScore: nat)

  /** The AI paddle's fixed left edge. */
  function AiX(width: int): int { width - 20 }

  /** Where both paddles start: vertically centred (`height // 2 - 50`). */
  function PaddleStart(height: int): int { height / 2 - PaddleHeight / 2 }

  /** The player paddle lies inside the field vertically. */
  predicate PlayerInField(s: State) {
    0 <= s.playerY <= s.height - PaddleHeight
  }

  /** Both paddles lie inside the field vertically. */
  predicate PaddlesInField(s: State) {
    PlayerInField(s) && 0 <= s.aiY <= s.height - PaddleHeight
  }

  /** The state `GameEngine(width, height)` builds; (vx, vy) is the ball's
      serve velocity, chosen by the ball's own constructor. */
  function Initial(width: int, height: int, vx: int, vy: int): (s: State)
    ensures s.width == width && s.height == height
    ensures s.playerScore == 0 && s.aiScore == 0
    ensures s.playerY == s.aiY == height / 2 - 50
    ensures 2 * s.ball.x <= width < 2 * s.ball.x + 2 && 2 * s.ball.y <= height < 2 * s.ball.y + 2
    ensures s.ball.vx == vx && s.ball.vy == vy
    ensures height >= PaddleHeight ==> PaddlesInField(s)
    ensures GameDecision(s.playerScore, s.aiScore) == Continue
  {
    State(width, height, PaddleStart(height), PaddleStart(height),
          BallState(width / 2, height / 2, vx, vy), 0, 0)
  }

  function BallRect(b: BallState): Rect { Rect(b.x, b.y, BallSize, BallSize) }
  function PlayerRect(s: State): Rect { Rect(PlayerX, s.playerY, PaddleWidth, PaddleHeight) }
  function AiRect(s: State): Rect { Rect(AiX(s.width), s.aiY, PaddleWidth, PaddleHeight) }

  // ---------------------------------------------------------------- input

  /** One paddle move of `Paddle.move(dy, height)`: inside a field that can
      hold the paddle it ends inside; from an in-field start it moves in the
      direction of dy by at most |dy|, and by exactly dy when that stays inside. */
  function MovePaddle(y: int, dy: int, height: int): (r: int)
    ensures height >= PaddleHeight ==> 0 <= r <= height - PaddleHeight
    ensures 0 <= y + dy <= height - PaddleHeight ==> r == y + dy
    ensures 0 <= y <= height - PaddleHeight && dy >= 0 ==> y <= r <= y + dy
    ensures 0 <= y <= height - PaddleHeight && dy <= 0 ==> y + dy <= r <= y
  {
    Clamp(y + dy, 0, height - PaddleHeight)
  }

  /** `handle_input`: W moves the player paddle up by 10, then S moves it down
      by 10; each move is clamped to the field. */
  function HandleInput(s: State, upKey: bool, downKey: bool): (r: State)
    ensures r == s.(playerY := r.playerY)
    ensures !upKey && !downKey ==> r == s
    ensures s.height >= PaddleHeight && (upKey || downKey || PlayerInField(s)) ==> PlayerInField(r)
    ensures PlayerInField(s) ==> s.playerY - PaddleStep <= r.playerY <= s.playerY + PaddleStep
    ensures PlayerInField(s) && upKey && !downKey ==> r.playerY <= s.playerY
    ensures PlayerInField(s) && downKey && !upKey ==> r.playerY >= s.playerY
    ensures PlayerInField(s) && r.playerY < s.playerY ==> upKey && !downKey
    ensures PlayerInField(s) && r.playerY > s.playerY ==> downKey
  {
    var afterUp := if upKey then MovePaddle(s.playerY, -PaddleStep, s.height) else s.playerY;
    var afterDown := if downKey then MovePaddle(afterUp, PaddleStep, s.height) else afterUp;
    s.(playerY := afterDown)
  }

  // ---------------------------------------------------------------- tick steps

  /** `Ball.move()`: the displacement is the velocity, which is kept. */
  function MoveBall(b: BallState): (r: BallState)
    ensures r.vx == b.vx && r.vy == b.vy
    ensures r.x - b.x == b.vx && r.y - b.y == b.vy
  {
    b.(x := b.x + b.vx, y := b.y + b.vy)
  }

  /** Player-paddle bounce. It fires only when the snapshot of the ball taken
      after moving overlaps the paddle while the ball travels left; then the
      ball travels right with the same speed and sits flush against the
      paddle's right edge, clear of it. It touches only x and vx. */
  function PlayerBounce(b: BallState, snapshot: Rect, paddle: Rect): (r: BallState)
    ensures r.y == b.y && r.vy == b.vy
    ensures Abs(r.vx) == Abs(b.vx)
    ensures r != b ==> Collide(snapshot, paddle) && b.vx < 0
    ensures b.vx >= 0 ==> r == b
    ensures Collide(snapshot, paddle) && b.vx < 0 ==>
              r.vx > 0 && r.vx == -b.vx && r.x == paddle.x + paddle.w &&
              !Collide(BallRect(r), paddle)
  {
    if Collide(snapshot, paddle) && b.vx < 0 then
      b.(vx := Abs(b.vx), x := paddle.x + paddle.w)
    else
      b
  }

  /** AI-paddle bounce, the mirror image: fires only on overlap while the
      ball travels right; the ball then travels left and sits flush against
      the paddle's left edge. It touches only x and vx. */
  function AiBounce(b: BallState, snapshot: Rect, paddle: Rect): (r: BallState)
    ensures r.y == b.y && r.vy == b.vy
    ensures Abs(r.vx) == Abs(b.vx)
    ensures r != b ==> Collide(snapshot, paddle) && b.vx > 0
    ensures b.vx <= 0 ==> r == b
    ensures Collide(snapshot, paddle) && b.vx > 0 ==>
              r.vx < 0 && r.vx == -b.vx && r.x == paddle.x - BallSize &&
              !Collide(BallRect(r), paddle)
  {
    if Collide(snapshot, paddle) && b.vx > 0 then
      b.(vx := -Abs(b.vx), x := paddle.x - BallSize)
    else
      b
  }

  /** Top/bottom wall bounce with clamping. The top test wins when both
      apply. Afterwards the ball is inside the field vertically (when the
      field can hold it). It touches only y and vy, and keeps the speed. */
  function WallBounce(b: BallState, height: int): (r: BallState)
    ensures r.x == b.x && r.vx == b.vx
    ensures Abs(r.vy) == Abs(b.vy)
    ensures height >= BallSize ==> 0 <= r.y <= height - BallSize
    ensures b.y <= 0 ==> r.y == 0 && r.vy == Abs(b.vy)
    ensures 0 < b.y && height <= b.y + BallSize ==> r.y == height - BallSize && r.vy == -Abs(b.vy)
    ensures 0 < b.y && b.y + BallSize < height ==> r == b
  {
    if b.y <= 0 then
      b.(y := 0, vy := Abs(b.vy))
    else if b.y + BallSize >= height then
      b.(y := height - BallSize, vy := -Abs(b.vy))
    else
      b
  }

  /** The ball after moving, both paddle bounces (each tested against the
      same snapshot of the moved ball) and the wall step. */
  function Resolved(s: State): (r: BallState)
    ensures Abs(r.vx) == Abs(s.ball.vx) && Abs(r.vy) == Abs(s.ball.vy)
    ensures s.height >= BallSize ==> 0 <= r.y <= s.height - BallSize
  {
    var moved := MoveBall(s.ball);
    var snapshot := BallRect(moved);
    var afterPlayer := PlayerBounce(moved, snapshot, PlayerRect(s));
    var afterAi := AiBounce(afterPlayer, snapshot, AiRect(s));
    WallBounce(afterAi, s.height)
  }

  /** Which side, if any, wins a point this tick: the left wall first. */
  datatype Point = AiPoint | PlayerPoint | NoPoint

  function PointScored(b: BallState, width: int): (r: Point)
    ensures r == AiPoint <==> b.x <= 0
    ensures r == PlayerPoint <==> 0 < b.x && width <= b.x + BallSize
    ensures r == NoPoint <==> 0 < b.x && b.x + BallSize < width
  {
    if b.x <= 0 then AiPoint
    else if b.x + BallSize >= width then PlayerPoint
    else NoPoint
  }

  /** `Ball.reset()`: the centre of the field (rounded down), velocity kept. */
  function ResetBall(b: BallState, width: int, height: int): (r: BallState)
    ensures r.vx == b.vx && r.vy == b.vy
    ensures 2 * r.x <= width < 2 * r.x + 2 && 2 * r.y <= height < 2 * r.y + 2
  {
    b.(x := width / 2, y := height / 2)
  }

  /** One call of `update`; `aiDelta` is the displacement `auto_track` picks.
      Scoring has exactly one of three outcomes: the AI scores exactly when
      the resolved ball reaches the left wall, the player exactly when it
      reaches the right wall otherwise, and the ball is reset only on a
      point. So no score falls and the two never rise together. Velocities
      change sign only. The field and the player paddle are kept, the AI
      paddle stays inside a field that can hold it, and the ball ends inside
      vertically when the field is tall enough for the centre to hold it. */
  function Tick(s: State, aiDelta: int): (r: State)
    ensures var b := Resolved(s);
      (b.x <= 0 &&
         r.aiScore == s.aiScore + 1 && r.playerScore == s.playerScore &&
         r.ball == ResetBall(b, s.width, s.height)) ||
      (0 < b.x && s.width <= b.x + BallSize &&
         r.playerScore == s.playerScore + 1 && r.aiScore == s.aiScore &&
         r.ball == ResetBall(b, s.width, s.height)) ||
      (0 < b.x && b.x + BallSize < s.width &&
         r.playerScore == s.playerScore && r.aiScore == s.aiScore && r.ball == b)
    ensures r.playerScore >= s.playerScore && r.aiScore >= s.aiScore
    ensures r.playerScore + r.aiScore <= s.playerScore + s.aiScore + 1
    ensures Abs(r.ball.vx) == Abs(s.ball.vx) && Abs(r.ball.vy) == Abs(s.ball.vy)
    ensures r.width == s.width && r.height == s.height && r.playerY == s.playerY
    ensures s.height >= PaddleHeight ==> 0 <= r.aiY <= s.height - PaddleHeight
    ensures s.height >= 2 * BallSize - 1 ==> 0 <= r.ball.y <= s.height - BallSize
  {
    var b := Resolved(s);
    var point := PointScored(b, s.width);
    s.(ball := if point == NoPoint then b else ResetBall(b, s.width, s.height),
       playerScore := if point == PlayerPoint then s.playerScore + 1 else s.playerScore,
       aiScore := if point == AiPoint then s.aiScore + 1 else s.aiScore,
       aiY := MovePaddle(s.aiY, aiDelta, s.height))
  }

  // ---------------------------------------------------------------- game over

  /** The answer of `check_game_over`: go on, or the game ends with a winner. */
  datatype Decision = Continue | Over(winner: string)

  /** The game goes on exactly while both scores are below 5; the player is
      tested first, so the player wins whenever the player has 5. */
  function GameDecision(playerScore: int, aiScore: int): (r: Decision)
    ensures r == Continue <==> playerScore < WinningScore && aiScore < WinningScore
    ensures playerScore >= WinningScore ==> r == Over(PlayerWins)
    ensures playerScore < WinningScore <= aiScore ==> r == Over(AiWins)
  {
    if playerScore >= WinningScore then Over(PlayerWins)
    else if aiScore >= WinningScore then Over(AiWins)
    else Continue
  }

  // ---------------------------------------------------------------- the decision after a tick

  /** Checking after every tick, the two sides never reach 5 together: when
      the game was going on, the decision after the tick names the side whose
      score just rose, and the other side is still below 5. */
  lemma NoTieAfterTick(s: State, aiDelta: int)
    requires GameDecision(s.playerScore, s.aiScore) == Continue
    ensures var r := Tick(s, aiDelta);
      !(r.playerScore >= WinningScore && r.aiScore >= WinningScore) &&
      (GameDecision(r.playerScore, r.aiScore) == Over(PlayerWins) ==>
         r.playerScore == WinningScore && r.aiScore < WinningScore) &&
      (GameDecision(r.playerScore, r.aiScore) == Over(AiWins) ==>
         r.aiScore == WinningScore && r.playerScore < WinningScore)
  {
  }

  // ---------------------------------------------------------------- many frames

  /** One frame as the host drives it: keyboard input, then one tick. */
  datatype Frame = Frame(upKey: bool, downKey: bool, aiDelta: int)

  function Step(s: State, f: Frame): State {
    Tick(HandleInput(s, f.upKey, f.downKey), f.aiDelta)
  }

  function Run(s: State, frames: seq<Frame>): State
    decreases |frames|
  {
    if frames == [] then s else Run(Step(s, frames[0]), frames[1..])
  }

  /** Over any number of frames scores never fall, and together they rise
      by at most one per frame. */
  lemma {:induction false} RunScores(s: State, frames: seq<Frame>)
    ensures var r := Run(s, frames);
      r.playerScore >= s.playerScore && r.aiScore >= s.aiScore &&
      r.playerScore + r.aiScore <= s.playerScore + s.aiScore + |frames|
    decreases |frames|
  {
    if frames != [] {
      RunScores(Step(s, frames[0]), frames[1..]);
    }
  }

  /** Over any number of frames the ball keeps its speed on each axis. */
  lemma {:induction false} RunKeepsSpeed(s: State, frames: seq<Frame>)
    ensures Abs(Run(s, frames).ball.vx) == Abs(s.ball.vx)
    ensures Abs(Run(s, frames).ball.vy) == Abs(s.ball.vy)
    decreases |frames|
  {
    if frames != [] {
      RunKeepsSpeed(Step(s, frames[0]), frames[1..]);
    }
  }

  /** Over any number of frames both paddles stay inside the field and the
      field keeps its size. */
  lemma {:induction false} RunKeepsPaddles(s: State, frames: seq<Frame>)
    requires s.height >= PaddleHeight && PaddlesInField(s)
    ensures Run(s, frames).width == s.width && Run(s, frames).height == s.height
    ensures PaddlesInField(Run(s, frames))
    decreases |frames|
  {
    if frames != [] {
      RunKeepsPaddles(Step(s, frames[0]), frames[1..]);
    }
  }

  // ---------------------------------------------------------------- worked examples

  /** On an 800x400 field a ball at (798, 200) moving right by 5 passes the
      right edge: the player scores and the ball goes back to (400, 200). */
  lemma RightWallScenario(vy: int, aiDelta: int)
    ensures var s := Initial(800, 400, 5, vy).(ball := BallState(798, 200, 5, vy));
      var r := Tick(s, aiDelta);
      r.playerScore == 1 && r.aiScore == 0 &&
      r.ball.x == 400 && r.ball.y == 200
  {
  }

  /** A ball above the top wall (y = -3, vy = -4) is clamped to y = 0 and
      bounces down with vy = 4. */
  lemma TopWallScenario(x: int, vx: int, height: int)
    ensures WallBounce(BallState(x, -3, vx, -4), height) == BallState(x, 0, vx, 4)
  {
  }
}
