/** The `GameEngine` class: it owns the two paddles, the ball and the
    scores, and changes them in place, one step after another, exactly as
    the functions of module Rules prescribe. */
module Engine {
  import opened Geometry
  import opened Entities
  import Rules

  class GameEngine {
    const width: int
    const height: int
    const paddleWidth: int
    const paddleHeight: int
    const player: Paddle
    const ai: Paddle
    const ball: Ball
    var playerScore: nat
    var aiScore: nat

    /** The objects are wired up as the constructor left them: two distinct
        10x100 paddles at x = 10 and x = width - 20, a 7x7 ball that knows
        the field size. */
    ghost predicate Valid() {
      player != ai &&
      paddleWidth == Rules.PaddleWidth && paddleHeight == Rules.PaddleHeight &&
      player.x == Rules.PlayerX && ai.x == Rules.AiX(width) &&
      player.width == ai.width == paddleWidth &&
      player.height == ai.height == paddleHeight &&
      ball.width == ball.height == Rules.BallSize &&
      ball.screenWidth == width && ball.screenHeight == height
    }

    /** The engine's state as a value. */
    ghost function State(): Rules.State
      reads this, player, ai, ball
    {
      Rules.State(width, height, player.y, ai.y,
                  BallValue(), playerScore, aiScore)
    }

    /** The ball's position and velocity as a value. */
    ghost function BallValue(): Rules.BallState
      reads ball
    {
      Rules.BallState(ball.x, ball.y, ball.vx, ball.vy)
    }

    /** `GameEngine(width, height)`; (serveVx, serveVy) is the ball's
        initial velocity, which the ball's constructor chooses. */
    constructor (width: int, height: int, serveVx: int, serveVy: int)
      ensures Valid() && fresh(player) && fresh(ai) && fresh(ball)
      ensures State() == Rules.Initial(width, height, serveVx, serveVy)
    {
      this.width, this.height := width, height;
      paddleWidth, paddleHeight := Rules.PaddleWidth, Rules.PaddleHeight;
      player := new Paddle(Rules.PlayerX, Rules.PaddleStart(height), Rules.PaddleWidth, Rules.PaddleHeight);
      ai := new Paddle(Rules.AiX(width), Rules.PaddleStart(height), Rules.PaddleWidth, Rules.PaddleHeight);
      ball := new Ball(width / 2, height / 2, Rules.BallSize, Rules.BallSize, width, height, serveVx, serveVy);
      playerScore, aiScore := 0, 0;
    }

    /** `handle_input`, with the W and S key states as booleans. */
    method HandleInput(upKey: bool, downKey: bool)
      requires Valid()
      modifies player
      ensures State() == Rules.HandleInput(old(State()), upKey, downKey)
    {
      if upKey {
        player.Move(-Rules.PaddleStep, height);
      }
      if downKey {
        player.Move(Rules.PaddleStep, height);
      }
    }

    /** `update`: one tick. Both paddle tests use the one snapshot of the
        ball taken right after it moved. `aiDelta` is the displacement the
        AI's `auto_track` picks. */
    method Update(aiDelta: int)
      requires Valid()
      modifies ball, ai, this
      ensures State() == Rules.Tick(old(State()), aiDelta)
    {
      ghost var s := State();
      ball.Move();
      var ballRect := ball.Rect();
      assert ballRect == Rules.BallRect(Rules.MoveBall(s.ball));
      BounceOffPlayer(ballRect);
      BounceOffAi(ballRect);
      BounceOffWalls();
      assert BallValue() == Rules.Resolved(s);
      ScorePoint();
      ai.AutoTrack(aiDelta, height);
    }

    /** Player-paddle step of `update`: changes at most the ball's x and vx. */
    method BounceOffPlayer(ballRect: Rect)
      requires Valid()
      modifies ball
      ensures BallValue() == Rules.PlayerBounce(old(BallValue()), ballRect, player.Rect())
    {
      var playerRect := player.Rect();
      if Collide(ballRect, playerRect) && ball.vx < 0 {
        ball.vx := Abs(ball.vx);
        ball.x := playerRect.x + playerRect.w;
      }
    }

    /** AI-paddle step of `update`: changes at most the ball's x and vx. */
    method BounceOffAi(ballRect: Rect)
      requires Valid()
      modifies ball
      ensures BallValue() == Rules.AiBounce(old(BallValue()), ballRect, ai.Rect())
    {
      var aiRect := ai.Rect();
      if Collide(ballRect, aiRect) && ball.vx > 0 {
        ball.vx := -Abs(ball.vx);
        ball.x := aiRect.x - ball.width;
      }
    }

    /** Top/bottom wall step of `update`: changes at most the ball's y and vy. */
    method BounceOffWalls()
      requires Valid()
      modifies ball
      ensures BallValue() == Rules.WallBounce(old(BallValue()), height)
    {
      if ball.y <= 0 {
        ball.y := 0;
        ball.vy := Abs(ball.vy);
      } else if ball.y + ball.height >= height {
        ball.y := height - ball.height;
        ball.vy := -Abs(ball.vy);
      }
    }

    /** Left/right wall step of `update`: at most one point, and the ball is
        reset only when a point is scored. */
    method ScorePoint()
      requires Valid()
      modifies this, ball
      ensures var b, point := old(BallValue()), Rules.PointScored(old(BallValue()), width);
        playerScore == (if point == Rules.PlayerPoint then old(playerScore) + 1 else old(playerScore)) &&
        aiScore == (if point == Rules.AiPoint then old(aiScore) + 1 else old(aiScore)) &&
        BallValue() == (if point == Rules.NoPoint then b else Rules.ResetBall(b, width, height))
    {
      if ball.x <= 0 {
        aiScore := aiScore + 1;
        ball.Reset();
      } else if ball.x + ball.width >= width {
        playerScore := playerScore + 1;
        ball.Reset();
      }
    }

    /** The decision of `check_game_over`; on Over the source shows the winner
        and ends the process, which is not modelled. */
    method CheckGameOver() returns (d: Rules.Decision)
      ensures d == Rules.GameDecision(playerScore, aiScore)
      ensures d == Rules.Continue <==> playerScore < Rules.WinningScore && aiScore < Rules.WinningScore
    {
      d := Rules.GameDecision(playerScore, aiScore);
    }
  }
}
