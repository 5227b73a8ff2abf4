/**
 * The game window's state and event handlers, changing the paddles, the ball,
 * the scores and the held-key set in place; each handler is proved to do what
 * the matching function of `Rules` says.
 */
module Game {
  import opened Config
  import opened Sprites
  import opened Controls
  import opened Rules

  class PongGame {
    const player1: Paddle
    const player2: Paddle
    const ball: Ball
    var player1Score: nat
    var player2Score: nat
    var keysPressed: set<Key>

    /** The two paddles are different sprites, so moving one never moves the other. */
    ghost predicate Valid()
      reads this
    {
      player1 != player2
    }

    function State(): GameState
      reads this, player1, player2, ball
    {
      GameState(player1.State(), player2.State(), ball.State(), player1Score, player2Score, keysPressed)
    }

    /** `__init__` followed by `setup`: blue paddle on the left, red on the right, a first serve. */
    constructor (paddleWidth: real, serve: Serve)
      requires paddleWidth > 0.0
      ensures Valid()
      ensures State() == Initial(paddleWidth, serve)
      ensures fresh(player1) && fresh(player2) && fresh(ball)
    {
      var p1 := new Paddle(paddleWidth);
      p1.centerX := LeftPaddleX;
      p1.centerY := CenterY;
      var p2 := new Paddle(paddleWidth);
      p2.centerX := RightPaddleX;
      p2.centerY := CenterY;
      var b := new Ball(serve);
      player1, player2, ball := p1, p2, b;
      player1Score, player2Score := 0, 0;
      keysPressed := {};
    }

    method OnUpdate(serve: Serve)
      requires Valid()
      modifies this, player1, player2, ball
      ensures Valid()
      ensures State() == Tick(old(State()), serve)
    {
      SteerPaddles();
      player1.Update();
      player2.Update();
      ball.Update();
      CheckPaddleHit();
      CheckScore(serve);
    }

    /** The held-key handling at the start of `on_update`. */
    method SteerPaddles()
      requires Valid()
      modifies player1, player2
      ensures State() == Steer(old(State()))
    {
      if W in keysPressed {
        player1.changeY := PaddleSpeed;
      } else if S in keysPressed {
        player1.changeY := -PaddleSpeed;
      } else {
        player1.changeY := 0.0;
      }

      if Up in keysPressed {
        player2.changeY := PaddleSpeed;
      } else if Down in keysPressed {
        player2.changeY := -PaddleSpeed;
      } else {
        player2.changeY := 0.0;
      }
    }

    /** The paddle-collision check of `on_update`. */
    method CheckPaddleHit()
      modifies ball
      ensures State() == Rebound(old(State()))
    {
      var hit := FirstHit(ball.State(), player1.State(), player2.State());
      if hit.Some? {
        ball.changeX := ball.changeX * -1.0;
        var paddle := hit.value;
        var hitPos := (ball.centerY - paddle.centerY) / PaddleHalfHeight;
        ball.changeY := ball.changeY + hitPos * 2.0;
      }
    }

    /** The scoring check at the end of `on_update`. */
    method CheckScore(serve: Serve)
      modifies this, ball
      ensures State() == Score(old(State()), serve)
    {
      if ball.centerX < 0.0 {
        player2Score := player2Score + 1;
        ResetBall(serve);
      } else if ball.centerX > CourtRight {
        player1Score := player1Score + 1;
        ResetBall(serve);
      }
    }

    method ResetBall(serve: Serve)
      modifies ball
      ensures State() == old(State()).(ball := Served(serve))
    {
      ball.centerX := CenterX;
      ball.centerY := CenterY;
      ball.changeX := Pick(serve.x);
      ball.changeY := Pick(serve.y);
    }

    method OnKeyPress(key: Key, serve: Serve)
      requires Valid()
      modifies this, player1, player2, ball
      ensures Valid()
      ensures State() == KeyPressed(old(State()), key, serve)
    {
      keysPressed := keysPressed + {key};
      if key == R {
        ResetGame(serve);
      }
    }

    method OnKeyRelease(key: Key)
      modifies this
      ensures State() == KeyReleased(old(State()), key)
    {
      if key in keysPressed {
        keysPressed := keysPressed - {key};
      }
    }

    method ResetGame(serve: Serve)
      requires Valid()
      modifies this, player1, player2, ball
      ensures Valid()
      ensures State() == GameReset(old(State()), serve)
    {
      player1Score := 0;
      player2Score := 0;
      ResetBall(serve);
      player1.centerY := CenterY;
      player2.centerY := CenterY;
    }
  }

  /** A short session: player 1 holds W for a frame, releases it, and a reset follows. */
  method Session(serve: Serve)
  {
    var game := new PongGame(PADDLE_HEIGHT as real, serve);
    game.OnKeyPress(W, serve);
    game.OnUpdate(serve);
    assert game.player1.centerY == CenterY + PaddleSpeed;
    game.OnKeyRelease(W);
    assert W !in game.keysPressed;
    game.OnKeyPress(R, serve);
    assert game.player1Score == 0 && game.player1.centerY == CenterY;
  }
}
