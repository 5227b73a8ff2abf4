/** The game's fixed configuration, as integers like the module-level constants of pong_game.py. */
module Config {
  const SCREEN_WIDTH: int := 800
  const SCREEN_HEIGHT: int := 600

  /** Edge of the paddle's texture before scaling; it only shapes the texture. */
  const PADDLE_WIDTH: int := 15
  const PADDLE_HEIGHT: int := 80
  const PADDLE_SPEED: int := 5
  const PADDLE_MARGIN: int := 20

  const BALL_SIZE: int := 10
  const BALL_SPEED: int := 3

  // The same quantities as exact reals, the way the sprites' float coordinates use them.

  /** The court's top edge; its bottom edge is 0. */
  const CourtTop: real := SCREEN_HEIGHT as real
  /** The court's right edge; its left edge is 0. */
  const CourtRight: real := SCREEN_WIDTH as real
  /** `SCREEN_WIDTH // 2` and `SCREEN_HEIGHT // 2` (Dafny's `/` on these positive ints floors, like `//`). */
  const CenterX: real := (SCREEN_WIDTH / 2) as real
  const CenterY: real := (SCREEN_HEIGHT / 2) as real
  /** Where `setup` places the two paddles' centres, PADDLE_MARGIN in from each side. */
  const LeftPaddleX: real := PADDLE_MARGIN as real
  const RightPaddleX: real := (SCREEN_WIDTH - PADDLE_MARGIN) as real
  /** A paddle sprite is PADDLE_HEIGHT tall, so its top is half of that above its centre. */
  const PaddleHalfHeight: real := PADDLE_HEIGHT as real / 2.0
  /** The ball is a BALL_SIZE square. */
  const BallHalfSize: real := BALL_SIZE as real / 2.0
  const PaddleSpeed: real := PADDLE_SPEED as real
  const BallSpeed: real := BALL_SPEED as real
}
