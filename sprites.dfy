/**
 * The two sprite kinds of the game, Ball and Paddle: a value record of each
 * one's state, the function that specifies its per-tick `update`, and the
 * class whose `Update` method changes the fields in place as the game does.
 */
module Sprites {
  import opened Config

  /** Which entry of `[-BALL_SPEED, BALL_SPEED]` one `random.choice` picked. */
  datatype Sign = Neg | Pos

  /** The two independent draws a ball reset makes: horizontal and vertical. */
  datatype Serve = Serve(x: Sign, y: Sign)

  /** A velocity component a ball can be served with. */
  predicate IsServeSpeed(v: real) {
    v == -BallSpeed || v == BallSpeed
  }

  /** The value `random.choice([-BALL_SPEED, BALL_SPEED])` returns for a draw. */
  function Pick(s: Sign): (v: real)
    ensures IsServeSpeed(v) && v != 0.0
    ensures s == Pos <==> v > 0.0
  {
    match s
    case Neg => -BallSpeed
    case Pos => BallSpeed
  }

  /** Every serve velocity is produced by some draw, so the injected draw leaves no outcome out. */
  lemma PickIsOnto(v: real)
    requires IsServeSpeed(v)
    ensures exists s :: Pick(s) == v
  {
    if v == BallSpeed {
      assert Pick(Pos) == v;
    } else {
      assert Pick(Neg) == v;
    }
  }

  // ---------------------------------------------------------------- Paddle

  datatype PaddleState = PaddleState(centerX: real, centerY: real, changeY: real, width: real) {
    function Top(): real { centerY + PaddleHalfHeight }
    function Bottom(): real { centerY - PaddleHalfHeight }
    function Left(): real { centerX - width / 2.0 }
    function Right(): real { centerX + width / 2.0 }
    /** The paddle's whole vertical extent lies inside the court. */
    predicate InCourt() { 0.0 <= Bottom() && Top() <= CourtTop }
  }

  /** `Paddle.update`: move by `change_y`, then pull an edge that left the court back onto its boundary. */
  function PaddleStep(p: PaddleState): (r: PaddleState)
    ensures r.centerX == p.centerX && r.changeY == p.changeY && r.width == p.width
    ensures r.InCourt()
    ensures var moved := p.(centerY := p.centerY + p.changeY);
      && (moved.Top() > CourtTop ==> r.Top() == CourtTop)
      && (moved.Bottom() < 0.0 ==> r.Bottom() == 0.0)
      && (moved.InCourt() <==> r == moved)
  {
    var moved := p.(centerY := p.centerY + p.changeY);
    if moved.Top() > CourtTop then moved.(centerY := CourtTop - PaddleHalfHeight)
    else if moved.Bottom() < 0.0 then moved.(centerY := PaddleHalfHeight)
    else moved
  }

  /** A paddle sprite; `width` is fixed when it is made (see README on its hit box). */
  class Paddle {
    var centerX: real
    var centerY: real
    var changeY: real
    const width: real

    function State(): PaddleState
      reads this
    {
      PaddleState(centerX, centerY, changeY, width)
    }

    /** A new sprite sits at the origin and is at rest. */
    constructor (width: real)
      ensures State() == PaddleState(0.0, 0.0, 0.0, width)
    {
      this.width := width;
      centerX, centerY, changeY := 0.0, 0.0, 0.0;
    }

    /** The sprite's `top` property setter: moves the centre so that the top edge is `y`. */
    method SetTop(y: real)
      modifies this
      ensures State() == old(State()).(centerY := y - PaddleHalfHeight)
      ensures State().Top() == y
    {
      centerY := y - PaddleHalfHeight;
    }

    /** The sprite's `bottom` property setter. */
    method SetBottom(y: real)
      modifies this
      ensures State() == old(State()).(centerY := y + PaddleHalfHeight)
      ensures State().Bottom() == y
    {
      centerY := y + PaddleHalfHeight;
    }

    method Update()
      modifies this
      ensures State() == PaddleStep(old(State()))
    {
      centerY := centerY + changeY;
      if State().Top() > CourtTop {
        SetTop(CourtTop);
      } else if State().Bottom() < 0.0 {
        SetBottom(0.0);
      }
    }
  }

  // ------------------------------------------------------------------ Ball

  datatype BallState = BallState(centerX: real, centerY: real, changeX: real, changeY: real) {
    function Top(): real { centerY + BallHalfSize }
    function Bottom(): real { centerY - BallHalfSize }
    function Left(): real { centerX - BallHalfSize }
    function Right(): real { centerX + BallHalfSize }
    /** The top edge is at or above the court's top, or the bottom edge at or below 0. */
    predicate TouchesWall() { Top() >= CourtTop || Bottom() <= 0.0 }
  }

  /** The ball as `Ball()` and `reset_ball` leave it: in the centre, moving diagonally. */
  function Served(serve: Serve): (b: BallState)
    ensures b.centerX == CenterX && b.centerY == CenterY
    ensures IsServeSpeed(b.changeX) && IsServeSpeed(b.changeY)
    ensures b.changeX != 0.0 && b.changeY != 0.0
    ensures (b.changeX > 0.0 <==> serve.x == Pos) && (b.changeY > 0.0 <==> serve.y == Pos)
  {
    BallState(CenterX, CenterY, Pick(serve.x), Pick(serve.y))
  }

  /** Every diagonal serve velocity is reachable by some pair of draws. */
  lemma ServedIsOnto(vx: real, vy: real)
    requires IsServeSpeed(vx) && IsServeSpeed(vy)
    ensures exists serve :: Served(serve).changeX == vx && Served(serve).changeY == vy
  {
    PickIsOnto(vx);
    PickIsOnto(vy);
    var sx :| Pick(sx) == vx;
    var sy :| Pick(sy) == vy;
    assert Served(Serve(sx, sy)).changeX == vx && Served(Serve(sx, sy)).changeY == vy;
  }

  /** `Ball.update`: move by the velocity, then flip the vertical velocity at a wall. */
  function BallStep(b: BallState): (r: BallState)
    ensures r.centerX == b.centerX + b.changeX && r.centerY == b.centerY + b.changeY
    ensures r.changeX == b.changeX
    ensures r.TouchesWall() ==> r.changeY == -b.changeY
    ensures !r.TouchesWall() ==> r.changeY == b.changeY
    ensures b.changeY != 0.0 ==> ((r.changeY < 0.0) != (b.changeY < 0.0) <==> r.TouchesWall())
  {
    var moved := b.(centerX := b.centerX + b.changeX, centerY := b.centerY + b.changeY);
    if moved.TouchesWall() then moved.(changeY := -moved.changeY) else moved
  }

  /** The ball sprite. */
  class Ball {
    var centerX: real
    var centerY: real
    var changeX: real
    var changeY: real

    function State(): BallState
      reads this
    {
      BallState(centerX, centerY, changeX, changeY)
    }

    constructor (serve: Serve)
      ensures State() == Served(serve)
    {
      centerX := CenterX;
      centerY := CenterY;
      changeX := Pick(serve.x);
      changeY := Pick(serve.y);
    }

    method Update()
      modifies this
      ensures State() == BallStep(old(State()))
    {
      centerX := centerX + changeX;
      centerY := centerY + changeY;
      if State().Top() >= CourtTop || State().Bottom() <= 0.0 {
        changeY := changeY * -1.0;
      }
    }
  }
}
