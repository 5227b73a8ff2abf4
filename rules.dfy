/**
 * The rules of a match as functions on a snapshot of the whole game: one tick
 * of `PongGame.on_update`, the two resets and the key handlers, and what any
 * sequence of these events keeps true.
 */
module Rules {
  import opened Config
  import opened Sprites
  import opened Controls

  datatype Option<T> = None | Some(value: T)

  /** Everything a `PongGame` holds that play depends on. */
  datatype GameState = GameState(
    player1: PaddleState,
    player2: PaddleState,
    ball: BallState,
    player1Score: nat,
    player2Score: nat,
    keysPressed: set<Key>)

  /** The ball's and the paddle's rectangles overlap on both axes. */
  predicate Overlaps(b: BallState, p: PaddleState)
    ensures Overlaps(b, p) ==>
      -(BallHalfSize + PaddleHalfHeight) < b.centerY - p.centerY < BallHalfSize + PaddleHalfHeight
  {
    b.Left() < p.Right() && p.Left() < b.Right() && b.Bottom() < p.Top() && p.Bottom() < b.Top()
  }

  /** The first paddle of the list [p1, p2] that the ball overlaps, if any. */
  function FirstHit(b: BallState, p1: PaddleState, p2: PaddleState): (hit: Option<PaddleState>)
    ensures hit.None? <==> !Overlaps(b, p1) && !Overlaps(b, p2)
    ensures hit.Some? ==> Overlaps(b, hit.value)
    ensures Overlaps(b, p1) ==> hit == Some(p1)
    ensures !Overlaps(b, p1) && Overlaps(b, p2) ==> hit == Some(p2)
  {
    if Overlaps(b, p1) then Some(p1)
    else if Overlaps(b, p2) then Some(p2)
    else None
  }

  /**
   * A hit on paddle `p`: the ball turns back horizontally and is steered
   * vertically by twice its offset from the paddle's centre, measured in
   * half-paddle heights.
   */
  function Deflect(b: BallState, p: PaddleState): (r: BallState)
    ensures r.centerX == b.centerX && r.centerY == b.centerY
    ensures r.changeX == -b.changeX
    ensures r.changeY == b.changeY + 2.0 * (b.centerY - p.centerY) / PaddleHalfHeight
    ensures r.changeY > b.changeY <==> b.centerY > p.centerY
    ensures r.changeY < b.changeY <==> b.centerY < p.centerY
    ensures Overlaps(b, p) ==> -2.25 < r.changeY - b.changeY < 2.25
  {
    var hitPos := (b.centerY - p.centerY) / PaddleHalfHeight;
    b.(changeX := b.changeX * -1.0, changeY := b.changeY + hitPos * 2.0)
  }

  /** Step 1 of a tick: each paddle's velocity from the held keys. */
  function Steer(s: GameState): (r: GameState)
    ensures r.player1 == s.player1.(changeY := LeftVelocity(s.keysPressed))
    ensures r.player2 == s.player2.(changeY := RightVelocity(s.keysPressed))
    ensures r.ball == s.ball && r.keysPressed == s.keysPressed
    ensures r.player1Score == s.player1Score && r.player2Score == s.player2Score
  {
    s.(player1 := s.player1.(changeY := LeftVelocity(s.keysPressed)),
       player2 := s.player2.(changeY := RightVelocity(s.keysPressed)))
  }

  /** Step 2 of a tick: the paddles move, then the ball. */
  function Move(s: GameState): (r: GameState)
    ensures r.player1 == PaddleStep(s.player1) && r.player2 == PaddleStep(s.player2)
    ensures r.player1.InCourt() && r.player2.InCourt()
    ensures r.ball == BallStep(s.ball)
    ensures r.player1Score == s.player1Score && r.player2Score == s.player2Score
    ensures r.keysPressed == s.keysPressed
  {
    s.(player1 := PaddleStep(s.player1), player2 := PaddleStep(s.player2), ball := BallStep(s.ball))
  }

  /** Step 3 of a tick: the ball rebounds from the first paddle it overlaps. */
  function Rebound(s: GameState): (r: GameState)
    ensures !Overlaps(s.ball, s.player1) && !Overlaps(s.ball, s.player2) ==> r == s
    ensures Overlaps(s.ball, s.player1) ==> r.ball == Deflect(s.ball, s.player1)
    ensures !Overlaps(s.ball, s.player1) && Overlaps(s.ball, s.player2) ==> r.ball == Deflect(s.ball, s.player2)
    ensures r.player1 == s.player1 && r.player2 == s.player2 && r.keysPressed == s.keysPressed
    ensures r.player1Score == s.player1Score && r.player2Score == s.player2Score
  {
    match FirstHit(s.ball, s.player1, s.player2)
    case Some(p) => s.(ball := Deflect(s.ball, p))
    case None => s
  }

  /** Step 4 of a tick: a ball past the left edge scores for player 2, past the right edge for player 1. */
  function Score(s: GameState, serve: Serve): (r: GameState)
    ensures r.player2Score == s.player2Score + 1 <==> s.ball.centerX < 0.0
    ensures r.player1Score == s.player1Score + 1 <==> s.ball.centerX > CourtRight
    ensures 0.0 <= s.ball.centerX <= CourtRight <==>
      r.player1Score == s.player1Score && r.player2Score == s.player2Score
    ensures s.ball.centerX < 0.0 ==> r.player1Score == s.player1Score
    ensures s.ball.centerX > CourtRight ==> r.player2Score == s.player2Score
    ensures r.player1Score >= s.player1Score && r.player2Score >= s.player2Score
    ensures r.ball == (if 0.0 <= s.ball.centerX <= CourtRight then s.ball else Served(serve))
    ensures r.player1 == s.player1 && r.player2 == s.player2 && r.keysPressed == s.keysPressed
  {
    if s.ball.centerX < 0.0 then
      s.(player2Score := s.player2Score + 1, ball := Served(serve))
    else if s.ball.centerX > CourtRight then
      s.(player1Score := s.player1Score + 1, ball := Served(serve))
    else s
  }

  /** One call of `on_update`; `serve` is the draw a score's ball reset uses. */
  function Tick(s: GameState, serve: Serve): (r: GameState)
    ensures r.keysPressed == s.keysPressed
    ensures r.player1.centerX == s.player1.centerX && r.player1.width == s.player1.width
    ensures r.player2.centerX == s.player2.centerX && r.player2.width == s.player2.width
    ensures r.player1.changeY == LeftVelocity(s.keysPressed) && r.player2.changeY == RightVelocity(s.keysPressed)
    ensures r.player1.InCourt() && r.player2.InCourt()
    ensures var x := s.ball.centerX + s.ball.changeX;
      && (x < 0.0 ==>
            r.player2Score == s.player2Score + 1 && r.player1Score == s.player1Score && r.ball == Served(serve))
      && (x > CourtRight ==>
            r.player1Score == s.player1Score + 1 && r.player2Score == s.player2Score && r.ball == Served(serve))
      && (0.0 <= x <= CourtRight ==>
            r.player1Score == s.player1Score && r.player2Score == s.player2Score &&
            r.ball.centerX == x && r.ball.centerY == s.ball.centerY + s.ball.changeY &&
            (r.ball.changeX == s.ball.changeX || r.ball.changeX == -s.ball.changeX))
    ensures var x := s.ball.centerX + s.ball.changeX;
      var hit := Overlaps(BallStep(s.ball), r.player1) || Overlaps(BallStep(s.ball), r.player2);
      0.0 <= x <= CourtRight ==>
        && (hit ==> r.ball.changeX == -s.ball.changeX)
        && (!hit ==> r.ball == BallStep(s.ball))
  {
    Score(Rebound(Move(Steer(s))), serve)
  }

  /** `reset_game`: scores to zero, a new serve, both paddles back to mid-height. */
  function GameReset(s: GameState, serve: Serve): (r: GameState)
    ensures r.player1Score == 0 && r.player2Score == 0
    ensures r.ball == Served(serve)
    ensures r.player1.centerY == CenterY && r.player2.centerY == CenterY
    ensures r.player1.InCourt() && r.player2.InCourt()
    ensures r.player1.centerX == s.player1.centerX && r.player2.centerX == s.player2.centerX
    ensures r.player1.changeY == s.player1.changeY && r.player2.changeY == s.player2.changeY
    ensures r.player1.width == s.player1.width && r.player2.width == s.player2.width
    ensures r.keysPressed == s.keysPressed
  {
    s.(player1Score := 0, player2Score := 0, ball := Served(serve),
       player1 := s.player1.(centerY := CenterY),
       player2 := s.player2.(centerY := CenterY))
  }

  /** A second reset undoes nothing of the first: only its own draw survives. */
  lemma GameResetIdempotent(s: GameState, first: Serve, second: Serve)
    ensures GameReset(GameReset(s, first), second) == GameReset(s, second)
    ensures GameReset(GameReset(s, first), first) == GameReset(s, first)
  {
  }

  /** `on_key_press`: remember the key; R also resets the game. */
  function KeyPressed(s: GameState, k: Key, serve: Serve): (r: GameState)
    ensures r.keysPressed == s.keysPressed + {k}
    ensures k != R ==> r == s.(keysPressed := s.keysPressed + {k})
    ensures k == R ==> r == GameReset(s, serve).(keysPressed := s.keysPressed + {k})
  {
    var held := s.(keysPressed := s.keysPressed + {k});
    if k == R then GameReset(held, serve) else held
  }

  /** `on_key_release`: forget the key if it is held. */
  function KeyReleased(s: GameState, k: Key): (r: GameState)
    ensures r == s.(keysPressed := s.keysPressed - {k})
    ensures k !in s.keysPressed ==> r == s
  {
    if k in s.keysPressed then s.(keysPressed := s.keysPressed - {k}) else s
  }

  /** Press then release of one key: the key is not held afterwards, and no other key changed. */
  lemma PressThenRelease(s: GameState, k: Key, serve: Serve)
    ensures KeyReleased(KeyPressed(s, k, serve), k).keysPressed == s.keysPressed - {k}
    ensures k != R ==> KeyReleased(KeyPressed(s, k, serve), k) == s.(keysPressed := s.keysPressed - {k})
    ensures k != R && k !in s.keysPressed ==> KeyReleased(KeyPressed(s, k, serve), k) == s
  {
  }

  // ------------------------------------------------------- runs of events

  /** What the event loop feeds the game: key presses, key releases and frames. */
  datatype Event = KeyDown(key: Key, serve: Serve) | KeyUp(key: Key) | Frame(serve: Serve)

  function Step(s: GameState, e: Event): GameState {
    match e
    case KeyDown(k, serve) => KeyPressed(s, k, serve)
    case KeyUp(k) => KeyReleased(s, k)
    case Frame(serve) => Tick(s, serve)
  }

  /** The state after the events `evs`, in order. */
  function Run(s: GameState, evs: seq<Event>): GameState
    decreases |evs|
  {
    if evs == [] then s else Run(Step(s, evs[0]), evs[1..])
  }

  /** The number of frames (ticks) among `evs`. */
  function Frames(evs: seq<Event>): nat {
    if evs == [] then 0 else (if evs[0].Frame? then 1 else 0) + Frames(evs[1..])
  }

  /** No event of `evs` is a press of R, the reset key. */
  predicate NoReset(evs: seq<Event>) {
    forall i :: 0 <= i < |evs| ==> !(evs[i].KeyDown? && evs[i].key == R)
  }

  /**
   * What holds of every state of a match: paddles at their margins and inside
   * the court, and the ball always crossing the court at the serve speed.
   */
  predicate Wellformed(s: GameState) {
    && s.player1.centerX == LeftPaddleX
    && s.player2.centerX == RightPaddleX
    && s.player1.InCourt() && s.player2.InCourt()
    && IsServeSpeed(s.ball.changeX)
  }

  /** The game as the constructor and `setup` leave it, for a given paddle width and first serve. */
  function Initial(paddleWidth: real, serve: Serve): (r: GameState)
    requires paddleWidth > 0.0
    ensures Wellformed(r)
    ensures r.player1Score == 0 && r.player2Score == 0 && r.keysPressed == {}
    ensures r.ball == Served(serve)
    ensures r.player1.changeY == 0.0 && r.player2.changeY == 0.0
    ensures r.player1.centerY == CenterY && r.player2.centerY == CenterY
  {
    GameState(
      PaddleState(LeftPaddleX, CenterY, 0.0, paddleWidth),
      PaddleState(RightPaddleX, CenterY, 0.0, paddleWidth),
      Served(serve), 0, 0, {})
  }

  lemma StepPreservesWellformed(s: GameState, e: Event)
    requires Wellformed(s)
    ensures Wellformed(Step(s, e))
  {
  }

  /** However long a match runs, its paddles stay in the court and the ball keeps its horizontal speed. */
  lemma {:induction false} RunPreservesWellformed(s: GameState, evs: seq<Event>)
    requires Wellformed(s)
    ensures Wellformed(Run(s, evs))
    decreases |evs|
  {
    if evs != [] {
      StepPreservesWellformed(s, evs[0]);
      RunPreservesWellformed(Step(s, evs[0]), evs[1..]);
    }
  }

  /** Every state a match can reach from its start is well formed. */
  lemma ReachableIsWellformed(paddleWidth: real, serve: Serve, evs: seq<Event>)
    requires paddleWidth > 0.0
    ensures Wellformed(Run(Initial(paddleWidth, serve), evs))
  {
    RunPreservesWellformed(Initial(paddleWidth, serve), evs);
  }

  /**
   * Without a reset, scores never go down, and the scores together grow by at
   * most one per frame.
   */
  lemma {:induction false} RunScoresGrowByAtMostOnePerFrame(s: GameState, evs: seq<Event>)
    requires NoReset(evs)
    ensures Run(s, evs).player1Score >= s.player1Score
    ensures Run(s, evs).player2Score >= s.player2Score
    ensures Run(s, evs).player1Score + Run(s, evs).player2Score <= s.player1Score + s.player2Score + Frames(evs)
    decreases |evs|
  {
    if evs != [] {
      var next := Step(s, evs[0]);
      assert NoReset(evs[1..]) by {
        forall i | 0 <= i < |evs[1..]|
          ensures !(evs[1..][i].KeyDown? && evs[1..][i].key == R)
        {
          assert evs[1..][i] == evs[i + 1];
        }
      }
      assert !(evs[0].KeyDown? && evs[0].key == R);
      assert next.player1Score >= s.player1Score && next.player2Score >= s.player2Score;
      assert next.player1Score + next.player2Score <= s.player1Score + s.player2Score + (if evs[0].Frame? then 1 else 0);
      RunScoresGrowByAtMostOnePerFrame(next, evs[1..]);
    }
  }
}
