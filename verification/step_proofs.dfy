/** Properties of one frame that relate several of its phases. */
module StepProofs {
  import opened Settings
  import opened GameState
  import opened Step

  /** The paddle faces are far enough apart that a ball sent back by the
      left paddle cannot also reach the right paddle in the same frame,
      although both checks run. */
  lemma NoDoubleHit(s: State, w: real, h: real, r: real)
    requires ValidField(w, h) && IsDraw(r)
    requires LeftHit(s)
    ensures !RightHit(LeftPaddle(s, r), w)
  {
  }

  /** Under the frame invariant a paddle only ever hits a ball that is
      approaching it, so every hit turns the ball back into the field. */
  lemma HitOnlyWhenApproaching(s: State, w: real, h: real, d: Draws)
    requires ValidField(w, h) && ValidDraws(d) && Inv(s, w, h)
    ensures LeftHit(AfterWalls(s, h)) ==> s.ballSpeedX < 0.0
    ensures RightHit(LeftPaddle(AfterWalls(s, h), d.leftNudge), w) ==> s.ballSpeedX > 0.0
  {
  }

  /** The right side scores exactly when the translated ball is past the
      left edge without overlapping the left paddle. */
  lemma RightScoresIff(s: State, w: real, h: real, d: Draws)
    requires ValidField(w, h) && ValidDraws(d)
    ensures Update(s, w, h, d).rightScore == s.rightScore + 1 <==>
      AfterWalls(s, h).ballX < 0.0 && !Overlaps(AfterWalls(s, h).ballY, s.leftPaddleY)
  {
  }

  /** The left side scores exactly when the translated ball is past the
      right edge without overlapping the right paddle. */
  lemma LeftScoresIff(s: State, w: real, h: real, d: Draws)
    requires ValidField(w, h) && ValidDraws(d)
    ensures Update(s, w, h, d).leftScore == s.leftScore + 1 <==>
      AfterWalls(s, h).ballX + BALL_SIZE > w && !Overlaps(AfterWalls(s, h).ballY, s.rightPaddleY)
  {
  }

  /** One frame keeps the invariant, provided the state satisfies `Inv`. */
  lemma UpdateInv(s: State, w: real, h: real, d: Draws)
    requires ValidField(w, h) && ValidDraws(d) && Inv(s, w, h)
    ensures Inv(Update(s, w, h, d), w, h)
  {
  }

  /** The right paddle's unclamped step is zero exactly when its bottom edge
      is level with the ball's centre: the centre-versus-top-edge comparison
      aims the paddle half a paddle too high. */
  lemma AiRestPoint(s: State)
    ensures AiStep(s) == 0.0 <==> s.rightPaddleY + PADDLE_HEIGHT == s.ballY + BALL_SIZE / 2.0
  {
  }

  /** A right paddle that is exactly centred on the ball still gets an
      upward unclamped step. */
  lemma CentredPaddleMovesUp(s: State)
    requires s.rightPaddleY + PADDLE_HEIGHT / 2.0 == s.ballY + BALL_SIZE / 2.0
    ensures AiStep(s) == -PADDLE_SPEED
  {
  }

  /** The wall checks leave horizontal motion alone: after translation and
      wall bounces the ball is exactly one horizontal step further on, with
      the same horizontal speed and the paddles and scores untouched. */
  lemma WallsKeepHorizontalMotion(s: State, h: real)
    requires h >= BALL_SIZE
    ensures AfterWalls(s, h).ballX == s.ballX + s.ballSpeedX
    ensures AfterWalls(s, h).ballSpeedX == s.ballSpeedX
    ensures AfterWalls(s, h) == s.(ballX := s.ballX + s.ballSpeedX,
                                   ballY := AfterWalls(s, h).ballY,
                                   ballSpeedY := AfterWalls(s, h).ballSpeedY)
  {
  }

  /** On a left paddle hit every nudge in [-1, 1) comes from some draw. */
  lemma LeftNudgeOnto(s: State, dv: real)
    requires LeftHit(s) && -1.0 <= dv < 1.0
    ensures exists r :: IsDraw(r) && LeftPaddle(s, r).ballSpeedY == s.ballSpeedY + dv
  {
    SpreadOnto(dv);
    assert LeftPaddle(s, (dv + 1.0) / 2.0).ballSpeedY == s.ballSpeedY + dv;
  }

  /** On a right paddle hit every nudge in [-1, 1) comes from some draw. */
  lemma RightNudgeOnto(s: State, w: real, dv: real)
    requires RightHit(s, w) && -1.0 <= dv < 1.0
    ensures exists r :: IsDraw(r) && RightPaddle(s, w, r).ballSpeedY == s.ballSpeedY + dv
  {
    SpreadOnto(dv);
    assert RightPaddle(s, w, (dv + 1.0) / 2.0).ballSpeedY == s.ballSpeedY + dv;
  }

  /** Every vertical serve speed in [-5, 5) comes from some draw. */
  lemma ServeOnto(s: State, w: real, h: real, dir: real, v: real)
    requires dir == 1.0 || dir == -1.0
    requires -BALL_SPEED <= v < BALL_SPEED
    ensures exists r :: IsDraw(r) && ResetBall(s, w, h, dir, r).ballSpeedY == v
  {
    SpreadOnto(v / BALL_SPEED);
    assert ResetBall(s, w, h, dir, (v / BALL_SPEED + 1.0) / 2.0).ballSpeedY == v;
  }

  /** At the top of the field the clamp holds the right paddle still even
      though its unclamped step points further up. */
  lemma PaddleHeldAtTop(s: State, h: real)
    requires h >= PADDLE_HEIGHT
    requires s.rightPaddleY == 0.0 && AiStep(s) == -PADDLE_SPEED
    ensures Chase(s, h).rightPaddleY == 0.0
  {
  }
}
