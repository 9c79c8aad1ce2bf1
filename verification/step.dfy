/** One call of the game's per-frame `update`: ball translation, wall
    bounces, the left then the right paddle check, scoring with a fresh
    serve, and the right paddle's tracking rule. */
module Step {
  import opened Settings
  import opened Clamping
  import opened GameState

  /** One integration step of the ball, no sub-stepping: only the ball's
      position changes, by exactly its velocity. */
  function MoveBall(s: State): (t: State)
    ensures t == s.(ballX := t.ballX, ballY := t.ballY)
    ensures t.ballX - s.ballX == s.ballSpeedX && t.ballY - s.ballY == s.ballSpeedY
  {
    s.(ballX := s.ballX + s.ballSpeedX, ballY := s.ballY + s.ballSpeedY)
  }

  /** The ball's top edge is above the field or its bottom edge below it. */
  predicate CrossesWall(y: real, h: real) {
    y < 0.0 || y + BALL_SIZE > h
  }

  /** Top wall check, then bottom wall check: the ball is put back on the
      wall it crossed and its vertical speed is inverted. */
  function Walls(s: State, h: real): (t: State)
    requires h >= BALL_SIZE
    ensures t == s.(ballY := t.ballY, ballSpeedY := t.ballSpeedY)
    ensures 0.0 <= t.ballY <= h - BALL_SIZE
    ensures t.ballY == Clamp(s.ballY, h - BALL_SIZE)
    ensures CrossesWall(s.ballY, h) ==> t.ballSpeedY == -s.ballSpeedY
    ensures !CrossesWall(s.ballY, h) ==> t == s
    ensures Abs(t.ballSpeedY) == Abs(s.ballSpeedY)
  {
    var top := if s.ballY < 0.0 then s.(ballY := 0.0, ballSpeedY := -s.ballSpeedY) else s;
    if top.ballY + BALL_SIZE > h then top.(ballY := h - BALL_SIZE, ballSpeedY := -top.ballSpeedY) else top
  }

  /** The ball's vertical extent and a paddle's vertical extent overlap:
      equivalently, their centres are closer than half the two heights. */
  predicate Overlaps(ballY: real, paddleY: real)
    ensures Overlaps(ballY, paddleY) <==>
      Abs((ballY + BALL_SIZE / 2.0) - (paddleY + PADDLE_HEIGHT / 2.0)) < (BALL_SIZE + PADDLE_HEIGHT) / 2.0
  {
    ballY + BALL_SIZE > paddleY && ballY < paddleY + PADDLE_HEIGHT
  }

  /** The ball's left edge has reached the left paddle's face and the ball's
      centre is within half a paddle plus half a ball of the paddle's centre. */
  predicate LeftHit(s: State)
    ensures LeftHit(s) <==>
      && s.ballX <= LEFT_FACE
      && Abs((s.ballY + BALL_SIZE / 2.0) - (s.leftPaddleY + PADDLE_HEIGHT / 2.0)) < (BALL_SIZE + PADDLE_HEIGHT) / 2.0
  {
    s.ballX <= LEFT_FACE && Overlaps(s.ballY, s.leftPaddleY)
  }

  /** The ball's right edge has reached the right paddle's face and the
      ball's centre is within half a paddle plus half a ball of the paddle's
      centre. */
  predicate RightHit(s: State, w: real)
    ensures RightHit(s, w) <==>
      && s.ballX + BALL_SIZE >= RightFace(w)
      && Abs((s.ballY + BALL_SIZE / 2.0) - (s.rightPaddleY + PADDLE_HEIGHT / 2.0)) < (BALL_SIZE + PADDLE_HEIGHT) / 2.0
  {
    s.ballX + BALL_SIZE >= RightFace(w) && Overlaps(s.ballY, s.rightPaddleY)
  }

  /** Left paddle check: on a hit the ball is put flush against the face,
      sent back, and its vertical speed nudged by a draw. */
  function LeftPaddle(s: State, r: real): (t: State)
    requires IsDraw(r)
    ensures LeftHit(s) ==> t == s.(ballX := LEFT_FACE, ballSpeedX := -s.ballSpeedX, ballSpeedY := t.ballSpeedY)
    ensures LeftHit(s) ==> t.ballSpeedY == s.ballSpeedY + Spread(r)
    ensures LeftHit(s) ==> -1.0 <= t.ballSpeedY - s.ballSpeedY < 1.0
    ensures !LeftHit(s) ==> t == s
  {
    if LeftHit(s) then
      s.(ballX := PADDLE_MARGIN + PADDLE_WIDTH, ballSpeedX := s.ballSpeedX * -1.0,
         ballSpeedY := s.ballSpeedY + Spread(r))
    else s
  }

  /** Right paddle check, the mirror image of `LeftPaddle`. */
  function RightPaddle(s: State, w: real, r: real): (t: State)
    requires IsDraw(r)
    ensures RightHit(s, w) ==> t == s.(ballX := t.ballX, ballSpeedX := -s.ballSpeedX, ballSpeedY := t.ballSpeedY)
    ensures RightHit(s, w) ==> t.ballX + BALL_SIZE == RightFace(w)
    ensures RightHit(s, w) ==> t.ballSpeedY == s.ballSpeedY + Spread(r)
    ensures RightHit(s, w) ==> -1.0 <= t.ballSpeedY - s.ballSpeedY < 1.0
    ensures !RightHit(s, w) ==> t == s
  {
    if RightHit(s, w) then
      s.(ballX := w - PADDLE_MARGIN - PADDLE_WIDTH - BALL_SIZE, ballSpeedX := s.ballSpeedX * -1.0,
         ballSpeedY := s.ballSpeedY + Spread(r))
    else s
  }

  /** Serve: the ball goes back to the centre, moving horizontally at the
      fixed speed in direction `dir`, with a random vertical speed. */
  function ResetBall(s: State, w: real, h: real, dir: real, r: real): (t: State)
    requires dir == 1.0 || dir == -1.0
    requires IsDraw(r)
    ensures t == s.(ballX := t.ballX, ballY := t.ballY, ballSpeedX := t.ballSpeedX, ballSpeedY := t.ballSpeedY)
    ensures BallCentred(t, w, h)
    ensures Abs(t.ballSpeedX) == BALL_SPEED
    ensures t.ballSpeedX > 0.0 <==> dir > 0.0
    ensures t.ballSpeedY == BALL_SPEED * Spread(r)
    ensures -BALL_SPEED <= t.ballSpeedY < BALL_SPEED
  {
    s.(ballX := w / 2.0 - BALL_SIZE / 2.0, ballY := h / 2.0 - BALL_SIZE / 2.0,
       ballSpeedX := BALL_SPEED * dir, ballSpeedY := BALL_SPEED * Spread(r))
  }

  /** Scoring: past the left edge the right side scores and the ball is
      served rightwards; past the right edge the left side scores and the
      ball is served leftwards; otherwise nothing changes. */
  function Score(s: State, w: real, h: real, r: real): (t: State)
    requires ValidField(w, h) && IsDraw(r)
    ensures t.leftPaddleY == s.leftPaddleY && t.rightPaddleY == s.rightPaddleY
    ensures s.ballX < 0.0 ==>
      && t.rightScore == s.rightScore + 1 && t.leftScore == s.leftScore
      && BallCentred(t, w, h) && t.ballSpeedX == BALL_SPEED
      && t.ballSpeedY == BALL_SPEED * Spread(r)
      && -BALL_SPEED <= t.ballSpeedY < BALL_SPEED
    ensures 0.0 <= s.ballX && s.ballX + BALL_SIZE > w ==>
      && t.leftScore == s.leftScore + 1 && t.rightScore == s.rightScore
      && BallCentred(t, w, h) && t.ballSpeedX == -BALL_SPEED
      && t.ballSpeedY == BALL_SPEED * Spread(r)
      && -BALL_SPEED <= t.ballSpeedY < BALL_SPEED
    ensures 0.0 <= s.ballX <= w - BALL_SIZE ==> t == s
    ensures 0.0 <= t.ballX <= w - BALL_SIZE
  {
    var afterLeft := if s.ballX < 0.0 then ResetBall(s.(rightScore := s.rightScore + 1), w, h, 1.0, r) else s;
    if afterLeft.ballX + BALL_SIZE > w then ResetBall(afterLeft.(leftScore := afterLeft.leftScore + 1), w, h, -1.0, r)
    else afterLeft
  }

  /** Top edge that would centre the right paddle on the ball. */
  function AiTarget(s: State): (y: real)
    ensures y + PADDLE_HEIGHT / 2.0 == s.ballY + BALL_SIZE / 2.0
  {
    s.ballY + BALL_SIZE / 2.0 - PADDLE_HEIGHT / 2.0
  }

  /** The right paddle's unclamped move: its centre is compared with the
      top-edge target, and it moves down, up, or not at all. */
  function AiStep(s: State): (d: real)
    ensures d == PADDLE_SPEED <==> s.rightPaddleY + PADDLE_HEIGHT / 2.0 < AiTarget(s)
    ensures d == -PADDLE_SPEED <==> s.rightPaddleY + PADDLE_HEIGHT / 2.0 > AiTarget(s)
    ensures d == 0.0 <==> s.rightPaddleY + PADDLE_HEIGHT / 2.0 == AiTarget(s)
  {
    var centre := s.rightPaddleY + PADDLE_HEIGHT / 2.0;
    if centre < AiTarget(s) then PADDLE_SPEED
    else if centre > AiTarget(s) then -PADDLE_SPEED
    else 0.0
  }

  /** The right paddle takes its AI step and is clamped into the field. */
  function Chase(s: State, h: real): (t: State)
    requires h >= PADDLE_HEIGHT
    ensures t == s.(rightPaddleY := t.rightPaddleY)
    ensures 0.0 <= t.rightPaddleY <= PaddleMax(h)
    ensures t.rightPaddleY == Clamp(s.rightPaddleY + AiStep(s), PaddleMax(h))
    ensures 0.0 <= s.rightPaddleY + AiStep(s) <= PaddleMax(h) ==> t.rightPaddleY == s.rightPaddleY + AiStep(s)
    ensures 0.0 <= s.rightPaddleY <= PaddleMax(h) ==>
      && Abs(t.rightPaddleY - s.rightPaddleY) <= PADDLE_SPEED
      && (t.rightPaddleY - s.rightPaddleY) * AiStep(s) >= 0.0
      && (AiStep(s) == 0.0 ==> t.rightPaddleY == s.rightPaddleY)
  {
    s.(rightPaddleY := Clamp(s.rightPaddleY + AiStep(s), PaddleMax(h)))
  }

  /** The ball after translation and the wall checks. */
  function AfterWalls(s: State, h: real): State
    requires h >= BALL_SIZE
  {
    Walls(MoveBall(s), h)
  }

  /** The ball after both paddle checks, just before scoring. */
  function AfterPaddles(s: State, w: real, h: real, d: Draws): State
    requires h >= BALL_SIZE && ValidDraws(d)
  {
    RightPaddle(LeftPaddle(AfterWalls(s, h), d.leftNudge), w, d.rightNudge)
  }

  /** The whole frame. */
  function Update(s: State, w: real, h: real, d: Draws): (t: State)
    requires ValidField(w, h) && ValidDraws(d)
    ensures t.leftPaddleY == s.leftPaddleY
    ensures 0.0 <= t.rightPaddleY <= PaddleMax(h)
    ensures 0.0 <= t.ballX <= w - BALL_SIZE
    ensures 0.0 <= t.ballY <= h - BALL_SIZE
    ensures t.leftScore >= s.leftScore && t.rightScore >= s.rightScore
    ensures t.leftScore + t.rightScore <= s.leftScore + s.rightScore + 1
    ensures t.rightScore > s.rightScore ==> BallCentred(t, w, h) && t.ballSpeedX == BALL_SPEED
    ensures t.leftScore > s.leftScore ==> BallCentred(t, w, h) && t.ballSpeedX == -BALL_SPEED
  {
    Chase(Score(AfterPaddles(s, w, h, d), w, h, d.serve), h)
  }
}
