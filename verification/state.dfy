/** The game's mutable globals as one immutable record, its starting value,
    the invariant every frame keeps, and the mouse handler's paddle update. */
module GameState {
  import opened Settings
  import opened Clamping

  /** Paddle positions are top edges; the ball position is its top-left corner. */
  datatype State = State(
    leftPaddleY: real,
    rightPaddleY: real,
    ballX: real,
    ballY: real,
    ballSpeedX: real,
    ballSpeedY: real,
    leftScore: nat,
    rightScore: nat)

  /** The three `Math.random()` calls one frame may make, one per call site:
      the left paddle nudge, the right paddle nudge and the serve after a point. */
  datatype Draws = Draws(leftNudge: real, rightNudge: real, serve: real)

  predicate ValidDraws(d: Draws) {
    IsDraw(d.leftNudge) && IsDraw(d.rightNudge) && IsDraw(d.serve)
  }

  /** Largest legal top edge of a paddle. */
  function PaddleMax(h: real): real {
    h - PADDLE_HEIGHT
  }

  /** Top edge that puts a paddle's centre on the field's horizontal midline. */
  function CentredPaddle(h: real): real {
    h / 2.0 - PADDLE_HEIGHT / 2.0
  }

  /** Both ball coordinates put the ball's centre at the field's centre. */
  predicate BallCentred(s: State, w: real, h: real) {
    s.ballX + BALL_SIZE / 2.0 == w / 2.0 && s.ballY + BALL_SIZE / 2.0 == h / 2.0
  }

  /** State at page load: paddles centred, ball centred, horizontal direction
      chosen by `dirDraw` and vertical speed stretched from `speedDraw`. */
  function Initial(w: real, h: real, dirDraw: real, speedDraw: real): (s: State)
    requires ValidField(w, h) && IsDraw(dirDraw) && IsDraw(speedDraw)
    ensures s.leftScore == 0 && s.rightScore == 0
    ensures s.leftPaddleY + PADDLE_HEIGHT / 2.0 == h / 2.0
    ensures s.rightPaddleY + PADDLE_HEIGHT / 2.0 == h / 2.0
    ensures BallCentred(s, w, h)
    ensures Abs(s.ballSpeedX) == BALL_SPEED
    ensures s.ballSpeedX > 0.0 <==> dirDraw < 0.5
    ensures s.ballSpeedY == BALL_SPEED * Spread(speedDraw)
    ensures -BALL_SPEED <= s.ballSpeedY < BALL_SPEED
  {
    State(
      CentredPaddle(h), CentredPaddle(h),
      w / 2.0 - BALL_SIZE / 2.0, h / 2.0 - BALL_SIZE / 2.0,
      BALL_SPEED * (if dirDraw < 0.5 then 1.0 else -1.0),
      BALL_SPEED * Spread(speedDraw),
      0, 0)
  }

  /** What holds between frames: both paddles inside the field, the ball
      inside the field, the horizontal speed at its fixed magnitude, and the
      ball never behind the face of the paddle it is moving away from. */
  predicate Inv(s: State, w: real, h: real) {
    && 0.0 <= s.leftPaddleY <= PaddleMax(h)
    && 0.0 <= s.rightPaddleY <= PaddleMax(h)
    && 0.0 <= s.ballX <= w - BALL_SIZE
    && 0.0 <= s.ballY <= h - BALL_SIZE
    && Abs(s.ballSpeedX) == BALL_SPEED
    && (s.ballSpeedX > 0.0 ==> s.ballX >= LEFT_FACE)
    && (s.ballSpeedX < 0.0 ==> s.ballX + BALL_SIZE <= RightFace(w))
  }

  /** Every vertical speed in [-5, 5) is the page-load speed for some draw. */
  lemma InitialSpeedOnto(w: real, h: real, dirDraw: real, v: real)
    requires ValidField(w, h) && IsDraw(dirDraw)
    requires -BALL_SPEED <= v < BALL_SPEED
    ensures exists r :: IsDraw(r) && Initial(w, h, dirDraw, r).ballSpeedY == v
  {
    var r := (v / BALL_SPEED + 1.0) / 2.0;
    SpreadOnto(v / BALL_SPEED);
    assert Initial(w, h, dirDraw, r).ballSpeedY == v;
  }

  lemma InitialInv(w: real, h: real, dirDraw: real, speedDraw: real)
    requires ValidField(w, h) && IsDraw(dirDraw) && IsDraw(speedDraw)
    ensures Inv(Initial(w, h, dirDraw, speedDraw), w, h)
  {
  }

  /** Left paddle top edge for a pointer at height `mouseY` over the canvas:
      the paddle is centred on the pointer, then clamped into the field. */
  function LeftPaddleTarget(h: real, mouseY: real): (y: real)
    requires h >= PADDLE_HEIGHT
    ensures 0.0 <= y <= PaddleMax(h)
    ensures 0.0 <= mouseY - PADDLE_HEIGHT / 2.0 <= PaddleMax(h) ==> y == mouseY - PADDLE_HEIGHT / 2.0
    ensures mouseY - PADDLE_HEIGHT / 2.0 < 0.0 ==> y == 0.0
    ensures mouseY - PADDLE_HEIGHT / 2.0 > PaddleMax(h) ==> y == PaddleMax(h)
  {
    Clamp(mouseY - PADDLE_HEIGHT / 2.0, PaddleMax(h))
  }

  /** Whenever the pointer is at least half a paddle away from both edges,
      the paddle's centre is exactly under the pointer. */
  lemma LeftPaddleFollowsPointer(h: real, mouseY: real)
    requires h >= PADDLE_HEIGHT
    requires PADDLE_HEIGHT / 2.0 <= mouseY <= h - PADDLE_HEIGHT / 2.0
    ensures LeftPaddleTarget(h, mouseY) + PADDLE_HEIGHT / 2.0 == mouseY
  {
  }

  /** The mouse handler: only the left paddle moves, to the clamped
      position under the pointer. */
  function MouseMove(s: State, h: real, mouseY: real): (t: State)
    requires h >= PADDLE_HEIGHT
    ensures t == s.(leftPaddleY := t.leftPaddleY)
    ensures t.leftPaddleY == LeftPaddleTarget(h, mouseY)
    ensures 0.0 <= t.leftPaddleY <= PaddleMax(h)
  {
    s.(leftPaddleY := LeftPaddleTarget(h, mouseY))
  }

  /** The paddle position does not depend on where the paddle was, so of
      several pointer moves between two frames only the last one counts. */
  lemma MouseMoveLastWins(s: State, h: real, a: real, b: real)
    requires h >= PADDLE_HEIGHT
    ensures MouseMove(MouseMove(s, h, a), h, b) == MouseMove(s, h, b)
  {
  }

  lemma MouseMoveInv(s: State, w: real, h: real, mouseY: real)
    requires ValidField(w, h) && Inv(s, w, h)
    ensures Inv(MouseMove(s, h, mouseY), w, h)
  {
  }
}
