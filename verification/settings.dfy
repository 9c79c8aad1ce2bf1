/** Fixed dimensions and speeds of the Pong field, the shape a playable
    canvas must have, the one random primitive the game uses, and the
    absolute value used to state distances between positions. */
module Settings {

  const PADDLE_WIDTH: real := 12.0
  const PADDLE_HEIGHT: real := 100.0
  const PADDLE_MARGIN: real := 18.0
  const PADDLE_SPEED: real := 7.0

  const BALL_SIZE: real := 16.0
  const BALL_SPEED: real := 5.0

  /** x of the left paddle's front (right-hand) face. */
  const LEFT_FACE: real := PADDLE_MARGIN + PADDLE_WIDTH

  /** x of the right paddle's front (left-hand) face on a field of width `w`. */
  function RightFace(w: real): real {
    w - PADDLE_MARGIN - PADDLE_WIDTH
  }

  /** A canvas on which both paddles fit vertically and the two paddle faces
      are further apart than two ball widths. */
  predicate ValidField(w: real, h: real) {
    h >= PADDLE_HEIGHT && w > 2.0 * (PADDLE_MARGIN + PADDLE_WIDTH + BALL_SIZE)
  }

  /** A value `Math.random()` can return. */
  predicate IsDraw(r: real) {
    0.0 <= r < 1.0
  }

  function Abs(x: real): real {
    if x < 0.0 then -x else x
  }

  /** Stretches a draw from [0, 1) to [-1, 1): the game writes this both as
      `(r - 0.5) * 2` and as `r * 2 - 1`, which agree on exact reals. */
  function Spread(r: real): (s: real)
    requires IsDraw(r)
    ensures -1.0 <= s < 1.0
    ensures s < 0.0 <==> r < 0.5
  {
    (r - 0.5) * 2.0
  }

  /** Every value of [-1, 1) is reached by exactly one draw, so `Spread`
      loses nothing of the random source. */
  lemma SpreadOnto(s: real)
    requires -1.0 <= s < 1.0
    ensures IsDraw((s + 1.0) / 2.0) && Spread((s + 1.0) / 2.0) == s
    ensures forall r :: IsDraw(r) && Spread(r) == s ==> r == (s + 1.0) / 2.0
  {
  }
}
