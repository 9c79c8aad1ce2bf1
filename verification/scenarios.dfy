/** Concrete frames on an 800 by 500 canvas. */
module Scenarios {
  import opened GameState
  import opened Step

  /** A ball moving left that reaches the left paddle's face is put flush
      against it and sent back with the same speeds (the draw 0.5 adds no
      nudge); the right paddle steps up towards its target. */
  lemma LeftPaddleReturn()
    ensures Update(State(200.0, 200.0, 34.0, 240.0, -5.0, 2.0, 0, 0), 800.0, 500.0, Draws(0.5, 0.5, 0.5))
         == State(200.0, 193.0, 30.0, 242.0, 5.0, 2.0, 0, 0)
  {
  }

  /** A ball at x = 50 moving at -5 is still 15 units short of the left
      paddle's face after one frame, so no hit is registered yet. */
  lemma NotYetAtPaddle()
    ensures Update(State(200.0, 200.0, 50.0, 240.0, -5.0, 2.0, 0, 0), 800.0, 500.0, Draws(0.5, 0.5, 0.5))
         == State(200.0, 193.0, 45.0, 242.0, -5.0, 2.0, 0, 0)
  {
  }

  /** A ball that passes the left edge below the left paddle gives the
      right side a point and is served from the centre towards the right. */
  lemma LeftExitServesRight()
    ensures Update(State(0.0, 200.0, 3.0, 240.0, -5.0, 2.0, 0, 0), 800.0, 500.0, Draws(0.5, 0.5, 0.75))
         == State(0.0, 193.0, 392.0, 242.0, 5.0, 2.5, 0, 1)
  {
  }
}
