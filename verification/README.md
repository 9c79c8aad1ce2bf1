# Pong frame step in Dafny

A model of the simulation core of a browser Pong game (`game.js`): the
per-frame `update` that moves the ball, bounces it off the top and bottom
walls, checks the left and then the right paddle, scores a point and
re-serves the ball with `resetBall`, and moves the right paddle by its
tracking rule; plus the arithmetic of the `mousemove` handler that places
the left paddle under the pointer.

The game's globals become one immutable record `GameState.State` with the
eight fields `leftPaddleY`, `rightPaddleY`, `ballX`, `ballY`, `ballSpeedX`,
`ballSpeedY`, `leftScore`, `rightScore`. Every operation is a pure function
from a state to the next state:

- `settings.dfy` (`Settings`): the constants of game.js lines 8-15, the shape
  of a playable canvas (`ValidField`: at least one paddle high, and the
  paddle faces more than two ball widths apart), and `Spread`, the map from
  a `Math.random()` draw in [0, 1) to [-1, 1).
- `clamp.dfy` (`Clamping`): the two-step clamp both paddles use.
- `state.dfy` (`GameState`): the state record, the page-load state, the
  frame invariant `Inv`, and the mouse handler.
- `step.dfy` (`Step`): the phases of `update` in source order and their
  composition `Update`.
- `step_proofs.dfy` (`StepProofs`): properties that relate several phases.
- `session.dfy` (`Session`): pointer moves and frames interleaved in any
  order, and the invariant over whole sessions.
- `scenarios.dfy` (`Scenarios`): three concrete frames on an 800 by 500 canvas.

Modelling choices:

- Coordinates and speeds are exact `real`s. This abstracts JavaScript's
  doubles; nothing here is faithful to floating-point rounding.
- The canvas width and height are parameters `w` and `h`, constrained by
  `ValidField`. Canvas dimensions are integers in the browser; the model
  allows any real satisfying `ValidField`.
- Each `Math.random()` call site in `update` gets its own draw in a `Draws`
  record (left paddle nudge, right paddle nudge, serve). Page load takes two
  draws of its own. A draw is any real in [0, 1).
- The pointer height arrives already relative to the canvas top; reading
  the event and `getBoundingClientRect` is host I/O.

Quirks of game.js kept as written:

- After the ball leaves on the left (the right side scores) it is served
  rightwards, away from the player who lost the point, and after it leaves
  on the right it is served leftwards (game.js:105-112). `Step.Score` and
  `Scenarios.LeftExitServesRight` state this.
- The right paddle compares its centre with a top-edge target, so its
  unclamped step is zero exactly when its bottom edge is level with the
  ball's centre, not when it is centred on the ball
  (`StepProofs.AiRestPoint`, `StepProofs.CentredPaddleMovesUp`). Because it
  moves in steps of 7 it usually swings around that point rather than
  resting on it, and at the field edges the clamp holds it still while the
  step is nonzero (`StepProofs.PaddleHeldAtTop`).
- Both paddle checks run in every frame. `StepProofs.NoDoubleHit` shows that
  on a valid field a ball returned by the left paddle can never also trigger
  the right one in the same frame.
- A paddle hit needs the ball at or past the paddle face after the move, so
  a ball at x = 50 moving at -5 is not yet hit (`Scenarios.NotYetAtPaddle`).
- The serve's vertical speed is drawn from [-5, 5), which includes 0.

## Model

| member | source | states |
|---|---|---|
| Settings.Spread | game.js:90 | a random draw in [0, 1) is stretched to [-1, 1), negative exactly for draws below 0.5 |
| Settings.SpreadOnto | game.js:63 | every value of [-1, 1) comes from exactly one draw in [0, 1) |
| Clamping.Clamp | game.js:36-37 | the paddle clamp result never exceeds the upper bound, is at least 0 on a non-empty range, leaves an in-range value alone and maps too-low values to 0 and too-high values to the bound |
| Clamping.ClampIsNearest | game.js:123-124 | the clamped position is the point of the legal range closest to the unclamped one |
| Clamping.ClampMonotone | game.js:123-124 | clamping never reorders two positions |
| GameState.Initial | game.js:18-27 | at page load both scores are 0, both paddles and the ball are centred, the horizontal speed is 5 rightwards exactly when the first draw is below 0.5, and the vertical speed is 5 times the stretched second draw, so it lies in [-5, 5) |
| GameState.InitialSpeedOnto | game.js:24 | every vertical speed in [-5, 5) is the page-load speed for some draw |
| GameState.InitialInv | game.js:18-27 | the page-load state satisfies the frame invariant |
| GameState.LeftPaddleTarget | game.js:33-37 | the left paddle top edge always lies in [0, h - 100], equals the pointer height minus half a paddle when that is in range, and is 0 or h - 100 when that is below or above the range |
| GameState.LeftPaddleFollowsPointer | game.js:33 | with the pointer at least half a paddle from both edges the paddle's centre is exactly under it |
| GameState.MouseMove | game.js:30-38 | a pointer move changes only the left paddle, sets it to the clamped position under the pointer, and leaves it inside the field |
| GameState.MouseMoveLastWins | game.js:33-37 | of two pointer moves only the later one determines the paddle position |
| GameState.MouseMoveInv | game.js:33-37 | a pointer move keeps the frame invariant |
| Step.MoveBall | game.js:68-69 | only the ball's position changes, and each coordinate moves by exactly its speed |
| Step.Walls | game.js:72-79 | after the wall checks the ball's top edge is in [0, h - 16] and equals the clamped position; the vertical speed is inverted when a wall was crossed, otherwise nothing changes; its magnitude never changes |
| Step.Overlaps | game.js:84-85 | the ball's and a paddle's vertical extents overlap exactly when their centres are closer than half the sum of their heights |
| Step.LeftHit | game.js:83-85 | a left paddle hit is the ball's left edge at or past x = 30 with its centre less than 58 from the paddle's centre |
| Step.RightHit | game.js:95-97 | a right paddle hit is the ball's right edge at or past w - 30 with its centre less than 58 from the paddle's centre |
| Step.LeftPaddle | game.js:82-91 | on a left paddle hit the ball's x becomes 30, the horizontal speed is negated, the vertical speed changes by the stretched draw, an amount in [-1, 1), and the ball's y and everything else are untouched; without a hit nothing changes |
| Step.RightPaddle | game.js:94-102 | on a right paddle hit the ball's right edge is put on the paddle face at w - 30, the horizontal speed is negated, the vertical speed changes by the stretched draw, an amount in [-1, 1); without a hit nothing changes |
| Step.ResetBall | game.js:59-64 | a serve puts the ball's centre at the field's centre, the horizontal speed at magnitude 5 in the given direction and the vertical speed at 5 times the stretched draw, in [-5, 5), and changes nothing else |
| Step.Score | game.js:105-112 | a ball past x = 0 gives the right side one point and is served rightwards; a ball past the right edge gives the left side one point and is served leftwards; either serve's vertical speed is 5 times the stretched draw; a ball inside the field changes nothing; afterwards the ball is inside the field horizontally and the paddles are unchanged |
| Step.AiTarget | game.js:115 | the target is the top edge that would put the paddle's centre on the ball's centre |
| Step.AiStep | game.js:115-120 | the right paddle's unclamped move is +7 exactly when its centre is above the target, -7 exactly when below, and 0 exactly when equal |
| Step.Chase | game.js:115-124 | only the right paddle moves; it ends at the clamp of its position plus the AI step, so inside the field; it takes the AI step unclamped whenever that stays inside, moves at most 7 and never against the AI's direction |
| Step.Update | game.js:66-125 | one frame leaves the left paddle alone, leaves the right paddle and the ball inside the field, never lowers a score, adds at most one point in total, and after a point the ball is centred and served rightwards for the right side's point and leftwards for the left side's |
| StepProofs.NoDoubleHit | game.js:82-102 | on a valid field a ball returned by the left paddle cannot also hit the right paddle in the same frame |
| StepProofs.HitOnlyWhenApproaching | game.js:68-102 | between frames satisfying the invariant, the left paddle only hits a ball moving left and the right paddle only a ball moving right |
| StepProofs.RightScoresIff | game.js:68-108 | in any state, the right side scores exactly when the moved ball is past x = 0 and does not overlap the left paddle |
| StepProofs.LeftScoresIff | game.js:68-112 | in any state, the left side scores exactly when the moved ball is past the right edge and does not overlap the right paddle |
| StepProofs.UpdateInv | game.js:66-125 | a frame keeps the invariant: paddles and ball inside the field, horizontal speed of magnitude 5, and the ball never behind the face of the paddle it moves away from |
| StepProofs.AiRestPoint | game.js:115-120 | the right paddle's unclamped step is zero exactly when its bottom edge is level with the ball's centre |
| StepProofs.CentredPaddleMovesUp | game.js:115-120 | a right paddle centred on the ball still gets an unclamped step of 7 upwards |
| StepProofs.PaddleHeldAtTop | game.js:119-123 | a right paddle at the top edge whose step points up stays at 0 |
| StepProofs.WallsKeepHorizontalMotion | game.js:68-79 | after translation and the wall checks the ball is exactly one horizontal step further on with its horizontal speed, paddles and scores unchanged |
| StepProofs.LeftNudgeOnto | game.js:90 | on a left paddle hit every vertical speed change in [-1, 1) comes from some draw |
| StepProofs.RightNudgeOnto | game.js:101 | on a right paddle hit every vertical speed change in [-1, 1) comes from some draw |
| StepProofs.ServeOnto | game.js:63 | every vertical serve speed in [-5, 5) comes from some draw |
| Session.Run | game.js:148-151 | applying pointer moves and frames in order never lowers a score |
| Session.RunInv | game.js:148-151 | every state reached by pointer moves and frames from a state satisfying the invariant satisfies it |
| Session.RunScoreBound | game.js:148-151 | the total score grows by at most the number of frames |
| Session.SessionStaysInField | game.js:18-27 | from page load no sequence of pointer moves and frames takes a paddle or the ball outside the field |
| Scenarios.LeftPaddleReturn | game.js:82-91 | a ball reaching the left paddle face at (29, 242) is put at x = 30 and sent right at speed 5 |
| Scenarios.NotYetAtPaddle | game.js:83 | a ball at x = 50 moving at -5 ends the frame at x = 45 without a hit |
| Scenarios.LeftExitServesRight | game.js:105-107 | a ball leaving on the left under the paddle gives the right side a point and is served from (392, 242) rightwards |

## Left out

- Drawing (`drawRect`, `drawCircle`, `drawText`, `draw`) and canvas and context acquisition: presentation only.
- The `requestAnimationFrame` scheduling and the DOM event wiring, including `getBoundingClientRect`: host I/O. `Session.Run` takes the resulting order of pointer moves and frames as an input sequence.
- `Math.random()` itself: each call becomes a draw parameter in [0, 1).
- IEEE double rounding: coordinates are exact reals.
- A win threshold, a match-over state, speed progression, offset-based deflection, a dead-zone or predictive opponent, particles and sound are not in game.js and are not modelled.
