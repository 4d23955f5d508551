# Pong: a verified model of the per-frame simulation

The game is a browser script (`game.js`) with a two-paddle ball game. The
left paddle follows the mouse. The right paddle is moved by a simple AI. The
ball bounces off the top and bottom walls and off both paddles. A ball that
leaves on one side scores a point for the other side. The script keeps all of
this in module-level variables and updates them in place. This project models
that simulation in Dafny and proves what it keeps true from frame to frame.

- `pong_model.dfy` (module `PongModel`): the world as values. It holds the
  `Paddle`, `Ball`, `World` and `Canvas` datatypes, the script's constants and
  one function per step of the simulation. Each function's contract says what
  the step does to the world: the clamps, the wall reflection, the paddle
  hits, the reset and the score.
- `pong_game.dfy` (module `PongGame`): class `Game` with the script's mutable
  variables as fields. Its methods perform the script's assignments in the
  script's order. Each method is proved to leave the world equal to the
  matching `PongModel` function of the old world. `OnMouseMove`,
  `MoveAIPaddle`, `MoveBall` and `GameLoop` also keep `Valid()`: both
  paddles and the ball inside the canvas. The section methods that `MoveBall`
  calls pass through states where the ball may be outside it.
- `pong_properties.dfy` (module `PongProperties`): properties across frames.
  A session is a sequence of pointer events and repaints. Over any session
  the invariant holds and scores never decrease. No more points are scored
  than there were repaints. The module also proves three more facts. Only
  the latest pointer position matters. Against a ball that stays still, and
  with a step no longer than the ball, the AI never oscillates. A legal hit
  can deflect by more than 45 degrees.

Positions are exact reals. `Math.cos` and `Math.sin` are the two arrows of a
`Trig` value; the model assumes nothing about them unless a contract says
`TrigAtZero` (cos 0 = 1, sin 0 = 0). Each `Math.random()` call is a
parameter: `rDir` and `rDy` when the ball is first built, `rLeft` for the reset
after a left exit (`game.js:144`) and `rRight` for the reset after a right exit
(`game.js:148`). The canvas size is a constructor parameter. The constructor
requires the paddle height (80) to fit in the height and the ball size (14) to
fit in the width.

Points where the script's behaviour is easy to misread:
- A ball leaving on the left is a point for the right player. The script
  restarts it with `resetBall(-1)`, so it moves towards the left again with
  `dx = -speed`, towards the player who just conceded. Serving it towards the
  scorer instead would need `resetBall(1)` there; the model keeps `-1`.
- The exit tests use the ball's left edge (`ball.x < 0`) and its right edge
  (`ball.x + ball.size > canvas.width`), not its centre.
- The new vertical velocity `r * 4 - 2` lies in [-2, 2), not [-2, 2], because
  `Math.random()` never returns 1.
- The deflection offset is not clamped to [-1, 1]. `SteepDeflection` shows a
  hit by a ball of the game's size that deflects by more than 45 degrees.
  The contract of `Offset` gives the real bound, 1 + size / height.
- A paddle that steps a fixed amount towards a target can oscillate around
  it. Against a ball that stays still, with the script's numbers it cannot:
  its step (5) is shorter than the ball (14). `AINeverOvershoots` proves
  this, and `AICanOscillate` shows an oscillation once the step is longer
  than the ball. Neither says anything about a moving ball.

## Model

| member | source | states |
|---|---|---|
| `PongModel.InitialWorld` | game.js:11-39 | Scores start at 0. The left paddle's x is the margin, and the right paddle's right edge is the margin from the right side. Both paddles are 12 by 80 and vertically centred; the left one has speed 7 and the right one speed 5. The ball is 14 across with speed 5, and its centre is the canvas centre. Its dx is +5 or -5 by the random draw, and its dy is exactly `rDy * 4 - 2`, which lies in [-2, 2) for rDy in [0, 1). The world satisfies the invariant when the paddle height fits in the canvas height and the ball size fits in its width. |
| `PongGame.Game.constructor` | game.js:11-39 | Builds exactly `InitialWorld` for the given canvas and establishes `Valid()`. |
| `PongModel.ClampTop` | game.js:71-73 | For a paddle that fits, the result lies in [0, height - h]. A value already in range is kept. A value above the top goes to 0 and one below the bottom goes to height - h. A paddle taller than the canvas is pinned at height - h. |
| `PongModel.TrackPointer` | game.js:69-73 | Only the left paddle's y changes, and it ends inside the canvas. It is exactly `mouseY - height/2` whenever that value is in range, and otherwise it is the nearer edge. |
| `PongModel.MoveLeftPaddle` | game.js:65-74 | The pointer handler changes only the left paddle and keeps the invariant. |
| `PongGame.Game.OnMouseMove` | game.js:69-73 | Updates the left paddle in place to `MoveLeftPaddle` of the old world. The paddle lies in [0, H - height] and is centred on the pointer when that position is in range. `Valid()` is kept. |
| `PongModel.FollowBall` | game.js:77-88 | Only the right paddle's y changes, and it ends inside the canvas. If the centre is above the ball, the paddle moves by exactly +speed when that stays in range. If the centre is below the ball's bottom, it moves by exactly -speed when that stays in range. A step that would go past the bottom stops at H - height, and one that would go past the top stops at 0. An in-bounds paddle whose centre lies within the ball's vertical extent does not move. From inside the canvas the paddle never moves away from the ball and never by more than its speed. When the speed is at most the ball's size, the gap between the paddle's centre and the ball's extent does not grow. |
| `PongProperties.AINeverOvershoots` | game.js:77-88 | For a paddle inside the canvas whose speed is at most the ball's size (5 against 14 in the script), holding the ball still for any number of frames has two results (a moving ball is not covered). The paddle stays inside the canvas, and the distance from its centre to the ball's extent never grows, so it never oscillates. |
| `PongProperties.AICanOscillate` | game.js:77-88 | When the speed exceeds the ball's size, there is a paddle that is back at its starting position after two frames and never reaches the ball. |
| `PongModel.MoveAI` | game.js:77-88 | The AI changes only the right paddle, as `FollowBall` says, and keeps the invariant. |
| `PongGame.Game.MoveAIPaddle` | game.js:77-88 | Updates the right paddle in place to `MoveAI` of the old world. The paddle ends in [0, H - height] and `Valid()` is kept. |
| `PongModel.Integrate` | game.js:92-93 | The ball moves by exactly (dx, dy), and nothing else changes. |
| `PongModel.BounceWalls` | game.js:96-103 | Only y and dy change. y ends in [0, H - size]. dy is negated exactly when a wall was crossed and is otherwise unchanged. A ball past the top is set to y = 0, and a ball past the bottom to y = H - size. A ball inside is untouched. |
| `PongGame.Game.MoveAndBounceWalls` | game.js:92-103 | Updates the ball in place to `BounceWalls(Integrate(old ball))`. The paddles and scores are unchanged. |
| `PongModel.Offset` | game.js:115-116 | The offset is zero exactly when the ball's centre is level with the paddle's centre. It is positive exactly when the ball's centre is lower. It lies in [-1, 1] whenever the ball's centre is on the paddle's face. For a ball that passes a collision test's vertical overlap, the offset times the paddle height lies strictly within (-(height + size), height + size). |
| `PongModel.Angle` | game.js:117 | The angle is zero exactly at the paddle's centre and has the offset's sign. It lies within 45 degrees (Pi/4) either way whenever the ball's centre is on the face. The top edge gives exactly -Pi/4 and the bottom edge exactly +Pi/4. |
| `PongModel.Deflect` | game.js:118-120 | Changes only dx and dy. With cos 0 = 1 and sin 0 = 0, a centred hit gives dx = direction * speed and dy = 0. |
| `PongModel.HitLeftPaddle` | game.js:106-121 | With no overlap the ball is unchanged. On an overlap, x becomes `leftPaddle.x + leftPaddle.width`, the velocity is the deflection in direction +1, and the ball no longer overlaps the paddle. y, size and speed never change. A centred hit gives dx = speed and dy = 0. |
| `PongGame.Game.BounceLeftPaddle` | game.js:106-121 | Updates the ball in place to `HitLeftPaddle` of the old ball. Everything else is unchanged. |
| `PongProperties.RightPaddleEdgeHits` | game.js:124-139 | A right-paddle hit whose centre is level with the paddle's top edge leaves with dx = -speed * cos(-Pi/4) and dy = speed * sin(-Pi/4). One level with the bottom edge leaves with dx = -speed * cos(Pi/4) and dy = speed * sin(Pi/4). |
| `PongModel.HitRightPaddle` | game.js:124-139 | With no overlap the ball is unchanged. On an overlap, x becomes `rightPaddle.x - ball.size`, the velocity is the deflection in direction -1, and the ball no longer overlaps the paddle. y, size and speed never change. A centred hit gives dx = -speed and dy = 0. |
| `PongGame.Game.BounceRightPaddle` | game.js:124-139 | Updates the ball in place to `HitRightPaddle` of the old ball. Everything else is unchanged. |
| `PongModel.ResetBall` | game.js:152-157 | The ball's centre is the canvas centre, so it sits at (W/2 - size/2, H/2 - size/2). dx = speed * dir and dy = r*4 - 2, which lies in [-2, 2) for r in [0, 1). The ball is inside the canvas when it fits. Size and speed are kept. |
| `PongGame.Game.ResetBall` | game.js:152-157 | Updates the ball in place to `PongModel.ResetBall` of the old ball. Paddles and scores are unchanged. |
| `PongModel.CheckScore` | game.js:141-149 | A ball with x < 0 gives the right player exactly one point, leaves the left score alone and resets with direction -1. A ball with x >= 0 whose right edge is past the width gives the left player exactly one point and resets with direction +1. A ball inside leaves the world unchanged. The paddles never change. |
| `PongGame.Game.ScoreCheck` | game.js:141-149 | Updates the scores and the ball in place to `CheckScore` of the old world. |
| `PongModel.Collide` | game.js:92-139 | The ball the score check sees keeps its size and speed, and its y lies in [0, H - size]. |
| `PongModel.MoveBall` | game.js:91-150 | The paddles are untouched and neither score decreases. At most one point is scored in a frame, because the reset re-centres the ball and the second exit test then fails. The ball ends the frame inside the canvas, and the invariant is kept. |
| `PongModel.MoveBallScoring` | game.js:141-149 | Suppose the ball, after the walls and paddles, is out on the left. Then the right score rises by exactly 1, the left score is unchanged, and the ball is reset towards the left with rLeft. If the ball is out on the right instead, the left score rises by exactly 1 and the ball is reset towards the right with rRight. Otherwise both scores are unchanged and the ball is the collided ball. |
| `PongGame.Game.MoveBall` | game.js:91-150 | Updates the world in place to `PongModel.MoveBall` of the old world. Paddles are unchanged, scores never decrease and rise by at most 1 together, and `Valid()` is kept. |
| `PongModel.Tick` | game.js:172-174 | The AI step and then the ball step. The left paddle is untouched, scores never decrease and rise by at most 1, and the invariant is kept. |
| `PongGame.Game.GameLoop` | game.js:172-174 | Runs `MoveAIPaddle` then `MoveBall` in place, giving exactly `Tick` of the old world. `Valid()` is kept. |
| `PongProperties.Step` | game.js:172-176 | A pointer event or a repaint keeps the sizes fixed and keeps the invariant. A pointer event leaves the scores alone, and a repaint scores at most one point. |
| `PongProperties.RunKeepsInvariant` | game.js:172-176 | After any sequence of pointer events and repaints, both paddles and the ball are inside the canvas. |
| `PongProperties.RunScoresBounded` | game.js:172-176 | After any sequence of pointer events and repaints, neither score has decreased. No more points have been scored than there were repaints. |
| `PongProperties.PointerForgetsPrevious` | game.js:69-73 | Where the left paddle ends depends only on the latest pointer position, not on where it was before. |
| `PongProperties.SteepDeflection` | game.js:106-120 | A ball of size 14 overlapping a left paddle of the game's dimensions can have offset above 1 and deflection angle above Pi/4. |

## Left out

- Drawing (`drawRect`, `drawBall`, `drawNet`, `drawScore`, `draw`) is not modelled: it only paints the canvas.
- Finding the canvas and its 2D context is not modelled. The canvas size is a constructor parameter.
- The `mousemove` listener's registration and `getBoundingClientRect` are not modelled. `OnMouseMove` takes the pointer's y relative to the canvas.
- `requestAnimationFrame` scheduling is not modelled: the host decides when frames happen. `Run` covers any order of pointer events and repaints.
- `Math.random` is not modelled. Each call is a parameter. Only the dy bounds assume the value lies in [0, 1).
- `Math.cos` and `Math.sin` are uninterpreted. Away from the paddle's centre the deflection is stated in terms of cos and sin of the angle, not as a number.
- IEEE-754 doubles are modelled as exact reals. Rounding, `NaN` and `Infinity` are not represented.
- HitLeftPaddle, HitRightPaddle, Offset, Angle and Deflect require a paddle height above 0. Dividing by a zero half-height would give `Infinity` or `NaN` in the script, and its paddles are always 80 high.
- The left paddle's `speed` (7) is kept in the world but, as in the script, nothing reads it.
