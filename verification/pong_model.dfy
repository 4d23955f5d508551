/** The world of the Pong game and one frame of its simulation, as values.
    Positions are measured in canvas pixels, with y growing downwards; the
    browser's doubles are modelled as exact reals. */
module PongModel {

  // Dimensions and speeds fixed by the game script.
  const PaddleWidth: real := 12.0
  const PaddleHeight: real := 80.0
  const PaddleMargin: real := 10.0
  const BallSize: real := 14.0
  const LeftPaddleSpeed: real := 7.0
  const RightPaddleSpeed: real := 5.0
  const BallSpeed: real := 5.0

  /** Math.PI, as the double the script multiplies by. */
  const Pi: real := 3.141592653589793

  /** A paddle: its top-left corner, its size and how far it moves per frame. */
  datatype Paddle = Paddle(x: real, y: real, width: real, height: real, speed: real)

  /** The ball: its top-left corner, its side, its scalar speed and its velocity. */
  datatype Ball = Ball(x: real, y: real, size: real, speed: real, dx: real, dy: real)

  /** Everything the simulation changes: both paddles, the ball and the two scores. */
  datatype World = World(left: Paddle, right: Paddle, ball: Ball, leftScore: nat, rightScore: nat)

  /** The drawing surface's size, fixed for a session. */
  datatype Canvas = Canvas(width: real, height: real)

  /** The host's Math.cos and Math.sin, about which the model assumes nothing
      beyond what a lemma asks for by TrigAtZero. */
  datatype Trig = Trig(cos: real -> real, sin: real -> real)

  predicate TrigAtZero(t: Trig) {
    t.cos(0.0) == 1.0 && t.sin(0.0) == 0.0
  }

  predicate PaddleInField(c: Canvas, p: Paddle) {
    0.0 <= p.y && p.y + p.height <= c.height
  }

  predicate BallInField(c: Canvas, b: Ball) {
    0.0 <= b.x && b.x + b.size <= c.width && 0.0 <= b.y && b.y + b.size <= c.height
  }

  /** The sizes that never change: both paddles and the ball fit on the canvas,
      and a paddle has a face to hit. */
  predicate WellFormed(c: Canvas, w: World) {
    0.0 < w.left.height <= c.height && 0.0 < w.right.height <= c.height &&
    w.ball.size <= c.width && w.ball.size <= c.height
  }

  /** The invariant kept between frames: sizes as above, both paddles and the ball
      wholly inside the canvas. */
  predicate Inv(c: Canvas, w: World) {
    WellFormed(c, w) && PaddleInField(c, w.left) && PaddleInField(c, w.right) && BallInField(c, w.ball)
  }

  /** Same dimensions and speeds: only positions, velocities and scores move. */
  predicate SameShape(w: World, v: World) {
    v.left.(y := w.left.y) == w.left && v.right.(y := w.right.y) == w.right &&
    v.ball.size == w.ball.size && v.ball.speed == w.ball.speed
  }

  /** The bounds clamp applied to a paddle's top edge: first against the top of
      the canvas, then against the bottom. */
  function ClampTop(y: real, h: real, height: real): (r: real)
    ensures h <= height ==> 0.0 <= r <= height - h
    ensures 0.0 <= y <= height - h ==> r == y
    ensures y < 0.0 && h <= height ==> r == 0.0
    ensures y > height - h ==> r == height - h
    ensures height < h ==> r == height - h
  {
    var top := if y < 0.0 then 0.0 else y;
    if top + h > height then height - h else top
  }

  /** The mouse handler: centre the left paddle on the pointer, then clamp. */
  function TrackPointer(c: Canvas, p: Paddle, mouseY: real): (q: Paddle)
    ensures q == p.(y := q.y)
    ensures p.height <= c.height ==> PaddleInField(c, q)
    ensures 0.0 <= mouseY - p.height / 2.0 <= c.height - p.height ==> q.y == mouseY - p.height / 2.0
    ensures mouseY - p.height / 2.0 < 0.0 && p.height <= c.height ==> q.y == 0.0
    ensures mouseY - p.height / 2.0 > c.height - p.height ==> q.y == c.height - p.height
  {
    p.(y := ClampTop(mouseY - p.height / 2.0, p.height, c.height))
  }

  /** The vertical centre of a paddle. */
  function PaddleCentre(p: Paddle): real {
    p.y + p.height / 2.0
  }

  /** How far a paddle's centre lies outside the ball's vertical extent. */
  function Gap(p: Paddle, b: Ball): (g: real)
    ensures 0.0 <= b.size ==> 0.0 <= g
    ensures g == 0.0 <==> b.y <= PaddleCentre(p) <= b.y + b.size
  {
    if PaddleCentre(p) < b.y then b.y - PaddleCentre(p)
    else if PaddleCentre(p) > b.y + b.size then PaddleCentre(p) - (b.y + b.size)
    else 0.0
  }

  /** The AI: one step of the right paddle's centre towards the ball, then clamp. */
  function FollowBall(c: Canvas, p: Paddle, b: Ball): (q: Paddle)
    ensures q == p.(y := q.y)
    ensures p.height <= c.height ==> PaddleInField(c, q)
    ensures PaddleCentre(p) < b.y && 0.0 <= p.y + p.speed <= c.height - p.height ==> q.y == p.y + p.speed
    ensures 0.0 <= b.size && PaddleCentre(p) > b.y + b.size && 0.0 <= p.y - p.speed <= c.height - p.height ==>
              q.y == p.y - p.speed
    // A step that would overshoot an edge stops at that edge.
    ensures p.height <= c.height && PaddleCentre(p) < b.y && p.y + p.speed > c.height - p.height ==>
              q.y == c.height - p.height
    ensures p.height <= c.height && 0.0 <= b.size && PaddleCentre(p) > b.y + b.size && p.y - p.speed < 0.0 ==>
              q.y == 0.0
    ensures b.y <= PaddleCentre(p) <= b.y + b.size && PaddleInField(c, p) ==> q == p
    // From inside the canvas it never moves away from the ball, nor by more than its speed.
    ensures PaddleInField(c, p) && 0.0 <= p.speed && PaddleCentre(p) < b.y ==> p.y <= q.y <= p.y + p.speed
    ensures PaddleInField(c, p) && 0.0 <= p.speed && 0.0 <= b.size && PaddleCentre(p) > b.y + b.size ==>
              p.y - p.speed <= q.y <= p.y
    // A step no longer than the ball never carries the centre past the ball.
    ensures PaddleInField(c, p) && 0.0 <= p.speed <= b.size ==> Gap(q, b) <= Gap(p, b)
  {
    var centre := PaddleCentre(p);
    var stepped :=
      if centre < b.y then p.y + p.speed
      else if centre > b.y + b.size then p.y - p.speed
      else p.y;
    p.(y := ClampTop(stepped, p.height, c.height))
  }

  /** The AI half of a frame. */
  function MoveAI(c: Canvas, w: World): (v: World)
    ensures v == w.(right := v.right)
    ensures v.right == FollowBall(c, w.right, w.ball)
    ensures Inv(c, w) ==> Inv(c, v)
  {
    w.(right := FollowBall(c, w.right, w.ball))
  }

  /** The pointer handler applied to the world. */
  function MoveLeftPaddle(c: Canvas, w: World, mouseY: real): (v: World)
    ensures v == w.(left := v.left)
    ensures v.left == TrackPointer(c, w.left, mouseY)
    ensures Inv(c, w) ==> Inv(c, v)
  {
    w.(left := TrackPointer(c, w.left, mouseY))
  }

  /** One frame of motion, before any wall or paddle is looked at. */
  function Integrate(b: Ball): (r: Ball)
    ensures r.x - b.x == b.dx && r.y - b.y == b.dy
    ensures r.(x := b.x, y := b.y) == b
  {
    b.(x := b.x + b.dx, y := b.y + b.dy)
  }

  /** The top and bottom walls: a ball past a wall is put back flush against it
      and its vertical velocity is reversed. */
  function BounceWalls(c: Canvas, b: Ball): (r: Ball)
    ensures r.(y := b.y, dy := b.dy) == b
    ensures b.size <= c.height ==> 0.0 <= r.y <= c.height - b.size
    ensures b.size <= c.height ==>
              (r.dy == if b.y < 0.0 || b.y + b.size > c.height then -b.dy else b.dy)
    ensures b.y < 0.0 && b.size <= c.height ==> r.y == 0.0
    ensures b.y + b.size > c.height ==> r.y == c.height - b.size
    ensures 0.0 <= b.y && b.y + b.size <= c.height ==> r == b
  {
    var top := if b.y < 0.0 then b.(y := 0.0, dy := -b.dy) else b;
    if top.y + top.size > c.height then top.(y := c.height - top.size, dy := -top.dy) else top
  }

  /** The vertical distance from the paddle's centre to the ball's centre,
      as a fraction of half the paddle's height. */
  function Offset(b: Ball, p: Paddle): (o: real)
    requires p.height > 0.0
    ensures o == 0.0 <==> b.y + b.size / 2.0 == PaddleCentre(p)
    ensures o > 0.0 <==> b.y + b.size / 2.0 > PaddleCentre(p)
    ensures p.y <= b.y + b.size / 2.0 <= p.y + p.height ==> -1.0 <= o <= 1.0
    // A ball that only overlaps the paddle vertically, as both collision tests
    // demand, can lie up to 1 + size / height away.
    ensures b.y + b.size > p.y && b.y < p.y + p.height ==> -(p.height + b.size) < o * p.height < p.height + b.size
  {
    var d := (b.y + b.size / 2.0) - PaddleCentre(p);
    var half := p.height / 2.0;
    QuotientFacts(d, half);
    d / half
  }

  /** Dividing by a positive half-height keeps the sign of d and maps
      [-half, half] into [-1, 1]. */
  lemma QuotientFacts(d: real, half: real)
    requires half > 0.0
    ensures d / half == 0.0 <==> d == 0.0
    ensures d / half > 0.0 <==> d > 0.0
    ensures -half <= d <= half ==> -1.0 <= d / half <= 1.0
  {
    var o := d / half;
    assert o * half == d;
    if o > 1.0 {
      assert o * half > 1.0 * half;
    }
    if o < -1.0 {
      assert o * half < -1.0 * half;
    }
    if o > 0.0 {
      assert o * half > 0.0;
    } else if o < 0.0 {
      assert o * half < 0.0;
    }
  }

  /** The deflection angle of a paddle hit: the offset scaled by Pi/4, so 45 degrees at either edge. */
  function Angle(b: Ball, p: Paddle): (a: real)
    requires p.height > 0.0
    ensures a == 0.0 <==> b.y + b.size / 2.0 == PaddleCentre(p)
    ensures a > 0.0 <==> b.y + b.size / 2.0 > PaddleCentre(p)
    ensures p.y <= b.y + b.size / 2.0 <= p.y + p.height ==> -Pi / 4.0 <= a <= Pi / 4.0
    ensures b.y + b.size / 2.0 == p.y ==> a == -Pi / 4.0
    ensures b.y + b.size / 2.0 == p.y + p.height ==> a == Pi / 4.0
  {
    Offset(b, p) * Pi / 4.0
  }

  /** The box-overlap test of the left paddle. */
  predicate HitsLeft(b: Ball, p: Paddle) {
    b.x < p.x + p.width && b.x > p.x && b.y + b.size > p.y && b.y < p.y + p.height
  }

  /** The box-overlap test of the right paddle. */
  predicate HitsRight(b: Ball, p: Paddle) {
    b.x + b.size > p.x && b.x + b.size < p.x + p.width && b.y + b.size > p.y && b.y < p.y + p.height
  }

  /** The velocity a paddle hit gives the ball, sent in direction dir. */
  function Deflect(t: Trig, b: Ball, p: Paddle, dir: real): (r: Ball)
    requires p.height > 0.0
    ensures r.(dx := b.dx, dy := b.dy) == b
    ensures TrigAtZero(t) && b.y + b.size / 2.0 == PaddleCentre(p) ==> r.dx == dir * b.speed && r.dy == 0.0
  {
    var a := Angle(b, p);
    b.(dx := dir * b.speed * t.cos(a), dy := b.speed * t.sin(a))
  }

  /** The left paddle: a ball overlapping it is put flush against its right face
      and sent rightwards. */
  function HitLeftPaddle(t: Trig, b: Ball, p: Paddle): (r: Ball)
    requires p.height > 0.0
    ensures r.y == b.y && r.size == b.size && r.speed == b.speed
    ensures !HitsLeft(b, p) ==> r == b
    ensures HitsLeft(b, p) ==> r.x == p.x + p.width && !HitsLeft(r, p)
    ensures HitsLeft(b, p) ==> r == Deflect(t, b, p, 1.0).(x := p.x + p.width)
    ensures HitsLeft(b, p) && TrigAtZero(t) && b.y + b.size / 2.0 == PaddleCentre(p) ==>
              r.dx == b.speed && r.dy == 0.0
  {
    if HitsLeft(b, p) then Deflect(t, b.(x := p.x + p.width), p, 1.0) else b
  }

  /** The right paddle: a ball overlapping it is put flush against its left face
      and sent leftwards. */
  function HitRightPaddle(t: Trig, b: Ball, p: Paddle): (r: Ball)
    requires p.height > 0.0
    ensures r.y == b.y && r.size == b.size && r.speed == b.speed
    ensures !HitsRight(b, p) ==> r == b
    ensures HitsRight(b, p) ==> r.x + r.size == p.x && !HitsRight(r, p)
    ensures HitsRight(b, p) ==> r == Deflect(t, b, p, -1.0).(x := p.x - b.size)
    ensures HitsRight(b, p) && TrigAtZero(t) && b.y + b.size / 2.0 == PaddleCentre(p) ==>
              r.dx == -b.speed && r.dy == 0.0
  {
    if HitsRight(b, p) then Deflect(t, b.(x := p.x - b.size), p, -1.0) else b
  }

  /** The ball after a point: centred on the canvas, moving horizontally in
      direction dir at its own speed, with a vertical velocity drawn from rnd,
      the value of Math.random(). */
  function ResetBall(c: Canvas, b: Ball, dir: real, rnd: real): (r: Ball)
    ensures r.size == b.size && r.speed == b.speed
    ensures r.x + r.size / 2.0 == c.width / 2.0 && r.y + r.size / 2.0 == c.height / 2.0
    ensures r.dx == b.speed * dir && r.dy == rnd * 4.0 - 2.0
    ensures 0.0 <= rnd < 1.0 ==> -2.0 <= r.dy < 2.0
    ensures b.size <= c.width && b.size <= c.height ==> BallInField(c, r)
  {
    b.(x := c.width / 2.0 - b.size / 2.0, y := c.height / 2.0 - b.size / 2.0,
       dx := b.speed * dir, dy := rnd * 4.0 - 2.0)
  }

  /** The score check: a ball out on the left is a point for the right player and
      restarts towards the left; a ball out on the right is a point for the left
      player and restarts towards the right. rLeft and rRight are the values
      Math.random() returns inside the two resets. */
  function CheckScore(c: Canvas, w: World, rLeft: real, rRight: real): (v: World)
    ensures v.left == w.left && v.right == w.right
    ensures w.ball.x < 0.0 && w.ball.size <= c.width ==>
              v.rightScore == w.rightScore + 1 && v.leftScore == w.leftScore &&
              v.ball == ResetBall(c, w.ball, -1.0, rLeft)
    ensures 0.0 <= w.ball.x && w.ball.x + w.ball.size > c.width ==>
              v.leftScore == w.leftScore + 1 && v.rightScore == w.rightScore &&
              v.ball == ResetBall(c, w.ball, 1.0, rRight)
    ensures 0.0 <= w.ball.x && w.ball.x + w.ball.size <= c.width ==> v == w
  {
    var afterLeft :=
      if w.ball.x < 0.0 then w.(rightScore := w.rightScore + 1, ball := ResetBall(c, w.ball, -1.0, rLeft))
      else w;
    if afterLeft.ball.x + afterLeft.ball.size > c.width then
      afterLeft.(leftScore := afterLeft.leftScore + 1, ball := ResetBall(c, afterLeft.ball, 1.0, rRight))
    else afterLeft
  }

  /** The ball as the score check sees it: moved, bounced off the walls and
      put through the left and then the right paddle's overlap test. */
  function Collide(c: Canvas, t: Trig, w: World): (b: Ball)
    requires w.left.height > 0.0 && w.right.height > 0.0
    ensures b.size == w.ball.size && b.speed == w.ball.speed
    ensures w.ball.size <= c.height ==> 0.0 <= b.y <= c.height - b.size
  {
    HitRightPaddle(t, HitLeftPaddle(t, BounceWalls(c, Integrate(w.ball)), w.left), w.right)
  }

  /** moveBall: one frame of the ball. At most one point is scored, and the
      ball ends the frame inside the canvas. */
  function MoveBall(c: Canvas, t: Trig, w: World, rLeft: real, rRight: real): (v: World)
    requires WellFormed(c, w)
    ensures v.left == w.left && v.right == w.right && SameShape(w, v)
    ensures w.leftScore <= v.leftScore && w.rightScore <= v.rightScore
    ensures v.leftScore + v.rightScore <= w.leftScore + w.rightScore + 1
    ensures BallInField(c, v.ball)
    ensures Inv(c, w) ==> Inv(c, v)
  {
    CheckScore(c, w.(ball := Collide(c, t, w)), rLeft, rRight)
  }

  /** A point is scored in moveBall exactly when the ball, after the walls and
      paddles, is out on one side, and it goes to the player on the other side. */
  lemma MoveBallScoring(c: Canvas, t: Trig, w: World, rLeft: real, rRight: real)
    requires WellFormed(c, w)
    ensures var b, v := Collide(c, t, w), MoveBall(c, t, w, rLeft, rRight);
            (b.x < 0.0 ==>
               v.rightScore == w.rightScore + 1 && v.leftScore == w.leftScore &&
               v.ball == ResetBall(c, b, -1.0, rLeft)) &&
            (0.0 <= b.x && b.x + b.size > c.width ==>
               v.leftScore == w.leftScore + 1 && v.rightScore == w.rightScore &&
               v.ball == ResetBall(c, b, 1.0, rRight)) &&
            (0.0 <= b.x && b.x + b.size <= c.width ==>
               v.leftScore == w.leftScore && v.rightScore == w.rightScore && v.ball == b)
  {
  }

  /** The simulation half of the game loop: the AI moves, then the ball. */
  function Tick(c: Canvas, t: Trig, w: World, rLeft: real, rRight: real): (v: World)
    requires WellFormed(c, w)
    ensures v.left == w.left && SameShape(w, v)
    ensures w.leftScore <= v.leftScore && w.rightScore <= v.rightScore
    ensures v.leftScore + v.rightScore <= w.leftScore + w.rightScore + 1
    ensures Inv(c, w) ==> Inv(c, v)
  {
    MoveBall(c, t, MoveAI(c, w), rLeft, rRight)
  }

  /** The world the script starts from: paddles centred on their sides, the ball
      centred and sent left or right by rDir, scores at zero. rDir and rDy are the
      two values Math.random() returns while the ball is built. */
  function InitialWorld(c: Canvas, rDir: real, rDy: real): (w: World)
    ensures w.leftScore == 0 && w.rightScore == 0
    ensures w.left.x == PaddleMargin && w.right.x + w.right.width == c.width - PaddleMargin
    ensures PaddleCentre(w.left) == c.height / 2.0 && PaddleCentre(w.right) == c.height / 2.0
    ensures w.left.width == PaddleWidth && w.left.height == PaddleHeight && w.left.speed == LeftPaddleSpeed
    ensures w.right.width == PaddleWidth && w.right.height == PaddleHeight && w.right.speed == RightPaddleSpeed
    // The ball starts centred on the canvas.
    ensures w.ball.x + w.ball.size / 2.0 == c.width / 2.0 && w.ball.y + w.ball.size / 2.0 == c.height / 2.0
    ensures w.ball.size == BallSize && w.ball.speed == BallSpeed
    ensures w.ball.dx == (if rDir > 0.5 then BallSpeed else -BallSpeed)
    ensures w.ball.dy == rDy * 4.0 - 2.0
    ensures 0.0 <= rDy < 1.0 ==> -2.0 <= w.ball.dy < 2.0
    ensures PaddleHeight <= c.height && BallSize <= c.width ==> Inv(c, w)
  {
    World(
      Paddle(PaddleMargin, c.height / 2.0 - PaddleHeight / 2.0, PaddleWidth, PaddleHeight, LeftPaddleSpeed),
      Paddle(c.width - PaddleMargin - PaddleWidth, c.height / 2.0 - PaddleHeight / 2.0,
             PaddleWidth, PaddleHeight, RightPaddleSpeed),
      Ball(c.width / 2.0 - BallSize / 2.0, c.height / 2.0 - BallSize / 2.0, BallSize, BallSpeed,
           5.0 * (if rDir > 0.5 then 1.0 else -1.0), rDy * 4.0 - 2.0),
      0, 0)
  }
}
