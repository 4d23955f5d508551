/** Properties of the Pong simulation that relate several frames, several
    inputs, or the deflection geometry. */
module PongProperties {
  import opened PongModel

  /** What the host delivers between repaints: a pointer position, or a
      repaint that runs the simulation half of the game loop with the two
      Math.random() values its resets would draw. */
  datatype Event = PointerMoved(mouseY: real) | Frame(rLeft: real, rRight: real)

  /** One host event applied to the world. */
  function Step(c: Canvas, t: Trig, w: World, e: Event): (v: World)
    requires WellFormed(c, w)
    ensures WellFormed(c, v) && SameShape(w, v)
    ensures w.leftScore <= v.leftScore && w.rightScore <= v.rightScore
    ensures e.PointerMoved? ==> v.leftScore == w.leftScore && v.rightScore == w.rightScore
    ensures v.leftScore + v.rightScore <= w.leftScore + w.rightScore + 1
    ensures Inv(c, w) ==> Inv(c, v)
  {
    match e
    case PointerMoved(y) => MoveLeftPaddle(c, w, y)
    case Frame(rl, rr) => Tick(c, t, w, rl, rr)
  }

  /** A session: the events applied in order. */
  function Run(c: Canvas, t: Trig, w: World, evs: seq<Event>): World
    requires WellFormed(c, w)
    decreases |evs|
  {
    if evs == [] then w else Run(c, t, Step(c, t, w, evs[0]), evs[1..])
  }

  /** The number of repaints among the events. */
  function Frames(evs: seq<Event>): nat
    decreases |evs|
  {
    if evs == [] then 0 else (if evs[0].Frame? then 1 else 0) + Frames(evs[1..])
  }

  /** Over any session both paddles and the ball stay inside the canvas. */
  lemma {:induction false} RunKeepsInvariant(c: Canvas, t: Trig, w: World, evs: seq<Event>)
    requires Inv(c, w)
    ensures Inv(c, Run(c, t, w, evs))
    decreases |evs|
  {
    if evs != [] {
      RunKeepsInvariant(c, t, Step(c, t, w, evs[0]), evs[1..]);
    }
  }

  /** Over any session neither score goes down, and no more points are scored
      than there were repaints. */
  lemma {:induction false} RunScoresBounded(c: Canvas, t: Trig, w: World, evs: seq<Event>)
    requires WellFormed(c, w)
    ensures var v := Run(c, t, w, evs);
            w.leftScore <= v.leftScore && w.rightScore <= v.rightScore &&
            v.leftScore + v.rightScore <= w.leftScore + w.rightScore + Frames(evs)
    decreases |evs|
  {
    if evs != [] {
      RunScoresBounded(c, t, Step(c, t, w, evs[0]), evs[1..]);
    }
  }

  /** n frames of the AI against a ball that stays where it is. */
  function FollowStill(c: Canvas, p: Paddle, b: Ball, n: nat): Paddle
    decreases n
  {
    if n == 0 then p else FollowStill(c, FollowBall(c, p, b), b, n - 1)
  }

  /** With a step no longer than the ball, as in the script (5 against 14), the
      AI never oscillates: frame after frame its centre's distance from the
      ball's extent never grows, and it stays inside the canvas. */
  lemma {:induction false} AINeverOvershoots(c: Canvas, p: Paddle, b: Ball, n: nat)
    requires PaddleInField(c, p) && 0.0 <= p.speed <= b.size
    ensures PaddleInField(c, FollowStill(c, p, b, n))
    ensures Gap(FollowStill(c, p, b, n), b) <= Gap(p, b)
    decreases n
  {
    if n > 0 {
      AINeverOvershoots(c, FollowBall(c, p, b), b, n - 1);
    }
  }

  /** With a step longer than the ball the AI can oscillate for ever: a paddle
      3 pixels short of the ball with speed 20 is back where it started after
      two frames, still short of the ball. */
  lemma AICanOscillate() returns (c: Canvas, p: Paddle, b: Ball)
    ensures PaddleInField(c, p) && b.size < p.speed
    ensures Gap(p, b) > 0.0 && Gap(FollowBall(c, p, b), b) > 0.0
    ensures FollowStill(c, p, b, 2) == p
  {
    c := Canvas(800.0, 400.0);
    p := Paddle(768.0, 100.0, PaddleWidth, PaddleHeight, 20.0);
    b := Ball(400.0, 143.0, BallSize, BallSpeed, 0.0, 0.0);
    assert FollowBall(c, p, b) == p.(y := 120.0);
    assert FollowStill(c, p, b, 2) == FollowStill(c, p.(y := 120.0), b, 1);
  }

  /** The latest pointer event alone decides where the left paddle is:
      its previous position plays no part. */
  lemma PointerForgetsPrevious(c: Canvas, p: Paddle, y: real, mouseY: real)
    ensures TrackPointer(c, p.(y := y), mouseY) == TrackPointer(c, p, mouseY)
  {
  }

  /** A ball of the game's size brushing the bottom corner of a paddle of the
      game's size is a hit whose deflection angle is more than 45 degrees
      (Pi/4) away from the horizontal. */
  lemma SteepDeflection() returns (b: Ball, p: Paddle)
    ensures p.width == PaddleWidth && p.height == PaddleHeight && b.size == BallSize
    ensures HitsLeft(b, p) && Offset(b, p) > 1.0 && Angle(b, p) > Pi / 4.0
  {
    p := Paddle(PaddleMargin, 0.0, PaddleWidth, PaddleHeight, LeftPaddleSpeed);
    b := Ball(PaddleMargin + 1.0, 75.0, BallSize, BallSpeed, -BallSpeed, 0.0);
    assert Offset(b, p) == 42.0 / 40.0;
  }

  /** A hit whose centre is level with the right paddle's top edge leaves at
      -Pi/4, heading left and up; one level with its bottom edge leaves at
      +Pi/4, heading left and down. */
  lemma RightPaddleEdgeHits(t: Trig, b: Ball, p: Paddle)
    requires p.height > 0.0 && HitsRight(b, p)
    ensures b.y + b.size / 2.0 == p.y ==>
              HitRightPaddle(t, b, p).dx == -b.speed * t.cos(-Pi / 4.0) &&
              HitRightPaddle(t, b, p).dy == b.speed * t.sin(-Pi / 4.0)
    ensures b.y + b.size / 2.0 == p.y + p.height ==>
              HitRightPaddle(t, b, p).dx == -b.speed * t.cos(Pi / 4.0) &&
              HitRightPaddle(t, b, p).dy == b.speed * t.sin(Pi / 4.0)
  {
  }
}
