/** The game script's mutable world: the paddle, ball and score variables that
    the pointer handler, the AI and the ball step update in place. */
module PongGame {
  import opened PongModel

  class Game {
    const canvas: Canvas
    const trig: Trig
    var leftPaddle: Paddle
    var rightPaddle: Paddle
    var ball: Ball
    var leftScore: nat
    var rightScore: nat

    /** The current world as a value. */
    ghost function Model(): World
      reads this
    {
      World(leftPaddle, rightPaddle, ball, leftScore, rightScore)
    }

    /** Between frames both paddles and the ball lie inside the canvas. */
    ghost predicate Valid()
      reads this
    {
      Inv(canvas, Model())
    }

    /** The script's start-up: paddles centred on their sides, the ball centred,
        scores at zero. rDir and rDy stand for the two Math.random() values. */
    constructor (width: real, height: real, trig: Trig, rDir: real, rDy: real)
      requires PaddleHeight <= height && BallSize <= width
      ensures canvas == Canvas(width, height) && this.trig == trig
      ensures Valid() && Model() == InitialWorld(canvas, rDir, rDy)
    {
      canvas := Canvas(width, height);
      this.trig := trig;
      leftPaddle := Paddle(PaddleMargin, height / 2.0 - PaddleHeight / 2.0,
                           PaddleWidth, PaddleHeight, LeftPaddleSpeed);
      rightPaddle := Paddle(width - PaddleMargin - PaddleWidth, height / 2.0 - PaddleHeight / 2.0,
                            PaddleWidth, PaddleHeight, RightPaddleSpeed);
      ball := Ball(width / 2.0 - BallSize / 2.0, height / 2.0 - BallSize / 2.0, BallSize, BallSpeed,
                   5.0 * (if rDir > 0.5 then 1.0 else -1.0), rDy * 4.0 - 2.0);
      leftScore := 0;
      rightScore := 0;
    }

    /** The pointer handler: centre the left paddle on mouseY, then clamp it. */
    method OnMouseMove(mouseY: real)
      requires Valid()
      modifies this
      ensures Valid()
      ensures Model() == MoveLeftPaddle(canvas, old(Model()), mouseY)
      ensures 0.0 <= leftPaddle.y <= canvas.height - leftPaddle.height
      ensures 0.0 <= mouseY - leftPaddle.height / 2.0 <= canvas.height - leftPaddle.height ==>
                leftPaddle.y == mouseY - leftPaddle.height / 2.0
    {
      leftPaddle := leftPaddle.(y := mouseY - leftPaddle.height / 2.0);
      if leftPaddle.y < 0.0 {
        leftPaddle := leftPaddle.(y := 0.0);
      }
      if leftPaddle.y + leftPaddle.height > canvas.height {
        leftPaddle := leftPaddle.(y := canvas.height - leftPaddle.height);
      }
    }

    /** The AI: step the right paddle towards the ball, then clamp it. */
    method MoveAIPaddle()
      requires Valid()
      modifies this
      ensures Valid()
      ensures Model() == MoveAI(canvas, old(Model()))
      ensures 0.0 <= rightPaddle.y <= canvas.height - rightPaddle.height
    {
      var center := rightPaddle.y + rightPaddle.height / 2.0;
      if center < ball.y {
        rightPaddle := rightPaddle.(y := rightPaddle.y + rightPaddle.speed);
      } else if center > ball.y + ball.size {
        rightPaddle := rightPaddle.(y := rightPaddle.y - rightPaddle.speed);
      }
      if rightPaddle.y < 0.0 {
        rightPaddle := rightPaddle.(y := 0.0);
      }
      if rightPaddle.y + rightPaddle.height > canvas.height {
        rightPaddle := rightPaddle.(y := canvas.height - rightPaddle.height);
      }
    }

    /** resetBall: re-centre the ball after a point and aim it in direction dir;
        rnd stands for the Math.random() value. */
    method ResetBall(dir: real, rnd: real)
      modifies this
      ensures ball == PongModel.ResetBall(canvas, old(ball), dir, rnd)
      ensures leftPaddle == old(leftPaddle) && rightPaddle == old(rightPaddle)
      ensures leftScore == old(leftScore) && rightScore == old(rightScore)
    {
      ball := ball.(x := canvas.width / 2.0 - ball.size / 2.0);
      ball := ball.(y := canvas.height / 2.0 - ball.size / 2.0);
      ball := ball.(dx := ball.speed * dir);
      ball := ball.(dy := rnd * 4.0 - 2.0);
    }

    /** The first half of moveBall: one frame of motion, then the top and
        bottom walls. */
    method MoveAndBounceWalls()
      modifies this
      ensures ball == BounceWalls(canvas, Integrate(old(ball)))
      ensures leftPaddle == old(leftPaddle) && rightPaddle == old(rightPaddle)
      ensures leftScore == old(leftScore) && rightScore == old(rightScore)
    {
      ball := ball.(x := ball.x + ball.dx);
      ball := ball.(y := ball.y + ball.dy);
      if ball.y < 0.0 {
        ball := ball.(y := 0.0);
        ball := ball.(dy := ball.dy * -1.0);
      }
      if ball.y + ball.size > canvas.height {
        ball := ball.(y := canvas.height - ball.size);
        ball := ball.(dy := ball.dy * -1.0);
      }
    }

    /** The left-paddle test of moveBall. */
    method BounceLeftPaddle()
      requires leftPaddle.height > 0.0
      modifies this
      ensures leftPaddle == old(leftPaddle) && rightPaddle == old(rightPaddle)
      ensures ball == HitLeftPaddle(trig, old(ball), leftPaddle)
      ensures leftScore == old(leftScore) && rightScore == old(rightScore)
    {
      if ball.x < leftPaddle.x + leftPaddle.width && ball.x > leftPaddle.x &&
         ball.y + ball.size > leftPaddle.y && ball.y < leftPaddle.y + leftPaddle.height
      {
        ball := ball.(x := leftPaddle.x + leftPaddle.width);
        ball := ball.(dx := ball.dx * -1.0);
        var collidePoint := (ball.y + ball.size / 2.0) - (leftPaddle.y + leftPaddle.height / 2.0);
        collidePoint := collidePoint / (leftPaddle.height / 2.0);
        var angle := collidePoint * Pi / 4.0;
        assert angle == Angle(old(ball), leftPaddle);
        var direction := 1.0;
        ball := ball.(dx := direction * ball.speed * trig.cos(angle));
        ball := ball.(dy := ball.speed * trig.sin(angle));
      }
    }

    /** The right-paddle test of moveBall. */
    method BounceRightPaddle()
      requires rightPaddle.height > 0.0
      modifies this
      ensures leftPaddle == old(leftPaddle) && rightPaddle == old(rightPaddle)
      ensures ball == HitRightPaddle(trig, old(ball), rightPaddle)
      ensures leftScore == old(leftScore) && rightScore == old(rightScore)
    {
      if ball.x + ball.size > rightPaddle.x && ball.x + ball.size < rightPaddle.x + rightPaddle.width &&
         ball.y + ball.size > rightPaddle.y && ball.y < rightPaddle.y + rightPaddle.height
      {
        ball := ball.(x := rightPaddle.x - ball.size);
        ball := ball.(dx := ball.dx * -1.0);
        var collidePoint := (ball.y + ball.size / 2.0) - (rightPaddle.y + rightPaddle.height / 2.0);
        collidePoint := collidePoint / (rightPaddle.height / 2.0);
        var angle := collidePoint * Pi / 4.0;
        assert angle == Angle(old(ball), rightPaddle);
        var direction := -1.0;
        ball := ball.(dx := direction * ball.speed * trig.cos(angle));
        ball := ball.(dy := ball.speed * trig.sin(angle));
      }
    }

    /** The score check of moveBall: a point and a reset for each side the ball
        has left by. */
    method ScoreCheck(rLeft: real, rRight: real)
      modifies this
      ensures Model() == CheckScore(canvas, old(Model()), rLeft, rRight)
    {
      if ball.x < 0.0 {
        rightScore := rightScore + 1;
        ResetBall(-1.0, rLeft);
      }
      if ball.x + ball.size > canvas.width {
        leftScore := leftScore + 1;
        ResetBall(1.0, rRight);
      }
    }

    /** moveBall: move the ball, bounce it off the walls and the paddles, and
        score a point when it leaves on either side. rLeft and rRight stand for
        the Math.random() values drawn by the two resets. */
    method MoveBall(rLeft: real, rRight: real)
      requires Valid()
      modifies this
      ensures Valid()
      ensures Model() == PongModel.MoveBall(canvas, trig, old(Model()), rLeft, rRight)
      ensures leftPaddle == old(leftPaddle) && rightPaddle == old(rightPaddle)
      ensures old(leftScore) <= leftScore && old(rightScore) <= rightScore
      ensures leftScore + rightScore <= old(leftScore) + old(rightScore) + 1
    {
      MoveAndBounceWalls();
      BounceLeftPaddle();
      BounceRightPaddle();
      assert ball == Collide(canvas, trig, old(Model()));
      ScoreCheck(rLeft, rRight);
    }

    /** The simulation half of one pass of the game loop: the AI, then the ball. */
    method GameLoop(rLeft: real, rRight: real)
      requires Valid()
      modifies this
      ensures Valid()
      ensures Model() == Tick(canvas, trig, old(Model()), rLeft, rRight)
      ensures leftPaddle == old(leftPaddle)
      ensures old(leftScore) <= leftScore && old(rightScore) <= rightScore
      ensures leftScore + rightScore <= old(leftScore) + old(rightScore) + 1
    {
      MoveAIPaddle();
      MoveBall(rLeft, rRight);
    }
  }
}
