/** main_window.py: the variant with the if/elif paddle clamp, the three-tier hand mapping,
    a hit that reverses exactly one direction, a tracker that holds the previous position
    when nothing moves, and the collision test taken as an input. */
module MainWindow {
  import opened Pong
  import HandPong

  // ---------------------------------------------------------------------------
  // Paddle
  // ---------------------------------------------------------------------------

  /** The paddle clamp of Paddle.update, written as an if/elif. */
  function Clamp(p: int, height: int): (r: int)
    ensures height <= HEIGHT ==> 0 <= r <= HEIGHT - height
    ensures 0 <= p <= HEIGHT - height ==> r == p
    ensures r == p || r == 0 || r == HEIGHT - height
    ensures p <= 0 ==> r == 0
    ensures p > 0 && p + height >= HEIGHT ==> r == HEIGHT - height
  {
    if p <= 0 then 0
    else if p + height >= HEIGHT then HEIGHT - height
    else p
  }

  /** The if/elif clamp and the max/min clamp of hand_pong.py agree on every paddle that
      fits on the screen. */
  lemma ClampAgreesWithMaxMin(p: int, height: int)
    requires height <= HEIGHT
    ensures Clamp(p, height) == HandPong.Clamp(p, height)
  {
  }

  /** For a paddle taller than the screen the two clamps differ. */
  lemma ClampDiffersOnTallPaddle()
    ensures Clamp(1, HEIGHT + 1) == -1 && HandPong.Clamp(1, HEIGHT + 1) == 0
  {
  }

  class Paddle {
    const posx: int
    var posy: int
    const width: int
    const height: int
    const speed: int
    var rect: Rect

    /** The collision rectangle follows the paddle's position. */
    ghost predicate Valid()
      reads this
    {
      rect == PaddleRect(posx, posy, width, height)
    }

    constructor (posx: int, posy: int, width: int, height: int, speed: int)
      ensures Valid()
      ensures this.posx == posx && this.posy == posy && this.width == width
      ensures this.height == height && this.speed == speed
    {
      this.posx := posx;
      this.posy := posy;
      this.width := width;
      this.height := height;
      this.speed := speed;
      rect := PaddleRect(posx, posy, width, height);
    }

    /** Paddle.update: move by speed * yFac, then keep the paddle on the screen. */
    method Update(yFac: int)
      requires Valid()
      modifies this
      ensures Valid()
      ensures posy == Clamp(old(posy) + speed * yFac, height)
      ensures height <= HEIGHT ==> 0 <= posy <= HEIGHT - height
      ensures height <= HEIGHT ==> posy == HandPong.Clamp(old(posy) + speed * yFac, height)
    {
      posy := posy + speed * yFac;
      if posy <= 0 {
        posy := 0;
      } else if posy + height >= HEIGHT {
        posy := HEIGHT - height;
      }
      rect := PaddleRect(posx, posy, width, height);
      if height <= HEIGHT {
        ClampAgreesWithMaxMin(old(posy) + speed * yFac, height);
      }
    }
  }

  // ---------------------------------------------------------------------------
  // Ball
  // ---------------------------------------------------------------------------

  /** Ball.hit: speed up by SPEED_MULTIPLIER and reverse exactly one direction: the vertical
      one when the paddle is to the left of the ball, the horizontal one otherwise. */
  function Deflected(b: BallState, paddleX: int): (r: BallState)
    ensures Boosted(b, r)
    ensures (paddleX as real) < b.posx ==> r.yFac == -b.yFac && r.xFac == b.xFac
    ensures (paddleX as real) >= b.posx ==> r.xFac == -b.xFac && r.yFac == b.yFac
    ensures b.Valid() ==> r.Valid() && (r.xFac != b.xFac <==> r.yFac == b.yFac)
    ensures b.speed >= 0.0 ==> r.speed >= b.speed
  {
    var s := b.speed * SPEED_MULTIPLIER;
    if (paddleX as real) < b.posx then b.(speed := s, yFac := b.yFac * -1)
    else b.(speed := s, xFac := b.xFac * -1)
  }

  /** The two variants' hits agree when the paddle is not left of the ball; when it is,
      hand_pong.py also reverses the horizontal direction. */
  lemma DeflectionsCompared(b: BallState, paddleX: int)
    ensures (paddleX as real) >= b.posx ==> HandPong.Deflected(b, paddleX) == Deflected(b, paddleX)
    ensures (paddleX as real) < b.posx ==>
              HandPong.Deflected(b, paddleX) == Deflected(b, paddleX).(xFac := -b.xFac)
  {
  }

  class Ball {
    var posx: real
    var posy: real
    const radius: int
    var speed: real
    var xFac: int
    var yFac: int

    function State(): BallState
      reads this
    {
      BallState(posx, posy, radius, speed, xFac, yFac)
    }

    constructor (posx: real, posy: real, radius: int, speed: real)
      ensures State() == BallState(posx, posy, radius, speed, 1, -1)
      ensures State().Valid()
    {
      this.posx := posx;
      this.posy := posy;
      this.radius := radius;
      this.speed := speed;
      xFac := 1;
      yFac := -1;
    }

    /** Ball.update: returns the point, 0 or -1. */
    method Update() returns (point: int)
      modifies this
      ensures (State(), point) == Moved(old(State()))
      ensures point == 0 || point == -1
      ensures old(State()).Valid() ==> State().Valid()
    {
      // The specification of the whole update, taken before any field changes.
      ghost var moved := Moved(State());
      posx := posx + speed * xFac as real;
      posy := posy + speed * yFac as real;
      if posy <= radius as real || posy >= (HEIGHT - radius) as real {
        yFac := yFac * -1;
      }
      if posx <= radius as real {
        xFac := xFac * -1;
        point := 0;
      } else if posx >= (WIDTH - radius) as real {
        point := -1;
      } else {
        point := 0;
      }
      assert (State(), point) == moved;
    }

    /** Ball.reset */
    method Reset()
      modifies this
      ensures State() == Recentred(old(State()))
      ensures posx == 450.0 && posy == 300.0 && speed == 7.0
      ensures xFac == -old(xFac) && yFac == old(yFac)
    {
      posx := (WIDTH / 2) as real;
      posy := (HEIGHT / 2) as real;
      xFac := xFac * -1;
      speed := 7.0;
    }

    /** Ball.hit */
    method Hit(paddleX: int)
      modifies this
      ensures State() == Deflected(old(State()), paddleX)
    {
      speed := speed * SPEED_MULTIPLIER;
      if (paddleX as real) < posx {
        yFac := yFac * -1;
      } else {
        xFac := xFac * -1;
      }
    }
  }

  // ---------------------------------------------------------------------------
  // Tracker
  // ---------------------------------------------------------------------------

  /** The vertical hand position after a frame: unchanged when no contour was found, else
      the centre of the first largest contour. */
  function TrackedY(frame: Frame, previous: int): (y: int)
    ensures frame.contours == [] ==> y == previous
    ensures frame.contours != [] ==>
              var c := frame.contours[Largest(frame.contours)];
              c.y <= y <= c.y + c.h && y - c.y <= c.y + c.h - y <= y - c.y + 1
  {
    if |Areas(frame.contours)| < 1 then previous
    else Centre(frame.contours[Largest(frame.contours)])
  }

  /** When something moves, both variants' trackers follow the same contour to the same
      position; they differ only when nothing moves. */
  lemma TrackersAgreeOnDetection(frame: Frame, previous: int)
    requires frame.contours != []
    ensures TrackedY(frame, previous) == HandPong.TrackedY(frame)
  {
  }

  class Webcam {
    /** im_frame.shape[0]: the height of the last captured frame. */
    var frameHeight: int
    var maxIndex: int
    var yPos: int

    constructor ()
      ensures maxIndex == 0 && yPos == 0
    {
      frameHeight := 0;
      maxIndex := 0;
      yPos := 0;
    }

    /** Webcam.cap_images after the OpenCV pipeline: record the frame and follow the
        largest contour, or keep the previous position. */
    method CapImages(frame: Frame)
      modifies this
      ensures frameHeight == frame.height
      ensures yPos == TrackedY(frame, old(yPos))
      ensures frame.contours == [] ==> maxIndex == old(maxIndex)
      ensures frame.contours != [] ==> maxIndex == Largest(frame.contours)
    {
      var contours := frame.contours;
      var areas := Areas(contours);
      if |areas| < 1 {
        frameHeight := frame.height;
      } else {
        maxIndex := ArgMax(areas);
        var cnt := contours[maxIndex];
        var y2 := cnt.y + cnt.h / 2;
        frameHeight := frame.height;
        yPos := y2;
      }
    }
  }

  // ---------------------------------------------------------------------------
  // Control mapping
  // ---------------------------------------------------------------------------

  /** The three-tier mapping: down outside the dead zone below the middle, up outside it
      above, still inside it. */
  function ThreeTier(yPos: int, frameHeight: nat): (f: int)
    ensures -1 <= f <= 1
    ensures f == 0 <==> frameHeight / 2 - MOVE_PIXEL_BUFFER <= yPos <= frameHeight / 2 + MOVE_PIXEL_BUFFER
  {
    if yPos > frameHeight / 2 + MOVE_PIXEL_BUFFER then 1
    else if yPos < frameHeight / 2 - MOVE_PIXEL_BUFFER then -1
    else 0
  }

  /** Moving the hand down never makes the paddle go up. */
  lemma ThreeTierMonotone(y1: int, y2: int, frameHeight: nat)
    requires y1 <= y2
    ensures ThreeTier(y1, frameHeight) <= ThreeTier(y2, frameHeight)
  {
  }

  /** The dead zone is centred on the middle of the frame: positions mirrored about the
      middle map to opposite factors. */
  lemma ThreeTierSymmetric(d: int, frameHeight: nat)
    ensures ThreeTier(frameHeight / 2 + d, frameHeight) == -ThreeTier(frameHeight / 2 - d, frameHeight)
  {
  }

  function Sign(x: int): int { if x > 0 then 1 else if x < 0 then -1 else 0 }

  /** On a frame tall enough for the five tiers, the three-tier factor is the direction of
      hand_pong.py's five-tier factor. */
  lemma ThreeTierIsFiveTierDirection(yPos: int, frameHeight: nat)
    requires HandPong.TiersOrdered(frameHeight)
    ensures ThreeTier(yPos, frameHeight) == Sign(HandPong.FiveTier(yPos, frameHeight))
  {
  }

  // ---------------------------------------------------------------------------
  // Game loop
  // ---------------------------------------------------------------------------

  /** One pass of the main loop's body, after the quit check; hit is the result of the
      collision test between the ball and the paddle. */
  method Tick(paddle: Paddle, ball: Ball, webcam: Webcam, score: int, frame: Frame, hit: bool)
      returns (newScore: int, point: int)
    requires paddle.Valid()
    modifies paddle, ball, webcam
    ensures paddle.Valid()
    ensures webcam.frameHeight == frame.height && webcam.yPos == TrackedY(frame, old(webcam.yPos))
    ensures frame.contours != [] ==> webcam.maxIndex == Largest(frame.contours)
    ensures frame.contours == [] ==> webcam.maxIndex == old(webcam.maxIndex)
    ensures paddle.posy ==
              Clamp(old(paddle.posy) + paddle.speed * ThreeTier(webcam.yPos, frame.height), paddle.height)
    ensures (ball.State(), point) == Stepped(if hit then Deflected(old(ball.State()), paddle.posx) else old(ball.State()))
    ensures newScore == ScoreStep(score, hit, point)
  {
    webcam.CapImages(frame);

    var playerYFac;
    if webcam.yPos > webcam.frameHeight / 2 + MOVE_PIXEL_BUFFER {
      playerYFac := 1;
    } else if webcam.yPos < webcam.frameHeight / 2 - MOVE_PIXEL_BUFFER {
      playerYFac := -1;
    } else {
      playerYFac := 0;
    }

    newScore := score;
    if hit {
      ball.Hit(paddle.posx);
      newScore := newScore + 1;
    }

    paddle.Update(playerYFac);
    point := ball.Update();

    if point == -1 {
      if newScore > 0 {
        newScore := newScore - 1;
      }
    } else if point == 1 {
      // Ball.update only ever returns 0 or -1: this branch of the source is dead.
      assert false;
    }

    if point != 0 {
      ball.Reset();
    }
  }

  /** An input of the main loop for one tick: the captured frame, whether a quit event was
      pending, and whether the ball's rectangle met the paddle's. */
  datatype Input = Input(frame: Frame, quit: bool, hit: bool)

  /** The number of ticks among the inputs in which the ball met the paddle. */
  function CountHits(inputs: seq<Input>): nat
  {
    if inputs == [] then 0
    else CountHits(inputs[..|inputs| - 1]) + (if inputs[|inputs| - 1].hit then 1 else 0)
  }

  /** main: the game objects as the source creates them, then the `while running` loop.
      A quit event ends the loop after the tick in which it was seen; the run also ends
      when the inputs run out. */
  method Run(inputs: seq<Input>) returns (score: int, ticks: nat, paddleY: int, finalBall: BallState)
    ensures ticks <= |inputs|
    ensures forall i :: 0 <= i < ticks - 1 ==> !inputs[i].quit
    ensures ticks < |inputs| ==> ticks > 0 && inputs[ticks - 1].quit
    ensures 0 <= score <= CountHits(inputs[..ticks])
    ensures 0 <= paddleY <= HEIGHT - 100
    ensures finalBall.Valid() && finalBall.radius == 7
  {
    var running := true;
    var paddle := new Paddle(WIDTH - 30, 0, 10, 100, 10);
    var ball := new Ball((WIDTH / 2) as real, (HEIGHT / 2) as real, 7, 7.0);
    var webcam := new Webcam();

    score := 0;
    ticks := 0;
    while running && ticks < |inputs|
      invariant ticks <= |inputs|
      invariant forall i :: 0 <= i < ticks - 1 ==> !inputs[i].quit
      invariant running ==> forall i :: 0 <= i < ticks ==> !inputs[i].quit
      invariant !running ==> ticks > 0 && inputs[ticks - 1].quit
      invariant 0 <= score <= CountHits(inputs[..ticks])
      invariant paddle.Valid() && paddle.height == 100
      invariant 0 <= paddle.posy <= HEIGHT - 100
      invariant ball.State().Valid() && ball.radius == 7
    {
      var point;
      score, point := Tick(paddle, ball, webcam, score, inputs[ticks].frame, inputs[ticks].hit);
      assert inputs[..ticks + 1][..ticks] == inputs[..ticks];
      if inputs[ticks].quit {
        running := false;
      }
      ticks := ticks + 1;
    }
    paddleY := paddle.posy;
    finalBall := ball.State();
  }
}
