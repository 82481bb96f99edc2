/** hand_pong.py: the variant with the max/min paddle clamp, the five-tier hand mapping,
    a hit that always reverses the horizontal heading, a tracker that falls back to the
    middle of the frame, and collision by rectangle overlap. */
module HandPong {
  import opened Pong

  // ---------------------------------------------------------------------------
  // Paddle
  // ---------------------------------------------------------------------------

  /** The paddle clamp of Paddle.update: max(0, min(p, HEIGHT - height)). */
  function Clamp(p: int, height: int): (r: int)
    ensures height <= HEIGHT ==> 0 <= r <= HEIGHT - height
    ensures 0 <= p <= HEIGHT - height ==> r == p
    ensures r == p || r == 0 || r == HEIGHT - height
    ensures p < 0 ==> r == 0
    ensures height <= HEIGHT && p > HEIGHT - height ==> r == HEIGHT - height
  {
    Max(0, Min(p, HEIGHT - height))
  }

  class Paddle {
    const posx: int
    var posy: int
    const width: int
    const height: int
    const speed: int
    var rect: Rect

    /** The collision rectangle follows the paddle's position. */
    ghost predicate Valid()
      reads this
    {
      rect == PaddleRect(posx, posy, width, height)
    }

    constructor (posx: int, posy: int, width: int, height: int, speed: int)
      ensures Valid()
      ensures this.posx == posx && this.posy == posy && this.width == width
      ensures this.height == height && this.speed == speed
    {
      this.posx := posx;
      this.posy := posy;
      this.width := width;
      this.height := height;
      this.speed := speed;
      rect := PaddleRect(posx, posy, width, height);
    }

    /** Paddle.update: move by speed * yFac, then clamp into the screen. */
    method Update(yFac: int)
      requires Valid()
      modifies this
      ensures Valid()
      ensures posy == Clamp(old(posy) + speed * yFac, height)
      ensures height <= HEIGHT ==> 0 <= posy <= HEIGHT - height
    {
      posy := posy + speed * yFac;
      posy := Max(0, Min(posy, HEIGHT - height));
      rect := rect.(y := posy as real);
    }

    function GetRect(): (r: Rect)
      reads this
      requires Valid()
      ensures r == PaddleRect(posx, posy, width, height)
    {
      rect
    }
  }

  // ---------------------------------------------------------------------------
  // Ball
  // ---------------------------------------------------------------------------

  /** Ball.hit: speed up by SPEED_MULTIPLIER, always reverse horizontally, and also reverse
      vertically when the paddle is to the left of the ball. */
  function Deflected(b: BallState, paddleX: int): (r: BallState)
    ensures Boosted(b, r)
    ensures r.xFac == -b.xFac
    ensures r.yFac == if (paddleX as real) < b.posx then -b.yFac else b.yFac
    ensures b.Valid() ==> r.Valid()
    ensures b.speed >= 0.0 ==> r.speed >= b.speed
  {
    b.(speed := b.speed * SPEED_MULTIPLIER,
       yFac := b.yFac * (if (paddleX as real) < b.posx then -1 else 1),
       xFac := b.xFac * -1)
  }

  /** Ball.getRect: the square circumscribing the ball. */
  function BallRect(b: BallState): (r: Rect)
    ensures r.x + r.w / 2.0 == b.posx && r.y + r.h / 2.0 == b.posy
    ensures r.w == r.h == 2.0 * b.radius as real
  {
    Rect(b.posx - b.radius as real, b.posy - b.radius as real, 2.0 * b.radius as real, 2.0 * b.radius as real)
  }

  /** pygame's Rect.colliderect, taken as strict overlap of two rectangles of positive size. */
  predicate CollideRect(a: Rect, c: Rect) {
    a.w > 0.0 && a.h > 0.0 && c.w > 0.0 && c.h > 0.0 &&
    a.x < c.x + c.w && c.x < a.x + a.w && a.y < c.y + c.h && c.y < a.y + a.h
  }

  /** A ball collides with a rectangle only when its centre is within one radius of it on
      both axes. */
  lemma CollisionNeedsProximity(b: BallState, p: Rect)
    requires CollideRect(BallRect(b), p)
    ensures b.radius > 0
    ensures p.x - b.radius as real < b.posx < p.x + p.w + b.radius as real
    ensures p.y - b.radius as real < b.posy < p.y + p.h + b.radius as real
  {
  }

  class Ball {
    var posx: real
    var posy: real
    const radius: int
    var speed: real
    var xFac: int
    var yFac: int

    function State(): BallState
      reads this
    {
      BallState(posx, posy, radius, speed, xFac, yFac)
    }

    constructor (posx: real, posy: real, radius: int, speed: real)
      ensures State() == BallState(posx, posy, radius, speed, 1, -1)
      ensures State().Valid()
    {
      this.posx := posx;
      this.posy := posy;
      this.radius := radius;
      this.speed := speed;
      xFac := 1;
      yFac := -1;
    }

    /** Ball.update: returns the point, 0 or -1. */
    method Update() returns (point: int)
      modifies this
      ensures (State(), point) == Moved(old(State()))
      ensures point == 0 || point == -1
      ensures old(State()).Valid() ==> State().Valid()
    {
      // The specification of the whole update, taken before any field changes.
      ghost var moved := Moved(State());
      posx := posx + speed * xFac as real;
      posy := posy + speed * yFac as real;
      if posy <= radius as real || posy >= (HEIGHT - radius) as real {
        yFac := yFac * -1;
      }
      if posx <= radius as real {
        xFac := xFac * -1;
        point := 0;
      } else if posx >= (WIDTH - radius) as real {
        point := -1;
      } else {
        point := 0;
      }
      assert (State(), point) == moved;
    }

    /** Ball.reset (the sound it plays is left out). */
    method Reset()
      modifies this
      ensures State() == Recentred(old(State()))
      ensures posx == 450.0 && posy == 300.0 && speed == 7.0
      ensures xFac == -old(xFac) && yFac == old(yFac)
    {
      posx := (WIDTH / 2) as real;
      posy := (HEIGHT / 2) as real;
      xFac := xFac * -1;
      speed := 7.0;
    }

    /** Ball.hit */
    method Hit(paddleX: int)
      modifies this
      ensures State() == Deflected(old(State()), paddleX)
    {
      speed := speed * SPEED_MULTIPLIER;
      yFac := yFac * (if (paddleX as real) < posx then -1 else 1);
      xFac := xFac * -1;
    }

    function GetRect(): (r: Rect)
      reads this
      ensures r == BallRect(State())
    {
      Rect(posx - radius as real, posy - radius as real, 2.0 * radius as real, 2.0 * radius as real)
    }
  }

  // ---------------------------------------------------------------------------
  // Tracker
  // ---------------------------------------------------------------------------

  /** The vertical hand position the tracker reports for a frame: the middle of the frame
      when no contour was found, else the centre of the first largest contour. */
  function TrackedY(frame: Frame): (y: int)
    ensures frame.contours == [] ==> y == frame.height / 2
    ensures frame.contours != [] ==>
              var c := frame.contours[Largest(frame.contours)];
              c.y <= y <= c.y + c.h && y - c.y <= c.y + c.h - y <= y - c.y + 1
  {
    if |frame.contours| < 1 then frame.height / 2
    else Centre(frame.contours[Largest(frame.contours)])
  }

  class Webcam {
    /** im_frame.shape[0]: the height of the last captured frame. */
    var frameHeight: int
    var maxIndex: int
    var yPos: int

    constructor ()
      ensures maxIndex == 0 && yPos == 0
    {
      frameHeight := 0;
      maxIndex := 0;
      yPos := 0;
    }

    /** Webcam.cap_images after the OpenCV pipeline: record the frame and follow the
        largest contour, or fall back to the middle of the frame. */
    method CapImages(frame: Frame)
      modifies this
      ensures frameHeight == frame.height
      ensures yPos == TrackedY(frame)
      ensures frame.contours == [] ==> maxIndex == old(maxIndex)
      ensures frame.contours != [] ==> maxIndex == Largest(frame.contours)
    {
      var contours := frame.contours;
      if |contours| < 1 {
        frameHeight := frame.height;
        yPos := frameHeight / 2;
      } else {
        var areas := Areas(contours);
        maxIndex := ArgMax(areas);
        var cnt := contours[maxIndex];
        var y2 := cnt.y + cnt.h / 2;
        frameHeight := frame.height;
        yPos := y2;
      }
    }
  }

  // ---------------------------------------------------------------------------
  // Control mapping
  // ---------------------------------------------------------------------------

  /** The five-tier mapping from the hand's vertical position to the paddle's direction
      factor, first matching tier wins. */
  function FiveTier(yPos: int, frameHeight: nat): (f: int)
    ensures -2 <= f <= 2
  {
    if yPos >= frameHeight - MOVE_PIXEL_BUFFER * 3 then 2
    else if yPos > frameHeight / 2 + MOVE_PIXEL_BUFFER then 1
    else if yPos <= MOVE_PIXEL_BUFFER * 3 then -2
    else if yPos < frameHeight / 2 - MOVE_PIXEL_BUFFER then -1
    else 0
  }

  /** The frame is tall enough for the five tiers to lie in order along it. */
  predicate TiersOrdered(frameHeight: nat) {
    MOVE_PIXEL_BUFFER * 3 < frameHeight / 2 - MOVE_PIXEL_BUFFER &&
    frameHeight / 2 + MOVE_PIXEL_BUFFER < frameHeight - MOVE_PIXEL_BUFFER * 3
  }

  /** On a frame tall enough, each tier is one interval of positions. */
  lemma FiveTierIntervals(yPos: int, frameHeight: nat)
    requires TiersOrdered(frameHeight)
    ensures var m, b := frameHeight / 2, MOVE_PIXEL_BUFFER;
            && (FiveTier(yPos, frameHeight) == 2 <==> yPos >= frameHeight - 3 * b)
            && (FiveTier(yPos, frameHeight) == 1 <==> m + b < yPos < frameHeight - 3 * b)
            && (FiveTier(yPos, frameHeight) == 0 <==> m - b <= yPos <= m + b)
            && (FiveTier(yPos, frameHeight) == -1 <==> 3 * b < yPos < m - b)
            && (FiveTier(yPos, frameHeight) == -2 <==> yPos <= 3 * b)
  {
  }

  /** Moving the hand down never makes the paddle go up faster. */
  lemma FiveTierMonotone(y1: int, y2: int, frameHeight: nat)
    requires y1 <= y2
    ensures FiveTier(y1, frameHeight) <= FiveTier(y2, frameHeight)
  {
  }

  /** The tier boundaries for a 600-pixel frame. */
  lemma FiveTierExamples()
    ensures FiveTier(600, 600) == 2 && FiveTier(326, 600) == 1 && FiveTier(300, 600) == 0
    ensures FiveTier(75, 600) == -2 && FiveTier(274, 600) == -1
  {
  }

  /** With no contour the tracker reports the middle of the frame, which maps to no motion
      on any frame at least 152 pixels high. */
  lemma NoDetectionIsStill(frame: Frame)
    requires frame.contours == [] && frame.height >= 152
    ensures FiveTier(TrackedY(frame), frame.height) == 0
  {
  }

  // ---------------------------------------------------------------------------
  // Game loop
  // ---------------------------------------------------------------------------

  /** One pass of the main loop's body, after the quit check. */
  method Tick(paddle: Paddle, ball: Ball, webcam: Webcam, score: int, frame: Frame)
      returns (newScore: int, point: int)
    requires paddle.Valid()
    modifies paddle, ball, webcam
    ensures paddle.Valid()
    ensures webcam.frameHeight == frame.height && webcam.yPos == TrackedY(frame)
    ensures frame.contours != [] ==> webcam.maxIndex == Largest(frame.contours)
    ensures frame.contours == [] ==> webcam.maxIndex == old(webcam.maxIndex)
    ensures paddle.posy ==
              Clamp(old(paddle.posy) + paddle.speed * FiveTier(TrackedY(frame), frame.height), paddle.height)
    ensures var hit := CollideRect(BallRect(old(ball.State())), old(paddle.rect));
            && (ball.State(), point) == Stepped(if hit then Deflected(old(ball.State()), paddle.posx) else old(ball.State()))
            && newScore == ScoreStep(score, hit, point)
  {
    webcam.CapImages(frame);

    var playerYFac := 0;
    if webcam.yPos >= webcam.frameHeight - MOVE_PIXEL_BUFFER * 3 {
      playerYFac := 2;
    } else if webcam.yPos > webcam.frameHeight / 2 + MOVE_PIXEL_BUFFER {
      playerYFac := 1;
    } else if webcam.yPos <= MOVE_PIXEL_BUFFER * 3 {
      playerYFac := -2;
    } else if webcam.yPos < webcam.frameHeight / 2 - MOVE_PIXEL_BUFFER {
      playerYFac := -1;
    }
    assert playerYFac == FiveTier(webcam.yPos, frame.height);

    newScore := score;
    if CollideRect(ball.GetRect(), paddle.GetRect()) {
      ball.Hit(paddle.posx);
      newScore := newScore + 1;
    }

    paddle.Update(playerYFac);

    point := ball.Update();

    if point == -1 {
      if newScore > 0 {
        newScore := newScore - 1;
      }
    } else if point == 1 {
      // Ball.update only ever returns 0 or -1: this branch of the source is dead.
      assert false;
    }

    if point != 0 {
      ball.Reset();
    }
  }

  /** An input of the main loop for one tick: the captured frame and whether a quit event
      was pending. */
  datatype Input = Input(frame: Frame, quit: bool)

  /** main: the game objects as the source creates them, then the `while running` loop.
      A quit event ends the loop after the tick in which it was seen; the run also ends
      when the inputs run out. */
  method Run(inputs: seq<Input>) returns (score: int, ticks: nat, paddleY: int, finalBall: BallState)
    ensures ticks <= |inputs|
    ensures forall i :: 0 <= i < ticks - 1 ==> !inputs[i].quit
    ensures ticks < |inputs| ==> ticks > 0 && inputs[ticks - 1].quit
    ensures 0 <= score <= ticks
    ensures 0 <= paddleY <= HEIGHT - 100
    ensures finalBall.Valid() && finalBall.radius == 7
  {
    var running := true;
    var paddle := new Paddle(WIDTH - 30, 0, 10, 100, 10);
    var ball := new Ball((WIDTH / 2) as real, (HEIGHT / 2) as real, 7, 7.0);
    var webcam := new Webcam();

    score := 0;
    ticks := 0;
    while running && ticks < |inputs|
      invariant ticks <= |inputs|
      invariant forall i :: 0 <= i < ticks - 1 ==> !inputs[i].quit
      invariant running ==> forall i :: 0 <= i < ticks ==> !inputs[i].quit
      invariant !running ==> ticks > 0 && inputs[ticks - 1].quit
      invariant 0 <= score <= ticks
      invariant paddle.Valid() && paddle.height == 100
      invariant 0 <= paddle.posy <= HEIGHT - 100
      invariant ball.State().Valid() && ball.radius == 7
    {
      var point;
      score, point := Tick(paddle, ball, webcam, score, inputs[ticks].frame);
      if inputs[ticks].quit {
        running := false;
      }
      ticks := ticks + 1;
    }
    paddleY := paddle.posy;
    finalBall := ball.State();
  }
}
