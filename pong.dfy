/** Definitions shared by both variants of Hand Pong (hand_pong.py and main_window.py):
    the screen constants, the ball's motion and reset, the tracker's choice of the
    largest contour, and the per-tick score rule. */
module Pong {

  const WIDTH: int := 900
  const HEIGHT: int := 600
  /** Half-width of the dead zone around the middle of the camera frame, in pixels. */
  const MOVE_PIXEL_BUFFER: int := 25
  /** Factor applied to the ball's speed on every paddle hit. */
  const SPEED_MULTIPLIER: real := 1.25
  /** Speed the ball gets back when it is reset. */
  const BASE_SPEED: real := 7.0

  function Min(a: int, b: int): int { if a < b then a else b }
  function Max(a: int, b: int): int { if a < b then b else a }

  /** A direction factor of the ball: always -1 or 1. */
  predicate IsDirection(f: int) { f == -1 || f == 1 }

  /** An axis-aligned rectangle (pygame.Rect), with exact coordinates. */
  datatype Rect = Rect(x: real, y: real, w: real, h: real)

  /** The rectangle a paddle keeps for collision tests. */
  function PaddleRect(posx: int, posy: int, width: int, height: int): Rect {
    Rect(posx as real, posy as real, width as real, height as real)
  }

  // ---------------------------------------------------------------------------
  // Ball kinematics (Ball.update and Ball.reset are the same in both variants)
  // ---------------------------------------------------------------------------

  /** The simulation state of a ball: centre, radius, scalar speed and direction factors. */
  datatype BallState = BallState(posx: real, posy: real, radius: int, speed: real, xFac: int, yFac: int)
  {
    predicate Valid() { IsDirection(xFac) && IsDirection(yFac) }
  }

  /** The centre is within one radius of the top or the bottom edge. */
  predicate AtTopOrBottom(y: real, radius: int) {
    y <= radius as real || y >= (HEIGHT - radius) as real
  }

  /** Ball.update: one step of motion, the bounces, and the point it reports
      (0 for none, -1 when the ball passed the paddle's side of the screen). */
  function Moved(b: BallState): (r: (BallState, int))
    ensures r.0.posx == b.posx + b.speed * b.xFac as real
    ensures r.0.posy == b.posy + b.speed * b.yFac as real
    ensures r.0.speed == b.speed && r.0.radius == b.radius
    ensures r.0.yFac == if AtTopOrBottom(r.0.posy, b.radius) then -b.yFac else b.yFac
    ensures r.0.posx <= b.radius as real ==> r.0.xFac == -b.xFac && r.1 == 0
    ensures r.0.posx > b.radius as real ==>
              r.0.xFac == b.xFac && (r.1 == -1 <==> r.0.posx >= (WIDTH - b.radius) as real)
    ensures r.1 == 0 || r.1 == -1
    ensures b.Valid() ==> r.0.Valid()
  {
    var x := b.posx + b.speed * b.xFac as real;
    var y := b.posy + b.speed * b.yFac as real;
    var yFac := if y <= b.radius as real || y >= (HEIGHT - b.radius) as real then b.yFac * -1 else b.yFac;
    if x <= b.radius as real then
      (BallState(x, y, b.radius, b.speed, b.xFac * -1, yFac), 0)
    else if x >= (WIDTH - b.radius) as real then
      (BallState(x, y, b.radius, b.speed, b.xFac, yFac), -1)
    else
      (BallState(x, y, b.radius, b.speed, b.xFac, yFac), 0)
  }

  /** Ball.reset: back to the centre of the screen at the base speed, heading the other way. */
  function Recentred(b: BallState): (r: BallState)
    ensures r.posx == (WIDTH / 2) as real && r.posy == (HEIGHT / 2) as real
    ensures r.speed == BASE_SPEED && r.radius == b.radius
    ensures r.xFac == -b.xFac && r.yFac == b.yFac
    ensures b.Valid() ==> r.Valid()
  {
    BallState((WIDTH / 2) as real, (HEIGHT / 2) as real, b.radius, 7.0, b.xFac * -1, b.yFac)
  }

  /** The reset position and speed do not depend on where the ball was or how fast it went. */
  lemma RecentredForgetsPosition(a: BallState, b: BallState)
    requires a.radius == b.radius && a.xFac == b.xFac && a.yFac == b.yFac
    ensures Recentred(a) == Recentred(b)
  {
  }

  /** Ball.update never reports a point for the player (1): only 0 or -1. */
  lemma MovedNeverScoresForPlayer(b: BallState)
    ensures Moved(b).1 != 1
  {
  }

  /** A ball heading left that reaches the left wall is turned back to the right, with no point. */
  lemma LeftWallBounce(b: BallState)
    requires b.xFac == -1 && b.posx - b.speed <= b.radius as real
    ensures Moved(b).0.xFac == 1 && Moved(b).1 == 0
  {
  }

  /** A ball that passes the right-hand edge reports -1 and keeps its heading for the reset. */
  lemma RightEdgeMiss(b: BallState)
    requires b.xFac == 1 && b.posx + b.speed >= (WIDTH - b.radius) as real
    requires b.radius < WIDTH - b.radius
    ensures Moved(b).1 == -1 && Moved(b).0.xFac == 1
  {
  }

  /** Powers of a real number, for the speed after a run of hits. */
  function Pow(x: real, n: nat): real
  {
    if n == 0 then 1.0 else x * Pow(x, n - 1)
  }

  /** `after` is `before` hit by the paddle: SPEED_MULTIPLIER times as fast, at the same place.
      Both variants' Ball.hit do this; they differ only in the directions they reverse. */
  predicate Boosted(before: BallState, after: BallState) {
    && after.speed == before.speed * SPEED_MULTIPLIER
    && after.posx == before.posx && after.posy == before.posy && after.radius == before.radius
  }

  /** The number of true entries: the ticks of a rally in which the paddle hit the ball. */
  function CountTrue(hits: seq<bool>): nat
  {
    if hits == [] then 0
    else CountTrue(hits[..|hits| - 1]) + (if hits[|hits| - 1] then 1 else 0)
  }

  /** The speed after k hits starting from speed s, one SPEED_MULTIPLIER per hit. */
  function Boost(s: real, k: nat): real {
    if k == 0 then s else Boost(s, k - 1) * SPEED_MULTIPLIER
  }

  /** k hits multiply the speed by SPEED_MULTIPLIER^k. */
  lemma {:induction false} BoostIsPow(s: real, k: nat)
    ensures Boost(s, k) == s * Pow(SPEED_MULTIPLIER, k)
  {
    if k > 0 {
      BoostIsPow(s, k - 1);
      calc {
        Boost(s, k);
        (s * Pow(SPEED_MULTIPLIER, k - 1)) * SPEED_MULTIPLIER;
        s * (SPEED_MULTIPLIER * Pow(SPEED_MULTIPLIER, k - 1));
      }
    }
  }

  /** Hits never slow a ball down: a non-negative speed boosted k times is at least as large. */
  lemma {:induction false} BoostNeverSlows(s: real, k: nat)
    requires s >= 0.0
    ensures Boost(s, k) >= s
  {
    if k > 0 {
      BoostNeverSlows(s, k - 1);
    }
  }

  /** A rally as the main loop plays it, seen through the ball's speed: in tick i a hit
      (hits[i]) Boosts balls[i], and the rest of the tick, with no point, keeps the speed
      (Stepped), giving balls[i + 1]. After the rally the starting speed has been boosted
      once per hit. */
  lemma {:induction false} RallySpeed(balls: seq<BallState>, hits: seq<bool>)
    requires |balls| == |hits| + 1
    requires forall i {:trigger hits[i]} :: 0 <= i < |hits| ==>
               balls[i + 1].speed == if hits[i] then balls[i].speed * SPEED_MULTIPLIER else balls[i].speed
    ensures balls[|hits|].speed == Boost(balls[0].speed, CountTrue(hits))
  {
    if hits != [] {
      var n := |hits| - 1;
      RallySpeed(balls[..n + 1], hits[..n]);
    }
  }

  /** The end of a tick for the ball, after the hit if any: Ball.update, then Ball.reset when
      the returned point is not zero. Returns the new ball and the point. */
  function Stepped(b: BallState): (r: (BallState, int))
    ensures r.1 == Moved(b).1
    ensures r.1 == 0 ==> r.0 == Moved(b).0
    ensures r.1 != 0 ==> r.0 == Recentred(Moved(b).0)
    ensures r.1 == 0 || r.1 == -1
    ensures r.1 != 0 ==> r.0.posx == (WIDTH / 2) as real && r.0.posy == (HEIGHT / 2) as real
                         && r.0.speed == BASE_SPEED
    ensures r.1 == 0 ==> r.0.speed == b.speed && r.0.xFac == Moved(b).0.xFac
    ensures b.Valid() ==> r.0.Valid()
  {
    var (b1, point) := Moved(b);
    (if point != 0 then Recentred(b1) else b1, point)
  }

  /** A rally of real ticks with no miss, for either variant's Ball.hit (any deflect that
      Boosts the ball): in tick i the ball is deflected off a paddle at paddleX[i] when
      hits[i] holds, then Stepped with point 0. The speed after the rally is the starting
      speed boosted once per hit, that is s0 * SPEED_MULTIPLIER^hits by BoostIsPow. */
  lemma HitRallyFor(deflect: (BallState, int) -> BallState, balls: seq<BallState>, hits: seq<bool>,
                    paddleX: seq<int>)
    requires forall b: BallState, px: int {:trigger deflect(b, px)} :: Boosted(b, deflect(b, px))
    requires |balls| == |hits| + 1 && |paddleX| == |hits|
    requires forall i {:trigger hits[i]} :: 0 <= i < |hits| ==>
               Stepped(if hits[i] then deflect(balls[i], paddleX[i]) else balls[i]) == (balls[i + 1], 0)
    ensures balls[|hits|].speed == Boost(balls[0].speed, CountTrue(hits))
  {
    forall i {:trigger hits[i]} | 0 <= i < |hits|
      ensures balls[i + 1].speed == if hits[i] then balls[i].speed * SPEED_MULTIPLIER else balls[i].speed
    {
      var hit := if hits[i] then deflect(balls[i], paddleX[i]) else balls[i];
      assert Stepped(hit) == (balls[i + 1], 0);
      if hits[i] {
        var b, px := balls[i], paddleX[i];
        assert Boosted(b, deflect(b, px));
      }
    }
    RallySpeed(balls, hits);
  }

  // ---------------------------------------------------------------------------
  // Tracker: the contour records produced by the OpenCV pipeline
  // ---------------------------------------------------------------------------

  /** One contour of the foreground mask: its area and its bounding box. */
  datatype Contour = Contour(area: real, x: int, y: int, w: nat, h: nat)

  /** One captured frame, as the tracker sees it: the frame height and the contours found in it. */
  datatype Frame = Frame(height: nat, contours: seq<Contour>)

  /** The list comprehension of contour areas. */
  function Areas(cs: seq<Contour>): (r: seq<real>)
    ensures |r| == |cs|
    ensures forall i :: 0 <= i < |cs| ==> r[i] == cs[i].area
  {
    seq(|cs|, i requires 0 <= i < |cs| => cs[i].area)
  }

  /** np.argmax: the first index at which the maximum is attained. */
  function ArgMax(s: seq<real>): (k: nat)
    requires |s| > 0
    ensures k < |s|
    ensures forall j :: 0 <= j < |s| ==> s[j] <= s[k]
    ensures forall j :: 0 <= j < k ==> s[j] < s[k]
  {
    if |s| == 1 then 0
    else
      var k := ArgMax(s[..|s| - 1]);
      if s[k] < s[|s| - 1] then |s| - 1 else k
  }

  /** The two properties of ArgMax determine it: no other index is the first maximum. */
  lemma ArgMaxUnique(s: seq<real>, k: nat)
    requires k < |s|
    requires forall j :: 0 <= j < |s| ==> s[j] <= s[k]
    requires forall j :: 0 <= j < k ==> s[j] < s[k]
    ensures ArgMax(s) == k
  {
  }

  /** Vertical centre of a contour's bounding box: y + int(h / 2). */
  function Centre(c: Contour): (r: int)
    ensures c.y <= r <= c.y + c.h
    ensures r - c.y <= c.y + c.h - r <= r - c.y + 1
  {
    c.y + c.h / 2
  }

  /** Index of the contour the tracker follows: the first one of largest area. */
  function Largest(cs: seq<Contour>): (k: nat)
    requires |cs| > 0
    ensures k < |cs|
    ensures forall j :: 0 <= j < |cs| ==> cs[j].area <= cs[k].area
    ensures forall j :: 0 <= j < k ==> cs[j].area < cs[k].area
  {
    ArgMax(Areas(cs))
  }

  // ---------------------------------------------------------------------------
  // Score
  // ---------------------------------------------------------------------------

  /** The score rule of one tick: +1 on a paddle hit, then -1 on point -1 only while the
      score is positive, +1 on point 1. */
  function ScoreStep(score: int, hit: bool, point: int): (r: int)
    ensures score >= 0 ==> r >= 0
    ensures point != 1 ==> r <= score + (if hit then 1 else 0)
    ensures r >= score + (if hit then 1 else 0) - (if point == -1 then 1 else 0)
    ensures point == 0 ==> r == score + (if hit then 1 else 0)
    ensures point == -1 && score + (if hit then 1 else 0) > 0 ==> r == score + (if hit then 1 else 0) - 1
    ensures point == -1 && score + (if hit then 1 else 0) <= 0 ==> r == score + (if hit then 1 else 0)
    ensures point == 1 ==> r == score + (if hit then 1 else 0) + 1
  {
    var s := if hit then score + 1 else score;
    if point == -1 then
      (if s > 0 then s - 1 else s)
    else if point == 1 then
      s + 1
    else
      s
  }

  /** What one tick contributes to the score: whether the ball hit the paddle, and the point. */
  datatype Outcome = Outcome(hit: bool, point: int)

  /** The score after a sequence of ticks, starting from score. */
  function ScoreAfter(score: int, outcomes: seq<Outcome>): int
    decreases outcomes
  {
    if outcomes == [] then score
    else ScoreAfter(ScoreStep(score, outcomes[0].hit, outcomes[0].point), outcomes[1..])
  }

  function Hits(outcomes: seq<Outcome>): nat
  {
    if outcomes == [] then 0 else (if outcomes[0].hit then 1 else 0) + Hits(outcomes[1..])
  }

  function Misses(outcomes: seq<Outcome>): nat
  {
    if outcomes == [] then 0 else (if outcomes[0].point == -1 then 1 else 0) + Misses(outcomes[1..])
  }

  /** Over any run of ticks whose points come from Ball.update, the score stays non-negative,
      never exceeds the start plus the paddle hits, and is at least the start plus the hits
      minus the misses. */
  lemma {:induction false} ScoreBounds(score: int, outcomes: seq<Outcome>)
    requires score >= 0
    requires forall i :: 0 <= i < |outcomes| ==> outcomes[i].point != 1
    ensures 0 <= ScoreAfter(score, outcomes) <= score + Hits(outcomes)
    ensures ScoreAfter(score, outcomes) >= score + Hits(outcomes) - Misses(outcomes)
    decreases outcomes
  {
    if outcomes != [] {
      var o := outcomes[0];
      var s := ScoreStep(score, o.hit, o.point);
      assert forall i :: 0 <= i < |outcomes[1..]| ==> outcomes[1..][i] == outcomes[i + 1];
      ScoreBounds(s, outcomes[1..]);
    }
  }
}
