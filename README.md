# Hand Pong, modelled in Dafny

Hand Pong is a single-paddle Pong game. The player steers the paddle with a hand seen by
a webcam. Each frame goes through a background-subtraction pipeline. The tracker follows
the largest moving contour, and the vertical centre of that contour's bounding box is
mapped, tier by tier, to the paddle's direction factor. The ball moves in straight lines and bounces off the top,
the bottom and the left wall. Each paddle hit makes it 1.25 times faster. When the ball
passes the paddle's (right-hand) side, the player loses a point, never going below zero,
and the ball is reset to the centre at speed 7.

The repository holds two near-identical variants, `hand_pong.py` and `main_window.py`.
This project models the game logic of both:

- `pong.dfy`, module `Pong`: what the two variants share. This is the screen constants,
  `Ball.update` (`Moved`) and `Ball.reset` (`Recentred`) as functions on a `BallState`,
  the speed-up every hit applies (`Boosted`), the end of a tick (`Stepped`), the
  speed over a rally (`RallySpeed`, `HitRallyFor`, `BoostIsPow`), the contour records the OpenCV pipeline produces, the first-maximum `np.argmax`
  (`ArgMax`, `Largest`), the bounding-box centre, and the per-tick score rule (`ScoreStep`)
  with its bounds over a whole run.
- `hand_pong.dfy`, module `HandPong`: the classes `Paddle` (max/min clamp), `Ball` (a hit
  always reverses the horizontal heading) and `Webcam` (falls back to mid-frame when
  nothing moves). It also has the five-tier hand mapping, the collision test as rectangle
  overlap, one tick of the main loop (`Tick`) and the loop itself (`Run`).
- `main_window.dfy`, module `MainWindow`: the same for the other variant. Here the clamp
  is an if/elif, a hit reverses exactly one direction, the tracker holds its previous
  position, the mapping has three tiers, and the collision result is an input. Lemmas
  relate this variant to `HandPong`.

Ball position and speed are exact reals, so 7 × 1.25 = 8.75 exactly. Paddle positions,
frame heights and contour boxes are integers. The classes keep most of the source's field
names, with these renames: `paddle_rect` is `rect`, `max_index` is `maxIndex`, `y_pos` is
`yPos`, and the captured image `im_frame` is replaced by `frameHeight`, the only part of it
the game reads. The methods change the fields as the source does. Each method's postcondition ties
the new state to a pure function (`Moved`, `Recentred`, `Deflected`, `Clamp`, `TrackedY`).
The properties are proved about those functions.

Notes on the source's behaviour:

- The player never gains a point from `Ball.update`. It only returns 0 or -1, so the
  `point == 1` branch of the main loop is dead. The `Tick` methods prove this with
  `assert false` in that branch. Points are gained only by paddle hits.
- On a hit, `hand_pong.py` always reverses the horizontal heading. It also reverses the
  vertical heading when the paddle is left of the ball, because the conditional
  expression on line 181 is the whole right operand of `*=`. Only `main_window.py`
  reverses exactly one direction.
- Only a ball heading left (`xFac == -1`) can reach the left wall, where `Ball.update`
  turns it back with no point (`LeftWallBounce`).

## Model

| member | source | states |
|---|---|---|
| Pong.Moved | hand_pong.py:143-160 | `Ball.update` (identical at main_window.py:115-127): the ball moves by exactly `speed * xFac`, `speed * yFac` and keeps its speed. `yFac` flips iff the new centre is within a radius of the top or bottom. At the left wall `xFac` flips and the point is 0. Otherwise `xFac` is kept and the point is -1 iff the ball reached the right edge. The point is always 0 or -1, and valid directions stay valid. |
| Pong.Recentred | hand_pong.py:162-169 | `Ball.reset` (identical at main_window.py:129-133): the centre becomes (450, 300) and the speed 7. `xFac` is negated, `yFac` and the radius are kept, and valid directions stay valid. |
| Pong.RecentredForgetsPosition | hand_pong.py:166-169 | After a reset the position and speed are the same whatever the ball's prior position and speed. |
| Pong.MovedNeverScoresForPlayer | hand_pong.py:154-160 | `Ball.update` never returns 1, so the `point == 1` branch of the main loop (hand_pong.py:329-330) cannot run. |
| Pong.LeftWallBounce | hand_pong.py:154-156 | A ball heading left that reaches `x <= radius` turns right and reports no point. |
| Pong.RightEdgeMiss | hand_pong.py:157-158 | A ball heading right that reaches `x >= WIDTH - radius` reports -1 and keeps heading right. |
| Pong.RallySpeed | hand_pong.py:312-334 | Over any sequence of ticks in which a hit multiplies the speed by 1.25 and the rest of the tick keeps it, the speed after the rally is the starting speed boosted once per hit (`Boost` applied `CountTrue(hits)` times). |
| Pong.BoostIsPow | hand_pong.py:180 | Boosting a speed `s` k times gives exactly `s * 1.25^k`. |
| Pong.BoostNeverSlows | hand_pong.py:180 | Hits never slow the ball: a non-negative speed boosted k times is at least the starting speed. |
| Pong.HitRallyFor | hand_pong.py:312-334 | For a rally of real ticks with no miss (each tick is `Stepped` of the ball, deflected first when the paddle hit it, and returns point 0), with any hit function that is `Boosted`, the speed after the rally is the starting speed boosted once per hit, so `s0 * 1.25^hits` by `BoostIsPow`. Both `HandPong.Deflected` and `MainWindow.Deflected` ensure `Boosted`, so it covers the ticks of both variants (main_window.py:271-292 likewise). |
| Pong.Stepped | hand_pong.py:322-334 | The end of a tick for the ball, after any hit: the point is exactly `Ball.update`'s point (0 or -1). With point 0 the ball is exactly where `Ball.update` left it; with a non-zero point it is `Ball.reset` of that ball. A non-zero point leaves the ball at the centre with speed 7. A zero point keeps the speed and the heading `Ball.update` chose. Valid directions stay valid. |
| Pong.ArgMax | hand_pong.py:245 | `np.argmax`: the index is in range and holds the maximum. Every earlier element is strictly smaller, so it is the first maximum. |
| Pong.ArgMaxUnique | hand_pong.py:245 | Those two properties determine the index: any index that has them is `ArgMax`. |
| Pong.Largest | hand_pong.py:244-248 | The tracked contour has the largest area of all contours, and every earlier contour has a strictly smaller area. |
| Pong.Centre | hand_pong.py:254 | `y + int(h / 2)` lies within the bounding box's vertical span and splits it into halves that differ by at most one pixel. |
| Pong.ScoreStep | hand_pong.py:312-328 | The score rule of one tick, with `s` the score plus one on a hit: with point 0 the result is `s`; with point -1 it is `s - 1` when `s` is positive and `s` otherwise; with point 1 it is `s + 1`. A non-negative score stays non-negative, and a miss costs at most one point. |
| Pong.ScoreBounds | hand_pong.py:285-328 | Over any run of ticks whose points come from `Ball.update`, the score stays at least 0 and at most the start plus the hits. It is also at least the start plus the hits minus the misses. |
| HandPong.Clamp | hand_pong.py:86 | The clamp `max(0, min(p, HEIGHT - height))` is within `[0, HEIGHT - height]` when the paddle fits on the screen. A position already in range is kept. A position above the top gives `0`, and, for a paddle that fits, a position past the bottom gives `HEIGHT - height`. The result is always `p`, `0` or `HEIGHT - height`. |
| HandPong.Paddle.constructor | hand_pong.py:58-76 | Fields as given, with the collision rectangle at the paddle's position. |
| HandPong.Paddle.Update | hand_pong.py:78-87 | The new `posy` is the clamp of `posy + speed * yFac`, so it lies in `[0, HEIGHT - height]`. The rectangle follows, and `posx`, `width`, `height` and `speed` are constants. |
| HandPong.Paddle.GetRect | hand_pong.py:110-117 | The paddle's rectangle is exactly `(posx, posy, width, height)` at its current position. |
| HandPong.Deflected | hand_pong.py:173-182 | `Ball.hit`: the speed is multiplied by 1.25 and `xFac` is always negated. `yFac` is negated iff the paddle's x is left of the ball. The position is unchanged, directions stay valid, and a non-negative speed never drops. |
| HandPong.BallRect | hand_pong.py:190-197 | `Ball.getRect` is the square of side `2 * radius` centred on the ball. |
| HandPong.CollisionNeedsProximity | hand_pong.py:312 | Under the overlap reading of `colliderect`, a collision implies a positive radius and a ball centre within one radius of the paddle's rectangle on both axes. |
| HandPong.Ball.constructor | hand_pong.py:124-141 | Position, radius and speed as given, with `xFac = 1` and `yFac = -1`. |
| HandPong.Ball.Update | hand_pong.py:143-160 | The new state and returned point are those of `Moved`. The point is 0 or -1, and valid directions stay valid. |
| HandPong.Ball.Reset | hand_pong.py:162-169 | The new state is `Recentred` of the old one: (450, 300), speed 7, `xFac` negated, `yFac` kept. |
| HandPong.Ball.Hit | hand_pong.py:173-182 | The new state is `Deflected` of the old one for the paddle's x. |
| HandPong.Ball.GetRect | hand_pong.py:190-197 | The ball's rectangle is `BallRect` of its state. |
| HandPong.TrackedY | hand_pong.py:237-263 | With no contour the position is half the frame height. Otherwise it lies within the vertical span of the first largest contour and splits it into halves that differ by at most one pixel, which pins it to `y + int(h / 2)`. |
| HandPong.Webcam.constructor | hand_pong.py:204-218 | `max_index` and `y_pos` start at 0. |
| HandPong.Webcam.CapImages | hand_pong.py:220-263 | Records the frame height and sets `y_pos` to `TrackedY`. `max_index` becomes the first largest contour, or is kept when there is none. |
| HandPong.FiveTier | hand_pong.py:301-309 | The five-tier factor is always in {-2, ..., 2}. |
| HandPong.FiveTierIntervals | hand_pong.py:301-309 | On a frame tall enough for the tiers to be ordered, each factor holds on exactly one interval: `>= H - 75`, `(H/2 + 25, H - 75)`, `[H/2 - 25, H/2 + 25]`, `(75, H/2 - 25)` and `<= 75`. |
| HandPong.FiveTierMonotone | hand_pong.py:301-309 | The factor never decreases as the hand's position increases, for any frame height. |
| HandPong.FiveTierExamples | hand_pong.py:301-309 | For a 600-pixel frame: 600 → 2, 326 → 1, 300 → 0, 75 → -2, 274 → -1. |
| HandPong.NoDetectionIsStill | hand_pong.py:238-240 | With no contour the fallback mid-frame position maps to factor 0 on every frame at least 152 pixels high. |
| HandPong.Tick | hand_pong.py:290-334 | One loop body in order: track, map (five tiers), collide on the pre-tick rectangles, hit and score +1, paddle update, ball update, score adjustment, reset. The tracker's `y_pos`, the paddle and the score end up as `TrackedY`, `Clamp` and `ScoreStep` say. The tracker's `max_index` becomes `Largest` of the frame's contours, or keeps its previous value when there is none. The ball ends up as `Stepped` of `Deflected` (on a hit) or of the old ball. |
| HandPong.Run | hand_pong.py:273-334 | `main` on the source's starting objects stops right after the first tick that sees a quit. The score stays between 0 and the number of ticks, the paddle stays within `[0, HEIGHT - 100]`, and the ball's direction factors stay in {-1, 1} over the whole run. |
| MainWindow.Clamp | main_window.py:59-67 | The if/elif clamp is within `[0, HEIGHT - height]` when the paddle fits. A position already in range is kept. A position at or above the top gives `0`; otherwise a paddle whose bottom reaches the screen's bottom gives `HEIGHT - height`. The result is always `p`, `0` or `HEIGHT - height`. |
| MainWindow.ClampAgreesWithMaxMin | main_window.py:63-67 | For every paddle no taller than the screen, the if/elif clamp equals the max/min clamp of hand_pong.py:86. |
| MainWindow.ClampDiffersOnTallPaddle | main_window.py:63-67 | For a paddle taller than the screen the two clamps differ (-1 against 0), so the height condition above is needed. |
| MainWindow.Paddle.constructor | main_window.py:43-53 | Fields as given, with the collision rectangle at the paddle's position. |
| MainWindow.Paddle.Update | main_window.py:59-70 | The new `posy` is the if/elif clamp of `posy + speed * yFac`. When the paddle fits, it lies in `[0, HEIGHT - height]` and equals hand_pong.py's result. The rectangle follows. |
| MainWindow.Deflected | main_window.py:136-142 | `Ball.hit`: the speed is multiplied by 1.25. `yFac` alone is negated when the paddle is left of the ball, and `xFac` alone otherwise. For valid directions exactly one flips. |
| MainWindow.DeflectionsCompared | main_window.py:136-142 | The two variants' hits agree when the paddle is not left of the ball. When it is, hand_pong.py's hit is this one with `xFac` also negated. |
| MainWindow.Ball.constructor | main_window.py:84-93 | Position, radius and speed as given, with `xFac = 1` and `yFac = -1`. |
| MainWindow.Ball.Update | main_window.py:115-127 | The new state and returned point are those of `Moved`, the same as hand_pong.py's. The point is 0 or -1. |
| MainWindow.Ball.Reset | main_window.py:129-133 | The new state is `Recentred` of the old one: (450, 300), speed 7, `xFac` negated, `yFac` kept. |
| MainWindow.Ball.Hit | main_window.py:136-142 | The new state is `Deflected` of the old one for the paddle's x. |
| MainWindow.TrackedY | main_window.py:188-224 | With no contour the position is the previous one. Otherwise it lies within the vertical span of the first largest contour and splits it into halves that differ by at most one pixel, which pins it to `y + int(h / 2)`. |
| MainWindow.TrackersAgreeOnDetection | main_window.py:199-224 | When contours exist, both variants' trackers report the same position. They differ only in the no-contour fallback. |
| MainWindow.Webcam.constructor | main_window.py:149-164 | `max_index` and `y_pos` start at 0. |
| MainWindow.Webcam.CapImages | main_window.py:166-224 | Records the frame height. `y_pos` is held when there is no contour, and otherwise becomes the centre of the first largest contour, which `max_index` then names. |
| MainWindow.ThreeTier | main_window.py:262-268 | The factor is in {-1, 0, 1}, and it is 0 iff the position is within 25 pixels of mid-frame. |
| MainWindow.ThreeTierMonotone | main_window.py:262-268 | The factor never decreases as the hand's position increases. |
| MainWindow.ThreeTierSymmetric | main_window.py:262-268 | Positions mirrored about mid-frame map to opposite factors. |
| MainWindow.ThreeTierIsFiveTierDirection | main_window.py:262-268 | On a frame tall enough for five ordered tiers, the three-tier factor is the sign of hand_pong.py's five-tier factor. |
| MainWindow.Tick | main_window.py:247-292 | One loop body in order: track, map (three tiers), hit and score +1, paddle update, ball update, score adjustment, reset. The tracker's `y_pos`, the paddle and the score end up as `TrackedY`, `Clamp` and `ScoreStep` say. The tracker's `max_index` becomes `Largest` of the frame's contours, or keeps its previous value when there is none. The ball ends up as `Stepped` of `Deflected` (on a hit) or of the old ball. |
| MainWindow.Run | main_window.py:233-292 | `main` on the source's starting objects stops right after the first tick that sees a quit. The score stays between 0 and the number of ticks with a collision, the paddle stays within `[0, HEIGHT - 100]`, and the ball's direction factors stay in {-1, 1} over the whole run. |

## Left out

- Rendering is not modelled: `display`, `display_score`/`displayScore`, `screen.fill`/`blit`, the webcam overlay's scaling and opacity, and the annotation drawn on the frame (box, centre dot, coordinate text).
- Audio is not modelled: the `pygame.mixer` calls in `Ball.reset` and on a collision are side effects only.
- The OpenCV pipeline is a foreign library and is not modelled: `cap.read`, MOG2 background subtraction, `morphologyEx`, `medianBlur`, `threshold`, `findContours`, `contourArea` and `boundingRect`. Each frame is given as its height and its contour records (area and bounding box), which is all the game reads of it.
- Capture failure is not modelled. The source ignores `cap.read`'s success flag and an empty frame makes OpenCV raise. In the model a run simply ends when its inputs run out.
- The event loop and timing are not modelled: `pygame.event.get`, `clock.tick` and `cam_stop`. A quit event is an input flag per tick. The source notices it mid-tick, but that does not change the rest of the tick, so the loop stops after the tick.
- The paddle's colour is not modelled: the random change on collision (`random.choice`) and the colour fields are cosmetic.
- Float rounding is not modelled. Ball position and speed are exact reals, so nothing is claimed about Python float rounding. Nor is pygame's truncation of `Rect` coordinates to integers.
- HandPong.CollideRect: `pygame.Rect.colliderect` is taken to be strict overlap of two rectangles of positive size. Rectangles of negative size are not modelled.
- MainWindow.Tick: the collision is an input. main_window.py's `Ball.getRect` returns the rectangle of the last circle drawn on the screen, which is part of the rendering.
- The commented-out code is not modelled: the old `Ball.update` at main_window.py:99-114 and the keyboard controls at main_window.py:252-260.
- The paddle's `speed` in main_window.py is annotated as a float but is always the integer 10, so it is modelled as an integer.
- HandPong.Run: states bounds on the final score and paddle position, not the exact final state. The exact per-tick state is what `HandPong.Tick` states.
- MainWindow.Run: states bounds on the final score and paddle position, not the exact final state. The exact per-tick state is what `MainWindow.Tick` states.
