# Soccer table physics, modelled in Dafny

`soccer.py` is a small top-down soccer game. A ball and two player discs
slide on a 600 × 400 field with a goal pocket behind each side line. This
project models the physics in the game loop:

- **Arena** (`arena.dfy`): the screen, field and goal constants and the
  wall comparisons made against them. The field spans x ∈ [100, 700] and
  y ∈ [100, 500]. The goal mouth spans y ∈ [250, 350]. The goal back walls
  are at x = 55 and x = 745.
- **Bodies** (`bodies.dfy`): the physical object as a class `Body` with
  fields `x`, `y`, `mass`, `size`, `velX` and `velY`, updated in place:
  - `UpdatePos` adds the velocity to the position, then multiplies the
    velocity by `RESISTANCE` = 0.95.
  - `HandleWallCollision` runs the four independent wall checks. Each one
    negates `velX` or `velY`.
  - `HandleCollision` is the response to touching another object.
  - Each method is proved against a function on the value type
    `BodyState` (`Integrate`, `WallResponse`, `CollisionOutcome`), and the
    properties of those functions are proved as lemmas.
- **Pairing** (`pairing.dfy`): the list of unordered object pairs the loop
  builds, and the overlap test on two circles.
- **Scoring** (`scoring.dfy`): the goal test on the ball's x coordinate
  and the banner it draws.
- **Frame** (`frame.dfy`): one pass of the game loop over an array of
  bodies. Each body, in list order, gets wall check, integrate, wall
  check, integrate. Then each listed pair whose circles overlap goes to
  the collision handler, lower list position as `self`. Then the goal
  test runs on the ball.

Parameters and abstractions:

- **Collision formula.** The angle and magnitude formula inside
  `handleCollision` uses `atan2`, `cos` and `sin`. It is a parameter,
  `formula: (BodyState, BodyState) -> Rebound`, which gives the new
  velocities of the two objects it is handed. The code around it is
  modelled as written: a `self` at rest is handed to the formula first,
  otherwise `other` is. Only the two objects' velocities are written.
- **Overlap test.** `distance(...) <= size1 + size2` is modelled without
  the square root: the sum of the radii is non-negative and the squared
  distance is at most its square. `Pairing.OverlapIsDistanceTest` proves
  the two tests agree.
- **Numbers.** All quantities are Dafny `real`s, so arithmetic is exact.

- **What the code does not do.** The model follows the code, which:
  - never clamps a position at a wall and never clamps a speed;
  - makes the side-line check goal-aware on the whole vertical extent
    `[y - size, y + size]`, not on the centre;
  - runs the pair pass once per frame;
  - has no fragments, no rounds and no kind tag (the `Player` subclass
    only adds drawing state);
  - answers a collision with the angle heuristic, not an impulse with
    restitution.

## Model

| member | source | states |
|---|---|---|
| `Arena.ArenaValues` | soccer.py:19-28 | The derived constants are X_GAP = 100, field right 700, Y_GAP = 100, field bottom 500, GOAL_TOP = 250, GOAL_BOTTOM = 350, LEFT_GOAL_BACK = 55 and RIGHT_GOAL_BACK = 745. |
| `Arena.ArenaLayout` | soccer.py:19-28 | LEFT_GOAL_BACK < X_GAP < field right < RIGHT_GOAL_BACK. Y_GAP < GOAL_TOP < GOAL_BOTTOM < field bottom. The goal is centred vertically, both pockets are GOAL_DEPTH deep, and the field is centred on the screen. |
| `Bodies.SideWallHit` | soccer.py:96 | The side-line check: the horizontal extent crosses a side line and the vertical extent is not wholly within the goal mouth. |
| `Bodies.TouchLineHit` | soccer.py:99 | The touch-line check: the vertical extent crosses the top or bottom of the field. |
| `Bodies.BackWallHit` | soccer.py:104 | The back-wall check: the horizontal extent crosses the back wall of either goal. |
| `Bodies.PocketWallHit` | soccer.py:107 | The pocket check: the vertical extent leaves the goal mouth while the centre is outside the field's horizontal span. |
| `Bodies.WallResponse` | soccer.py:93-108 | One wall check never changes x, y, mass or size, and it keeps abs(velX) and abs(velY). |
| `Bodies.WallResponseVelX` | soccer.py:96-105 | velX changes exactly when it is non-zero and exactly one of the side-line check and the back-wall check fires. When velX changes, it is negated. |
| `Bodies.WallResponseVelY` | soccer.py:99-108 | velY changes exactly when it is non-zero and exactly one of the touch-line check and the pocket check fires. When velY changes, it is negated. |
| `Bodies.GoalMouthIsOpen` | soccer.py:96-97 | For a body whose vertical extent lies wholly within [GOAL_TOP, GOAL_BOTTOM], the side line never reverses velX; only the back wall can. |
| `Bodies.DoubleReflectionCancels` | soccer.py:96-108 | When the side-line and back-wall checks both fire, velX ends unchanged. When the touch-line and pocket checks both fire, velY ends unchanged. |
| `Bodies.PocketCheckNeedsPocket` | soccer.py:99-108 | While the centre x lies within [X_GAP, field right], the pocket check never fires, so velY is reversed exactly when the touch-line check fires, wherever the body is vertically. |
| `Bodies.InsideFieldIsQuiet` | soccer.py:93-108 | A body of non-negative radius whose whole extent is inside the field is left unchanged. |
| `Bodies.Body.HandleWallCollision` | soccer.py:93-108 | Runs the four checks in source order. It writes only velX and velY, and the new state is `WallResponse` of the old one. |
| `Bodies.Damp` | soccer.py:57-58 | Damping keeps the sign of a velocity component. A non-zero component strictly shrinks and never reaches zero. abs shrinks by exactly RESISTANCE. |
| `Bodies.Integrate` | soccer.py:53-58 | The position moves by the velocity from before damping. Speeds do not grow. Mass and size stay. |
| `Bodies.Body.UpdatePos` | soccer.py:53-58 | Writes only x, y, velX and velY. The new state is `Integrate` of the old one. |
| `Bodies.PowResistanceBounds` | soccer.py:36 | 0 < RESISTANCE^k <= 1, and RESISTANCE^k < 1 when k > 0. |
| `Bodies.DampedIsPower` | soccer.py:57-58 | A velocity component damped k times by the friction factor equals 0.95^k times the start value. |
| `Bodies.GlideComponents` | soccer.py:53-58 | k integration steps with no wall flip damp each velocity component k times and leave mass and size alone. |
| `Bodies.GlideVelocity` | soccer.py:53-58 | After k integration steps with no wall flip, the velocity is 0.95^k times the initial velocity. Mass and size are unchanged. |
| `Bodies.GlideDistance` | soccer.py:53-58 | Over k undisturbed steps, the distance covered along each axis is 20 times the speed lost. |
| `Bodies.GlidePosition` | soccer.py:53-58 | After k undisturbed steps, the position is the start plus 20·(1 - 0.95^k) times the initial velocity. |
| `Bodies.GlideBounds` | soccer.py:53-58 | An undisturbed moving body never stops. It never travels more than 20 times its initial speed along either axis. |
| `Bodies.Advance` | soccer.py:216-219 | One object's sequence in a frame: wall check, integrate, wall check, integrate. Its properties are in `AdvanceEffect`. |
| `Bodies.AdvanceEffect` | soccer.py:214-219 | Over one object's wall, integrate, wall, integrate sequence: mass and size stay, the position moves by the two velocities in force, and abs(velX) and abs(velY) shrink by exactly 0.95², whatever walls are hit. |
| `Bodies.RestingBodyStays` | soccer.py:214-219 | A body at rest wholly inside the field is unchanged by that sequence. |
| `Bodies.BallEntersLeftGoal` | soccer.py:214-219 | A ball one pixel inside the left side line, on the goal's axis, moving left at 12 px per step, ends the sequence past the side line. |
| `Bodies.CollisionOutcome` | soccer.py:61-90 | Only the two velocities change. A stationary `self` is handed to the formula first and takes its first result; otherwise `other` is handed first, and `self` takes the second result. |
| `Bodies.Body.HandleCollision` | soccer.py:61-90 | Writes only the velX and velY of the two objects. The new pair of states is `CollisionOutcome` of the old pair. |
| `Bodies.Body.constructor` | soccer.py:40-48 | A new object has the given position, mass and size, and zero velocity. |
| `Pairing.Pairs` | soccer.py:221 | The pair list of n objects: each position with each later one, in list order. Its properties are in `PairsEnumeration`. |
| `Pairing.PairsFromLength` | soccer.py:221 | The pairs starting at index i or later number (n-i)(n-i-1)/2. |
| `Pairing.PairsFromBounds` | soccer.py:221 | Every pair (p, q) starting at index i or later has i <= p < q < n. |
| `Pairing.PairsFromOrdered` | soccer.py:221 | The pairs starting at index i or later are in strictly increasing lexicographic order. |
| `Pairing.PairsFromComplete` | soccer.py:221 | Every pair i <= p < q < n is listed among the pairs starting at index i or later. |
| `Pairing.PairsEnumeration` | soccer.py:221 | The pair list of n objects has n(n-1)/2 entries. Each entry has i < j < n, and every such pair occurs. The list is in strictly increasing lexicographic order, so each pair occurs exactly once. |
| `Pairing.Overlapping` | soccer.py:223 | The overlap test without the square root: the sum of the radii is non-negative and the squared distance is at most its square. |
| `Pairing.OverlapIsDistanceTest` | soccer.py:223 | For d the distance between the centres, the squared overlap test holds exactly when d <= size1 + size2. |
| `Frame.AdvanceAll` | soccer.py:214-219 | Every object of the list gets its own `Advance`; the list keeps its length. |
| `Frame.Collide` | soccer.py:224 | Handling pair (i, j) changes only objects i and j, as `CollisionOutcome` says. No position, mass or size changes. |
| `Frame.Dispatch` | soccer.py:222-224 | The collision pass over a pair list changes no position, mass or size of any object. |
| `Frame.Contacts` | soccer.py:222-224 | The overlapping pairs of a pair list are themselves valid pairs of the list of objects. |
| `Frame.ContactsMembers` | soccer.py:222-224 | A pair is handed to the handler exactly when it is listed and its circles overlap. |
| `Frame.ContactsIgnoreVelocity` | soccer.py:222-224 | Overlap verdicts depend only on positions and sizes, not on velocities. |
| `Frame.DispatchUsesStartPositions` | soccer.py:222-224 | The pass equals running the handler, in list order, on exactly the pairs that overlap at the start of the pass. A handled collision never makes or breaks a later overlap. |
| `Frame.FrameResult` | soccer.py:214-224 | After a frame's physics, each object has its mass, size and position from its own wall-and-integrate sequence. |
| `Frame.FrameMovesEachObjectOnItsOwn` | soccer.py:214-224 | Over a frame, mass and size stay and each position is fixed by that object alone. Collisions change only velocities. |
| `Frame.WallPass` | soccer.py:214-219 | Each listed object gets wall, integrate, wall, integrate, and is touched by nothing else. |
| `Frame.HandlePair` | soccer.py:224 | The handler call on objects i and j changes the list's states as `Collide` says. |
| `Frame.CollisionPass` | soccer.py:221-224 | Builds the pair list and dispatches overlapping pairs, lower index as `self`. The new states are `Dispatch` of the old ones over `Pairs(n)`. |
| `Frame.Step` | soccer.py:214-243 | A frame: states become `FrameResult` of the old ones. The banners are those of the ball, the first listed object, under the goal test as written (`Banners`). |
| `Frame.Kickoff` | soccer.py:149-153 | The starting list is a ball at (600, 400) with mass 15 and size 10, then players at (200, 200) and (200, 460) with mass 30 and size 20, all at rest and distinct. |
| `Frame.KickoffIsAtRest` | soccer.py:149-153 | For every collision formula, a frame leaves the starting layout exactly as it is. |
| `Scoring.Banners` | soccer.py:238-243 | As written: "RED SCORE" shows exactly when ball.x < 0, and "BLUE SCORE" exactly when ball.x > X_GAP + FIELD_WIDTH. Never both at once. |
| `Scoring.LeftGoalGoesUnnoticed` | soccer.py:238-243 | As written, a ball with 0 <= x < X_GAP shows nothing, while its mirror image shows "BLUE SCORE". |
| `Scoring.BallInLeftGoalShowsNothing` | soccer.py:238-243 | A ball against the left goal's back wall shows nothing. Its mirror image against the right goal's back wall shows "BLUE SCORE". |
| `Scoring.IntendedBanners` | soccer.py:238-243 | Corrected test: "RED SCORE" exactly when ball.x < X_GAP, "BLUE SCORE" exactly when ball.x > field right. Never both at once. |
| `Scoring.IntendedBannersSymmetric` | soccer.py:238-243 | Under the corrected test, a ball shows RED exactly when its mirror image shows BLUE, and the reverse. Nothing shows exactly when the ball is between the side lines. |
| `Scoring.IntendedDiffersOnlyLeftOfField` | soccer.py:238-243 | The as-written and corrected tests differ exactly for 0 <= ball.x < X_GAP. |

## Left out

- The angle and magnitude computation of `handleCollision` (soccer.py:72-90) and `angle`, `xyToVector` and `vectorToXY` (soccer.py:125-136) are left out. They are `atan2`/`cos`/`sin` floating-point numerics, so the formula is the `formula` parameter.
- `distance` (soccer.py:122-123) is left out because it uses a square root. Its one use in the physics is replaced by the squared comparison, proved equivalent.
- The drag-to-aim shot (soccer.py:186-211), `MAX_VEL`, `AIM_TWEAK`, the key-press test kick (soccer.py:169-172) and the mouse hit test (soccer.py:174-184) are left out. They are input handling, and they only set a velocity between frames.
- Drawing is left out: `draw`, `Player.draw`, `hovered`, colours, `SELECTED_THICKNESS`, the field lines, fonts, the window, the event loop and the frame clock (`FPS`). This is I/O through pygame. `Frame.Step` returns the banner texts instead of drawing them.
- Floating-point rounding is left out. Reals are exact, and 0.95 is not exactly representable in binary. So "strictly shrinks" and "never stops" (`Damp`, `GlideBounds`) hold only over the reals: in IEEE doubles, a speed of a few subnormal units is rounded back to itself by `* 0.95` and stops shrinking.
- The endless `while 1` loop is modelled one iteration at a time, by `Frame.Step`.
- The Python list `objects` becomes an array of distinct references. The game never lists an object twice.

## Findings

| source | as written | input that shows it | evidently intended | confidence | as-written member | corrected member |
|---|---|---|---|---|---|---|
| soccer.py:238 | "RED SCORE" is drawn only when `ball.x < 0`, left of the screen edge. That is beyond the left goal's back wall at x = 55. The right-hand test on line 241 is against the side line `X_GAP + FIELD_WIDTH` instead. | A ball resting against the back of the left goal, centre x = 65: nothing is drawn. Its mirror image at x = 735 in the right goal draws "BLUE SCORE". | `ball.x < X_GAP`, the mirror image of line 241's test | medium; not executed | `Scoring.Banners`, shown by `Scoring.LeftGoalGoesUnnoticed` | `Scoring.IntendedBanners`, proved symmetric by `Scoring.IntendedBannersSymmetric`; `Scoring.IntendedDiffersOnlyLeftOfField` says where it differs from what `Frame.Step` draws |
