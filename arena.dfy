/** The soccer table: screen and field dimensions, the two goal pockets
    behind the side lines, and the comparisons the wall collision handler
    makes between a circle's extent and those walls.
    All coordinates are screen pixels, y growing downwards. */
module Arena {

  const SCREEN_WIDTH: real := 800.0
  const SCREEN_HEIGHT: real := 600.0

  const FIELD_WIDTH: real := 600.0
  const FIELD_HEIGHT: real := 400.0
  /** Left side line of the field. */
  const X_GAP: real := (SCREEN_WIDTH - FIELD_WIDTH) / 2.0
  /** Top touch line of the field. */
  const Y_GAP: real := (SCREEN_HEIGHT - FIELD_HEIGHT) / 2.0
  const GOAL_DEPTH: real := 45.0
  const GOAL_HEIGHT: real := 100.0
  const GOAL_TOP: real := Y_GAP + FIELD_HEIGHT / 2.0 - GOAL_HEIGHT / 2.0
  const GOAL_BOTTOM: real := GOAL_TOP + GOAL_HEIGHT
  const LEFT_GOAL_BACK: real := X_GAP - GOAL_DEPTH
  const RIGHT_GOAL_BACK: real := SCREEN_WIDTH - X_GAP + GOAL_DEPTH

  /** Right side line of the field. */
  const FIELD_RIGHT: real := X_GAP + FIELD_WIDTH
  /** Bottom touch line of the field. */
  const FIELD_BOTTOM: real := Y_GAP + FIELD_HEIGHT

  /** The derived constants have the values the drawing code draws. */
  lemma ArenaValues()
    ensures X_GAP == 100.0 && FIELD_RIGHT == 700.0
    ensures Y_GAP == 100.0 && FIELD_BOTTOM == 500.0
    ensures GOAL_TOP == 250.0 && GOAL_BOTTOM == 350.0
    ensures LEFT_GOAL_BACK == 55.0 && RIGHT_GOAL_BACK == 745.0
  {
  }

  /** The goal pockets lie outside the field on both sides, the goal mouth
      lies strictly inside the side lines' span, and it is centred
      vertically on the field. */
  lemma ArenaLayout()
    ensures LEFT_GOAL_BACK < X_GAP < FIELD_RIGHT < RIGHT_GOAL_BACK
    ensures Y_GAP < GOAL_TOP < GOAL_BOTTOM < FIELD_BOTTOM
    ensures GOAL_TOP - Y_GAP == FIELD_BOTTOM - GOAL_BOTTOM
    ensures X_GAP - LEFT_GOAL_BACK == RIGHT_GOAL_BACK - FIELD_RIGHT == GOAL_DEPTH
    ensures X_GAP + FIELD_RIGHT == SCREEN_WIDTH
  {
  }

  /** The horizontal extent [x - size, x + size] reaches past a side line. */
  predicate CrossesSideLine(x: real, size: real)
  {
    x - size < X_GAP || x + size > FIELD_RIGHT
  }

  /** The vertical extent [y - size, y + size] lies wholly within the goal mouth. */
  predicate WithinGoalSpan(y: real, size: real)
  {
    !(y - size < GOAL_TOP || y + size > GOAL_BOTTOM)
  }

  /** The vertical extent reaches past the top or bottom touch line. */
  predicate CrossesTouchLine(y: real, size: real)
  {
    y - size < Y_GAP || y + size > FIELD_BOTTOM
  }

  /** The horizontal extent reaches past the back wall of either goal. */
  predicate CrossesGoalBack(x: real, size: real)
  {
    x - size < LEFT_GOAL_BACK || x + size > RIGHT_GOAL_BACK
  }

  /** The centre is strictly outside the field's horizontal span, that is,
      inside (or beyond) one of the goal pockets. */
  predicate CentreOutsideField(x: real)
  {
    x < X_GAP || x > FIELD_RIGHT
  }
}
