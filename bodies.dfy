/** A physical object of the game: a circle with a position, a velocity, a
    mass and a radius ("size").  The object updates its own fields in place:
    it integrates its position with damping and it reflects its velocity off
    the field and goal walls.  The response to hitting another object is a
    trigonometric formula that this model takes as a parameter. */
module Bodies {
  import opened Arena

  /** Factor applied to each velocity component on every integration step. */
  const RESISTANCE: real := 0.95

  const BALL_MASS: real := 15.0
  const BALL_SIZE: real := 10.0
  const PLAYER_MASS: real := 30.0
  const PLAYER_SIZE: real := 20.0

  /** The value of a body's fields at one instant. */
  datatype BodyState = BodyState(x: real, y: real, velX: real, velY: real, mass: real, size: real)

  /** New velocities chosen by the collision formula for the two objects it
      was given, in the order it was given them. */
  datatype Rebound = Rebound(aVelX: real, aVelY: real, bVelX: real, bVelY: real)

  function Abs(v: real): real
  {
    if v < 0.0 then -v else v
  }

  /** Two states agree on everything but velocity. */
  predicate SamePlace(s: BodyState, t: BodyState)
  {
    s.x == t.x && s.y == t.y && s.mass == t.mass && s.size == t.size
  }

  // ---------------------------------------------------------------------
  // Wall collision response

  /** The side-line check: the horizontal extent crosses a side line and the
      vertical extent is not wholly within the goal mouth. */
  predicate SideWallHit(s: BodyState)
  {
    CrossesSideLine(s.x, s.size) && !WithinGoalSpan(s.y, s.size)
  }

  /** The touch-line check: the vertical extent crosses the top or bottom of the field. */
  predicate TouchLineHit(s: BodyState)
  {
    CrossesTouchLine(s.y, s.size)
  }

  /** The back-wall check: the horizontal extent crosses the back of either goal. */
  predicate BackWallHit(s: BodyState)
  {
    CrossesGoalBack(s.x, s.size)
  }

  /** The pocket check: the vertical extent leaves the goal mouth while the
      centre is outside the field's horizontal span. */
  predicate PocketWallHit(s: BodyState)
  {
    !WithinGoalSpan(s.y, s.size) && CentreOutsideField(s.x)
  }

  /** The state after one wall-collision check.  The four checks are
      independent; two checks on the same axis cancel, so a component is
      reversed exactly when an odd number of its checks fire. */
  function WallResponse(s: BodyState): (r: BodyState)
    ensures SamePlace(r, s)
    ensures Abs(r.velX) == Abs(s.velX) && Abs(r.velY) == Abs(s.velY)
  {
    s.(velX := if SideWallHit(s) != BackWallHit(s) then -s.velX else s.velX,
       velY := if TouchLineHit(s) != PocketWallHit(s) then -s.velY else s.velY)
  }

  /** The horizontal velocity changes exactly when it is non-zero and just
      one of the side-line and back-wall checks fires; when it changes it is
      reversed. */
  lemma WallResponseVelX(s: BodyState)
    ensures WallResponse(s).velX != s.velX <==> s.velX != 0.0 && SideWallHit(s) != BackWallHit(s)
    ensures WallResponse(s).velX == s.velX || WallResponse(s).velX == -s.velX
  {
  }

  /** The vertical velocity changes exactly when it is non-zero and just one
      of the touch-line and pocket checks fires; when it changes it is reversed. */
  lemma WallResponseVelY(s: BodyState)
    ensures WallResponse(s).velY != s.velY <==> s.velY != 0.0 && TouchLineHit(s) != PocketWallHit(s)
    ensures WallResponse(s).velY == s.velY || WallResponse(s).velY == -s.velY
  {
  }

  /** A body whose vertical extent lies within the goal mouth crosses the
      side line freely: only the back wall can turn it round horizontally,
      and only the touch lines vertically. */
  lemma GoalMouthIsOpen(s: BodyState)
    requires WithinGoalSpan(s.y, s.size)
    ensures WallResponse(s).velX == (if BackWallHit(s) then -s.velX else s.velX)
    ensures WallResponse(s).velY == (if TouchLineHit(s) then -s.velY else s.velY)
  {
  }

  /** A body that is hit both by the side-line check and by the back-wall
      check keeps its horizontal velocity; likewise vertically for the
      touch-line and pocket checks. */
  lemma DoubleReflectionCancels(s: BodyState)
    ensures SideWallHit(s) && BackWallHit(s) ==> WallResponse(s).velX == s.velX
    ensures TouchLineHit(s) && PocketWallHit(s) ==> WallResponse(s).velY == s.velY
  {
  }

  /** While the centre is within the field's horizontal span the pocket
      check never fires, so only the touch lines turn the vertical
      velocity, wherever the body is vertically. */
  lemma PocketCheckNeedsPocket(s: BodyState)
    requires !CentreOutsideField(s.x)
    ensures !PocketWallHit(s)
    ensures WallResponse(s).velY == (if TouchLineHit(s) then -s.velY else s.velY)
  {
  }

  /** A body of non-negative radius lying wholly inside the field is not
      turned by any check. */
  lemma InsideFieldIsQuiet(s: BodyState)
    requires 0.0 <= s.size
    requires X_GAP <= s.x - s.size && s.x + s.size <= FIELD_RIGHT
    requires Y_GAP <= s.y - s.size && s.y + s.size <= FIELD_BOTTOM
    ensures WallResponse(s) == s
  {
  }

  // ---------------------------------------------------------------------
  // Integration with damping

  /** One damping step keeps the sign of a velocity component and strictly
      shrinks a non-zero one without making it zero. */
  function Damp(v: real): (r: real)
    ensures v > 0.0 ==> 0.0 < r < v
    ensures v < 0.0 ==> v < r < 0.0
    ensures v == 0.0 ==> r == 0.0
    ensures Abs(r) == RESISTANCE * Abs(v)
  {
    v * RESISTANCE
  }

  /** The state after one integration step: the position moves by the
      velocity from before damping, then the velocity is damped. */
  function Integrate(s: BodyState): (r: BodyState)
    ensures r.mass == s.mass && r.size == s.size
    ensures r.x - s.x == s.velX && r.y - s.y == s.velY
    ensures Abs(r.velX) <= Abs(s.velX) && Abs(r.velY) <= Abs(s.velY)
  {
    BodyState(s.x + s.velX, s.y + s.velY, Damp(s.velX), Damp(s.velY), s.mass, s.size)
  }

  function Pow(b: real, k: nat): real
  {
    if k == 0 then 1.0 else b * Pow(b, k - 1)
  }

  /** k integration steps with no wall check in between. */
  function Glide(s: BodyState, k: nat): BodyState
  {
    if k == 0 then s else Integrate(Glide(s, k - 1))
  }

  lemma {:induction false} PowResistanceBounds(k: nat)
    ensures 0.0 < Pow(RESISTANCE, k) <= 1.0
    ensures k > 0 ==> Pow(RESISTANCE, k) < 1.0
  {
    if k > 0 {
      PowResistanceBounds(k - 1);
    }
  }

  /** A velocity component damped k times. */
  function Damped(v: real, k: nat): real
  {
    if k == 0 then v else Damp(Damped(v, k - 1))
  }

  lemma {:induction false} DampedIsPower(v: real, k: nat)
    ensures Damped(v, k) == Pow(RESISTANCE, k) * v
  {
    if k > 0 {
      DampedIsPower(v, k - 1);
      DampedPower(v, Pow(RESISTANCE, k - 1), Pow(RESISTANCE, k), Damped(v, k - 1));
    }
  }

  lemma DampedPower(v0: real, p: real, q: real, v: real)
    requires v == p * v0 && q == RESISTANCE * p
    ensures Damp(v) == q * v0
  {
  }

  lemma {:induction false} GlideComponents(s: BodyState, k: nat)
    ensures Glide(s, k).velX == Damped(s.velX, k) && Glide(s, k).velY == Damped(s.velY, k)
    ensures Glide(s, k).mass == s.mass && Glide(s, k).size == s.size
  {
    if k > 0 {
      GlideComponents(s, k - 1);
    }
  }

  /** After k undisturbed steps the velocity is RESISTANCE^k times the
      initial one, and mass and size are those of the start. */
  lemma GlideVelocity(s: BodyState, k: nat)
    ensures Glide(s, k).velX == Pow(RESISTANCE, k) * s.velX
    ensures Glide(s, k).velY == Pow(RESISTANCE, k) * s.velY
    ensures Glide(s, k).mass == s.mass && Glide(s, k).size == s.size
  {
    GlideComponents(s, k);
    DampedIsPower(s.velX, k);
    DampedIsPower(s.velY, k);
  }

  /** Over k undisturbed steps the distance covered along each axis is
      1 / (1 - RESISTANCE) = 20 times the speed lost along it. */
  lemma {:induction false} GlideDistance(s: BodyState, k: nat)
    ensures Glide(s, k).x == s.x + 20.0 * (s.velX - Glide(s, k).velX)
    ensures Glide(s, k).y == s.y + 20.0 * (s.velY - Glide(s, k).velY)
  {
    if k > 0 {
      GlideDistance(s, k - 1);
    }
  }

  /** After k undisturbed steps the body has moved by the partial geometric
      sum of its velocities, (1 - RESISTANCE^k) / (1 - RESISTANCE) times
      the initial velocity, that is 20 * (1 - RESISTANCE^k) times it. */
  lemma GlidePosition(s: BodyState, k: nat)
    ensures Glide(s, k).x == s.x + 20.0 * (1.0 - Pow(RESISTANCE, k)) * s.velX
    ensures Glide(s, k).y == s.y + 20.0 * (1.0 - Pow(RESISTANCE, k)) * s.velY
  {
    GlideDistance(s, k);
    GlideVelocity(s, k);
    var p := Pow(RESISTANCE, k);
    LostSpeed(p, s.velX);
    LostSpeed(p, s.velY);
  }

  lemma LostSpeed(p: real, v: real)
    ensures 20.0 * (v - p * v) == 20.0 * (1.0 - p) * v
  {
  }

  /** An undisturbed body never comes to rest and never travels farther
      than 1 / (1 - RESISTANCE) = 20 times its initial speed along an axis. */
  lemma GlideBounds(s: BodyState, k: nat)
    ensures s.velX != 0.0 ==> Glide(s, k).velX != 0.0
    ensures s.velY != 0.0 ==> Glide(s, k).velY != 0.0
    ensures Abs(Glide(s, k).x - s.x) <= 20.0 * Abs(s.velX)
    ensures Abs(Glide(s, k).y - s.y) <= 20.0 * Abs(s.velY)
  {
    GlideVelocity(s, k);
    GlidePosition(s, k);
    PowResistanceBounds(k);
    var p := Pow(RESISTANCE, k);
    ScaledAbs(20.0 * (1.0 - p), s.velX);
    ScaledAbs(20.0 * (1.0 - p), s.velY);
  }

  lemma ScaledAbs(c: real, v: real)
    requires 0.0 <= c <= 20.0
    ensures Abs(c * v) <= 20.0 * Abs(v)
  {
    if v < 0.0 {
      assert c * v >= 20.0 * v;
    } else {
      assert c * v <= 20.0 * v;
    }
  }

  // ---------------------------------------------------------------------
  // One object's share of a frame

  /** What a frame does to one object before collisions between objects:
      wall check, integrate, wall check, integrate. */
  function Advance(s: BodyState): BodyState
  {
    Integrate(WallResponse(Integrate(WallResponse(s))))
  }

  /** Over a frame's wall-and-integrate part, mass and size stay, the
      position moves by the two velocities in force, and each speed
      component shrinks by exactly RESISTANCE squared whatever walls it
      meets. */
  lemma AdvanceEffect(s: BodyState)
    ensures Advance(s).mass == s.mass && Advance(s).size == s.size
    ensures Advance(s).x == s.x + WallResponse(s).velX + WallResponse(Integrate(WallResponse(s))).velX
    ensures Advance(s).y == s.y + WallResponse(s).velY + WallResponse(Integrate(WallResponse(s))).velY
    ensures Abs(Advance(s).velX) == RESISTANCE * RESISTANCE * Abs(s.velX)
    ensures Abs(Advance(s).velY) == RESISTANCE * RESISTANCE * Abs(s.velY)
  {
    var w1 := WallResponse(s);
    var i1 := Integrate(w1);
    var w2 := WallResponse(i1);
    assert Abs(i1.velX) == RESISTANCE * Abs(s.velX);
    assert Abs(i1.velY) == RESISTANCE * Abs(s.velY);
  }

  /** A body at rest inside the field with its whole extent inside stays
      where it is. */
  lemma RestingBodyStays(s: BodyState)
    requires s.velX == 0.0 && s.velY == 0.0 && 0.0 <= s.size
    requires X_GAP <= s.x - s.size && s.x + s.size <= FIELD_RIGHT
    requires Y_GAP <= s.y - s.size && s.y + s.size <= FIELD_BOTTOM
    ensures Advance(s) == s
  {
    InsideFieldIsQuiet(s);
  }

  /** A ball heading into the left goal through the middle of the mouth at
      the pace a shot can have is not turned back by the side line. */
  lemma BallEntersLeftGoal()
    ensures Advance(BodyState(X_GAP + 1.0, (GOAL_TOP + GOAL_BOTTOM) / 2.0, -12.0, 0.0, BALL_MASS, BALL_SIZE)).x < X_GAP
  {
    var s := BodyState(X_GAP + 1.0, (GOAL_TOP + GOAL_BOTTOM) / 2.0, -12.0, 0.0, BALL_MASS, BALL_SIZE);
    assert WallResponse(s) == s;
    assert WallResponse(Integrate(s)) == Integrate(s);
  }

  // ---------------------------------------------------------------------
  // Collision between two objects

  /** The two objects' states after the collision handler runs with self
      and other: a stationary self is handed to the formula first, a moving
      self second, and only the velocities are written. */
  function CollisionOutcome(self: BodyState, other: BodyState, formula: (BodyState, BodyState) -> Rebound)
    : (r: (BodyState, BodyState))
    ensures SamePlace(r.0, self) && SamePlace(r.1, other)
    ensures self.velX == 0.0 && self.velY == 0.0 ==>
      var k := formula(self, other);
      r.0.velX == k.aVelX && r.0.velY == k.aVelY && r.1.velX == k.bVelX && r.1.velY == k.bVelY
    ensures !(self.velX == 0.0 && self.velY == 0.0) ==>
      var k := formula(other, self);
      r.0.velX == k.bVelX && r.0.velY == k.bVelY && r.1.velX == k.aVelX && r.1.velY == k.aVelY
  {
    if self.velX == 0.0 && self.velY == 0.0 then
      var k := formula(self, other);
      (self.(velX := k.aVelX, velY := k.aVelY), other.(velX := k.bVelX, velY := k.bVelY))
    else
      var k := formula(other, self);
      (self.(velX := k.bVelX, velY := k.bVelY), other.(velX := k.aVelX, velY := k.aVelY))
  }

  // ---------------------------------------------------------------------
  // The object itself

  class Body {
    var x: real
    var y: real
    var mass: real
    /** Radius of the circle. */
    var size: real
    var velX: real
    var velY: real

    /** A new object is at rest. */
    constructor (x0: real, y0: real, mass0: real, size0: real)
      ensures Snapshot() == BodyState(x0, y0, 0.0, 0.0, mass0, size0)
    {
      x, y, mass, size := x0, y0, mass0, size0;
      velX, velY := 0.0, 0.0;
    }

    function Snapshot(): BodyState
      reads this
    {
      BodyState(x, y, velX, velY, mass, size)
    }

    method UpdatePos()
      modifies this`x, this`y, this`velX, this`velY
      ensures Snapshot() == Integrate(old(Snapshot()))
    {
      x := x + velX;
      y := y + velY;
      velX := velX * RESISTANCE;
      velY := velY * RESISTANCE;
    }

    method HandleWallCollision()
      modifies this`velX, this`velY
      ensures Snapshot() == WallResponse(old(Snapshot()))
    {
      // field walls: left/right, open across the goal mouth
      if (x - size < X_GAP || x + size > X_GAP + FIELD_WIDTH) && (y - size < GOAL_TOP || y + size > GOAL_BOTTOM) {
        velX := -velX;
      }
      // field walls: top/bottom
      if y - size < Y_GAP || y + size > Y_GAP + FIELD_HEIGHT {
        velY := -velY;
      }
      // goal back walls
      if x - size < LEFT_GOAL_BACK || x + size > RIGHT_GOAL_BACK {
        velX := -velX;
      }
      // goal pocket top/bottom walls, only for a centre inside a pocket
      if (y - size < GOAL_TOP || y + size > GOAL_BOTTOM) && (x < X_GAP || x > X_GAP + FIELD_WIDTH) {
        velY := -velY;
      }
    }

    /** Responds to a collision with other, which the caller has detected.
        The formula stands for the angle and magnitude computation; it is
        given the object whose velocity it reads first. */
    method HandleCollision(other: Body, formula: (BodyState, BodyState) -> Rebound)
      requires other != this
      modifies this`velX, this`velY, other`velX, other`velY
      ensures (Snapshot(), other.Snapshot()) == CollisionOutcome(old(Snapshot()), old(other.Snapshot()), formula)
    {
      var a, b;
      if velX == 0.0 && velY == 0.0 {
        a, b := this, other;
      } else {
        a, b := other, this;
      }
      var k := formula(a.Snapshot(), b.Snapshot());
      a.velX, a.velY := k.aVelX, k.aVelY;
      b.velX, b.velY := k.bVelX, k.bVelY;
    }
  }
}
