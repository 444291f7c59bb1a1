/** The goal test a frame makes on the ball's centre, and the text it
    draws: "RED SCORE" for a ball past the left edge, "BLUE SCORE" for a
    ball past the right side line. */
module Scoring {
  import opened Arena

  const RED_SCORE := "RED SCORE"
  const BLUE_SCORE := "BLUE SCORE"

  /** Reflection of a horizontal coordinate about the vertical midline of
      the screen, which is also the field's midline. */
  function Mirror(x: real): real
  {
    SCREEN_WIDTH - x
  }

  /** The banners drawn for a ball centred at ballX, in drawing order, with
      the left test against 0 as the game has it. */
  function Banners(ballX: real): (r: seq<string>)
    ensures RED_SCORE in r <==> ballX < 0.0
    ensures BLUE_SCORE in r <==> ballX > FIELD_RIGHT
    ensures |r| <= 1
    ensures forall k :: 0 <= k < |r| ==> r[k] == RED_SCORE || r[k] == BLUE_SCORE
  {
    (if ballX < 0.0 then [RED_SCORE] else []) + (if ballX > X_GAP + FIELD_WIDTH then [BLUE_SCORE] else [])
  }

  /** The two goal tests are not mirror images of each other: a ball whose
      centre lies between the left edge of the screen and the left side
      line, for instance inside the left goal pocket, shows nothing, while
      the mirrored ball inside the right goal pocket shows BLUE SCORE. */
  lemma LeftGoalGoesUnnoticed(ballX: real)
    requires 0.0 <= ballX < X_GAP
    ensures Banners(ballX) == []
    ensures Banners(Mirror(ballX)) == [BLUE_SCORE]
  {
  }

  /** A ball resting against the back wall of the left goal, centre at
      LEFT_GOAL_BACK + 10 = 65 on the goal's axis, and its mirror image in
      the right goal. */
  lemma BallInLeftGoalShowsNothing()
    ensures Banners(LEFT_GOAL_BACK + 10.0) == []
    ensures Banners(RIGHT_GOAL_BACK - 10.0) == [BLUE_SCORE]
    ensures Mirror(LEFT_GOAL_BACK + 10.0) == RIGHT_GOAL_BACK - 10.0
  {
    LeftGoalGoesUnnoticed(LEFT_GOAL_BACK + 10.0);
  }

  /** The banners with the left test against the left side line, the mirror
      image of the right test. */
  function IntendedBanners(ballX: real): (r: seq<string>)
    ensures RED_SCORE in r <==> ballX < X_GAP
    ensures BLUE_SCORE in r <==> ballX > FIELD_RIGHT
    ensures |r| <= 1
    ensures forall k :: 0 <= k < |r| ==> r[k] == RED_SCORE || r[k] == BLUE_SCORE
  {
    (if ballX < X_GAP then [RED_SCORE] else []) + (if ballX > X_GAP + FIELD_WIDTH then [BLUE_SCORE] else [])
  }

  /** With the intended test, a ball past one goal line shows that side's
      banner exactly when the mirrored ball shows the other side's, and
      nothing shows for a ball between the side lines. */
  lemma IntendedBannersSymmetric(ballX: real)
    ensures RED_SCORE in IntendedBanners(ballX) <==> BLUE_SCORE in IntendedBanners(Mirror(ballX))
    ensures BLUE_SCORE in IntendedBanners(ballX) <==> RED_SCORE in IntendedBanners(Mirror(ballX))
    ensures IntendedBanners(ballX) == [] <==> X_GAP <= ballX <= FIELD_RIGHT
  {
  }

  /** The two tests differ only for a ball between the left edge of the
      screen and the left side line. */
  lemma IntendedDiffersOnlyLeftOfField(ballX: real)
    ensures Banners(ballX) != IntendedBanners(ballX) <==> 0.0 <= ballX < X_GAP
  {
  }
}
