/** Where the game loop gets its inputs from (ExamScreen.kt, `LaunchedEffect(Unit)`).
    The loop is launched once, so the values it takes from the enclosing
    composition are those of the first composition; only the view model's
    screen size and fall position are read afresh on each iteration. */
module LaunchedLoop {
  import opened Geometry
  import opened Layout
  import opened Tick

  /** Values the effect block holds from the composition that launched it. */
  datatype LaunchCapture = LaunchCapture(density: real, xOffsetDp: real, bottomPaddingPx: real)

  /** Values current at one iteration: the screen size and fall position the
      loop reads from the view model, and the drag offset the screen currently
      draws the icon at. */
  datatype LiveState = LiveState(width: int, height: int, yPositionPx: real, xOffsetDp: real)

  /** The inputs as the source gives them to the iteration: the drag offset is
      the captured one. */
  function FrameAsWritten(c: LaunchCapture, s: LiveState): Frame {
    Frame(s.width, s.height, c.bottomPaddingPx, c.density, c.xOffsetDp, s.yPositionPx)
  }

  /** The inputs with the current drag offset. */
  function FrameIntended(c: LaunchCapture, s: LiveState): Frame {
    Frame(s.width, s.height, c.bottomPaddingPx, c.density, s.xOffsetDp, s.yPositionPx)
  }

  /** The falling box at the current drag offset. The image on screen is this
      box moved down by the scaffold's top inset and sideways by half the
      difference between its start and end insets. */
  function CurrentBounds(c: LaunchCapture, s: LiveState): Rect {
    FallingBounds(s.width, s.xOffsetDp, c.density, s.yPositionPx)
  }

  /** As written, dragging the icon never changes what an iteration decides. */
  lemma AsWrittenIgnoresDrag(c: LaunchCapture, s: LiveState, dragged: real)
    ensures StepOutcome(FrameAsWritten(c, s)) ==
            StepOutcome(FrameAsWritten(c, s.(xOffsetDp := dragged)))
  {
  }

  /** A screen 1000 x 2000 px, density 1, no inset, launched at offset 0: the
      user has dragged the icon 350 dp left, so that its box at the current
      offset lies exactly over the top-left role zone, yet the iteration decides
      to keep falling. */
  lemma StaleOffsetMissesCurrentHit()
    ensures var c := LaunchCapture(1.0, 0.0, 0.0);
            var s := LiveState(1000, 2000, 850.0, -350.0);
            CheckCollision(CurrentBounds(c, s), RoleZones(s.width, s.height, c.bottomPaddingPx)[0].rect) &&
            StepOutcome(FrameAsWritten(c, s)) == Drop
  {
    var c := LaunchCapture(1.0, 0.0, 0.0);
    var s := LiveState(1000, 2000, 850.0, -350.0);
    var f := FrameAsWritten(c, s);
    assert Falling(f) == Rect(350.0, 850.0, 650.0, 1150.0);
    assert NoHitFrom(Falling(f), Zones(f), 0);
  }

  /** With the current offset, an iteration hits zone `i` exactly when the box
      at that offset overlaps zone `i` and none before it. */
  lemma IntendedHitFollowsCurrentOffset(c: LaunchCapture, s: LiveState, i: nat)
    requires s.width > 0 && s.height > 0 && i < 4
    ensures StepOutcome(FrameIntended(c, s)) == Hit(i, HitPrefix + RoleNames[i]) <==>
              var zones := RoleZones(s.width, s.height, c.bottomPaddingPx);
              CheckCollision(CurrentBounds(c, s), zones[i].rect) &&
              forall j :: 0 <= j < i ==> !CheckCollision(CurrentBounds(c, s), zones[j].rect)
  {
    FirstMatchWins(FrameIntended(c, s), i);
  }
}
