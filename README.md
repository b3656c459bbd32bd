# Falling-icon mini-game: collision and tick decision

This project models the center of the one-screen game in `ExamScreen.kt`. A service icon falls
from the top of the screen, and the user drags it sideways. Four role icons are fixed: two at
mid-height on the left and right edges, and two in the bottom corners. The game loop runs every 100 ms. In each iteration it:

1. builds the falling icon's 300 x 300 px box;
2. builds the four role zones;
3. scans the zones in a fixed order (top-left, top-right, bottom-left, bottom-right) for the
   first overlap;
4. then checks whether the icon has reached the bottom.

Each iteration ends in exactly one way. On a collision it sets the message "碰撞" + the role's
name and resets the icon. On reaching the bottom it sets "(掉到最下方)" and resets. Otherwise
the icon drops further. Until the screen size is known, the iteration only drops the icon.
`ExamViewModel.kt` holds the measured screen width and height.

Modules:

- `Geometry` (`geometry.dfy`): `Rect` and `RoleBounds` (ExamScreen.kt:29-34), and the strict
  overlap test `CheckCollision` (ExamScreen.kt:36-41). `CheckCollision` is a definition with
  no contract; the lemmas in the table state its properties.
- `Layout` (`layout.dfy`): the falling box and the role zones as functions of the screen size,
  bottom inset, density, drag offset and fall position.
- `Tick` (`tick.dfy`): one loop iteration.
  - `StepOutcome` is the decision as a function (ExamScreen.kt:87-137). Its result is
    `NotReadyDrop`, `Hit(roleIndex, message)`, `BottomOut(message)` or `Drop`. It is a
    definition with no contract; the `Tick` lemmas in the table are about it.
  - `CallsOf` gives the view-model calls that outcome stands for (ExamScreen.kt:91, 121-122,
    130-131 and 136). It is a definition with no contract.
  - `RunTick` is the loop body as the source writes it: a flag, a `for` scan with `break`, then
    two checks of the flag. It is proved equal to `StepOutcome` and `CallsOf`.
- `LaunchedLoop` (`launched_loop.dfy`): where the iteration's inputs come from. Some are
  captured when the effect is launched; others are read afresh each time (see Findings).
  `FrameAsWritten` builds the inputs as the code does, with the drag offset captured at
  launch (ExamScreen.kt:59, 81-97). `FrameIntended` uses the current drag offset instead.
  Both are definitions with no contract.
- `ViewModel` (`view_model.dfy`): class `ExamViewModel`, with two `Int32` fields and
  `UpdateScreenSize`.

Coordinates are exact `real`s rather than `Float`. The source only adds, subtracts, halves,
multiplies by the density and compares. Screen sizes are `int`.

Three facts about the code shape the model:

- When the size is not known, the loop calls `dropIcon()` rather than skipping the
  iteration, and it checks the width as well as the height (ExamScreen.kt:90-93).
- The code changes no score. The score text is fixed, and the outcome is only a
  message plus a reset.
- `ExamViewModel.updateScreenSize` takes two arguments, stores them without any guard and
  triggers no reset.

## Model

| member | source | states |
|---|---|---|
| `Geometry.CollisionSymmetric` | app/src/main/java/tw/edu/pu/csim/tcyang/s1131225/ExamScreen.kt:36-41 | Swapping the two rectangles does not change the result of the collision test. |
| `Geometry.TouchingDoesNotCollide` | app/src/main/java/tw/edu/pu/csim/tcyang/s1131225/ExamScreen.kt:36-41 | Rectangles that share an edge, or are separated along either axis, do not collide, because the test is strict. |
| `Geometry.CollisionIffCommonInteriorPoint` | app/src/main/java/tw/edu/pu/csim/tcyang/s1131225/ExamScreen.kt:36-41 | Take two rectangles of positive size. They collide exactly when their open interiors share a point, in both directions. |
| `Layout.FallingBounds` | app/src/main/java/tw/edu/pu/csim/tcyang/s1131225/ExamScreen.kt:96-107 | The falling box is a 300 x 300 square. Its top is the fall position. It is horizontally centred on width/2 + xOffsetDp·density. |
| `Layout.RoleZones` | app/src/main/java/tw/edu/pu/csim/tcyang/s1131225/ExamScreen.kt:110-115 | There are four 300 x 300 zones, in the order top-left, top-right, bottom-left, bottom-right, with the role names. The left zones start at x = 0 and the right zones end at x = width. The top zones are vertically centred on height/2. The bottom zones end at height − bottom inset. |
| `Layout.TopZonesCollideIffNarrow` | app/src/main/java/tw/edu/pu/csim/tcyang/s1131225/ExamScreen.kt:111-112 | The two top zones overlap exactly when 0 < width < 600. |
| `Layout.ZonesDisjointOnLargeScreen` | app/src/main/java/tw/edu/pu/csim/tcyang/s1131225/ExamScreen.kt:110-115 | Assume width ≥ 600, and that the bottom boundary lies at least 450 px below the vertical centre. Then no two role zones overlap. |
| `Tick.FirstHit` | app/src/main/java/tw/edu/pu/csim/tcyang/s1131225/ExamScreen.kt:119-126 | The scan returns the least index whose zone overlaps the falling box, and no zone before it overlaps. It returns nothing exactly when no zone overlaps. |
| `Tick.RunTick` | app/src/main/java/tw/edu/pu/csim/tcyang/s1131225/ExamScreen.kt:87-137 | The loop body has a guard, a flagged scan with `break`, a bottom check and a drop. Its decision equals `StepOutcome`, and the view-model calls it makes equal `CallsOf` of that decision. |
| `Tick.NotReadyOnlyDrops` | app/src/main/java/tw/edu/pu/csim/tcyang/s1131225/ExamScreen.kt:90-93 | When height ≤ 0 or width ≤ 0, the iteration's only call is `dropIcon()`. It does no collision check and sets no message. |
| `Tick.FirstMatchWins` | app/src/main/java/tw/edu/pu/csim/tcyang/s1131225/ExamScreen.kt:119-126 | On a ready iteration, the outcome is a hit on zone i, with message "碰撞" + role name i, exactly when the box overlaps zone i and no earlier zone. |
| `Tick.HitCallsOnce` | app/src/main/java/tw/edu/pu/csim/tcyang/s1131225/ExamScreen.kt:120-124 | A hit names one of the four roles. It makes exactly one message call and one reset, in that order. |
| `Tick.BottomOutIff` | app/src/main/java/tw/edu/pu/csim/tcyang/s1131225/ExamScreen.kt:128-133 | Bottom-out happens exactly when the iteration is ready, no zone was hit, and box bottom ≥ height − inset (equality counts). Its message is "(掉到最下方)". |
| `Tick.DropIff` | app/src/main/java/tw/edu/pu/csim/tcyang/s1131225/ExamScreen.kt:135-137 | A ready iteration drops exactly when no zone was hit and box bottom < height − inset. |
| `Tick.ExactlyOneEffect` | app/src/main/java/tw/edu/pu/csim/tcyang/s1131225/ExamScreen.kt:117-137 | A ready iteration makes exactly one reset-or-drop call. It is either a message followed by a reset, or a single drop. |
| `LaunchedLoop.AsWrittenIgnoresDrag` | app/src/main/java/tw/edu/pu/csim/tcyang/s1131225/ExamScreen.kt:81-96 | As written, the iteration's decision does not depend on the current drag offset. |
| `LaunchedLoop.StaleOffsetMissesCurrentHit` | app/src/main/java/tw/edu/pu/csim/tcyang/s1131225/ExamScreen.kt:81-96 | This is one concrete input: the box at the current drag offset overlaps the top-left zone, but the iteration as written decides to drop. |
| `LaunchedLoop.IntendedHitFollowsCurrentOffset` | app/src/main/java/tw/edu/pu/csim/tcyang/s1131225/ExamScreen.kt:96-126 | Use the current offset. Then an iteration hits zone i exactly when the box at that offset overlaps zone i and no earlier zone. |
| `ViewModel.ExamViewModel.constructor` | app/src/main/java/tw/edu/pu/csim/tcyang/s1131225/ExamViewModel.kt:11-14 | Width and height both start at 0. |
| `ViewModel.ExamViewModel.UpdateScreenSize` | app/src/main/java/tw/edu/pu/csim/tcyang/s1131225/ExamViewModel.kt:20-23 | Afterwards, width and height are exactly the arguments. Any value is stored, including zero and negatives. |

## Findings

| source | as written | input that shows it | evidently intended | confidence | as-written member | corrected member |
|---|---|---|---|---|---|---|
| app/src/main/java/tw/edu/pu/csim/tcyang/s1131225/ExamScreen.kt:81-96 | The loop runs in `LaunchedEffect(Unit)`, which is launched once. Its falling box uses `iconXOffsetDp` from the composition that launched it, not the current drag offset. | Screen 1000 x 2000 px, density 1, no inset, offset 0 at launch. The icon is dragged 350 dp left at fall position 850. Its box at the current offset lies over the top-left zone, but the iteration decides to drop. | The collision box follows the current drag offset, which the image on screen uses (lines 155-157). | medium; not executed | `LaunchedLoop.StaleOffsetMissesCurrentHit` | `LaunchedLoop.IntendedHitFollowsCurrentOffset` |

## Left out

- The `while (true)` loop and `delay(100)` (ExamScreen.kt:84-85): one iteration is modelled, not the scheduler.
- The bodies of `dropIcon`, `resetIconPosition`, `setCollisionMessage` and `updateXOffset` are not modelled. Neither is the three-argument `updateScreenSize`, nor the `screenWidth`/`screenHeight`/`iconYPositionPx` state flows. None of these is defined in `ExamViewModel.kt`.
  - The iteration records the calls it makes as `Call` values.
  - Fall speed, drag clamping, reset arithmetic and random icon choice are therefore not modelled.
- Platform inputs are parameters:
  - the density;
  - the screen size from `LocalConfiguration`, with its float-to-int truncation (ExamScreen.kt:47-52);
  - the bottom inset (ExamScreen.kt:82);
  - the drag gestures (ExamScreen.kt:159-170).
- `LaunchedLoop.CurrentBounds` is the collision box at the current drag offset, not the image's
  position on screen. The image sits inside a `Box` padded by the scaffold's insets
  (ExamScreen.kt:142-146, 154-157), so it is drawn lower by the top inset and moved sideways by half the difference between the start and end insets. The
  inset offsets are not modelled.
- IEEE `Float` rounding is not modelled; the model uses exact reals.
- `Frame`: the screen size in the iteration is an unbounded `int`. The source converts an `Int` to `Float` there, and that conversion is exact for any realistic screen size.
- Compose layout, images, text, the fixed score text and styling (ExamScreen.kt:75-78, 142-224) are presentation only.
- Compose state observation (`mutableStateOf`, recomposition) is not modelled.
- `ViewModel.ExamViewModel.UpdateScreenSize`: the model does not express `private set` (ExamViewModel.kt:12, 14). Dafny has no field visibility, so the claim that this is the only mutator is not stated. It is the only mutating method of the class.
- `MainActivity.kt` is not part of this model. It only bootstraps the activity and sets the theme.
