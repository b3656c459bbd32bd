/** One iteration of the game loop in ExamScreen.kt: the not-ready guard, the
    first-match scan over the role zones, the bottom-out check and the drop. */
module Tick {
  import opened Geometry
  import opened Layout

  datatype Option<T> = None | Some(value: T)

  /** What one iteration decides. */
  datatype Outcome =
    | NotReadyDrop                            // screen size not known yet
    | Hit(roleIndex: nat, message: string)    // collided with a role zone
    | BottomOut(message: string)              // reached the bottom boundary
    | Drop                                    // keeps falling

  /** The calls one iteration makes on the view model, in order. Their bodies
      are not part of this model. */
  datatype Call = SetCollisionMessage(message: string) | ResetIconPosition | DropIcon

  /** Prefix of the message set on a collision; the role's name follows it. */
  const HitPrefix: string := "碰撞"

  /** Message set when the icon reaches the bottom. */
  const BottomMessage: string := "(掉到最下方)"

  /** What one iteration reads: the screen size in pixels, the bottom inset,
      the display density, the drag offset in dp and the fall position. */
  datatype Frame = Frame(
    width: int, height: int, bottomPaddingPx: real,
    density: real, xOffsetDp: real, yPositionPx: real)

  predicate Ready(f: Frame) { f.height > 0 && f.width > 0 }

  function Falling(f: Frame): Rect {
    FallingBounds(f.width, f.xOffsetDp, f.density, f.yPositionPx)
  }

  function Zones(f: Frame): seq<RoleBounds> {
    RoleZones(f.width, f.height, f.bottomPaddingPx)
  }

  /** The y coordinate at which the icon counts as having reached the bottom. */
  function BottomBoundary(f: Frame): real {
    f.height as real - f.bottomPaddingPx
  }

  /** No zone from index `from` on overlaps `falling`. */
  predicate NoHitFrom(falling: Rect, zones: seq<RoleBounds>, from: nat) {
    forall j :: from <= j < |zones| ==> !CheckCollision(falling, zones[j].rect)
  }

  /** The first zone at or after `from` that overlaps `falling`, if any. */
  function FirstHit(falling: Rect, zones: seq<RoleBounds>, from: nat): (r: Option<nat>)
    requires from <= |zones|
    ensures r.Some? ==>
              from <= r.value < |zones| &&
              CheckCollision(falling, zones[r.value].rect) &&
              forall j :: from <= j < r.value ==> !CheckCollision(falling, zones[j].rect)
    ensures r.None? <==> NoHitFrom(falling, zones, from)
    decreases |zones| - from
  {
    if from == |zones| then None
    else if CheckCollision(falling, zones[from].rect) then Some(from)
    else FirstHit(falling, zones, from + 1)
  }

  /** The decision of one iteration. */
  function StepOutcome(f: Frame): Outcome {
    if !Ready(f) then NotReadyDrop
    else match FirstHit(Falling(f), Zones(f), 0)
      case Some(i) => Hit(i, HitPrefix + Zones(f)[i].name)
      case None =>
        if Falling(f).bottom >= BottomBoundary(f) then BottomOut(BottomMessage) else Drop
  }

  /** The view-model calls an outcome stands for. */
  function CallsOf(o: Outcome): seq<Call> {
    match o
    case NotReadyDrop => [DropIcon]
    case Hit(_, m) => [SetCollisionMessage(m), ResetIconPosition]
    case BottomOut(m) => [SetCollisionMessage(m), ResetIconPosition]
    case Drop => [DropIcon]
  }

  /** The loop body as the source writes it: a guard, a scan with a flag and an
      early exit, then two checks of the flag. It returns the decision and the
      view-model calls it made. */
  method RunTick(f: Frame) returns (o: Outcome, calls: seq<Call>)
    ensures o == StepOutcome(f)
    ensures calls == CallsOf(o)
  {
    if f.height <= 0 || f.width <= 0 {
      return NotReadyDrop, [DropIcon];
    }
    var falling := FallingBounds(f.width, f.xOffsetDp, f.density, f.yPositionPx);
    var zones := RoleZones(f.width, f.height, f.bottomPaddingPx);
    calls := [];
    o := Drop;
    var collisionDetected := false;
    var k := 0;
    while k < |zones|
      invariant 0 <= k <= |zones|
      invariant !collisionDetected && calls == []
      invariant forall j :: 0 <= j < k ==> !CheckCollision(falling, zones[j].rect)
    {
      if CheckCollision(falling, zones[k].rect) {
        o := Hit(k, HitPrefix + zones[k].name);
        calls := calls + [SetCollisionMessage(HitPrefix + zones[k].name), ResetIconPosition];
        collisionDetected := true;
        break;
      }
      k := k + 1;
    }
    var bottomCollisionBoundaryPx := f.height as real - f.bottomPaddingPx;
    if !collisionDetected && falling.bottom >= bottomCollisionBoundaryPx {
      o := BottomOut(BottomMessage);
      calls := calls + [SetCollisionMessage(BottomMessage), ResetIconPosition];
      collisionDetected := true;
    }
    if !collisionDetected {
      calls := calls + [DropIcon];
    }
  }

  /** Before the screen size is known the iteration only drops the icon: no
      collision check and no message. */
  lemma NotReadyOnlyDrops(f: Frame)
    requires f.height <= 0 || f.width <= 0
    ensures StepOutcome(f) == NotReadyDrop
    ensures CallsOf(StepOutcome(f)) == [DropIcon]
  {
  }

  /** First match wins: the iteration reports a hit on zone `i`, with that
      role's name in the message, exactly when the falling box overlaps zone
      `i` and none of the zones before it. */
  lemma FirstMatchWins(f: Frame, i: nat)
    requires Ready(f) && i < 4
    ensures StepOutcome(f) == Hit(i, HitPrefix + RoleNames[i]) <==>
              CheckCollision(Falling(f), Zones(f)[i].rect) &&
              forall j :: 0 <= j < i ==> !CheckCollision(Falling(f), Zones(f)[j].rect)
  {
    var r := FirstHit(Falling(f), Zones(f), 0);
    if CheckCollision(Falling(f), Zones(f)[i].rect) &&
       forall j :: 0 <= j < i ==> !CheckCollision(Falling(f), Zones(f)[j].rect)
    {
      assert r != None by { assert !NoHitFrom(Falling(f), Zones(f), 0); }
      assert r.value == i;
    }
  }

  /** A hit sets one message naming the role and resets once. */
  lemma HitCallsOnce(f: Frame)
    requires StepOutcome(f).Hit?
    ensures StepOutcome(f).roleIndex < 4
    ensures CallsOf(StepOutcome(f)) ==
              [SetCollisionMessage(HitPrefix + RoleNames[StepOutcome(f).roleIndex]), ResetIconPosition]
  {
  }

  /** Bottom-out happens exactly when no zone is hit and the box's bottom edge
      is at or below the bottom boundary; touching the boundary counts. */
  lemma BottomOutIff(f: Frame)
    ensures StepOutcome(f) == BottomOut(BottomMessage) <==>
              Ready(f) && NoHitFrom(Falling(f), Zones(f), 0) &&
              Falling(f).bottom >= BottomBoundary(f)
    ensures StepOutcome(f).BottomOut? ==> StepOutcome(f).message == BottomMessage
  {
  }

  /** A ready iteration drops the icon exactly when neither terminal condition
      holds. */
  lemma DropIff(f: Frame)
    ensures StepOutcome(f) == Drop <==>
              Ready(f) && NoHitFrom(Falling(f), Zones(f), 0) &&
              Falling(f).bottom < BottomBoundary(f)
  {
  }

  /** Every ready iteration ends in exactly one of: a message and a reset, or a
      drop. Nothing else is called. */
  lemma ExactlyOneEffect(f: Frame)
    requires Ready(f)
    ensures !StepOutcome(f).NotReadyDrop?
    ensures var o := StepOutcome(f);
            var calls := CallsOf(o);
            multiset(calls)[ResetIconPosition] + multiset(calls)[DropIcon] == 1 &&
            if o.Drop? then calls == [DropIcon]
            else calls == [SetCollisionMessage(o.message), ResetIconPosition]
  {
  }
}
