/** The bounding boxes the game loop builds on each tick (ExamScreen.kt):
    the falling icon's box and the four fixed role zones. */
module Layout {
  import opened Geometry

  /** Side of every icon's square box, in pixels (`iconSizePx`). */
  const IconSizePx: real := 300.0

  /** Names of the role icons, in the order the loop tests them:
      top-left, top-right, bottom-left, bottom-right. */
  const RoleNames: seq<string> := ["嬰幼兒圖示", "兒童圖示", "成人圖示", "一般民眾圖示"]

  /** A square of side `IconSizePx`. */
  predicate IconSquare(r: Rect) {
    Width(r) == IconSizePx && Height(r) == IconSizePx
  }

  /** The falling icon's box: horizontally centred on the screen centre shifted
      by the drag offset (converted from dp to px by `density`), top edge at the
      fall position. */
  function FallingBounds(screenWidth: int, xOffsetDp: real, density: real, yPositionPx: real): (r: Rect)
    ensures IconSquare(r)
    ensures (r.left + r.right) / 2.0 == screenWidth as real / 2.0 + xOffsetDp * density
    ensures r.top == yPositionPx
  {
    var left := screenWidth as real / 2.0 + xOffsetDp * density - IconSizePx / 2.0;
    Rect(left, yPositionPx, left + IconSizePx, yPositionPx + IconSizePx)
  }

  /** The four role zones for a screen of `width` x `height` pixels whose
      bottom `bottomPaddingPx` pixels are taken by the scaffold's inset. */
  function RoleZones(width: int, height: int, bottomPaddingPx: real): (zones: seq<RoleBounds>)
    ensures |zones| == 4
    ensures forall i :: 0 <= i < 4 ==> zones[i].name == RoleNames[i] && IconSquare(zones[i].rect)
    // the left zones start at the left edge, the right zones end at the right edge
    ensures zones[0].rect.left == zones[2].rect.left == 0.0
    ensures zones[1].rect.right == zones[3].rect.right == width as real
    // the top zones are vertically centred on the screen
    ensures zones[0].rect.top == zones[1].rect.top
    ensures (zones[0].rect.top + zones[0].rect.bottom) / 2.0 == height as real / 2.0
    // the bottom zones end at the bottom boundary
    ensures zones[2].rect.bottom == zones[3].rect.bottom == height as real - bottomPaddingPx
  {
    var verticalOffsetPx := height as real / 2.0 - IconSizePx / 2.0;
    var w := width as real;
    var bottom := height as real - bottomPaddingPx;
    [ RoleBounds(RoleNames[0], Rect(0.0, verticalOffsetPx, IconSizePx, verticalOffsetPx + IconSizePx)),
      RoleBounds(RoleNames[1], Rect(w - IconSizePx, verticalOffsetPx, w, verticalOffsetPx + IconSizePx)),
      RoleBounds(RoleNames[2], Rect(0.0, bottom - IconSizePx, IconSizePx, bottom)),
      RoleBounds(RoleNames[3], Rect(w - IconSizePx, bottom - IconSizePx, w, bottom)) ]
  }

  /** The two top zones overlap exactly when the screen is narrower than two
      icons (and wider than nothing). */
  lemma TopZonesCollideIffNarrow(width: int, height: int, bottomPaddingPx: real)
    ensures CheckCollision(RoleZones(width, height, bottomPaddingPx)[0].rect,
                           RoleZones(width, height, bottomPaddingPx)[1].rect)
            <==> 0 < width < 600
  {
  }

  /** On a screen at least two icons wide, with room for three icons between
      the vertical centre and the bottom boundary, no two role zones overlap.
      The falling box can still overlap two zones at once. */
  lemma ZonesDisjointOnLargeScreen(width: int, height: int, bottomPaddingPx: real)
    requires width >= 600
    requires height as real - bottomPaddingPx >= height as real / 2.0 + 450.0
    ensures forall i, j :: 0 <= i < j < 4 ==>
              !CheckCollision(RoleZones(width, height, bottomPaddingPx)[i].rect,
                              RoleZones(width, height, bottomPaddingPx)[j].rect)
  {
    var z := RoleZones(width, height, bottomPaddingPx);
    forall i, j | 0 <= i < j < 4
      ensures !CheckCollision(z[i].rect, z[j].rect)
    {
      if i % 2 == j % 2 {
        // a top zone above the bottom zone on the same side
        assert z[i].rect.bottom <= z[j].rect.top;
      } else {
        // a left zone beside a right zone
        assert i % 2 == 0 ==> z[i].rect.right <= z[j].rect.left;
        assert i % 2 == 1 ==> z[j].rect.right <= z[i].rect.left;
      }
    }
  }
}
