/**
 * The line-avoidance distance query of the float manager, stated on values: how
 * far a line must shrink on one side to clear the floats on that side.
 */
module LineAvoidance {
  import opened Geometry
  import opened Placement

  /**
   * applyLineWidthHeightHack: a line with no content width yet is tested as 10
   * wide, a line with no height as 10 high; its position is kept.
   */
  function LineWidthHeightHack(contentWidth: int, height: int, bounds: Rect): (r: Rect)
    ensures r.x == bounds.x && r.y == bounds.y
    ensures r.width == (if contentWidth == 0 then 10 else bounds.width)
    ensures r.height == (if height == 0 then 10 else bounds.height)
  {
    var widened := if contentWidth == 0 then bounds.(width := 10) else bounds;
    if height == 0 then widened.(height := 10) else widened
  }

  /** The line's test rectangle after a hit of the given width: a left float pushes it right, a right float left. */
  function Shifted(line: Rect, dir: Direction, width: int): Rect
  {
    Translate(line, if dir == Left then width else -width, 0)
  }

  /**
   * getFloatDistance: the floats are tested in placement order against the
   * line's rectangle; each one that intersects it adds its width to the
   * distance and moves the rectangle past itself before the next is tested.
   */
  function Distance(line: Rect, floats: seq<Rect>, dir: Direction): int
    decreases |floats|
  {
    if floats == [] then 0
    else if Intersects(line, floats[0]) then
      floats[0].width + Distance(Shifted(line, dir, floats[0].width), floats[1..], dir)
    else Distance(line, floats[1..], dir)
  }

  /** Only floats of positive width can be hit, so the distance is never negative. */
  lemma {:induction false} DistanceNonNegative(line: Rect, floats: seq<Rect>, dir: Direction)
    ensures Distance(line, floats, dir) >= 0
    decreases |floats|
  {
    if floats != [] {
      if Intersects(line, floats[0]) {
        DistanceNonNegative(Shifted(line, dir, floats[0].width), floats[1..], dir);
      } else {
        DistanceNonNegative(line, floats[1..], dir);
      }
    }
  }

  /** The distance is zero exactly when no float meets the line where it started. */
  lemma {:induction false} DistanceZeroIff(line: Rect, floats: seq<Rect>, dir: Direction)
    ensures Distance(line, floats, dir) == 0 <==> forall i :: 0 <= i < |floats| ==> !Intersects(line, floats[i])
    decreases |floats|
  {
    if floats != [] {
      var tail := floats[1..];
      assert forall i :: 1 <= i < |floats| ==> floats[i] == tail[i - 1];
      if Intersects(line, floats[0]) {
        DistanceNonNegative(Shifted(line, dir, floats[0].width), tail, dir);
      } else {
        DistanceZeroIff(line, tail, dir);
      }
    }
  }

  /** The sum of the widths of the floats that have one (the most a line can ever give up). */
  function PositiveWidths(floats: seq<Rect>): int
  {
    if floats == [] then 0
    else (if floats[0].width > 0 then floats[0].width else 0) + PositiveWidths(floats[1..])
  }

  /** Each float is counted at most once, so the distance never exceeds the floats' total width. */
  lemma {:induction false} DistanceAtMostTotalWidth(line: Rect, floats: seq<Rect>, dir: Direction)
    ensures Distance(line, floats, dir) <= PositiveWidths(floats)
    decreases |floats|
  {
    if floats != [] {
      if Intersects(line, floats[0]) {
        DistanceAtMostTotalWidth(Shifted(line, dir, floats[0].width), floats[1..], dir);
      } else {
        DistanceAtMostTotalWidth(line, floats[1..], dir);
      }
    }
  }
}
