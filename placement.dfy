/**
 * The placement and clearance rules of the float manager, stated on values.
 *
 * Every float on a manager's lists is seen through its shared-frame bounds: its
 * own rectangle translated by the negation of the formatting-context offset that
 * was frozen when it was saved. The box being placed is seen the same way through
 * the offset current at the time of the call. The functions here take those
 * rectangles as sequences, in placement order, and say where a box ends up; the
 * methods of Layout.FloatManager are proved to move boxes exactly so.
 */
module Placement {
  import opened Geometry
  import opened Style

  /** The two sides a box can float to (LEFT = 1 and RIGHT = 2 in the source). */
  datatype Direction = Left | Right

  /** A box's position, in the local frame of the formatting context it is laid out in. */
  datatype Pos = Pos(x: int, y: int)

  /** The facts of a box that placement reads but never writes. */
  datatype Shape = Shape(width: int, height: int, containingWidth: int)

  /** The box's rectangle in the shared frame. */
  function SharedBounds(p: Pos, s: Shape, off: Point): Rect
  {
    Rect(p.x - off.x, p.y - off.y, s.width, s.height)
  }

  /** The shared-frame top of a box. */
  function Top(p: Pos, off: Point): int
  {
    p.y - off.y
  }

  function Last(rs: seq<Rect>): Rect
    requires rs != []
  {
    rs[|rs| - 1]
  }

  /** getFloats(direction) when given both lists. */
  function Same(dir: Direction, left: seq<Rect>, right: seq<Rect>): seq<Rect>
  {
    if dir == Left then left else right
  }

  /** getOpposingFloats(direction) when given both lists. */
  function Opposing(dir: Direction, left: seq<Rect>, right: seq<Rect>): seq<Rect>
  {
    if dir == Left then right else left
  }

  /** The x at which a box touches its side's edge of the containing block. */
  function Edge(dir: Direction, s: Shape): int
  {
    if dir == Left then 0 else s.containingWidth - s.width
  }

  /** fitsInContainingBlock: the box lies horizontally within the containing block's content. */
  predicate Fits(x: int, s: Shape)
  {
    x >= 0 && x + s.width <= s.containingWidth
  }

  /** moveAllTheWayOver: only x changes; a box no wider than its containing block then fits. */
  function MoveAllTheWayOver(p: Pos, s: Shape, dir: Direction): (q: Pos)
    ensures q.y == p.y
    ensures s.width <= s.containingWidth ==> Fits(q.x, s)
    ensures dir == Left ==> q.x == 0
    ensures dir == Right ==> q.x + s.width == s.containingWidth
  {
    Pos(Edge(dir, s), p.y)
  }

  /**
   * findLowestAbsoluteY: the running maximum, from 0, of the bottoms of the
   * rectangles, taken in list order.
   */
  function LowestBottom(rs: seq<Rect>): int
  {
    if rs == [] then 0
    else
      var lower := LowestBottom(rs[..|rs| - 1]);
      var bottom := Bottom(rs[|rs| - 1]);
      if bottom > lower then bottom else lower
  }

  /** The lowest line is the maximum of 0 and every bottom on the list. */
  lemma {:induction false} LowestBottomIsMaximum(rs: seq<Rect>)
    ensures LowestBottom(rs) >= 0
    ensures forall i :: 0 <= i < |rs| ==> Bottom(rs[i]) <= LowestBottom(rs)
    ensures LowestBottom(rs) == 0 || exists i :: 0 <= i < |rs| && Bottom(rs[i]) == LowestBottom(rs)
  {
    if rs != [] {
      var init := rs[..|rs| - 1];
      LowestBottomIsMaximum(init);
      assert forall i :: 0 <= i < |init| ==> init[i] == rs[i];
    }
  }

  /** overlaps: some rectangle on the list intersects the box's. */
  predicate OverlapsAny(r: Rect, rs: seq<Rect>)
  {
    exists i :: 0 <= i < |rs| && Intersects(rs[i], r)
  }

  /**
   * moveClear, once the lowest line is known: a box whose shared-frame top is
   * above the line is pushed down onto it; nothing moves sideways.
   */
  function ClearPast(p: Pos, off: Point, line: int): (q: Pos)
    ensures q.x == p.x && q.y >= p.y
    ensures Top(q, off) >= line
    ensures Top(p, off) >= line ==> q == p
    ensures q == p || Top(q, off) == line
  {
    if Top(p, off) < line then Pos(p.x, line + off.y) else p
  }

  /**
   * alignToLastOpposingFloat: a box whose top is above the top of the last float
   * on the other side is pushed down to that top; only y changes.
   */
  function AlignToLastOpposingFloat(p: Pos, off: Point, opposing: seq<Rect>): (q: Pos)
    ensures q.x == p.x && q.y >= p.y
    ensures opposing == [] ==> q == p
    ensures opposing != [] ==> Top(q, off) >= Last(opposing).y
    ensures q == p || (opposing != [] && Top(q, off) == Last(opposing).y)
  {
    if opposing == [] then p
    else
      var last := Last(opposing);
      if Top(p, off) < last.y then Pos(p.x, last.y + off.y) else p
  }

  /**
   * The condition under which alignToLastFloat stacks the box beside the last
   * same-side float: the box starts above that float, or its top lies within it.
   */
  predicate MovesOver(p: Pos, off: Point, same: seq<Rect>)
  {
    same != [] &&
    var last := Last(same);
    var top := Top(p, off);
    var top' := if top < last.y then last.y else top;
    top < last.y || (top' >= last.y && top' < last.y + last.height)
  }

  /**
   * alignToLastFloat: when MovesOver holds, the box is lowered to the last
   * same-side float's top if it started above it and is placed against it
   * (a left float at its right edge, a right float at its left edge).
   */
  function AlignToLastFloat(p: Pos, s: Shape, off: Point, dir: Direction, same: seq<Rect>): (q: Pos)
    ensures q.y >= p.y
    ensures !MovesOver(p, off, same) ==> q == p
    ensures MovesOver(p, off, same) ==>
      && Top(q, off) == (if Top(p, off) < Last(same).y then Last(same).y else Top(p, off))
      && (dir == Left ==> SharedBounds(q, s, off).x == Last(same).x + Last(same).width)
      && (dir == Right ==> SharedBounds(q, s, off).x + s.width == Last(same).x)
  {
    if !MovesOver(p, off, same) then p
    else
      var last := Last(same);
      var top := if Top(p, off) < last.y then last.y else Top(p, off);
      var left := if dir == Left then last.x + last.width else last.x - s.width;
      Pos(left + off.x, top + off.y)
  }

  /** Steps 1 to 3 of position: to the edge, below the last opposing float, beside the last same-side float. */
  function Stacked(p: Pos, s: Shape, off: Point, dir: Direction, same: seq<Rect>, opposing: seq<Rect>): Pos
  {
    var atEdge := MoveAllTheWayOver(p, s, dir);
    var lowered := AlignToLastOpposingFloat(atEdge, off, opposing);
    AlignToLastFloat(lowered, s, off, dir, same)
  }

  /** Pass A fires when the box sticks out of its containing block or meets a same-side float. */
  predicate PassAFires(p: Pos, s: Shape, off: Point, same: seq<Rect>)
  {
    !Fits(p.x, s) || OverlapsAny(SharedBounds(p, s, off), same)
  }

  /** Pass A: back to the edge, then below every same-side float. */
  function PassA(p: Pos, s: Shape, off: Point, dir: Direction, same: seq<Rect>): (q: Pos)
    ensures q.y >= p.y
    ensures !PassAFires(p, s, off, same) ==> q == p
    ensures PassAFires(p, s, off, same) ==> q.x == Edge(dir, s) && Top(q, off) >= LowestBottom(same)
  {
    if PassAFires(p, s, off, same) then
      ClearPast(MoveAllTheWayOver(p, s, dir), off, LowestBottom(same))
    else p
  }

  /** Pass B fires when the box meets a float on the other side. */
  predicate PassBFires(p: Pos, s: Shape, off: Point, opposing: seq<Rect>)
  {
    OverlapsAny(SharedBounds(p, s, off), opposing)
  }

  /** Pass B: back to the edge, then below every float on both sides. */
  function PassB(p: Pos, s: Shape, off: Point, dir: Direction, same: seq<Rect>, opposing: seq<Rect>): (q: Pos)
    ensures q.y >= p.y
    ensures !PassBFires(p, s, off, opposing) ==> q == p
    ensures PassBFires(p, s, off, opposing) ==>
      q.x == Edge(dir, s) && Top(q, off) >= LowestBottom(same) && Top(q, off) >= LowestBottom(opposing)
  {
    if PassBFires(p, s, off, opposing) then
      var belowSame := ClearPast(MoveAllTheWayOver(p, s, dir), off, LowestBottom(same));
      ClearPast(belowSame, off, LowestBottom(opposing))
    else p
  }

  /**
   * clear: moveClear against the left floats when the style clears left, then
   * against the right floats when it clears right. Only y changes, never upward,
   * and a box already below every requested line stays where it is.
   */
  function Clear(p: Pos, off: Point, c: CssClear, left: seq<Rect>, right: seq<Rect>): (q: Pos)
    ensures q.x == p.x && q.y >= p.y
    ensures IsClearLeft(c) ==> Top(q, off) >= LowestBottom(left)
    ensures IsClearRight(c) ==> Top(q, off) >= LowestBottom(right)
    ensures ((IsClearLeft(c) ==> Top(p, off) >= LowestBottom(left)) &&
             (IsClearRight(c) ==> Top(p, off) >= LowestBottom(right)))
            ==> q == p
  {
    var afterLeft := if IsClearLeft(c) then ClearPast(p, off, LowestBottom(left)) else p;
    if IsClearRight(c) then ClearPast(afterLeft, off, LowestBottom(right)) else afterLeft
  }

  /**
   * position: the whole placement of a box floated to dir, from the position in
   * which it arrives (y already the floating cursor), against the shared-frame
   * bounds of the left and right floats saved so far.
   */
  function Place(p: Pos, s: Shape, c: CssClear, dir: Direction, off: Point, left: seq<Rect>, right: seq<Rect>): (q: Pos)
    ensures q.y >= p.y
    ensures s.width <= s.containingWidth ==> Fits(q.x, s)
  {
    var same := Same(dir, left, right);
    var opposing := Opposing(dir, left, right);
    var stacked := Stacked(p, s, off, dir, same, opposing);
    var afterA := PassA(stacked, s, off, dir, same);
    var afterB := PassB(afterA, s, off, dir, same, opposing);
    if IsCleared(c) then Clear(afterB, off, c, left, right) else afterB
  }

  /**
   * When pass A fires, the box ends at its side's edge with its top at or below
   * the bottom of every float on its own side.
   */
  lemma PassAOutcome(p: Pos, s: Shape, c: CssClear, dir: Direction, off: Point, left: seq<Rect>, right: seq<Rect>)
    requires PassAFires(Stacked(p, s, off, dir, Same(dir, left, right), Opposing(dir, left, right)), s, off, Same(dir, left, right))
    ensures var q := Place(p, s, c, dir, off, left, right);
      && q.x == Edge(dir, s)
      && forall i :: 0 <= i < |Same(dir, left, right)| ==> Bottom(Same(dir, left, right)[i]) <= Top(q, off)
  {
    LowestBottomIsMaximum(Same(dir, left, right));
  }

  /**
   * When pass B fires, the box ends at its side's edge with its top at or below
   * the bottom of every float on either side.
   */
  lemma PassBOutcome(p: Pos, s: Shape, c: CssClear, dir: Direction, off: Point, left: seq<Rect>, right: seq<Rect>)
    requires
      var same := Same(dir, left, right);
      var opposing := Opposing(dir, left, right);
      PassBFires(PassA(Stacked(p, s, off, dir, same, opposing), s, off, dir, same), s, off, opposing)
    ensures var q := Place(p, s, c, dir, off, left, right);
      && q.x == Edge(dir, s)
      && (forall i :: 0 <= i < |left| ==> Bottom(left[i]) <= Top(q, off))
      && (forall i :: 0 <= i < |right| ==> Bottom(right[i]) <= Top(q, off))
  {
    LowestBottomIsMaximum(left);
    LowestBottomIsMaximum(right);
  }

  /**
   * When neither pass fires, the box keeps the x that stacking gave it, which
   * fits the containing block and meets no float at the height it was stacked at.
   */
  lemma NeitherPassOutcome(p: Pos, s: Shape, c: CssClear, dir: Direction, off: Point, left: seq<Rect>, right: seq<Rect>)
    requires
      var same := Same(dir, left, right);
      var opposing := Opposing(dir, left, right);
      var stacked := Stacked(p, s, off, dir, same, opposing);
      !PassAFires(stacked, s, off, same) && !PassBFires(stacked, s, off, opposing)
    ensures
      var same := Same(dir, left, right);
      var opposing := Opposing(dir, left, right);
      var stacked := Stacked(p, s, off, dir, same, opposing);
      var q := Place(p, s, c, dir, off, left, right);
      && q.x == stacked.x && Fits(q.x, s)
      && (!IsCleared(c) ==> q == stacked)
      && forall i :: 0 <= i < |left| + |right| ==> !Intersects((left + right)[i], SharedBounds(stacked, s, off))
  {
    var same := Same(dir, left, right);
    var opposing := Opposing(dir, left, right);
    var stacked := Stacked(p, s, off, dir, same, opposing);
    forall i | 0 <= i < |left| + |right|
      ensures !Intersects((left + right)[i], SharedBounds(stacked, s, off))
    {
      if i < |left| {
        assert (left + right)[i] == left[i];
        assert dir == Left ==> left[i] == same[i];
        assert dir == Right ==> left[i] == opposing[i];
      } else {
        assert (left + right)[i] == right[i - |left|];
        assert dir == Left ==> right[i - |left|] == opposing[i - |left|];
        assert dir == Right ==> right[i - |left|] == same[i - |left|];
      }
    }
  }

  /** The first of three floats in a 400-wide block: a 150-wide left float with nothing saved lands at (0, 0). */
  lemma FirstLeftFloat()
    ensures Place(Pos(0, 0), Shape(150, 50, 400), ClearNone, Left, Point(0, 0), [], []) == Pos(0, 0)
  {
    var s, off := Shape(150, 50, 400), Point(0, 0);
    assert Stacked(Pos(0, 0), s, off, Left, [], []) == Pos(0, 0);
    assert !PassAFires(Pos(0, 0), s, off, []);
    assert !PassBFires(Pos(0, 0), s, off, []);
  }

  /** The second: a 100-wide left float stacks beside the first, at (150, 0). */
  lemma SecondLeftFloat()
    ensures Place(Pos(0, 0), Shape(100, 50, 400), ClearNone, Left, Point(0, 0), [Rect(0, 0, 150, 50)], []) == Pos(150, 0)
  {
    var s, off, same := Shape(100, 50, 400), Point(0, 0), [Rect(0, 0, 150, 50)];
    assert MovesOver(Pos(0, 0), off, same);
    assert Stacked(Pos(0, 0), s, off, Left, same, []) == Pos(150, 0);
    assert !Intersects(same[0], SharedBounds(Pos(150, 0), s, off));
    assert !PassAFires(Pos(150, 0), s, off, same);
    assert !PassBFires(Pos(150, 0), s, off, []);
  }

  /**
   * The third: a 200-wide right float at (200, 0) would meet the second left
   * float, so pass B (not pass A: there is no right float yet) sends it below
   * both, to (200, 50).
   */
  lemma RightFloatAfterTwoLeft()
    ensures var left := [Rect(0, 0, 150, 50), Rect(150, 0, 100, 50)];
      var stacked := Stacked(Pos(0, 0), Shape(200, 50, 400), Point(0, 0), Right, [], left);
      && stacked == Pos(200, 0)
      && !PassAFires(stacked, Shape(200, 50, 400), Point(0, 0), [])
      && PassBFires(stacked, Shape(200, 50, 400), Point(0, 0), left)
      && Place(Pos(0, 0), Shape(200, 50, 400), ClearNone, Right, Point(0, 0), left, []) == Pos(200, 50)
  {
    var s, off, left := Shape(200, 50, 400), Point(0, 0), [Rect(0, 0, 150, 50), Rect(150, 0, 100, 50)];
    assert MoveAllTheWayOver(Pos(0, 0), s, Right) == Pos(200, 0);
    assert AlignToLastOpposingFloat(Pos(200, 0), off, left) == Pos(200, 0);
    assert Stacked(Pos(0, 0), s, off, Right, [], left) == Pos(200, 0);
    assert !PassAFires(Pos(200, 0), s, off, []);
    assert Intersects(left[1], SharedBounds(Pos(200, 0), s, off));
    assert PassBFires(Pos(200, 0), s, off, left);
    assert LowestBottom(left[..1]) == 50;
    assert left[..|left| - 1] == left[..1];
    assert LowestBottom(left) == 50;
    assert PassB(Pos(200, 0), s, off, Right, [], left) == Pos(200, 50);
  }
}
