/**
 * The float manager of one block formatting context: the floats placed so far,
 * in placement order per side, the formatting-context offset each was saved
 * with, and the operations that place, clear, evict, measure and paint them.
 */
module Layout {
  import opened Geometry
  import opened Style
  import opened Lists
  import opened Placement
  import opened LineAvoidance
  import opened Render

  /** The part of LayoutContext the float manager uses: the floating cursor. */
  class LayoutContext {
    var floatingY: int

    constructor (floatingY: int)
      ensures this.floatingY == floatingY
    {
      this.floatingY := floatingY;
    }
  }

  /** A java.util.List of boxes owned by the caller, such as a batch of pending floats. */
  class BoxList {
    var boxes: seq<Box>

    constructor (boxes: seq<Box>)
      ensures this.boxes == boxes
    {
      this.boxes := boxes;
    }
  }

  /** The box alone if its style floats it as f, else nothing. */
  function Only(b: Box, f: CssFloat): seq<Box>
  {
    if b.cssFloat == f then [b] else []
  }

  /** The boxes of s whose style floats them as f, in order. */
  function WithFloat(s: seq<Box>, f: CssFloat): seq<Box>
  {
    if s == [] then [] else WithFloat(s[..|s| - 1], f) + Only(s[|s| - 1], f)
  }

  /** The filter keeps exactly the boxes of s floated as f. */
  lemma {:induction false} WithFloatMember(s: seq<Box>, f: CssFloat, b: Box)
    ensures b in WithFloat(s, f) <==> b in s && b.cssFloat == f
  {
    if s != [] {
      WithFloatMember(s[..|s| - 1], f, b);
      assert s == s[..|s| - 1] + [s[|s| - 1]];
    }
  }

  /** The offset map after saving the floated boxes of a batch, in order, with the same formatting-context offset. */
  function SavedAt(m: map<Box, Point>, done: seq<Box>, bfc: Point): map<Box, Point>
  {
    if done == [] then m
    else
      var before := SavedAt(m, done[..|done| - 1], bfc);
      if done[|done| - 1].cssFloat == FloatNone then before else before[done[|done| - 1] := bfc]
  }

  /**
   * Saving a batch gives every floated box of it the new offset, keeps every
   * other entry, and adds nothing else.
   */
  lemma {:induction false} SavedAtLookup(m: map<Box, Point>, done: seq<Box>, bfc: Point, b: Box)
    ensures b in done && b.cssFloat != FloatNone ==> b in SavedAt(m, done, bfc) && SavedAt(m, done, bfc)[b] == bfc
    ensures b !in done ==> (b in SavedAt(m, done, bfc) <==> b in m)
    ensures b !in done && b in m ==> SavedAt(m, done, bfc)[b] == m[b]
    ensures b in done && b.cssFloat == FloatNone ==> (b in SavedAt(m, done, bfc) <==> b in m)
  {
    if done != [] {
      var init := done[..|done| - 1];
      assert done == init + [done[|done| - 1]];
      SavedAtLookup(m, init, bfc, b);
    }
  }

  /** One more box of the batch: the filter gains that box if it floats as f. */
  lemma WithFloatStep(base: seq<Box>, s: seq<Box>, i: int, f: CssFloat)
    requires 0 <= i < |s|
    ensures base + WithFloat(s[..i + 1], f) == (base + WithFloat(s[..i], f)) + Only(s[i], f)
  {
    assert s[..i + 1][..i] == s[..i];
    ConcatAssociative(base, WithFloat(s[..i], f), Only(s[i], f));
  }

  /** One more box of the batch: its offset is saved if it floats. */
  lemma SavedAtStep(m: map<Box, Point>, s: seq<Box>, i: int, bfc: Point)
    requires 0 <= i < |s|
    ensures SavedAt(m, s[..i + 1], bfc) ==
      if s[i].cssFloat == FloatNone then SavedAt(m, s[..i], bfc) else SavedAt(m, s[..i], bfc)[s[i] := bfc]
  {
    assert s[..i + 1][..i] == s[..i];
  }

  /** The boxes of a (part of a) batch are settled, the first from the given cursor and the rest from 0. */
  ghost predicate SettledAll(done: seq<Box>, cursor: int)
    reads done
  {
    forall j :: 0 <= j < |done| ==> Settled(done[j], if j == 0 then cursor else 0)
  }

  /** One more settled box extends a settled prefix of the batch. */
  lemma SettledAllStep(boxes: seq<Box>, i: int, cursor: int)
    requires 0 <= i < |boxes|
    requires SettledAll(boxes[..i], cursor) && Settled(boxes[i], if i == 0 then cursor else 0)
    ensures SettledAll(boxes[..i + 1], cursor)
  {
    assert forall j :: 0 <= j < i ==> boxes[..i + 1][j] == boxes[..i][j];
  }

  /** Every box recorded in the snapshot is still where the snapshot says. */
  ghost predicate Unmoved(positions: map<Box, Pos>)
    reads positions.Keys
  {
    forall f :: f in positions ==> f.Position() == positions[f]
  }

  /**
   * Where floatBox leaves a box that starts at the given position: floated
   * boxes are placed towards their side, a box floated neither way stays.
   */
  function Floated(start: Pos, s: Shape, clear: CssClear, f: CssFloat, bfc: Point, left: seq<Rect>, right: seq<Rect>): Pos
  {
    match f
    case FloatNone => start
    case FloatLeft => Place(start, s, clear, Left, bfc, left, right)
    case FloatRight => Place(start, s, clear, Right, bfc, left, right)
  }

  /**
   * What floatPending promises about one box of the batch once it is done: no
   * longer pending, not above the cursor it started from, and inside its
   * containing block if it is a float narrow enough to fit.
   */
  predicate Settled(b: Box, cursor: int)
    reads b
  {
    && !b.pending
    && b.y >= cursor
    && (b.cssFloat != FloatNone && b.width <= b.containingWidth ==> Fits(b.x, b.Dimensions()))
  }

  /** A float's bounds in the shared frame, through the offset it was saved with. */
  function FloatBounds(f: Box, offsets: map<Box, Point>): Rect
    reads f
    requires f in offsets
  {
    SharedBounds(f.Position(), f.Dimensions(), offsets[f])
  }

  /** The shared-frame bounds of a list of saved floats, in list order. */
  function BoundsUnder(fs: seq<Box>, offsets: map<Box, Point>): (rs: seq<Rect>)
    reads fs
    requires forall f :: f in fs ==> f in offsets
    ensures |rs| == |fs|
  {
    if fs == [] then [] else [FloatBounds(fs[0], offsets)] + BoundsUnder(fs[1..], offsets)
  }

  lemma {:induction false} BoundsUnderAt(fs: seq<Box>, offsets: map<Box, Point>, i: int)
    requires forall f :: f in fs ==> f in offsets
    requires 0 <= i < |fs|
    ensures BoundsUnder(fs, offsets)[i] == FloatBounds(fs[i], offsets)
  {
    if i > 0 {
      BoundsUnderAt(fs[1..], offsets, i - 1);
    }
  }

  /** Only the offsets of the floats on the list matter. */
  lemma {:induction false} BoundsUnderAgree(fs: seq<Box>, m1: map<Box, Point>, m2: map<Box, Point>)
    requires forall f :: f in fs ==> f in m1 && f in m2 && m1[f] == m2[f]
    ensures BoundsUnder(fs, m1) == BoundsUnder(fs, m2)
  {
    if fs != [] {
      BoundsUnderAgree(fs[1..], m1, m2);
    }
  }

  /**
   * Every float on either list has exactly one frozen offset and nothing else
   * has one; no list holds a box twice; the left list holds only left floats
   * and the right list only right floats, so no box is on both.
   */
  ghost predicate Consistent(left: seq<Box>, right: seq<Box>, offsets: map<Box, Point>)
  {
    && (forall b :: b in offsets ==> b in left || b in right)
    && (forall b :: b in left ==> b in offsets)
    && (forall b :: b in right ==> b in offsets)
    && NoDuplicates(left) && NoDuplicates(right)
    && (forall b :: b in left ==> b.cssFloat == FloatLeft)
    && (forall b :: b in right ==> b.cssFloat == FloatRight)
  }

  /** save keeps the invariant: an untracked float is appended to the list of its own side, with an offset. */
  lemma SaveKeepsConsistent(left: seq<Box>, right: seq<Box>, offsets: map<Box, Point>, b: Box, p: Point)
    requires Consistent(left, right, offsets)
    requires b !in left && b !in right && b.cssFloat != FloatNone
    ensures b.cssFloat == FloatLeft ==> Consistent(left + [b], right, offsets[b := p])
    ensures b.cssFloat == FloatRight ==> Consistent(left, right + [b], offsets[b := p])
  {
    if b.cssFloat == FloatLeft {
      AppendAbsent(left, b);
    } else {
      AppendAbsent(right, b);
    }
  }

  /** removeFloat keeps the invariant, whether or not the box was tracked. */
  lemma {:induction false} RemoveKeepsConsistent(left: seq<Box>, right: seq<Box>, offsets: map<Box, Point>, b: Box)
    requires Consistent(left, right, offsets)
    ensures Consistent(RemoveFirst(left, b), RemoveFirst(right, b), offsets - {b})
  {
    RemoveFirstOfDistinct(left, b);
    RemoveFirstOfDistinct(right, b);
    forall f | f in offsets - {b} ensures f in RemoveFirst(left, b) || f in RemoveFirst(right, b) {
      RemoveFirstMember(left, b, f);
      RemoveFirstMember(right, b, f);
    }
    forall f | f in RemoveFirst(left, b) ensures f in offsets - {b} && f.cssFloat == FloatLeft {
      RemoveFirstMember(left, b, f);
    }
    forall f | f in RemoveFirst(right, b) ensures f in offsets - {b} && f.cssFloat == FloatRight {
      RemoveFirstMember(right, b, f);
    }
  }

  /** The rectangle a line is tested with: its bounds in the shared frame, after applyLineWidthHeightHack. */
  function LineTestBounds(line: Line, bfc: Point): (r: Rect)
    ensures r.x == line.x - bfc.x && r.y == line.y - bfc.y
    ensures r.width == (if line.contentWidth == 0 then 10 else line.width)
    ensures r.height == (if line.height == 0 then 10 else line.height)
  {
    LineWidthHeightHack(line.contentWidth, line.height, line.Bounds(-bfc.x, -bfc.y))
  }

  /** The paint calls of a list of saved floats, in list order, each at minus its offset, on a surface at the given origin. */
  function PaintCalls(fs: seq<Box>, offsets: map<Box, Point>, origin: Point): (r: seq<PaintCall>)
    requires forall f :: f in fs ==> f in offsets
    ensures |r| == |fs|
  {
    if fs == [] then []
    else PaintCalls(fs[..|fs| - 1], offsets, origin) + [PaintCall(fs[|fs| - 1], -offsets[fs[|fs| - 1]].x, -offsets[fs[|fs| - 1]].y, origin)]
  }

  /** Each float of the list is painted once, at its own place in the order, at minus its offset. */
  lemma {:induction false} PaintCallsAt(fs: seq<Box>, offsets: map<Box, Point>, origin: Point, i: int)
    requires forall f :: f in fs ==> f in offsets
    requires 0 <= i < |fs|
    ensures PaintCalls(fs, offsets, origin)[i] == PaintCall(fs[i], -offsets[fs[i]].x, -offsets[fs[i]].y, origin)
  {
    if i < |fs| - 1 {
      PaintCallsAt(fs[..|fs| - 1], offsets, origin, i);
    }
  }

  class FloatManager {
    var leftFloats: seq<Box>
    var rightFloats: seq<Box>
    var offsetMap: map<Box, Point>
    var master: Box?

    /** The float manager's invariant, on its three fields. */
    ghost predicate Valid()
      reads this
    {
      Consistent(leftFloats, rightFloats, offsetMap)
    }

    /** The box is on one of the lists. */
    predicate Tracked(b: Box)
      reads this
    {
      b in leftFloats || b in rightFloats
    }

    constructor ()
      ensures Valid()
      ensures leftFloats == [] && rightFloats == [] && offsetMap == map[] && master == null
    {
      leftFloats, rightFloats, offsetMap, master := [], [], map[], null;
    }

    /** getFloats. */
    function Floats(dir: Direction): seq<Box>
      reads this
    {
      if dir == Left then leftFloats else rightFloats
    }

    /** getOpposingFloats. */
    function OpposingFloats(dir: Direction): seq<Box>
      reads this
    {
      if dir == Left then rightFloats else leftFloats
    }

    /** The shared-frame bounds of a list of saved floats, in list order. */
    function BoundsOf(fs: seq<Box>): (rs: seq<Rect>)
      reads this, fs
      requires forall f :: f in fs ==> f in offsetMap
      ensures |rs| == |fs|
    {
      BoundsUnder(fs, offsetMap)
    }

    /** fitsInContainingBlock. */
    predicate FitsInContainingBlock(current: Box)
      reads current
    {
      Fits(current.x, current.Dimensions())
    }

    /** moveAllTheWayOver: x goes to the side's edge. */
    method MoveAllTheWayOver(current: Box, dir: Direction)
      requires Valid()
      modifies current`x
      ensures !Tracked(current) ==> BoundsOf(leftFloats) == old(BoundsOf(leftFloats)) && BoundsOf(rightFloats) == old(BoundsOf(rightFloats))
      ensures current.Position() == Placement.MoveAllTheWayOver(old(current.Position()), current.Dimensions(), dir)
    {
      if dir == Left {
        current.x := 0;
      } else {
        current.x := current.containingWidth - current.width;
      }
    }

    /** alignToLastOpposingFloat. */
    method AlignToLastOpposingFloat(bfc: Point, current: Box, dir: Direction)
      requires Valid()
      modifies current`y
      ensures !Tracked(current) ==> BoundsOf(leftFloats) == old(BoundsOf(leftFloats)) && BoundsOf(rightFloats) == old(BoundsOf(rightFloats))
      ensures current.Position() ==
        Placement.AlignToLastOpposingFloat(old(current.Position()), bfc, old(BoundsOf(OpposingFloats(dir))))
    {
      var floats := OpposingFloats(dir);
      ghost var opposing := BoundsOf(floats);
      ghost var p0 := current.Position();
      if |floats| > 0 {
        var offset := bfc;
        var last := floats[|floats| - 1];
        var currentBounds := SharedBounds(current.Position(), current.Dimensions(), offset);
        var lastBounds := FloatBounds(last, offsetMap);
        BoundsUnderAt(floats, offsetMap, |floats| - 1);
        if currentBounds.y < lastBounds.y {
          currentBounds := Translate(currentBounds, 0, lastBounds.y - currentBounds.y);
          currentBounds := Translate(currentBounds, offset.x, offset.y);
          current.y := currentBounds.y;
        }
      }
      assert current.Position() == Placement.AlignToLastOpposingFloat(p0, bfc, opposing);
    }

    /** alignToLastFloat. */
    method AlignToLastFloat(bfc: Point, current: Box, dir: Direction)
      requires Valid()
      modifies current`x, current`y
      ensures !Tracked(current) ==> BoundsOf(leftFloats) == old(BoundsOf(leftFloats)) && BoundsOf(rightFloats) == old(BoundsOf(rightFloats))
      ensures current.Position() ==
        Placement.AlignToLastFloat(old(current.Position()), current.Dimensions(), bfc, dir, old(BoundsOf(Floats(dir))))
    {
      var floats := Floats(dir);
      ghost var same := BoundsOf(floats);
      ghost var p0 := current.Position();
      if |floats| > 0 {
        var offset := bfc;
        var last := floats[|floats| - 1];
        var currentBounds := SharedBounds(current.Position(), current.Dimensions(), offset);
        var lastBounds := FloatBounds(last, offsetMap);
        BoundsUnderAt(floats, offsetMap, |floats| - 1);
        var moveOver := false;
        if currentBounds.y < lastBounds.y {
          currentBounds := Translate(currentBounds, 0, lastBounds.y - currentBounds.y);
          moveOver := true;
        }
        if currentBounds.y >= lastBounds.y && currentBounds.y < lastBounds.y + lastBounds.height {
          moveOver := true;
        }
        if moveOver {
          if dir == Left {
            currentBounds := currentBounds.(x := lastBounds.x + last.width);
          } else {
            currentBounds := currentBounds.(x := lastBounds.x - current.width);
          }
          currentBounds := Translate(currentBounds, offset.x, offset.y);
          current.x, current.y := currentBounds.x, currentBounds.y;
        }
        assert MovesOver(p0, bfc, same) == moveOver;
      }
      assert current.Position() == Placement.AlignToLastFloat(p0, current.Dimensions(), bfc, dir, same);
    }

    /** findLowestAbsoluteY: the running maximum of the floats' shared-frame bottoms, from 0. */
    method FindLowestAbsoluteY(floats: seq<Box>) returns (result: int)
      requires forall f :: f in floats ==> f in offsetMap
      ensures result == LowestBottom(BoundsOf(floats))
    {
      result := 0;
      ghost var bounds := BoundsOf(floats);
      var i := 0;
      while i < |floats|
        invariant 0 <= i <= |floats|
        invariant result == LowestBottom(bounds[..i])
      {
        var floater := floats[i];
        var b := FloatBounds(floater, offsetMap);
        BoundsUnderAt(floats, offsetMap, i);
        assert bounds[..i + 1][..i] == bounds[..i];
        if b.y + b.height > result {
          result := b.y + b.height;
        }
        i := i + 1;
      }
      assert bounds[..i] == bounds;
    }

    /** overlaps: whether some float on the list intersects the box's shared-frame bounds. */
    method Overlaps(bfc: Point, current: Box, floats: seq<Box>) returns (found: bool)
      requires forall f :: f in floats ==> f in offsetMap
      ensures found == OverlapsAny(SharedBounds(current.Position(), current.Dimensions(), bfc), BoundsOf(floats))
    {
      var bounds := SharedBounds(current.Position(), current.Dimensions(), bfc);
      ghost var all := BoundsOf(floats);
      var i := 0;
      while i < |floats|
        invariant 0 <= i <= |floats|
        invariant forall j :: 0 <= j < i ==> !Intersects(all[j], bounds)
      {
        var floaterBounds := FloatBounds(floats[i], offsetMap);
        BoundsUnderAt(floats, offsetMap, i);
        if Intersects(floaterBounds, bounds) {
          return true;
        }
        i := i + 1;
      }
      return false;
    }

    /** moveClear: down to the lowest bottom of the given floats, if the box is above it. */
    method MoveClear(bfc: Point, current: Box, floats: seq<Box>)
      requires Valid() && forall f :: f in floats ==> f in offsetMap
      modifies current`y
      ensures !Tracked(current) ==> BoundsOf(leftFloats) == old(BoundsOf(leftFloats)) && BoundsOf(rightFloats) == old(BoundsOf(rightFloats))
      ensures current.Position() == ClearPast(old(current.Position()), bfc, old(LowestBottom(BoundsOf(floats))))
    {
      var bounds := SharedBounds(current.Position(), current.Dimensions(), bfc);
      var y := FindLowestAbsoluteY(floats);
      if bounds.y < y {
        bounds := bounds.(y := y);
        bounds := Translate(bounds, bfc.x, bfc.y);
        current.y := bounds.y;
      }
    }

    /**
     * clear: moveClear against the left floats if the style clears left, then
     * against the right floats if it clears right. The box never moves up or
     * sideways and ends at or below every left float it clears; the exact
     * outcome is stated unless the box is itself a right float that clears
     * both sides (the right line is then read after the box moved).
     */
    method Clear(bfc: Point, box: Box)
      requires Valid()
      modifies box`y
      ensures !Tracked(box) ==> BoundsOf(leftFloats) == old(BoundsOf(leftFloats)) && BoundsOf(rightFloats) == old(BoundsOf(rightFloats))
      ensures box.y >= old(box.y)
      ensures IsClearLeft(box.clear) ==> Top(box.Position(), bfc) >= LowestBottom(old(BoundsOf(leftFloats)))
      ensures box !in rightFloats || box.clear != ClearBoth ==>
        box.Position() == Placement.Clear(old(box.Position()), bfc, box.clear, old(BoundsOf(leftFloats)), old(BoundsOf(rightFloats)))
    {
      if IsClearLeft(box.clear) {
        MoveClear(bfc, box, leftFloats);
      }
      if IsClearRight(box.clear) {
        MoveClear(bfc, box, rightFloats);
      }
    }

    /** Pass A of position (lines 103-107): back to the edge and below the same-side floats, if the box sticks out or meets one. */
    method ResolveSameSide(bfc: Point, current: Box, dir: Direction)
      requires Valid() && !Tracked(current)
      modifies current`x, current`y
      ensures current.Position() ==
        Placement.PassA(old(current.Position()), current.Dimensions(), bfc, dir, old(BoundsOf(Floats(dir))))
      ensures BoundsOf(leftFloats) == old(BoundsOf(leftFloats)) && BoundsOf(rightFloats) == old(BoundsOf(rightFloats))
    {
      ghost var p0, same := current.Position(), BoundsOf(Floats(dir));
      var passA := !FitsInContainingBlock(current);
      if !passA {
        passA := Overlaps(bfc, current, Floats(dir));
      }
      assert passA == PassAFires(p0, current.Dimensions(), bfc, same);
      if passA {
        MoveAllTheWayOver(current, dir);
        MoveClear(bfc, current, Floats(dir));
      }
    }

    /** Pass B of position (lines 109-113): back to the edge and below the floats of both sides, if the box meets an opposing float. */
    method ResolveOpposingSide(bfc: Point, current: Box, dir: Direction)
      requires Valid() && !Tracked(current)
      modifies current`x, current`y
      ensures current.Position() ==
        Placement.PassB(old(current.Position()), current.Dimensions(), bfc, dir, old(BoundsOf(Floats(dir))), old(BoundsOf(OpposingFloats(dir))))
      ensures BoundsOf(leftFloats) == old(BoundsOf(leftFloats)) && BoundsOf(rightFloats) == old(BoundsOf(rightFloats))
    {
      ghost var left, right := BoundsOf(leftFloats), BoundsOf(rightFloats);
      var passB := Overlaps(bfc, current, OpposingFloats(dir));
      if passB {
        MoveAllTheWayOver(current, dir);
        assert BoundsOf(leftFloats) == left && BoundsOf(rightFloats) == right;
        MoveClear(bfc, current, Floats(dir));
        assert BoundsOf(leftFloats) == left && BoundsOf(rightFloats) == right;
        MoveClear(bfc, current, OpposingFloats(dir));
      }
    }

    /** position: the placement steps, in the source's order, for a box not yet saved. */
    method Position(bfc: Point, current: Box, dir: Direction) returns (ghost left: seq<Rect>, ghost right: seq<Rect>)
      requires Valid() && !Tracked(current)
      modifies current`x, current`y
      ensures current.Position() == Place(old(current.Position()), current.Dimensions(), current.clear, dir, bfc, left, right)
      ensures left == old(BoundsOf(leftFloats)) && right == old(BoundsOf(rightFloats))
      ensures BoundsOf(leftFloats) == left && BoundsOf(rightFloats) == right
    {
      left, right := BoundsOf(leftFloats), BoundsOf(rightFloats);
      MoveAllTheWayOver(current, dir);
      AlignToLastOpposingFloat(bfc, current, dir);
      AlignToLastFloat(bfc, current, dir);
      ResolveSameSide(bfc, current, dir);
      ResolveOpposingSide(bfc, current, dir);
      if IsCleared(current.clear) {
        Clear(bfc, current);
      }
      assert BoundsOf(leftFloats) == left && BoundsOf(rightFloats) == right;
    }

    /** save: the box's offset is frozen and it is appended to its side's list. */
    method Save(current: Box, bfc: Point, dir: Direction)
      requires Valid() && !Tracked(current)
      requires current.cssFloat == (if dir == Left then FloatLeft else FloatRight)
      modifies this
      ensures Valid() && master == old(master)
      ensures offsetMap == old(offsetMap)[current := bfc]
      ensures Floats(dir) == old(Floats(dir)) + [current]
      ensures OpposingFloats(dir) == old(OpposingFloats(dir))
    {
      SaveKeepsConsistent(leftFloats, rightFloats, offsetMap, current, bfc);
      offsetMap := offsetMap[current := bfc];
      if dir == Left {
        leftFloats := leftFloats + [current];
      } else {
        rightFloats := rightFloats + [current];
      }
    }

    /**
     * floatLeft and floatRight: the box is positioned on its side and then
     * saved there.
     */
    method FloatSide(bfc: Point, current: Box, dir: Direction) returns (ghost left: seq<Rect>, ghost right: seq<Rect>)
      requires Valid() && !Tracked(current)
      requires current.cssFloat == (if dir == Left then FloatLeft else FloatRight)
      modifies this, current`x, current`y
      ensures Valid() && master == old(master)
      ensures current.Position() == Place(old(current.Position()), current.Dimensions(), current.clear, dir, bfc, left, right)
      ensures left == old(BoundsOf(leftFloats)) && right == old(BoundsOf(rightFloats))
      ensures Floats(dir) == old(Floats(dir)) + [current]
      ensures OpposingFloats(dir) == old(OpposingFloats(dir))
      ensures offsetMap == old(offsetMap)[current := bfc]
    {
      left, right := Position(bfc, current, dir);
      Save(current, bfc, dir);
    }

    /**
     * floatBox: the box starts at the floating cursor; a left or right float is
     * then positioned and saved on its side. A box whose style floats neither
     * way is only moved to the cursor.
     */
    method FloatBox(c: LayoutContext, bfc: Point, current: Box) returns (ghost left: seq<Rect>, ghost right: seq<Rect>)
      requires Valid() && !Tracked(current)
      modifies this, current`x, current`y
      ensures Valid() && master == old(master)
      ensures current.y >= old(c.floatingY)
      ensures current.cssFloat != FloatNone && current.width <= current.containingWidth ==>
        FitsInContainingBlock(current)
      ensures current.Position() == Floated(Pos(old(current.x), old(c.floatingY)), current.Dimensions(), current.clear,
                                            current.cssFloat, bfc, left, right)
      ensures left == old(BoundsOf(leftFloats)) && right == old(BoundsOf(rightFloats))
      ensures leftFloats == old(leftFloats) + Only(current, FloatLeft)
      ensures rightFloats == old(rightFloats) + Only(current, FloatRight)
      ensures offsetMap == if current.cssFloat == FloatNone then old(offsetMap) else old(offsetMap)[current := bfc]
    {
      left, right := BoundsOf(leftFloats), BoundsOf(rightFloats);
      current.y := c.floatingY;
      if current.cssFloat == FloatLeft {
        left, right := FloatSide(bfc, current, Left);
      } else if current.cssFloat == FloatRight {
        left, right := FloatSide(bfc, current, Right);
      }
    }

    /**
     * floatPending: the pending floats are floated in order, the first from the
     * floating cursor and each later one from 0, each is marked no longer
     * pending, and the batch is emptied.
     */
    method FloatPending(c: LayoutContext, bfc: Point, pendingFloats: BoxList)
      requires Valid()
      requires NoDuplicates(pendingFloats.boxes)
      requires forall j :: 0 <= j < |pendingFloats.boxes| ==> !Tracked(pendingFloats.boxes[j])
      modifies this, c, pendingFloats, pendingFloats.boxes
      ensures Valid() && master == old(master)
      ensures pendingFloats.boxes == []
      ensures c.floatingY == if |old(pendingFloats.boxes)| > 1 then 0 else old(c.floatingY)
      ensures leftFloats == old(leftFloats) + WithFloat(old(pendingFloats.boxes), FloatLeft)
      ensures rightFloats == old(rightFloats) + WithFloat(old(pendingFloats.boxes), FloatRight)
      ensures offsetMap == SavedAt(old(offsetMap), old(pendingFloats.boxes), bfc)
      ensures SettledAll(old(pendingFloats.boxes), old(c.floatingY))
      ensures forall f :: f in old(offsetMap) ==> f.Position() == old(f.Position())
    {
      if |pendingFloats.boxes| > 0 {
        FloatEach(c, bfc, pendingFloats.boxes);
        pendingFloats.boxes := [];
      }
    }

    /** The loop of floatPending over a non-empty batch. */
    method FloatEach(c: LayoutContext, bfc: Point, boxes: seq<Box>)
      requires Valid()
      requires NoDuplicates(boxes)
      requires forall j :: 0 <= j < |boxes| ==> !Tracked(boxes[j])
      modifies this, c, boxes
      ensures Valid() && master == old(master)
      ensures c.floatingY == if |boxes| > 1 then 0 else old(c.floatingY)
      ensures leftFloats == old(leftFloats) + WithFloat(boxes, FloatLeft)
      ensures rightFloats == old(rightFloats) + WithFloat(boxes, FloatRight)
      ensures offsetMap == SavedAt(old(offsetMap), boxes, bfc)
      ensures SettledAll(boxes, old(c.floatingY))
      ensures forall f :: f in old(offsetMap) ==> f.Position() == old(f.Position())
    {
      ghost var left0, right0, offsets0, cursor0 := leftFloats, rightFloats, offsetMap, c.floatingY;
      ghost var positions := map f | f in offsetMap :: f.Position();
      var i := 0;
      while i < |boxes|
        invariant 0 <= i <= |boxes|
        invariant Valid() && master == old(master)
        invariant c.floatingY == if i > 1 then 0 else cursor0
        invariant leftFloats == left0 + WithFloat(boxes[..i], FloatLeft)
        invariant rightFloats == right0 + WithFloat(boxes[..i], FloatRight)
        invariant offsetMap == SavedAt(offsets0, boxes[..i], bfc)
        invariant SettledAll(boxes[..i], cursor0)
        invariant Unmoved(positions)
      {
        assert boxes[i] !in boxes[..i] by {
          assert forall j :: 0 <= j < i ==> boxes[j] != boxes[i];
        }
        WithFloatMember(boxes[..i], FloatLeft, boxes[i]);
        WithFloatMember(boxes[..i], FloatRight, boxes[i]);
        SavedAtStep(offsets0, boxes, i, bfc);
        WithFloatStep(left0, boxes, i, FloatLeft);
        WithFloatStep(right0, boxes, i, FloatRight);
        ghost var leftBefore, rightBefore := leftFloats, rightFloats;
        ghost var left, right := FloatOnePending(c, bfc, boxes, i, cursor0, positions);
        assert leftFloats == leftBefore + Only(boxes[i], FloatLeft);
        assert rightFloats == rightBefore + Only(boxes[i], FloatRight);
        i := i + 1;
      }
      assert boxes[..i] == boxes;
    }

    /**
     * One turn of floatPending's loop: the cursor is reset to 0 for every box
     * after the first before the box is floated, so it lands where floatBox
     * puts it from that cursor; the boxes before this one stay settled and the
     * floats saved before the batch stay where they were.
     */
    method FloatOnePending(c: LayoutContext, bfc: Point, boxes: seq<Box>, i: int, ghost cursor: int, ghost positions: map<Box, Pos>)
      returns (ghost left: seq<Rect>, ghost right: seq<Rect>)
      requires Valid() && 0 <= i < |boxes| && NoDuplicates(boxes) && !Tracked(boxes[i])
      requires i == 0 ==> c.floatingY == cursor
      requires SettledAll(boxes[..i], cursor) && Unmoved(positions) && boxes[i] !in positions
      modifies this, c, boxes[i]
      ensures Valid() && master == old(master)
      ensures c.floatingY == if i == 0 then old(c.floatingY) else 0
      ensures leftFloats == old(leftFloats) + Only(boxes[i], FloatLeft)
      ensures rightFloats == old(rightFloats) + Only(boxes[i], FloatRight)
      ensures offsetMap == if boxes[i].cssFloat == FloatNone then old(offsetMap) else old(offsetMap)[boxes[i] := bfc]
      ensures SettledAll(boxes[..i + 1], cursor) && Unmoved(positions)
      ensures left == old(BoundsOf(leftFloats)) && right == old(BoundsOf(rightFloats))
      ensures boxes[i].Position() == Floated(Pos(old(boxes[i].x), if i == 0 then old(c.floatingY) else 0), boxes[i].Dimensions(),
                                             boxes[i].clear, boxes[i].cssFloat, bfc, left, right)
    {
      if i != 0 {
        c.floatingY := 0;
      }
      var block := boxes[i];
      assert block !in boxes[..i] by {
        assert forall j :: 0 <= j < i ==> boxes[j] != block;
      }
      left, right := FloatBox(c, bfc, block);
      block.pending := false;
      SettledAllStep(boxes, i, cursor);
    }

    /** removeFloat: the box loses its offset and its first place on each list. */
    method RemoveFloat(floater: Box)
      requires Valid()
      modifies this
      ensures Valid() && master == old(master)
      ensures offsetMap == old(offsetMap) - {floater}
      ensures leftFloats == RemoveFirst(old(leftFloats), floater)
      ensures rightFloats == RemoveFirst(old(rightFloats), floater)
      ensures !Tracked(floater)
      ensures forall b :: b in leftFloats <==> b in old(leftFloats) && b != floater
      ensures forall b :: b in rightFloats <==> b in old(rightFloats) && b != floater
      ensures !old(Tracked(floater)) ==>
        leftFloats == old(leftFloats) && rightFloats == old(rightFloats) && offsetMap == old(offsetMap)
    {
      RemoveKeepsConsistent(leftFloats, rightFloats, offsetMap, floater);
      RemoveFirstOfDistinct(leftFloats, floater);
      RemoveFirstOfDistinct(rightFloats, floater);
      if !Tracked(floater) {
        RemoveFirstAbsent(leftFloats, floater);
        RemoveFirstAbsent(rightFloats, floater);
      }
      offsetMap := offsetMap - {floater};
      leftFloats := RemoveFirst(leftFloats, floater);
      rightFloats := RemoveFirst(rightFloats, floater);
    }

    /** getFloatDistance: how far the line must give way to the floats of the list, tested in order. */
    method GetFloatDistance(bfc: Point, line: Line, floats: seq<Box>, dir: Direction) returns (xoff: int)
      requires forall f :: f in floats ==> f in offsetMap
      ensures xoff == Distance(LineTestBounds(line, bfc), BoundsOf(floats), dir)
    {
      if |floats| == 0 {
        return 0;
      }
      xoff := 0;
      ghost var bounds := BoundsOf(floats);
      var lineBounds := LineTestBounds(line, bfc);
      ghost var start := lineBounds;
      var i := 0;
      while i < |floats|
        invariant 0 <= i <= |floats|
        invariant xoff + Distance(lineBounds, bounds[i..], dir) == Distance(start, bounds, dir)
      {
        var floater := floats[i];
        var fr := FloatBounds(floater, offsetMap);
        BoundsUnderAt(floats, offsetMap, i);
        assert bounds[i..][0] == fr && bounds[i..][1..] == bounds[i + 1..];
        if Intersects(lineBounds, fr) {
          lineBounds := Translate(lineBounds, if dir == Left then fr.width else -fr.width, 0);
          xoff := xoff + fr.width;
        }
        i := i + 1;
      }
    }

    /**
     * getLeftFloatDistance: never negative, zero exactly when no left float meets
     * the line's test rectangle, and at most the left floats' total width.
     */
    method GetLeftFloatDistance(bfc: Point, line: Line) returns (r: int)
      requires Valid()
      ensures r == Distance(LineTestBounds(line, bfc), BoundsOf(leftFloats), Left)
      ensures r >= 0 && r <= PositiveWidths(BoundsOf(leftFloats))
      ensures r == 0 <==> forall i :: 0 <= i < |leftFloats| ==> !Intersects(LineTestBounds(line, bfc), BoundsOf(leftFloats)[i])
    {
      r := GetFloatDistance(bfc, line, leftFloats, Left);
      DistanceNonNegative(LineTestBounds(line, bfc), BoundsOf(leftFloats), Left);
      DistanceZeroIff(LineTestBounds(line, bfc), BoundsOf(leftFloats), Left);
      DistanceAtMostTotalWidth(LineTestBounds(line, bfc), BoundsOf(leftFloats), Left);
    }

    /**
     * getRightFloatDistance: never negative, zero exactly when no right float
     * meets the line's test rectangle, and at most the right floats' total width.
     */
    method GetRightFloatDistance(bfc: Point, line: Line) returns (r: int)
      requires Valid()
      ensures r == Distance(LineTestBounds(line, bfc), BoundsOf(rightFloats), Right)
      ensures r >= 0 && r <= PositiveWidths(BoundsOf(rightFloats))
      ensures r == 0 <==> forall i :: 0 <= i < |rightFloats| ==> !Intersects(LineTestBounds(line, bfc), BoundsOf(rightFloats)[i])
    {
      r := GetFloatDistance(bfc, line, rightFloats, Right);
      DistanceNonNegative(LineTestBounds(line, bfc), BoundsOf(rightFloats), Right);
      DistanceZeroIff(LineTestBounds(line, bfc), BoundsOf(rightFloats), Right);
      DistanceAtMostTotalWidth(LineTestBounds(line, bfc), BoundsOf(rightFloats), Right);
    }

    /** One loop of paintFloats: every float of the list is painted once, in order, at minus its offset. */
    method PaintEach(surface: RenderingSurface, floats: seq<Box>)
      requires forall f :: f in floats ==> f in offsetMap
      modifies surface`painted
      ensures surface.painted == old(surface.painted) + PaintCalls(floats, offsetMap, surface.origin)
    {
      var i := 0;
      while i < |floats|
        invariant 0 <= i <= |floats|
        invariant surface.painted == old(surface.painted) + PaintCalls(floats[..i], offsetMap, surface.origin)
      {
        var floater := floats[i];
        var offset := offsetMap[floater];
        surface.Paint(floater, -offset.x, -offset.y);
        assert floats[..i + 1][..i] == floats[..i];
        i := i + 1;
      }
      assert floats[..i] == floats;
    }

    /**
     * paintFloats: with both origins moved to the master box, every left float
     * and then every right float is painted once, in list order, at minus its
     * offset; the origins are moved back afterwards.
     */
    method PaintFloats(surface: RenderingSurface)
      requires Valid() && master != null
      modifies surface
      ensures surface.origin == old(surface.origin) && surface.graphicsOrigin == old(surface.graphicsOrigin)
      ensures surface.painted == old(surface.painted)
        + PaintCalls(leftFloats, offsetMap, Point(old(surface.origin).x + master.x, old(surface.origin).y + master.y))
        + PaintCalls(rightFloats, offsetMap, Point(old(surface.origin).x + master.x, old(surface.origin).y + master.y))
    {
      var owner := master;
      surface.Translate(owner.x, owner.y);
      surface.TranslateGraphics(owner.x, owner.y);
      PaintEach(surface, leftFloats);
      PaintEach(surface, rightFloats);
      surface.TranslateGraphics(-owner.x, -owner.y);
      surface.Translate(-owner.x, -owner.y);
    }

    /** setMaster: the box whose position anchors painting. */
    method SetMaster(owner: Box?)
      modifies this`master
      ensures master == owner
      ensures old(Valid()) ==> Valid()
    {
      master := owner;
    }
  }
}
