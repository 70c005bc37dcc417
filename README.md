# FloatManager, modelled in Dafny

A model of `FloatManager`, the component of the XHTML renderer's layout engine
that places CSS floated boxes inside one block formatting context. For each
side it keeps the floats in placement order (`leftFloats`, `rightFloats`). It
keeps an identity map `offsetMap` from each saved float to the
formatting-context offset frozen when the float was saved. It also keeps a
`master` box that anchors painting. On top of that state it:

- places a new float: step by step towards its side, beside or below earlier
  floats, then an explicit `clear`;
- flushes a batch of pending floats;
- evicts a float;
- tells a line box how far it must give way to the floats on one side;
- paints every float.

The model has these modules:

- `Geometry`: `java.awt.Point` and `Rectangle` over unbounded integers, with
  `Rectangle.intersects` as java.awt defines it. A rectangle without positive
  width and height meets nothing, and the spans are half-open.
- `Style`: the resolved `float` and `clear` values of a box.
- `Lists`: `java.util.List.remove(Object)`, which removes only the first
  occurrence, and its properties.
- `Placement`: the placement and clearance rules as pure functions on
  shared-frame rectangles. `Place` is the whole of `position`.
- `LineAvoidance`: the distance query as a pure function, `Distance`, with the
  zero-size hack.
- `Render`: the box (a class whose `x`, `y` and `pending` are written in place),
  the line box, and a drawing surface that records its paint calls.
- `Layout`: `LayoutContext` (the floating cursor), a caller-owned box list, and
  the `FloatManager` class.
  - The class fields are `leftFloats` and `rightFloats` (sequences of box
    references), `offsetMap` (a map keyed by reference identity) and `master`.
  - Its methods update the fields and the boxes in place, as the source does.
  - Each method is proved against a `Placement` or `LineAvoidance` function, or
    against a function of the old state.
  - Every public method keeps the class invariant `Valid()`:
    - every box on a list has an offset, and nothing else does;
    - no list holds a box twice;
    - the left list holds only left floats and the right list only right floats.

Some values are parameters.

- The formatting context's offset (`bfc.getOffset()`) is a `Point` parameter,
  read when the call is made.
- A box's bounds are `(x + tx, y + ty, width, height)`. Width, height and the
  containing block's content width are constants of the box.

## Model

| member | source | states |
|---|---|---|
| Geometry.Intersects | src/java/org/xhtmlrenderer/layout/FloatManager.java:233 | `Rectangle.intersects`, used at lines 233 and 324: both rectangles have positive width and height and their half-open spans overlap on both axes; definition, no contract |
| Geometry.IntersectsIffCommonPixel | src/java/org/xhtmlrenderer/layout/FloatManager.java:233 | two rectangles intersect exactly when some pixel lies in both: the overlap test that every placement and distance step relies on |
| Lists.AppendAbsent | src/java/org/xhtmlrenderer/layout/FloatManager.java:90-93 | appending a box that is not on a list keeps the list free of duplicates |
| Lists.RemoveFirst | src/java/org/xhtmlrenderer/layout/FloatManager.java:281-282 | `List.remove(Object)`: the list without its first occurrence of the element; definition, no contract (its properties are the lemmas below) |
| Lists.RemoveFirstMultiset | src/java/org/xhtmlrenderer/layout/FloatManager.java:281-282 | `List.remove` takes exactly one copy of the element out of the list, or none if it is absent |
| Lists.RemoveFirstAbsent | src/java/org/xhtmlrenderer/layout/FloatManager.java:281-282 | removing a box that is not on the list leaves the list unchanged |
| Lists.RemoveFirstCutsFirstOccurrence | src/java/org/xhtmlrenderer/layout/FloatManager.java:281-282 | removal cuts out the first occurrence and keeps all other entries in their order |
| Lists.RemoveFirstOfDistinct | src/java/org/xhtmlrenderer/layout/FloatManager.java:281-282 | on a list without duplicates, after removal the box is gone, every other box remains, and the list still has no duplicates |
| Lists.RemoveFirstMember | src/java/org/xhtmlrenderer/layout/FloatManager.java:281-282 | the membership half of the previous row, for one given box |
| Lists.RemoveFirstIdempotent | src/java/org/xhtmlrenderer/layout/FloatManager.java:281-282 | on a list without duplicates, removing the same box twice is the same as removing it once |
| Placement.Fits | src/java/org/xhtmlrenderer/layout/FloatManager.java:202-205 | `fitsInContainingBlock` on values: `0 <= x` and `x + width <= contentWidth`; definition, no contract |
| Placement.MoveAllTheWayOver | src/java/org/xhtmlrenderer/layout/FloatManager.java:194-200 | x goes to 0 for a left float and to `contentWidth - width` for a right float; y is unchanged; a box no wider than its containing block then fits |
| Placement.LowestBottom | src/java/org/xhtmlrenderer/layout/FloatManager.java:207-221 | the running maximum, from 0, of the floats' shared-frame bottoms, in list order; definition, no contract (its meaning is the next row) |
| Placement.LowestBottomIsMaximum | src/java/org/xhtmlrenderer/layout/FloatManager.java:207-221 | the lowest line is at least 0 and at least every float's shared-frame bottom, and it equals 0 or one of those bottoms |
| Placement.OverlapsAny | src/java/org/xhtmlrenderer/layout/FloatManager.java:223-239 | some rectangle of the list intersects the given one; definition, no contract |
| Placement.ClearPast | src/java/org/xhtmlrenderer/layout/FloatManager.java:248-254 | clearing past a line never changes x and never raises the box. Afterwards the box's top is at or below the line. A box already at or below the line is unchanged; otherwise its top lands exactly on the line |
| Placement.AlignToLastOpposingFloat | src/java/org/xhtmlrenderer/layout/FloatManager.java:171-192 | only y changes, never upward. Nothing changes when the other side has no float. Otherwise the top ends at or below the top of the last opposing float, and it moves only onto that top |
| Placement.AlignToLastFloat | src/java/org/xhtmlrenderer/layout/FloatManager.java:132-169 | the box moves only when its top would be at or above the bottom of the last same-side float. It is then lowered to that float's top if it was above it. A left float is put just right of it; a right float just left of it |
| Placement.Stacked | src/java/org/xhtmlrenderer/layout/FloatManager.java:97-101 | steps 1 to 3 of `position` in order: to the edge, below the last opposing float, beside the last same-side float; definition, no contract |
| Placement.PassA | src/java/org/xhtmlrenderer/layout/FloatManager.java:103-107 | when the box does not fit or meets a same-side float, it goes back to its edge with its top at or below every same-side float. Otherwise it is unchanged; it is never raised |
| Placement.PassB | src/java/org/xhtmlrenderer/layout/FloatManager.java:109-113 | when the box meets an opposing float, it goes back to its edge with its top at or below every float on both sides. Otherwise it is unchanged; it is never raised |
| Placement.Clear | src/java/org/xhtmlrenderer/layout/FloatManager.java:55-62 | only y changes, never upward. Clearing left puts the top at or below every left float; clearing right, at or below every right float. A box already below what it clears stays put |
| Placement.Place | src/java/org/xhtmlrenderer/layout/FloatManager.java:95-118 | the placed box is never above the cursor it started at. A box no wider than its containing block ends inside it (`fitsInContainingBlock`, lines 202-205) |
| Placement.PassAOutcome | src/java/org/xhtmlrenderer/layout/FloatManager.java:103-107 | when pass A fires, the final position is at the side's edge, with its top at or below the bottom of every same-side float |
| Placement.PassBOutcome | src/java/org/xhtmlrenderer/layout/FloatManager.java:109-113 | when pass B fires, the final position is at the side's edge, with its top at or below the bottom of every float on both sides |
| Placement.NeitherPassOutcome | src/java/org/xhtmlrenderer/layout/FloatManager.java:95-118 | when neither pass fires, the box keeps the stacked x, which fits. The stacked position meets no float, and it is final unless the style clears |
| Placement.FirstLeftFloat | src/java/org/xhtmlrenderer/layout/FloatManager.java:46-53 | in a 400-wide block with nothing saved, a 150-wide left float lands at (0, 0) |
| Placement.SecondLeftFloat | src/java/org/xhtmlrenderer/layout/FloatManager.java:132-169 | a 100-wide left float placed after it stacks beside it, at (150, 0) |
| Placement.RightFloatAfterTwoLeft | src/java/org/xhtmlrenderer/layout/FloatManager.java:103-113 | a 200-wide right float placed next would meet the second left float at (200, 0). Pass A does not fire and pass B does, so it lands at (200, 50) |
| LineAvoidance.LineWidthHeightHack | src/java/org/xhtmlrenderer/layout/FloatManager.java:285-295 | a line with no content width is tested as 10 wide; a line with no height as 10 high; its position and other sizes are kept |
| LineAvoidance.Distance | src/java/org/xhtmlrenderer/layout/FloatManager.java:318-330 | the widths of the floats that meet the line's test rectangle, tested in list order, the rectangle moved past each hit (right for LEFT, left for RIGHT); definition, no contract (its properties are the next three rows) |
| LineAvoidance.DistanceNonNegative | src/java/org/xhtmlrenderer/layout/FloatManager.java:318-330 | the distance is never negative, since only floats of positive width can be hit |
| LineAvoidance.DistanceZeroIff | src/java/org/xhtmlrenderer/layout/FloatManager.java:318-330 | the distance is zero exactly when no float of the list meets the line's test rectangle |
| LineAvoidance.DistanceAtMostTotalWidth | src/java/org/xhtmlrenderer/layout/FloatManager.java:318-330 | the distance is at most the total width of the floats of the list |
| Render.RenderingSurface.Translate | src/java/org/xhtmlrenderer/layout/FloatManager.java:260 | the rendering context's origin moves by the given amounts |
| Render.RenderingSurface.TranslateGraphics | src/java/org/xhtmlrenderer/layout/FloatManager.java:261 | the graphics origin moves by the given amounts |
| Render.RenderingSurface.Paint | src/java/org/xhtmlrenderer/layout/FloatManager.java:266 | one paint call is recorded: the box, its translation and the current origin |
| Layout.Floated | src/java/org/xhtmlrenderer/layout/FloatManager.java:46-53 | where `floatBox` leaves a box: `Place` towards its side for a left or right float, the start position otherwise; definition, no contract |
| Layout.WithFloatMember | src/java/org/xhtmlrenderer/layout/FloatManager.java:46-53 | the boxes saved from a batch are exactly its boxes floated to that side: a box floated neither way is saved nowhere |
| Layout.WithFloatStep | src/java/org/xhtmlrenderer/layout/FloatManager.java:65-73 | one more box of the batch appends that box to its side's list and nothing to the other |
| Layout.SavedAtLookup | src/java/org/xhtmlrenderer/layout/FloatManager.java:90-93 | after a batch, every floated box of it has the batch's offset. Every box outside the batch keeps its entry, or stays absent. A box floated neither way gets none |
| Layout.SavedAtStep | src/java/org/xhtmlrenderer/layout/FloatManager.java:65-73 | one more box of the batch stores its offset if it floats, and changes nothing otherwise |
| Layout.SettledAllStep | src/java/org/xhtmlrenderer/layout/FloatManager.java:65-73 | a settled prefix of the batch stays settled when the next box settles |
| Layout.BoundsUnder | src/java/org/xhtmlrenderer/layout/FloatManager.java:213-214 | a list of saved floats has exactly one shared-frame rectangle per float; which rectangle is at which place is `Layout.BoundsUnderAt` |
| Layout.BoundsUnderAt | src/java/org/xhtmlrenderer/layout/FloatManager.java:213-214 | the i-th shared-frame rectangle of a list is the i-th float's bounds shifted by minus that float's own frozen offset |
| Layout.BoundsUnderAgree | src/java/org/xhtmlrenderer/layout/FloatManager.java:90-93 | a list's shared-frame rectangles depend only on the offsets of its own floats, so saving another box does not move them |
| Layout.SaveKeepsConsistent | src/java/org/xhtmlrenderer/layout/FloatManager.java:90-93 | saving an untracked float, with an offset, to the list of its own side keeps the bookkeeping consistent |
| Layout.RemoveKeepsConsistent | src/java/org/xhtmlrenderer/layout/FloatManager.java:279-283 | removing any box, tracked or not, from the map and both lists keeps the bookkeeping consistent |
| Layout.LineTestBounds | src/java/org/xhtmlrenderer/layout/FloatManager.java:313-316 | the line's test rectangle is its bounds shifted by minus the formatting-context offset, widened or heightened to 10 when the line has no content width or no height |
| Layout.PaintCalls | src/java/org/xhtmlrenderer/layout/FloatManager.java:263-273 | the trace of a paint loop has one call per float of the list |
| Layout.PaintCallsAt | src/java/org/xhtmlrenderer/layout/FloatManager.java:263-273 | the i-th paint call for a list paints the i-th float, translated by minus its frozen offset |
| Layout.FloatManager.constructor | src/java/org/xhtmlrenderer/layout/FloatManager.java:40-44 | a new manager has empty lists, an empty map and no master, and is consistent |
| Layout.FloatManager.FitsInContainingBlock | src/java/org/xhtmlrenderer/layout/FloatManager.java:202-205 | `fitsInContainingBlock` on the box's current x; definition, no contract |
| Layout.FloatManager.MoveAllTheWayOver | src/java/org/xhtmlrenderer/layout/FloatManager.java:194-200 | only x of the box is written, as `Placement.MoveAllTheWayOver` says |
| Layout.FloatManager.AlignToLastOpposingFloat | src/java/org/xhtmlrenderer/layout/FloatManager.java:171-192 | only y of the box is written, as `Placement.AlignToLastOpposingFloat` says, against the opposing floats' shared-frame rectangles |
| Layout.FloatManager.AlignToLastFloat | src/java/org/xhtmlrenderer/layout/FloatManager.java:132-169 | the box moves as `Placement.AlignToLastFloat` says, against the same-side floats' shared-frame rectangles |
| Layout.FloatManager.FindLowestAbsoluteY | src/java/org/xhtmlrenderer/layout/FloatManager.java:207-221 | the loop returns the lowest line of the listed floats: the maximum of 0 and every shared-frame bottom |
| Layout.FloatManager.Overlaps | src/java/org/xhtmlrenderer/layout/FloatManager.java:223-239 | true exactly when some listed float's shared-frame rectangle intersects the box's bounds shifted by minus the current offset |
| Layout.FloatManager.MoveClear | src/java/org/xhtmlrenderer/layout/FloatManager.java:241-255 | only y is written: the box is cleared past the listed floats' lowest line, as `Placement.ClearPast` says |
| Layout.FloatManager.Clear | src/java/org/xhtmlrenderer/layout/FloatManager.java:55-62 | the box never moves up; clearing left puts its top at or below every left float; it ends exactly where `Placement.Clear` says unless it is itself a right float with `clear: both` |
| Layout.FloatManager.ResolveSameSide | src/java/org/xhtmlrenderer/layout/FloatManager.java:103-107 | the box moves as `Placement.PassA` says; no saved float's bounds change |
| Layout.FloatManager.ResolveOpposingSide | src/java/org/xhtmlrenderer/layout/FloatManager.java:109-113 | the box moves as `Placement.PassB` says; no saved float's bounds change |
| Layout.FloatManager.Position | src/java/org/xhtmlrenderer/layout/FloatManager.java:95-118 | the six steps in order leave an untracked box exactly where `Placement.Place` says |
| Layout.FloatManager.Save | src/java/org/xhtmlrenderer/layout/FloatManager.java:90-93 | the offset is stored for the box and the box is appended to its own side's list; the other list is unchanged and the invariant holds |
| Layout.FloatManager.FloatSide | src/java/org/xhtmlrenderer/layout/FloatManager.java:78-88 | `floatLeft` and `floatRight`: the box is placed as `Place` says, with the rectangles as they were before the call. It is then appended to its side's list with the current offset |
| Layout.FloatManager.FloatBox | src/java/org/xhtmlrenderer/layout/FloatManager.java:46-53 | the box starts at the floating cursor and ends at `Floated` of the floats present before the call: `Place` towards its side, or the cursor when it floats neither way. It is never above the cursor, and a narrow enough float fits. Only a floated box is appended to its side's list and given the offset; the other list and every earlier entry are unchanged |
| Layout.FloatManager.FloatPending | src/java/org/xhtmlrenderer/layout/FloatManager.java:64-76 | the batch is floated in order. The lists gain its left and right floats in batch order, and every floated box gets the offset. Each box is no longer pending, is not above its starting cursor (the cursor for the first, 0 for the rest), and fits if narrow enough. The cursor is 0 after a batch of two or more; the batch is emptied; earlier floats do not move; an empty batch changes nothing |
| Layout.FloatManager.FloatEach | src/java/org/xhtmlrenderer/layout/FloatManager.java:66-73 | the loop of `floatPending`, with the invariants above stated for each prefix of the batch |
| Layout.FloatManager.FloatOnePending | src/java/org/xhtmlrenderer/layout/FloatManager.java:67-72 | one turn of the loop: the cursor is reset to 0 unless this is the first box, and only then is the box floated. It lands at `Floated` from its own x and that cursor (the batch's cursor for the first box, 0 for the rest), against the floats saved before the turn. It is no longer pending, and the earlier boxes and saved floats stay put |
| Layout.FloatManager.RemoveFloat | src/java/org/xhtmlrenderer/layout/FloatManager.java:279-283 | the box loses its offset and its first place on each list. It is tracked nowhere afterwards, and every other box keeps its entry and its order. An untracked box leaves everything unchanged, so a second call is a no-op |
| Layout.FloatManager.GetFloatDistance | src/java/org/xhtmlrenderer/layout/FloatManager.java:305-331 | the loop adds the width of each float that meets the shifting test rectangle, as `LineAvoidance.Distance` says. It returns 0 for an empty list and changes no state |
| Layout.FloatManager.GetLeftFloatDistance | src/java/org/xhtmlrenderer/layout/FloatManager.java:297-299 | the distance against the left floats. It is never negative, at most their total width, and zero exactly when none of them meets the line |
| Layout.FloatManager.GetRightFloatDistance | src/java/org/xhtmlrenderer/layout/FloatManager.java:301-303 | the same against the right floats |
| Layout.FloatManager.PaintEach | src/java/org/xhtmlrenderer/layout/FloatManager.java:263-267 | one paint loop: each float of the list is painted once, in order, at minus its offset |
| Layout.FloatManager.PaintFloats | src/java/org/xhtmlrenderer/layout/FloatManager.java:257-277 | with both origins at the master box, the left floats and then the right floats are painted in list order, each at minus its offset; both origins are restored |
| Layout.FloatManager.SetMaster | src/java/org/xhtmlrenderer/layout/FloatManager.java:333-335 | the master becomes the given box; the invariant is kept |

## Left out

- `getMaster`, `getOffset`, `getFloats` and `getOpposingFloats` are plain
  accessors. The last two are the functions `Floats` and `OpposingFloats`,
  which carry no contract of their own.
- `CssContext`, style resolution and how `Box.getBounds`, `getWidth` and
  `getContainingBlock` compute their values are outside the model. The float
  and clear values are resolved constants of a box. Width, height and the
  containing block's content width are constants too.
- Integers are unbounded. Java `int` overflow, including the overflow cases of
  `Rectangle.intersects`, is not modelled.
- The `(int)` cast of the double `floatingY` (line 47) is not modelled: the
  floating cursor is an `int`.
- Drawing is out of scope. `paintFloats` is modelled as a recorded trace of
  paint calls and origin translations on a `RenderingSurface`.
- `Box.paint`, `RenderingContext` and `Graphics` are not part of this model.
- There is no claim that same-side floats never overlap. The explicit clear at
  lines 115-117 can move a box that was stacked sideways down into another
  float, so the code does not promise it.
- Layout.FloatManager.FloatBox: requires that the box is not already on a list.
  - The source would append a second copy and overwrite its offset.
  - The invariant excludes duplicates, so the model does not follow that path.
  - The same precondition is on `Position`, `FloatSide` and each box of `FloatPending`.
  - `FloatPending` also requires that the batch lists no box twice. This
    excludes a batch naming a box that floats neither way twice, which the
    source would handle harmlessly.
  - Re-floating a tracked box would move a float that is part of its own
    placement context.
- Layout.FloatManager.FloatPending: the exact position of each box is not
  stated. Each box is placed by `Place` against lists that grew during the
  batch. The contract states what holds for every box: it is no longer
  pending, it is not above its starting cursor, and it fits when narrow enough.
  The exact `Floated` outcome is stated per box by `FloatOnePending`.
- Layout.FloatManager.FloatEach: the same as for `FloatPending`, whose loop it
  is: the batch-level contract does not give each box's exact position.
- Layout.FloatManager.Clear: the exact outcome is not stated for a right float
  with `clear: both`. After the left pass moves such a box, its own rectangle
  on the right list moves with it, so the right pass reads a list the model
  does not snapshot. The contract still states that the box never moves up and
  ends at or below every left float.
- Layout.BoundsUnder: its own contract states only the number of rectangles.
  The rectangle at each place is stated by `Layout.BoundsUnderAt`.
- Layout.PaintCalls: its own contract states only the length of the trace.
  The content of each call is stated by `Layout.PaintCallsAt`.
- Layout.FloatManager.PaintFloats: requires a master box. With no master the
  source throws a NullPointerException at line 260.
