/**
 * The resolved CSS facts the float manager asks of a box's style: the value of
 * its 'float' property and of its 'clear' property.
 */
module Style {

  datatype CssFloat = FloatNone | FloatLeft | FloatRight

  datatype CssClear = ClearNone | ClearLeft | ClearRight | ClearBoth

  /** isClearLeft: 'clear: left' or 'clear: both'. */
  predicate IsClearLeft(c: CssClear)
  {
    c == ClearLeft || c == ClearBoth
  }

  /** isClearRight: 'clear: right' or 'clear: both'. */
  predicate IsClearRight(c: CssClear)
  {
    c == ClearRight || c == ClearBoth
  }

  /** isCleared: any value but 'clear: none'. */
  predicate IsCleared(c: CssClear)
  {
    c != ClearNone
  }
}
