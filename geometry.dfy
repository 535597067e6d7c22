/**
 * Page-space rectangles and the backlink icon's size and placement.
 * A rectangle is `[left, bottom, right, top]` in PDF page coordinates, where y grows upwards.
 * JavaScript numbers are modelled as exact reals; rounding is not modelled.
 */
module Geometry {

  datatype Rect = Rect(left: real, bottom: real, right: real, top: real)

  /** Which side of the anchor point the icon extends to; `Right` is the default. */
  datatype Side = Left | Right

  function Min(a: real, b: real): (m: real)
    ensures m <= a && m <= b
    ensures m == a || m == b
  {
    if a <= b then a else b
  }

  /**
   * The icon's side length: the minimum of the page width and the page width again, times the
   * icon-size setting, over 2000. Both operands of the minimum are the width, so the height of
   * the page plays no part.
   */
  function IconSize(pageWidth: real, iconSizeSetting: real): (size: real)
    ensures size == pageWidth * iconSizeSetting / 2000.0
  {
    Min(pageWidth, pageWidth) * iconSizeSetting / 2000.0
  }

  /** The rectangle `showIcon` asks the backend to place for an anchor point `(x, y)`. */
  function IconRect(x: real, y: real, size: real, side: Side): (r: Rect)
    ensures r.top == y && r.top - r.bottom == size
    ensures r.right - r.left == size
    ensures side == Right ==> r.left == x
    ensures side == Left ==> r.right == x
  {
    match side
    case Right => Rect(x, y - size, x + size, y)
    case Left => Rect(x - size, y - size, x, y)
  }

  /** The two sides give the same square, shifted horizontally by its side length. */
  lemma IconSidesDifferByShift(x: real, y: real, size: real)
    ensures IconRect(x, y, size, Left) == IconRect(x - size, y, size, Right)
  {
  }

  /** A non-negative size gives a well-formed rectangle whose top corners straddle the anchor. */
  lemma IconRectWellFormed(x: real, y: real, size: real, side: Side)
    requires 0.0 <= size
    ensures var r := IconRect(x, y, size, side);
      r.left <= x <= r.right && r.bottom <= y == r.top
  {
  }

  /** For a non-negative setting, the icon never shrinks as the page gets wider. */
  lemma IconSizeMonotone(w1: real, w2: real, setting: real)
    requires w1 <= w2 && 0.0 <= setting
    ensures IconSize(w1, setting) <= IconSize(w2, setting)
  {
    assert w1 * setting <= w2 * setting by {
      assert (w2 - w1) * setting >= 0.0;
    }
  }
}
