/**
 * Integer geometry shared by the layouts: placed boxes, Python's centring offset, the
 * ±90° rotation with expand that the rotated-text layouts use, and the scaled border.
 */
module Geometry {
  import opened Tape

  /** An element placed on the canvas: top-left corner and extent in pixels. */
  datatype Box = Box(x: int, y: int, w: int, h: int) {
    function Right(): int { x + w }
    function Bottom(): int { y + h }
  }

  ghost predicate Inside(b: Box, width: int, height: int)
  {
    0 <= b.x && b.Right() <= width && 0 <= b.y && b.Bottom() <= height
  }

  /** b ends at or before c starts, horizontally. */
  ghost predicate LeftOf(b: Box, c: Box)
  {
    b.Right() <= c.x
  }

  /** b ends at or before c starts, vertically. */
  ghost predicate Above(b: Box, c: Box)
  {
    b.Bottom() <= c.y
  }

  /**
   * (span - extent) // 2: the offset that centres an extent in a span. The margin left after
   * the extent is the margin before it, or one pixel more.
   */
  function Centre(span: int, extent: int): (o: int)
    ensures 0 <= (span - (o + extent)) - o <= 1
  {
    (span - extent) / 2
  }

  /** A centred extent that is no larger than the span minus two margins keeps both margins. */
  lemma CentreKeepsMargin(span: int, extent: int, margin: int)
    requires extent + 2 * margin <= span
    ensures margin <= Centre(span, extent) && Centre(span, extent) + extent <= span - margin
  {
  }

  datatype Size = Size(w: int, h: int)

  /** Image.rotate(90) is a counter-clockwise quarter turn, rotate(-90) a clockwise one. */
  datatype Turn = CounterClockwise | Clockwise

  function Opposite(t: Turn): Turn
  {
    match t
    case CounterClockwise => Clockwise
    case Clockwise => CounterClockwise
  }

  /** Where a pixel (x, y) of an image of size s lands after the quarter turn. */
  function RotatePixel(x: int, y: int, s: Size, t: Turn): (p: (int, int))
    ensures 0 <= x < s.w && 0 <= y < s.h ==> 0 <= p.0 < s.h && 0 <= p.1 < s.w
  {
    match t
    case CounterClockwise => (y, s.w - 1 - x)
    case Clockwise => (s.h - 1 - y, x)
  }

  /** No two pixels of the source land on the same pixel. */
  lemma RotatePixelInjective(x1: int, y1: int, x2: int, y2: int, s: Size, t: Turn)
    requires RotatePixel(x1, y1, s, t) == RotatePixel(x2, y2, s, t)
    ensures x1 == x2 && y1 == y2
  {
  }

  /** rotate(±90, expand=True): the canvas takes the turned image's extent. */
  function RotateExpand(s: Size, t: Turn): Size
  {
    Size(s.h, s.w)
  }

  /**
   * The expanded canvas is exactly the bounding box of the turned image: every source pixel
   * lands on it, and every pixel of it is the image of a source pixel (the one the opposite turn
   * sends it back to), so nothing is clipped and nothing is left blank.
   */
  lemma RotateExpandIsBoundingBox(s: Size, t: Turn)
    ensures var r := RotateExpand(s, t);
      forall x, y :: 0 <= x < s.w && 0 <= y < s.h ==>
        0 <= RotatePixel(x, y, s, t).0 < r.w && 0 <= RotatePixel(x, y, s, t).1 < r.h
    ensures var r := RotateExpand(s, t);
      forall x, y :: 0 <= x < r.w && 0 <= y < r.h ==> TurnedBack(x, y, s, t)
  {
    forall x, y | 0 <= x < s.h && 0 <= y < s.w ensures TurnedBack(x, y, s, t) {
      TurnBack(x, y, s, t);
    }
  }

  /** The opposite turn takes a pixel of the turned canvas back to a source pixel that lands on it. */
  ghost predicate TurnedBack(x: int, y: int, s: Size, t: Turn)
  {
    var p := RotatePixel(x, y, Size(s.h, s.w), Opposite(t));
    0 <= p.0 < s.w && 0 <= p.1 < s.h && RotatePixel(p.0, p.1, s, t) == (x, y)
  }

  lemma TurnBack(x: int, y: int, s: Size, t: Turn)
    requires 0 <= x < s.h && 0 <= y < s.w
    ensures TurnedBack(x, y, s, t)
  {
    match t
    case CounterClockwise =>
      assert RotatePixel(x, y, Size(s.h, s.w), Clockwise) == (s.w - 1 - y, x);
    case Clockwise =>
      assert RotatePixel(x, y, Size(s.h, s.w), CounterClockwise) == (y, s.h - 1 - x);
  }

  /** The two quarter turns undo each other, on sizes and on pixels. */
  lemma {:induction false} RotateRoundTrip(x: int, y: int, s: Size)
    ensures RotateExpand(RotateExpand(s, CounterClockwise), Clockwise) == s
    ensures var (x1, y1) := RotatePixel(x, y, s, CounterClockwise);
      RotatePixel(x1, y1, RotateExpand(s, CounterClockwise), Clockwise) == (x, y)
    ensures var (x1, y1) := RotatePixel(x, y, s, Clockwise);
      RotatePixel(x1, y1, RotateExpand(s, Clockwise), CounterClockwise) == (x, y)
  {
    var r := RotateExpand(s, CounterClockwise);
    assert r == Size(s.h, s.w);
  }

  /**
   * The rows that the text columns [a, a + n) of a source image occupy once rotated:
   * turning counter-clockwise reverses them, turning clockwise keeps them.
   */
  function RotatedRows(s: Size, t: Turn, a: int, n: int): (rows: (int, int))
    ensures forall x, y :: a <= x < a + n ==> rows.0 <= RotatePixel(x, y, s, t).1 < rows.0 + rows.1
  {
    match t
    case CounterClockwise => (s.w - a - n, n)
    case Clockwise => (a, n)
  }

  /** The border rectangle as drawn: corners, inclusive, and the stroke width. */
  datatype Frame = Frame(left: int, top: int, right: int, bottom: int, stroke: int)

  /** max(2, int(2 * scale)): the stroke never drops below two pixels. */
  function BorderStroke(mm: int): (w: int)
    ensures 2 <= w
    ensures mm in TapeWidths ==> w == Scaled(2, mm) || (w == 2 && Scaled(2, mm) < 2)
  {
    var s := Scaled(2, mm);
    if s > 2 then s else 2
  }

  /**
   * The rectangle from (stroke//2, stroke//2) to (width - stroke//2 - 1, height - stroke//2 - 1).
   * It is inset equally from opposite edges and, on a canvas at least as large as the stroke
   * in both directions, both corners lie on the canvas.
   */
  function Border(width: int, height: int, stroke: int): (f: Frame)
    requires stroke >= 2
    ensures f.stroke == stroke
    ensures f.left == f.top == stroke / 2 >= 1
    ensures f.left == width - 1 - f.right && f.top == height - 1 - f.bottom
    ensures stroke <= width ==> 0 <= f.left < width && 0 <= f.right < width
    ensures stroke <= height ==> 0 <= f.top < height && 0 <= f.bottom < height
    ensures stroke < width ==> f.left <= f.right
    ensures stroke < height ==> f.top <= f.bottom
  {
    Frame(stroke / 2, stroke / 2, width - stroke / 2 - 1, height - stroke / 2 - 1, stroke)
  }
}
