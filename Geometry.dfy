/**
 * The tracker's window, its 80x80 target rectangles and where a new target
 * is placed.
 */
module Geometry {

  /** The window's fixed size. */
  const WindowWidth: int := 553
  const WindowHeight: int := 463
  /** Side of a target's square. */
  const TargetSize: int := 80
  /** The random ranges of the first draw: the window size less 100. */
  const DrawWidth: int := WindowWidth - 100
  const DrawHeight: int := WindowHeight - 100
  /** A first draw at or beyond these is thrown away ... */
  const LimitX: int := 450
  const LimitY: int := 350
  /** ... and replaced by a draw from these smaller ranges. */
  const RetryWidth: int := 400 - 100
  const RetryHeight: int := 300 - 100

  /** `QRect(x, y, w, h)`: top-left corner and size (the model only builds non-negative sizes). */
  datatype Rect = Rect(x: int, y: int, w: int, h: int)

  /** The default-constructed `QRect()`, of width and height 0. */
  const EmptyRect: Rect := Rect(0, 0, 0, 0)

  /**
   * `QRect::contains(QPoint)`: the rectangle covers the columns x .. x+w-1 and
   * the rows y .. y+h-1, edges included; a rectangle of size 0 covers nothing.
   */
  predicate Contains(r: Rect, px: int, py: int)
    ensures Contains(r, px, py) ==> 0 < r.w && 0 < r.h
    ensures Contains(r, px, py) ==> 0 <= px - r.x < r.w && 0 <= py - r.y < r.h
    ensures r == EmptyRect ==> !Contains(r, px, py)
  {
    r.x <= px <= r.x + r.w - 1 && r.y <= py <= r.y + r.h - 1
  }

  predicate InsideWindow(r: Rect) {
    0 <= r.x && 0 <= r.y && r.x + r.w <= WindowWidth && r.y + r.h <= WindowHeight
  }

  /** The square a target occupies at position (x, y). */
  function TargetAt(x: int, y: int): Rect {
    Rect(x, y, TargetSize, TargetSize)
  }

  /**
   * The position of a new target, given the random draws `rx` in [0, 453),
   * `ry` in [0, 363) and the fallback draws `rx2` in [0, 300), `ry2` in [0, 200).
   * The first draw is kept exactly when it lies below (450, 350); otherwise
   * both coordinates come from the fallback draw. Either way the target lies
   * inside the window.
   */
  function SpawnPosition(rx: int, ry: int, rx2: int, ry2: int): (p: (int, int))
    requires 0 <= rx < DrawWidth && 0 <= ry < DrawHeight
    requires 0 <= rx2 < RetryWidth && 0 <= ry2 < RetryHeight
    ensures 0 <= p.0 < LimitX && 0 <= p.1 < LimitY
    ensures InsideWindow(TargetAt(p.0, p.1))
    ensures p == (rx, ry) <==> rx < LimitX && ry < LimitY
    ensures p != (rx, ry) ==> p == (rx2, ry2)
  {
    if rx >= LimitX || ry >= LimitY then (rx2, ry2) else (rx, ry)
  }
}
