/**
 * PyArtConfig's class-level ranges and the record of one random draw.
 */
module ArtConfig {

  /** An inclusive integer range, as passed to `random.randint(lo, hi)`. */
  datatype Range = Range(lo: int, hi: int) {
    predicate Contains(v: int) {
      lo <= v <= hi
    }
  }

  /** Shape kinds: circle = 0, rectangle = 1, ellipse = 3. */
  const Circle: int := 0
  const Rectangle: int := 1
  const Ellipse: int := 3
  const ShapeValues: seq<int> := [Circle, Rectangle, Ellipse]

  const XRange: Range := Range(0, 1000)
  const YRange: Range := Range(0, 700)
  const RadRange: Range := Range(0, 100)
  const RxRange: Range := Range(10, 30)
  const RyRange: Range := Range(10, 30)
  const WRange: Range := Range(10, 100)
  const HRange: Range := Range(10, 100)
  const RgbRange: Range := Range(0, 255)

  /**
   * The fields of one RandomShape after make_random_shape: its running
   * index, kind, and every geometry, colour and opacity field (all kinds'
   * fields are drawn whatever the kind).
   */
  datatype ShapeSample = ShapeSample(
    cnt: int, sha: int,
    x: int, y: int, rad: int, w: int, h: int, rx: int, ry: int,
    red: int, green: int, blue: int,
    op: real)

  /** What make_random_shape guarantees of a draw. */
  predicate InRange(s: ShapeSample) {
    && s.sha in ShapeValues
    && XRange.Contains(s.x) && YRange.Contains(s.y)
    && RadRange.Contains(s.rad)
    && WRange.Contains(s.w) && HRange.Contains(s.h)
    && RxRange.Contains(s.rx) && RyRange.Contains(s.ry)
    && RgbRange.Contains(s.red) && RgbRange.Contains(s.green) && RgbRange.Contains(s.blue)
    && 0.0 <= s.op < 1.0
  }
}
