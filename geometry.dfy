/** Plane geometry shared by the scene and the monster: points and offsets,
    the axis-aligned bounding box of a sprite, and the box-overlap test that
    stands in for the engine's rectangle intersection. Coordinates are exact
    reals; the engine's floating point is not modelled. */
module Geometry {

  /** A point or an offset in world coordinates (y grows downwards). */
  datatype Vec = Vec(x: real, y: real)

  const Zero: Vec := Vec(0.0, 0.0)

  /** An axis-aligned rectangle given by its four edges. */
  datatype Box = Box(left: real, top: real, right: real, bottom: real)

  /** The bounds of a sprite of the given display size centred on `center`
      (sprites have their origin in the middle). */
  function BoundsAt(center: Vec, width: real, height: real): (b: Box)
    requires width >= 0.0 && height >= 0.0
    ensures b.left <= center.x <= b.right && b.top <= center.y <= b.bottom
    ensures b.right - b.left == width && b.bottom - b.top == height
  {
    Box(center.x - width / 2.0, center.y - height / 2.0,
        center.x + width / 2.0, center.y + height / 2.0)
  }

  /** Two boxes intersect when their closed extents overlap on both axes
      (boxes that merely touch along an edge count as intersecting). */
  predicate Overlaps(a: Box, b: Box) {
    a.left <= b.right && b.left <= a.right && a.top <= b.bottom && b.top <= a.bottom
  }

  /** A sprite: a position the game moves, and a fixed display size. */
  class Sprite {
    var x: real
    var y: real
    const width: real
    const height: real

    ghost predicate Valid()
      reads this
    {
      width >= 0.0 && height >= 0.0
    }

    constructor (x0: real, y0: real, w: real, h: real)
      requires w >= 0.0 && h >= 0.0
      ensures Valid()
      ensures x == x0 && y == y0 && width == w && height == h
    {
      x, y := x0, y0;
      width, height := w, h;
    }

    function Position(): (p: Vec)
      reads this
    {
      Vec(x, y)
    }

    function Bounds(): (b: Box)
      reads this
      requires Valid()
    {
      BoundsAt(Position(), width, height)
    }

    method SetPosition(nx: real, ny: real)
      modifies this
      ensures x == nx && y == ny
    {
      x, y := nx, ny;
    }
  }
}
