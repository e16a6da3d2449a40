/** Axis-aligned rectangles with `i16` coordinates (src/engine/rect.rs). */
module Geometry {
  import opened Ints

  datatype Point = Point(x: I16, y: I16)

  datatype Rect = Rect(position: Point, width: I16, height: I16) {

    function X(): (x: I16)
      ensures x == position.x
    {
      position.x
    }

    function Y(): (y: I16)
      ensures y == position.y
    {
      position.y
    }

    function Left(): (r: I16)
      ensures r == position.x
    {
      X()
    }

    function Top(): (r: I16)
      ensures r == position.y
    {
      Y()
    }

    /** `x + width`, computed in `i16`. */
    function Right(): (r: I16)
      ensures InI16(position.x + width) ==> r == position.x + width
      ensures (position.x + width - r) % I16_MODULUS == 0
    {
      Wrap16(X() + width)
    }

    /** `y + height`, computed in `i16`. */
    function Bottom(): (r: I16)
      ensures InI16(position.y + height) ==> r == position.y + height
      ensures (position.y + height - r) % I16_MODULUS == 0
    {
      Wrap16(Y() + height)
    }

    /** Strict comparisons on all four sides: rectangles that only touch do not intersect. */
    predicate Intersects(other: Rect) {
      && Left() < other.Right()
      && Right() > other.Left()
      && Top() < other.Bottom()
      && Bottom() > other.Top()
    }

    /** Moves the rectangle horizontally; nothing but `position.x` changes. */
    function SetX(x: I16): (r: Rect)
      ensures r.position.x == x
      ensures r.position.y == position.y && r.width == width && r.height == height
    {
      this.(position := position.(x := x))
    }
  }

  /** `Rect::default`, which the shown rectangle type does not define; its value is not
      part of this model. */
  const DEFAULT: Rect

  function New(position: Point, width: I16, height: I16): (r: Rect)
    ensures r.Left() == position.x && r.Top() == position.y
    ensures r.width == width && r.height == height
  {
    Rect(position, width, height)
  }

  function NewFromXY(x: I16, y: I16, width: I16, height: I16): (r: Rect)
    ensures r == New(Point(x, y), width, height)
  {
    New(Point(x, y), width, height)
  }

  /** Unit pixel cell (i, j) lies inside `r`; an independent reading of a rectangle as a pixel set. */
  predicate Covers(r: Rect, i: int, j: int) {
    r.Left() <= i < r.Right() && r.Top() <= j < r.Bottom()
  }

  /** Positive size, and the far edges do not overflow `i16`. */
  predicate WellFormed(r: Rect) {
    r.width > 0 && r.height > 0 && InI16(r.position.x + r.width) && InI16(r.position.y + r.height)
  }

  /** `intersects` holds exactly when the two rectangles share a pixel. */
  lemma IntersectsIffSharedPixel(a: Rect, b: Rect)
    requires WellFormed(a) && WellFormed(b)
    ensures a.Intersects(b) <==> exists i, j :: Covers(a, i, j) && Covers(b, i, j)
  {
    if a.Intersects(b) {
      var i := if a.Left() < b.Left() then b.Left() else a.Left();
      var j := if a.Top() < b.Top() then b.Top() else a.Top();
      assert Covers(a, i, j) && Covers(b, i, j);
    }
  }

  lemma IntersectsSymmetric(a: Rect, b: Rect)
    ensures a.Intersects(b) == b.Intersects(a)
  {
  }

  /** Rectangles that share only a vertical or a horizontal edge do not intersect. */
  lemma SharedEdgeDoesNotIntersect(a: Rect, b: Rect)
    requires a.Right() == b.Left() || a.Bottom() == b.Top()
    ensures !a.Intersects(b) && !b.Intersects(a)
  {
  }

  /** A rectangle with positive size whose edges do not overflow intersects itself. */
  lemma IntersectsItself(r: Rect)
    requires WellFormed(r)
    ensures r.Intersects(r)
  {
  }
}
