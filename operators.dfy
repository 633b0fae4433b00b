/** Points, sizes and the componentwise operators the overlay uses to move
    and scale them (`+` on a point and a size, `*` on a size and a factor). */
module Operators {

  /** A location in a container's coordinate space (CGPoint). */
  datatype Point = Point(x: real, y: real)

  /** A two-dimensional extent or displacement (CGSize). */
  datatype Size = Size(width: real, height: real)

  /** The zero size (CGSize.zero). */
  const Zero: Size := Size(0.0, 0.0)

  /** `point + size`: moves the point by the size; only the zero size
      leaves it where it is. */
  function Translate(p: Point, s: Size): (r: Point)
    ensures r == p <==> s == Zero
  {
    Point(p.x + s.width, p.y + s.height)
  }

  /** `size * multiplier`: multiplies both components by the factor. */
  function Scale(s: Size, m: real): (r: Size)
    ensures r.width * s.height == r.height * s.width
  {
    Size(s.width * m, s.height * m)
  }

  /** `size * multiplier` for an integer factor, through the real overload;
      it keeps the aspect ratio, and a zero factor gives the zero size. */
  function ScaleInt(s: Size, n: int): (r: Size)
    ensures r.width * s.height == r.height * s.width
    ensures n == 0 ==> r == Zero
  {
    Scale(s, n as real)
  }

  lemma TranslateIsComponentwise(p: Point, s: Size)
    ensures Translate(p, s).x - p.x == s.width
    ensures Translate(p, s).y - p.y == s.height
  {
  }

  lemma ScaleIsComponentwise(s: Size, m: real)
    ensures Scale(s, m).width == m * s.width
    ensures Scale(s, m).height == m * s.height
  {
  }

  /** The integer overload agrees with scaling by the same value as a real. */
  lemma ScaleIntAgrees(s: Size, n: int)
    ensures ScaleInt(s, n) == Scale(s, n as real)
    ensures ScaleInt(s, n).width == s.width * (n as real)
  {
  }

  lemma TranslateByZero(p: Point)
    ensures Translate(p, Zero) == p
  {
  }

  lemma ScaleByOne(s: Size)
    ensures Scale(s, 1.0) == s
    ensures ScaleInt(s, 1) == s
  {
  }

  /** Moving by a size and then by its negation returns to the start. */
  lemma TranslateRoundTrip(p: Point, s: Size)
    ensures Translate(Translate(p, s), Scale(s, -1.0)) == p
  {
  }

  /** Scaling twice is scaling once by the product of the factors. */
  lemma ScaleCompose(s: Size, a: real, b: real)
    ensures Scale(Scale(s, a), b) == Scale(s, a * b)
  {
  }
}
