/** The scalar helpers of the `Numeric where Self: Comparable` extension:
    `max(_:)` (an UPPER limit), `min(_:)` (a LOWER limit), `between(_:)` and
    `closest(of:)`, over reals. The library states the two clamps twice, in
    two extension files; they are defined once here. */
module NumericLimits {

  /** The bounds of a closed range `lowerBound...upperBound`. */
  datatype RangeBounds = RangeBounds(lowerBound: real, upperBound: real)

  /** A closed range: forming `a...b` with `a > b` traps, so every range
      the extension receives has ordered bounds. */
  type ClosedRange = r: RangeBounds | r.lowerBound <= r.upperBound
    witness RangeBounds(0.0, 0.0)

  /** The standard library's `Swift.min`. */
  function SwiftMin(x: real, y: real): (r: real)
    ensures r <= x && r <= y
    ensures r == x || r == y
  {
    if y < x then y else x
  }

  /** The standard library's `Swift.max`. */
  function SwiftMax(x: real, y: real): (r: real)
    ensures r >= x && r >= y
    ensures r == x || r == y
  {
    if y >= x then y else x
  }

  /** The standard library's `abs`. */
  function Abs(x: real): (r: real)
    ensures r >= 0.0
    ensures r == x || r == -x
  {
    if x < 0.0 then -x else x
  }

  /** `v.max(limit)`: limits `v` from above, despite its name. */
  function Max(v: real, limit: real): (r: real)
    ensures r <= limit && r <= v
    ensures r == v || r == limit
  {
    SwiftMin(v, limit)
  }

  /** `v.min(limit)`: limits `v` from below, despite its name. */
  function Min(v: real, limit: real): (r: real)
    ensures r >= limit && r >= v
    ensures r == v || r == limit
  {
    SwiftMax(v, limit)
  }

  /** `v.between(range)`: the upper limit, then the lower limit. */
  function Between(v: real, range: ClosedRange): (r: real)
    ensures range.lowerBound <= r <= range.upperBound
    ensures range.lowerBound <= v <= range.upperBound ==> r == v
    ensures v < range.lowerBound ==> r == range.lowerBound
    ensures v > range.upperBound ==> r == range.upperBound
  {
    Min(Max(v, range.upperBound), range.lowerBound)
  }

  /** `v.closest(of: range)`: the bound nearer to `v`; on a tie, the
      lower bound. */
  function Closest(v: real, range: ClosedRange): (r: real)
    ensures r == range.lowerBound || r == range.upperBound
    ensures Abs(v - r) <= Abs(v - range.lowerBound)
    ensures Abs(v - r) <= Abs(v - range.upperBound)
    ensures Abs(v - range.lowerBound) == Abs(v - range.upperBound) ==> r == range.lowerBound
  {
    var deltaLower := v - range.lowerBound;
    var deltaUpper := range.upperBound - v;
    if deltaLower > deltaUpper then range.upperBound else range.lowerBound
  }

  /** The two clamps are the standard `min` and `max` in disguise. */
  lemma ClampsAreSwapped(v: real, limit: real)
    ensures Max(v, limit) == (if v <= limit then v else limit)
    ensures Min(v, limit) == (if v >= limit then v else limit)
  {
  }

  lemma BetweenIdempotent(v: real, range: ClosedRange)
    ensures Between(Between(v, range), range) == Between(v, range)
  {
  }

  /** Values below the range go to the lower bound, values above the
      midpoint to the upper bound. */
  lemma ClosestOutside(v: real, range: ClosedRange)
    ensures v <= range.lowerBound ==> Closest(v, range) == range.lowerBound
    ensures v >= range.upperBound && 2.0 * v > range.lowerBound + range.upperBound
            ==> Closest(v, range) == range.upperBound
  {
  }

  /** The exact midpoint goes to the lower bound. */
  lemma ClosestTieIsLower(range: ClosedRange)
    ensures Closest((range.lowerBound + range.upperBound) / 2.0, range) == range.lowerBound
  {
  }

  /** The assertions of the package's `testNumericLimits`. */
  lemma NumericLimitsExamples()
    ensures Min(3.0, 4.0) == 4.0 && Min(3.0, 3.0) == 3.0 && Min(3.0, 2.0) == 3.0
    ensures Max(3.0, 4.0) == 3.0 && Max(3.0, 3.0) == 3.0 && Max(3.0, 2.0) == 2.0
    ensures Between(3.0, RangeBounds(2.0, 4.0)) == 3.0
    ensures Between(3.0, RangeBounds(4.0, 6.0)) == 4.0
    ensures Between(3.0, RangeBounds(0.0, 2.0)) == 2.0
  {
  }

  /** The assertions of the package's `testClosest`. */
  lemma ClosestExamples()
    ensures Closest(3.0, RangeBounds(2.0, 10.0)) == 2.0
    ensures Closest(9.0, RangeBounds(2.0, 10.0)) == 10.0
  {
  }
}
