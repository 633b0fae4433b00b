/** The four corners the overlay can dock at, and the container alignment
    each one stands for. */
module Positions {

  datatype PipPosition = TopLeading | TopTrailing | BottomLeading | BottomTrailing

  datatype HorizontalAlignment = Leading | Trailing

  datatype VerticalAlignment = Top | Bottom

  /** SwiftUI's `Alignment`: a horizontal and a vertical guide. */
  datatype Alignment = Alignment(horizontal: HorizontalAlignment, vertical: VerticalAlignment)

  /** `alignemnt`: the overlay alignment for a corner, the same-named one. */
  function AlignmentOf(p: PipPosition): (a: Alignment)
    ensures a.horizontal == Leading <==> p == TopLeading || p == BottomLeading
    ensures a.vertical == Top <==> p == TopLeading || p == TopTrailing
  {
    match p
    case TopLeading => Alignment(Leading, Top)
    case BottomLeading => Alignment(Leading, Bottom)
    case BottomTrailing => Alignment(Trailing, Bottom)
    case TopTrailing => Alignment(Trailing, Top)
  }

  /** The corner whose alignment is `a`. */
  function PositionOf(a: Alignment): (p: PipPosition)
    ensures AlignmentOf(p) == a
  {
    match a
    case Alignment(Leading, Top) => TopLeading
    case Alignment(Trailing, Top) => TopTrailing
    case Alignment(Leading, Bottom) => BottomLeading
    case Alignment(Trailing, Bottom) => BottomTrailing
  }

  lemma AlignmentRoundTrip(p: PipPosition)
    ensures PositionOf(AlignmentOf(p)) == p
  {
  }

  /** Distinct corners have distinct alignments. */
  lemma AlignmentInjective(p: PipPosition, q: PipPosition)
    requires p != q
    ensures AlignmentOf(p) != AlignmentOf(q)
  {
  }

  /** `allPositions`, the default set of enabled corners: every corner
      once, so there are exactly four. */
  function AllPositions(): (r: seq<PipPosition>)
    ensures |r| == 4
    ensures forall p :: p in r
    ensures forall i, j :: 0 <= i < j < |r| ==> r[i] != r[j]
  {
    var r := [TopLeading, TopTrailing, BottomTrailing, BottomLeading];
    assert forall p :: p in r by {
      forall p: PipPosition ensures p in r {
        if p == TopLeading { assert r[0] == p; }
        else if p == TopTrailing { assert r[1] == p; }
        else if p == BottomTrailing { assert r[2] == p; }
        else { assert r[3] == p; }
      }
    }
    r
  }
}
