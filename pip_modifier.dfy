/** The picture-in-picture modifier: how pinch, rotate and drag gestures
    change the overlay's transient feedback (rotation, scale, offset) and its
    resting state (corner and size), and the geometry the drag decision
    rests on. Container frames and gesture values are parameters. */
module Modifier {
  import opened Operators
  import opened NumericLimits
  import opened Positions
  import opened Sizes

  /** SwiftUI's `UnitPoint`: a point given as fractions of a view's width
      and height. */
  datatype UnitPoint = UnitPoint(x: real, y: real)

  /** The overlay extent at the small size, unless the caller gives one. */
  const DefaultBaseSize: Size := Size(150.0, 100.0)

  /** The largest pinch scale shown while a pinch is in progress. */
  const MaxMagnification: real := 3.0

  /** The range of the rotation shown while a rotation is in progress. */
  const RotationLimits: ClosedRange := RangeBounds(-10.0, 10.0)

  /** `size`: the base extent scaled by a size's multiplier. */
  function ScaledSize(base: Size, s: PipSize): (r: Size)
    ensures r.width * base.height == r.height * base.width
    ensures base.width >= 0.0 ==> base.width <= r.width <= 2.0 * base.width
    ensures base.height >= 0.0 ==> base.height <= r.height <= 2.0 * base.height
  {
    Scale(base, RawValue(s))
  }

  /** Larger sizes give a larger overlay in both dimensions. */
  lemma ScaledSizeGrows(base: Size)
    requires base.width > 0.0 && base.height > 0.0
    ensures ScaledSize(base, Small) == base
    ensures ScaledSize(base, Small).width < ScaledSize(base, Medium).width < ScaledSize(base, Large).width
    ensures ScaledSize(base, Small).height < ScaledSize(base, Medium).height < ScaledSize(base, Large).height
  {
  }

  /** `scaleAnchor`: the corner of the overlay itself that stays put while it
      is pinched, the same corner it is docked at. */
  function Anchor(p: PipPosition): (u: UnitPoint)
    ensures u.x == (if AlignmentOf(p).horizontal == Leading then 0.0 else 1.0)
    ensures u.y == (if AlignmentOf(p).vertical == Top then 0.0 else 1.0)
  {
    match p
    case BottomLeading => UnitPoint(0.0, 1.0)
    case BottomTrailing => UnitPoint(1.0, 1.0)
    case TopLeading => UnitPoint(0.0, 0.0)
    case TopTrailing => UnitPoint(1.0, 0.0)
  }

  /** The centre of an overlay with half extents `midX` and `midY` docked at
      corner `p` of a `frameWidth` by `frameHeight` container. */
  function DockedCentre(p: PipPosition, midX: real, midY: real, frameWidth: real, frameHeight: real): (c: Point)
    ensures c.x == (if AlignmentOf(p).horizontal == Leading then midX else frameWidth - midX)
    ensures c.y == (if AlignmentOf(p).vertical == Top then midY else frameHeight - midY)
  {
    match p
    case TopLeading => Point(midX, midY)
    case TopTrailing => Point(frameWidth - midX, midY)
    case BottomLeading => Point(midX, frameHeight - midY)
    case BottomTrailing => Point(frameWidth - midX, frameHeight - midY)
  }

  /** `location(for:in:)`: the centre of an overlay of extent `sz` docked at
      `p`. The overlay then lies flush against the container edges its
      alignment names. It depends on the corner alone, not on any drag
      offset. */
  function Location(p: PipPosition, sz: Size, frameWidth: real, frameHeight: real): (c: Point)
    ensures AlignmentOf(p).horizontal == Leading ==> c.x - sz.width / 2.0 == 0.0
    ensures AlignmentOf(p).horizontal == Trailing ==> c.x + sz.width / 2.0 == frameWidth
    ensures AlignmentOf(p).vertical == Top ==> c.y - sz.height / 2.0 == 0.0
    ensures AlignmentOf(p).vertical == Bottom ==> c.y + sz.height / 2.0 == frameHeight
  {
    var midX := sz.width / 2.0;
    var midY := sz.height / 2.0;
    DockedCentre(p, midX, midY, frameWidth, frameHeight)
  }

  /** The docked centre moves from the top-leading position to the opposite
      corner in proportion to the corner's scale anchor. */
  lemma LocationFollowsAnchor(p: PipPosition, sz: Size, frameWidth: real, frameHeight: real)
    ensures Location(p, sz, frameWidth, frameHeight).x == sz.width / 2.0 + Anchor(p).x * (frameWidth - sz.width)
    ensures Location(p, sz, frameWidth, frameHeight).y == sz.height / 2.0 + Anchor(p).y * (frameHeight - sz.height)
  {
  }

  /** Leading or trailing for a centre at `x`: trailing exactly when the
      trailing reference is no farther than the leading one. */
  function HorizontalChoice(x: real, midX: real, frameWidth: real): (h: HorizontalAlignment)
    ensures h == Trailing <==> Abs(frameWidth - midX - x) <= Abs(midX - x)
  {
    var deltaLeading := Abs(midX - x);
    var deltaTrailing := Abs(frameWidth - midX - x);
    if SwiftMin(deltaLeading, deltaTrailing) == deltaTrailing then Trailing else Leading
  }

  /** Top or bottom for a centre at `y`: top exactly when the top reference
      is no farther than the bottom one. */
  function VerticalChoice(y: real, midY: real, frameHeight: real): (v: VerticalAlignment)
    ensures v == Top <==> Abs(midY - y) <= Abs(frameHeight - midY - y)
  {
    var deltaTop := Abs(midY - y);
    var deltaBottom := Abs(frameHeight - midY - y);
    if SwiftMin(deltaTop, deltaBottom) == deltaTop then Top else Bottom
  }

  /** The vertical choice splits at the container's horizontal midline:
      centres above it go to the top while the top reference lies above the
      bottom one, and the decision is inverted once the references cross
      (a half extent larger than half the container). */
  lemma VerticalChoiceByMidline(y: real, midY: real, frameHeight: real)
    ensures 2.0 * midY < frameHeight ==> (VerticalChoice(y, midY, frameHeight) == Top <==> 2.0 * y <= frameHeight)
    ensures 2.0 * midY > frameHeight ==> (VerticalChoice(y, midY, frameHeight) == Top <==> 2.0 * y >= frameHeight)
  {
  }

  /** The corner-choosing part of `newPosition(with:and:)`: the two axes are
      decided separately, each from its own coordinate, half extent and
      container dimension, and equal distances go to trailing and to top. */
  function NearestCorner(loc: Point, midX: real, midY: real, frameWidth: real, frameHeight: real): (p: PipPosition)
    ensures AlignmentOf(p).horizontal == HorizontalChoice(loc.x, midX, frameWidth)
    ensures AlignmentOf(p).vertical == VerticalChoice(loc.y, midY, frameHeight)
    ensures Abs(midX - loc.x) == Abs(frameWidth - midX - loc.x) ==> AlignmentOf(p).horizontal == Trailing
    ensures Abs(midY - loc.y) == Abs(frameHeight - midY - loc.y) ==> AlignmentOf(p).vertical == Top
  {
    var isTrailing := HorizontalChoice(loc.x, midX, frameWidth) == Trailing;
    var isTop := VerticalChoice(loc.y, midY, frameHeight) == Top;
    match (isTrailing, isTop)
    case (true, true) => TopTrailing
    case (true, false) => BottomTrailing
    case (false, true) => TopLeading
    case (false, false) => BottomLeading
  }

  /** Squared Euclidean distance. */
  function SqDist(a: Point, b: Point): real
  {
    (a.x - b.x) * (a.x - b.x) + (a.y - b.y) * (a.y - b.y)
  }

  lemma MulPositive(a: real, b: real)
    requires a > 0.0 && b > 0.0
    ensures a * b > 0.0
  {
  }

  lemma SquareOfAbs(a: real)
    ensures Abs(a) * Abs(a) == a * a
  {
  }

  lemma SquareStrictlyMonotone(p: real, q: real)
    requires 0.0 <= p < q
    ensures p * p < q * q
  {
    MulPositive(q - p, q + p);
    assert (q - p) * (q + p) == q * q - p * p;
  }

  /** Squaring preserves the order of absolute values. */
  lemma SquareMonotone(a: real, b: real)
    ensures Abs(a) <= Abs(b) ==> a * a <= b * b
    ensures Abs(a) < Abs(b) ==> a * a < b * b
  {
    SquareOfAbs(a);
    SquareOfAbs(b);
    if Abs(a) < Abs(b) {
      SquareStrictlyMonotone(Abs(a), Abs(b));
    }
  }

  /** A point no farther along either axis is no farther in all, and
      equally far only when equally far along both axes. */
  lemma SqDistMonotone(loc: Point, c: Point, d: Point)
    requires Abs(loc.x - c.x) <= Abs(loc.x - d.x) && Abs(loc.y - c.y) <= Abs(loc.y - d.y)
    ensures SqDist(loc, c) <= SqDist(loc, d)
    ensures SqDist(loc, c) == SqDist(loc, d) ==> Abs(loc.x - c.x) == Abs(loc.x - d.x) && Abs(loc.y - c.y) == Abs(loc.y - d.y)
  {
    SquareMonotone(loc.x - c.x, loc.x - d.x);
    SquareMonotone(loc.y - c.y, loc.y - d.y);
  }

  /** The x coordinate of the docked centres on side `h`. */
  function CentreX(h: HorizontalAlignment, midX: real, frameWidth: real): real
  {
    if h == Leading then midX else frameWidth - midX
  }

  /** The y coordinate of the docked centres on side `v`. */
  function CentreY(v: VerticalAlignment, midY: real, frameHeight: real): real
  {
    if v == Top then midY else frameHeight - midY
  }

  /** The horizontal choice is a nearest side, strictly nearer when it is
      leading. */
  lemma HorizontalChoiceIsNearest(x: real, midX: real, frameWidth: real, other: HorizontalAlignment)
    ensures var h := HorizontalChoice(x, midX, frameWidth);
            && Abs(x - CentreX(h, midX, frameWidth)) <= Abs(x - CentreX(other, midX, frameWidth))
            && (h == Leading && other == Trailing
                ==> Abs(x - CentreX(h, midX, frameWidth)) < Abs(x - CentreX(other, midX, frameWidth)))
  {
  }

  /** The vertical choice is a nearest side, strictly nearer when it is
      bottom. */
  lemma VerticalChoiceIsNearest(y: real, midY: real, frameHeight: real, other: VerticalAlignment)
    ensures var v := VerticalChoice(y, midY, frameHeight);
            && Abs(y - CentreY(v, midY, frameHeight)) <= Abs(y - CentreY(other, midY, frameHeight))
            && (v == Bottom && other == Top
                ==> Abs(y - CentreY(v, midY, frameHeight)) < Abs(y - CentreY(other, midY, frameHeight)))
  {
  }

  /** The chosen corner is one whose docked centre is nearest to `loc`;
      among equally near corners it is the trailing and the top one. */
  lemma NearestCornerIsNearest(loc: Point, midX: real, midY: real, frameWidth: real, frameHeight: real, q: PipPosition)
    ensures var p := NearestCorner(loc, midX, midY, frameWidth, frameHeight);
            var dp := SqDist(loc, DockedCentre(p, midX, midY, frameWidth, frameHeight));
            var dq := SqDist(loc, DockedCentre(q, midX, midY, frameWidth, frameHeight));
            && dp <= dq
            && (dp == dq && AlignmentOf(q).horizontal == Trailing ==> AlignmentOf(p).horizontal == Trailing)
            && (dp == dq && AlignmentOf(q).vertical == Top ==> AlignmentOf(p).vertical == Top)
  {
    var p := NearestCorner(loc, midX, midY, frameWidth, frameHeight);
    var hp, vp := AlignmentOf(p).horizontal, AlignmentOf(p).vertical;
    var hq, vq := AlignmentOf(q).horizontal, AlignmentOf(q).vertical;
    var cp := DockedCentre(p, midX, midY, frameWidth, frameHeight);
    var cq := DockedCentre(q, midX, midY, frameWidth, frameHeight);
    assert cp == Point(CentreX(hp, midX, frameWidth), CentreY(vp, midY, frameHeight));
    assert cq == Point(CentreX(hq, midX, frameWidth), CentreY(vq, midY, frameHeight));
    HorizontalChoiceIsNearest(loc.x, midX, frameWidth, hq);
    VerticalChoiceIsNearest(loc.y, midY, frameHeight, vq);
    SqDistMonotone(loc, cp, cq);
  }

  /** `newPosition(with:and:)` as written: moves the docked centre by the
      translation and picks the nearest corner, with the vertical half
      extent taken from the overlay's WIDTH. */
  function NewPosition(current: PipPosition, sz: Size, frameWidth: real, frameHeight: real, translation: Size): (p: PipPosition)
    ensures var loc := Translate(Location(current, sz, frameWidth, frameHeight), translation);
            && AlignmentOf(p).horizontal == HorizontalChoice(loc.x, sz.width / 2.0, frameWidth)
            && AlignmentOf(p).vertical == VerticalChoice(loc.y, sz.width / 2.0, frameHeight)
  {
    var originalLocation := Location(current, sz, frameWidth, frameHeight);
    var newLocation := Translate(originalLocation, translation);
    var midX := sz.width / 2.0;
    var midY := sz.width / 2.0;
    NearestCorner(newLocation, midX, midY, frameWidth, frameHeight)
  }

  /** The corner `newPosition` picks is nearest to where the overlay was
      released, measured against the centres of a `width` by `width` square
      docked in each corner, and equal distances go to trailing and top. */
  lemma NewPositionIsNearest(current: PipPosition, sz: Size, frameWidth: real, frameHeight: real, translation: Size, q: PipPosition)
    ensures var loc := Translate(Location(current, sz, frameWidth, frameHeight), translation);
            var h := sz.width / 2.0;
            var p := NewPosition(current, sz, frameWidth, frameHeight, translation);
            var dp := SqDist(loc, DockedCentre(p, h, h, frameWidth, frameHeight));
            var dq := SqDist(loc, DockedCentre(q, h, h, frameWidth, frameHeight));
            && dp <= dq
            && (dp == dq && AlignmentOf(q).horizontal == Trailing ==> AlignmentOf(p).horizontal == Trailing)
            && (dp == dq && AlignmentOf(q).vertical == Top ==> AlignmentOf(p).vertical == Top)
            && AlignmentOf(p).horizontal == HorizontalChoice(loc.x, h, frameWidth)
            && AlignmentOf(p).vertical == VerticalChoice(loc.y, h, frameHeight)
  {
    var loc := Translate(Location(current, sz, frameWidth, frameHeight), translation);
    var h := sz.width / 2.0;
    NearestCornerIsNearest(loc, h, h, frameWidth, frameHeight, q);
  }

  /** A 150 by 100 overlay at the top-leading corner of a 300 by 200
      container, dragged by (205, -30) so that its centre moves from (75, 50)
      to (280, 20), goes top-trailing; dragged by (150, 100) it goes
      bottom-trailing. */
  lemma NewPositionExamples()
    ensures NewPosition(TopLeading, DefaultBaseSize, 300.0, 200.0, Size(205.0, -30.0)) == TopTrailing
    ensures NewPosition(TopLeading, DefaultBaseSize, 300.0, 200.0, Size(150.0, 100.0)) == BottomTrailing
  {
  }

  /** As written, an upward drag from a top corner can move the overlay to
      the bottom: a 150 by 100 overlay in a 300 by 140 container, dragged up
      by 40 from the top-leading corner, lands bottom-leading. */
  lemma UpwardDragFlipsToBottomAsWritten()
    ensures NewPosition(TopLeading, Size(150.0, 100.0), 300.0, 140.0, Size(0.0, -40.0)) == BottomLeading
  {
  }

  /** `newPosition(with:and:)` with the vertical half extent taken from the
      overlay's height, as `location(for:in:)` does. */
  function NewPositionHeightBased(current: PipPosition, sz: Size, frameWidth: real, frameHeight: real, translation: Size): (p: PipPosition)
    ensures var loc := Translate(Location(current, sz, frameWidth, frameHeight), translation);
            && AlignmentOf(p).horizontal == HorizontalChoice(loc.x, sz.width / 2.0, frameWidth)
            && AlignmentOf(p).vertical == VerticalChoice(loc.y, sz.height / 2.0, frameHeight)
  {
    var originalLocation := Location(current, sz, frameWidth, frameHeight);
    var newLocation := Translate(originalLocation, translation);
    NearestCorner(newLocation, sz.width / 2.0, sz.height / 2.0, frameWidth, frameHeight)
  }

  /** With the height-based half extent, a drag that does not move down
      keeps an overlay that fits the container on the top edge, and a drag
      that does not move up keeps it on the bottom edge. */
  lemma VerticalDragKeepsEdgeHeightBased(current: PipPosition, sz: Size, frameWidth: real, frameHeight: real, translation: Size)
    requires sz.height <= frameHeight
    ensures AlignmentOf(current).vertical == Top && translation.height <= 0.0
            ==> AlignmentOf(NewPositionHeightBased(current, sz, frameWidth, frameHeight, translation)).vertical == Top
    ensures AlignmentOf(current).vertical == Bottom && translation.height >= 0.0 && sz.height < frameHeight
            ==> AlignmentOf(NewPositionHeightBased(current, sz, frameWidth, frameHeight, translation)).vertical == Bottom
  {
  }

  /** With the height-based half extent, releasing the overlay where it
      started keeps its corner, unless it fills a whole dimension. */
  lemma ZeroDragKeepsCornerHeightBased(current: PipPosition, sz: Size, frameWidth: real, frameHeight: real)
    requires sz.width != frameWidth && sz.height != frameHeight
    ensures NewPositionHeightBased(current, sz, frameWidth, frameHeight, Zero) == current
  {
  }

  /** The corner a drag ends at: the translation decides, unless it leads
      back to the current corner, in which case the release velocity is
      taken as the displacement instead. */
  function DragTarget(current: PipPosition, sz: Size, frameWidth: real, frameHeight: real, translation: Size, velocity: Size): (p: PipPosition)
    ensures NewPosition(current, sz, frameWidth, frameHeight, translation) != current
            ==> p == NewPosition(current, sz, frameWidth, frameHeight, translation)
    ensures NewPosition(current, sz, frameWidth, frameHeight, translation) == current
            ==> p == NewPosition(current, sz, frameWidth, frameHeight, velocity)
  {
    var byTranslation := NewPosition(current, sz, frameWidth, frameHeight, translation);
    if byTranslation == current then NewPosition(current, sz, frameWidth, frameHeight, velocity) else byTranslation
  }

  /** `newSize()`: the size `closestTo` assigns to the current multiplier
      times the pinch scale. `closestTo` stands for `PipSize.closest(to:)`.
      An unchanged scale asks for the current size's own multiplier;
      from the small size it asks for the scale itself. */
  function NewSize(current: PipSize, scale: real, closestTo: real -> PipSize): (r: PipSize)
    ensures scale == 1.0 ==> r == closestTo(RawValue(current))
    ensures current == Small ==> r == closestTo(scale)
  {
    closestTo(RawValue(current) * scale)
  }

  /** The state of one attached overlay. */
  class PipState {
    /** Rotation in degrees shown while a rotation is in progress. */
    var rotation: real
    /** Scale shown while a pinch is in progress. */
    var scale: real
    /** Displacement shown while a drag is in progress. */
    var offset: Size
    /** The corner the overlay rests at. */
    var position: PipPosition
    /** The size the overlay rests at. */
    var currentSize: PipSize

    const baseSize: Size
    const enabledPosition: set<PipPosition>
    const enabledSizes: set<PipSize>

    /** Rotation and scale stay within their gesture limits; the corner is
        the initial one or an enabled one. */
    ghost predicate Valid()
      reads this
    {
      && RotationLimits.lowerBound <= rotation <= RotationLimits.upperBound
      && scale <= MaxMagnification
      && (position == TopLeading || position in enabledPosition)
    }

    /** `init(baseSize:enabledPosition:enabledSizes:contentView:)`: the
        overlay starts small, at the top-leading corner, at rest (even when
        that corner is not enabled). */
    constructor (baseSize: Size := DefaultBaseSize, enabledPosition: seq<PipPosition>, enabledSizes: seq<PipSize>)
      ensures Valid()
      ensures rotation == 0.0 && scale == 1.0 && offset == Zero
      ensures position == TopLeading && currentSize == Small
      ensures this.baseSize == baseSize
      ensures this.enabledPosition == set p | p in enabledPosition
      ensures this.enabledSizes == set s | s in enabledSizes
    {
      rotation := 0.0;
      scale := 1.0;
      offset := Zero;
      position := TopLeading;
      currentSize := Small;
      this.baseSize := baseSize;
      this.enabledPosition := set p | p in enabledPosition;
      this.enabledSizes := set s | s in enabledSizes;
    }

    /** `size`: the extent of the overlay at its resting size. */
    function DisplaySize(): Size
      reads this
    {
      ScaledSize(baseSize, currentSize)
    }

    /** `scaleAnchor`. */
    function ScaleAnchor(): UnitPoint
      reads this
    {
      Anchor(position)
    }

    /** Pinch in progress: the scale follows the magnification, capped at
        3 but not bounded below. */
    method MagnifyChanged(magnification: real)
      requires Valid()
      modifies this`scale
      ensures Valid()
      ensures scale == Max(magnification, MaxMagnification)
      ensures scale <= MaxMagnification
      ensures magnification <= MaxMagnification ==> scale == magnification
    {
      scale := Max(magnification, MaxMagnification);
    }

    /** Pinch ended: the resting size becomes the one `closestTo` gives for
        the shown scale, whether or not that size is enabled, and the scale
        springs back to 1. */
    method MagnifyEnded(closestTo: real -> PipSize)
      requires Valid()
      modifies this`currentSize, this`scale
      ensures Valid()
      ensures currentSize == closestTo(RawValue(old(currentSize)) * old(scale))
      ensures scale == 1.0
    {
      currentSize := NewSize(currentSize, scale, closestTo);
      scale := 1.0;
    }

    /** Rotation in progress: half the gesture's angle, clamped to
        [-10, 10] degrees. */
    method RotateChanged(degrees: real)
      requires Valid()
      modifies this`rotation
      ensures Valid()
      ensures rotation == Between(degrees / 2.0, RotationLimits)
      ensures -10.0 <= rotation <= 10.0
      ensures -10.0 <= degrees / 2.0 <= 10.0 ==> rotation == degrees / 2.0
    {
      rotation := Between(degrees / 2.0, RotationLimits);
    }

    /** Rotation ended: the rotation springs back to 0. */
    method RotateEnded()
      requires Valid()
      modifies this`rotation
      ensures Valid()
      ensures rotation == 0.0
    {
      rotation := 0.0;
    }

    /** Drag in progress: the offset follows the translation unclamped. */
    method DragChanged(translation: Size)
      requires Valid()
      modifies this`offset
      ensures Valid()
      ensures offset == translation
    {
      offset := translation;
    }

    /** Drag ended in a `frameWidth` by `frameHeight` container: the overlay
        moves to the corner of `DragTarget` when that corner is enabled and
        stays put otherwise; the offset springs back to zero either way. */
    method DragEnded(translation: Size, velocity: Size, frameWidth: real, frameHeight: real)
      requires Valid()
      modifies this`position, this`offset
      ensures Valid()
      ensures var target := DragTarget(old(position), old(DisplaySize()), frameWidth, frameHeight, translation, velocity);
              position == if target in enabledPosition then target else old(position)
      ensures position == old(position) || position in enabledPosition
      ensures offset == Zero
    {
      var finalPosition := NewPosition(position, DisplaySize(), frameWidth, frameHeight, translation);
      if finalPosition == position {
        finalPosition := NewPosition(position, DisplaySize(), frameWidth, frameHeight, velocity);
      }
      if finalPosition in enabledPosition {
        position := finalPosition;
      }
      offset := Zero;
    }
  }

  /** A fresh overlay in a 300 by 200 container, dragged by (150, 100),
      docks bottom-trailing when every corner is enabled. */
  method DragToBottomTrailingScenario() returns (docked: PipPosition, offset: Size)
    ensures docked == BottomTrailing
    ensures offset == Zero
  {
    ScaledSizeGrows(DefaultBaseSize);
    NewPositionExamples();
    var pip := new PipState(enabledPosition := AllPositions(), enabledSizes := AllSizes());
    assert pip.DisplaySize() == DefaultBaseSize && BottomTrailing in pip.enabledPosition;
    pip.DragChanged(Size(150.0, 100.0));
    pip.DragEnded(Size(150.0, 100.0), Zero, 300.0, 200.0);
    docked, offset := pip.position, pip.offset;
  }

  /** The same drag leaves the overlay top-leading when bottom-trailing is
      not an enabled corner. */
  method DragToDisabledCornerScenario() returns (docked: PipPosition, offset: Size)
    ensures docked == TopLeading
    ensures offset == Zero
  {
    ScaledSizeGrows(DefaultBaseSize);
    NewPositionExamples();
    var pip := new PipState(enabledPosition := [TopLeading, TopTrailing, BottomLeading], enabledSizes := AllSizes());
    assert pip.DisplaySize() == DefaultBaseSize && BottomTrailing !in pip.enabledPosition;
    pip.DragChanged(Size(150.0, 100.0));
    pip.DragEnded(Size(150.0, 100.0), Zero, 300.0, 200.0);
    docked, offset := pip.position, pip.offset;
  }

  /** With the code as written, a fresh overlay in a 300 by 140 container
      dragged up by 40 from the top-leading corner docks bottom-leading. */
  method UpwardDragScenarioAsWritten() returns (docked: PipPosition)
    ensures docked == BottomLeading
  {
    ScaledSizeGrows(DefaultBaseSize);
    UpwardDragFlipsToBottomAsWritten();
    var pip := new PipState(enabledPosition := AllPositions(), enabledSizes := AllSizes());
    assert pip.DisplaySize() == DefaultBaseSize && BottomLeading in pip.enabledPosition;
    pip.DragEnded(Size(0.0, -40.0), Zero, 300.0, 140.0);
    docked := pip.position;
  }

  /** A pinch commits the size `closestTo` picks even when only the small
      size is enabled; a full gesture leaves the transient values at rest. */
  method PinchIgnoresEnabledSizesScenario(closestTo: real -> PipSize) returns (committed: PipSize, enabled: set<PipSize>, scale: real)
    ensures committed == closestTo(2.0)
    ensures enabled == {Small}
    ensures scale == 1.0
  {
    var pip := new PipState(enabledPosition := AllPositions(), enabledSizes := [Small]);
    pip.MagnifyChanged(2.0);
    pip.MagnifyEnded(closestTo);
    committed, enabled, scale := pip.currentSize, pip.enabledSizes, pip.scale;
  }
}
