# SwiftUIPiP gesture and snapping model

This project models the core of SwiftUIPiP, a SwiftUI view modifier that
floats a picture-in-picture overlay over a host view. The user can pinch the
overlay to resize it, rotate it (it springs back), and drag it. On release
the drag rule picks one of all four corners, and the overlay snaps there
only if that corner is enabled; otherwise it stays where it was. The model covers:

- `Operators`: the point and size operators (`Operators.swift`).
- `NumericLimits`: the scalar helpers `max(_:)`, `min(_:)`, `between(_:)`
  and `closest(of:)`, which appear in both `Numeric+Extension.swift` and
  `Numeric+Limits.swift`. They are modelled once and cited from both files.
- `Positions`: the four corners, their alignments and `allPositions`.
- `Sizes`: the three sizes, their raw multipliers and `allSizes`.
- `Modifier`: the modifier itself.
  - Its pure helpers: `size`, `scaleAnchor`, `location(for:in:)` and
    `newPosition(with:and:)`.
  - The class `PipState`. It holds the five `@State` fields and has one
    method per gesture callback.

`CGFloat` becomes `real`, and all arithmetic is exact. A Swift closed range
`a...b` is the subset type `ClosedRange`, because forming a range with
`a > b` traps in Swift. SwiftUI's `Alignment` is a pair of a horizontal and
a vertical guide. `UnitPoint` is a pair of fractions.

Values that come from outside the modifier are method parameters:

- the container frame, which the source reads from a `GeometryProxy`;
- the gesture values: magnification, rotation in degrees, translation and
  velocity;
- `PipSize.closest(to:)`, passed as a function `closestTo`, because its body
  is not part of this model.

The callbacks inside `withAnimation` become plain field assignments.

Each operation has a partner in the model:

- `Location` ends flush against the container edges of its alignment.
- `NewPosition` picks the corner whose reference centre is nearest, with ties
  going to trailing and top. As written, it builds those centres with half
  the overlay's width on both axes (see Findings). `PipState.DragEnded`
  commits that corner only if it is enabled; otherwise the overlay stays put.
- `AlignmentOf` and `FromRawValue` have inverses.
- `Translate` round-trips with `Scale(s, -1)`.
- The class keeps an invariant `Valid()`:
  - the rotation stays in [-10, 10];
  - the scale stays at or below 3;
  - the corner is the initial top-leading one or an enabled one.

## Model

| member | source | states |
|---|---|---|
| Operators.Translate | Sources/SwiftUIPiP/Extensions/Operators.swift:11-13 | `point + size` leaves the point in place exactly when the size is zero; its other properties are stated by TranslateIsComponentwise, TranslateByZero and TranslateRoundTrip |
| Operators.Scale | Sources/SwiftUIPiP/Extensions/Operators.swift:16-18 | `size * multiplier` keeps the aspect ratio (new width × old height = new height × old width); ScaleIsComponentwise, ScaleByOne and ScaleCompose state the rest |
| Operators.ScaleInt | Sources/SwiftUIPiP/Extensions/Operators.swift:20-22 | `size * Int` keeps the aspect ratio and gives the zero size for 0; ScaleIntAgrees states it equals scaling by the integer as a real |
| Operators.TranslateIsComponentwise | Sources/SwiftUIPiP/Extensions/Operators.swift:11-13 | `point + size` moves x by the width and y by the height |
| Operators.ScaleIsComponentwise | Sources/SwiftUIPiP/Extensions/Operators.swift:16-18 | `size * m` multiplies the width and the height by m |
| Operators.ScaleIntAgrees | Sources/SwiftUIPiP/Extensions/Operators.swift:20-22 | `size * n` for an integer equals `size * CGFloat(n)` |
| Operators.TranslateByZero | Sources/SwiftUIPiP/Extensions/Operators.swift:11-13 | moving by the zero size leaves a point unchanged |
| Operators.ScaleByOne | Sources/SwiftUIPiP/Extensions/Operators.swift:16-22 | scaling by 1 (real or integer) leaves a size unchanged |
| Operators.TranslateRoundTrip | Sources/SwiftUIPiP/Extensions/Operators.swift:11-18 | moving by a size and then by that size times -1 returns to the start |
| Operators.ScaleCompose | Sources/SwiftUIPiP/Extensions/Operators.swift:16-18 | scaling by a and then by b equals scaling by a*b |
| NumericLimits.SwiftMin | Sources/SwiftUIPiP/Modifiers/PipModifier.swift:148-149 | `Swift.min` gives one of its arguments, and it is no larger than either |
| NumericLimits.SwiftMax | Sources/SwiftUIPiP/Extensions/Numeric+Limits.swift:21 | `Swift.max` gives one of its arguments, and it is no smaller than either |
| NumericLimits.Abs | Sources/SwiftUIPiP/Modifiers/PipModifier.swift:142-145 | `abs` is non-negative and equals x or -x |
| NumericLimits.Max | Sources/SwiftUIPiP/Extensions/Numeric+Limits.swift:14-16 | `v.max(limit)` is at most both `limit` and `v`, and equals one of them (an upper clamp); the same code is at Numeric+Extension.swift:26-28 |
| NumericLimits.Min | Sources/SwiftUIPiP/Extensions/Numeric+Limits.swift:20-22 | `v.min(limit)` is at least both `limit` and `v`, and equals one of them (a lower clamp); the same code is at Numeric+Extension.swift:32-34 |
| NumericLimits.ClampsAreSwapped | Sources/SwiftUIPiP/Extensions/Numeric+Extension.swift:26-34 | the names are inverted: `max` takes the smaller value and `min` the larger |
| NumericLimits.Between | Sources/SwiftUIPiP/Extensions/Numeric+Limits.swift:27-29 | the result lies in the range; a value below the range gives the lower bound, a value above gives the upper bound, and any other value is returned unchanged; the same code is at Numeric+Extension.swift:39-41 |
| NumericLimits.BetweenIdempotent | Sources/SwiftUIPiP/Extensions/Numeric+Extension.swift:39-41 | clamping a value that is already clamped changes nothing |
| NumericLimits.Closest | Sources/SwiftUIPiP/Extensions/Numeric+Extension.swift:13-22 | returns one of the two bounds, no farther from v than the other bound; when the two distances are equal it returns the lower bound |
| NumericLimits.ClosestOutside | Sources/SwiftUIPiP/Extensions/Numeric+Extension.swift:14-21 | v <= lo gives lo; v >= hi gives hi when v is above the midpoint |
| NumericLimits.ClosestTieIsLower | Sources/SwiftUIPiP/Extensions/Numeric+Extension.swift:17-21 | the exact midpoint gives the lower bound |
| NumericLimits.NumericLimitsExamples | Tests/SwiftUIPiPTests/SwiftUIPiPTests.swift:5-17 | the assertions of the unit test hold: `3.min(4)==4`, `3.max(2)==2`, `3.between(4...6)==4`, and the rest |
| NumericLimits.ClosestExamples | Tests/SwiftUIPiPTests/SwiftUIPiPTests.swift:19-22 | `3.closest(of: 2...10)==2` and `9.closest(of: 2...10)==10` |
| Positions.AlignmentOf | Sources/SwiftUIPiP/Models/PipPosition.swift:17-24 | `alignemnt` gives a leading guide exactly for the two leading corners, and a top guide exactly for the two top corners |
| Positions.PositionOf | Sources/SwiftUIPiP/Models/PipPosition.swift:11-24 | every alignment belongs to some corner (the mapping is onto) |
| Positions.AlignmentRoundTrip | Sources/SwiftUIPiP/Models/PipPosition.swift:17-24 | the corner can be recovered from its alignment |
| Positions.AlignmentInjective | Sources/SwiftUIPiP/Models/PipPosition.swift:17-24 | distinct corners have distinct alignments |
| Positions.AllPositions | Sources/SwiftUIPiP/Models/PipPosition.swift:27-31 | `allPositions` has length 4, holds every corner and has no duplicates |
| Sizes.RawValue | Sources/SwiftUIPiP/Models/PipSize.swift:11-15 | every raw value lies in [1, 2] and is 1 exactly for small; RawValuesIncreasing and RawValueInjective give the order and distinctness |
| Sizes.FromRawValue | Sources/SwiftUIPiP/Models/PipSize.swift:11-15 | `PipSize(rawValue:)` succeeds exactly on 1, 1.5 and 2, and then gives the size with that raw value |
| Sizes.RawValueRoundTrip | Sources/SwiftUIPiP/Models/PipSize.swift:11-15 | building a size from its raw value gives the same size back |
| Sizes.RawValuesIncreasing | Sources/SwiftUIPiP/Models/PipSize.swift:12-14 | the raw values are positive, small is 1, and they strictly increase from small to medium to large |
| Sizes.RawValueInjective | Sources/SwiftUIPiP/Models/PipSize.swift:11-15 | distinct sizes have distinct raw values |
| Sizes.AllSizes | Sources/SwiftUIPiP/Models/PipSize.swift:17-21 | `allSizes` has length 3 and holds every size; its raw values strictly decrease, so no size repeats |
| Modifier.ScaledSize | Sources/SwiftUIPiP/Modifiers/PipModifier.swift:24-26 | `size` keeps the base aspect ratio, and for a non-negative base each dimension lies between 1 and 2 times the base |
| Modifier.ScaledSizeGrows | Sources/SwiftUIPiP/Modifiers/PipModifier.swift:24-26 | `size` is the base size at small, and it grows strictly in both dimensions from small to medium to large |
| Modifier.Anchor | Sources/SwiftUIPiP/Modifiers/PipModifier.swift:28-35 | `scaleAnchor` has x = 0 for leading corners and 1 for trailing ones, and y = 0 for top corners and 1 for bottom ones |
| Modifier.DockedCentre | Sources/SwiftUIPiP/Modifiers/PipModifier.swift:174-179 | the docked centre is inset by the half extent from the container edges of the corner's alignment |
| Modifier.Location | Sources/SwiftUIPiP/Modifiers/PipModifier.swift:169-180 | an overlay centred at `location(for:in:)` lies flush with the container edges its alignment names; the result does not depend on the drag offset |
| Modifier.LocationFollowsAnchor | Sources/SwiftUIPiP/Modifiers/PipModifier.swift:28-35 | the location is w/2 + anchor.x*(W - w) across and h/2 + anchor.y*(H - h) down, so it agrees with `scaleAnchor` |
| Modifier.HorizontalChoice | Sources/SwiftUIPiP/Modifiers/PipModifier.swift:142-152 | the result is trailing exactly when the trailing distance is at most the leading distance |
| Modifier.VerticalChoice | Sources/SwiftUIPiP/Modifiers/PipModifier.swift:144-153 | the result is top exactly when the top distance is at most the bottom distance |
| Modifier.VerticalChoiceByMidline | Sources/SwiftUIPiP/Modifiers/PipModifier.swift:144-153 | the top/bottom decision splits at y = H/2; it is inverted once the half extent is more than half the container height |
| Modifier.NearestCorner | Sources/SwiftUIPiP/Modifiers/PipModifier.swift:142-164 | leading/trailing depends only on x, midX and the frame width; top/bottom depends only on y, midY and the frame height; equal distances go to trailing and to top |
| Modifier.SquareMonotone | Sources/SwiftUIPiP/Modifiers/PipModifier.swift:142-149 | comparing absolute distances is the same as comparing squared distances |
| Modifier.SqDistMonotone | Sources/SwiftUIPiP/Modifiers/PipModifier.swift:142-149 | a point that is no farther along each axis is no farther in Euclidean distance |
| Modifier.HorizontalChoiceIsNearest | Sources/SwiftUIPiP/Modifiers/PipModifier.swift:142-152 | the chosen side's docked centre is no farther along x than the other side's, and strictly nearer when the choice is leading |
| Modifier.VerticalChoiceIsNearest | Sources/SwiftUIPiP/Modifiers/PipModifier.swift:144-153 | the chosen side's docked centre is no farther along y than the other side's, and strictly nearer when the choice is bottom |
| Modifier.NearestCornerIsNearest | Sources/SwiftUIPiP/Modifiers/PipModifier.swift:129-164 | the chosen corner's docked centre is no farther (Euclidean) than any other corner's; among equally near corners the choice is trailing and top |
| Modifier.NewPosition | Sources/SwiftUIPiP/Modifiers/PipModifier.swift:128-165 | leading/trailing is decided at the released centre with half extent width/2, and top/bottom there with the width's half as well (line 138); NewPositionIsNearest states which corner that is |
| Modifier.NewPositionIsNearest | Sources/SwiftUIPiP/Modifiers/PipModifier.swift:128-165 | `newPosition` picks the corner nearest the released centre, measured by the reference centres it builds with half extent width/2 on both axes; ties go to trailing and top |
| Modifier.NewPositionExamples | Sources/SwiftUIPiP/Modifiers/PipModifier.swift:128-165 | in a 300×200 container, a small overlay at top-leading dragged by (205, -30), so that its centre moves to (280, 20), gets top-trailing; dragged by (150, 100) it gets bottom-trailing |
| Modifier.UpwardDragFlipsToBottomAsWritten | Sources/SwiftUIPiP/Modifiers/PipModifier.swift:138 | as written, a 150×100 overlay in a 300×140 container dragged up by 40 from top-leading gets bottom-leading |
| Modifier.NewPositionHeightBased | Sources/SwiftUIPiP/Modifiers/PipModifier.swift:128-172 | the corrected `newPosition`: the same decision, with the vertical half extent taken from the height as `location` does at line 172 |
| Modifier.VerticalDragKeepsEdgeHeightBased | Sources/SwiftUIPiP/Modifiers/PipModifier.swift:137-138 | with midY taken from the height, a drag that does not go down keeps a fitting overlay on the top edge, and one that does not go up keeps it on the bottom edge |
| Modifier.ZeroDragKeepsCornerHeightBased | Sources/SwiftUIPiP/Modifiers/PipModifier.swift:137-138 | with midY taken from the height, a zero translation keeps the current corner unless the overlay fills a whole dimension |
| Modifier.DragTarget | Sources/SwiftUIPiP/Modifiers/PipModifier.swift:106-111 | the velocity is used only when the translation leads back to the current corner; otherwise the translation's result is used |
| Modifier.NewSize | Sources/SwiftUIPiP/Modifiers/PipModifier.swift:122-125 | `newSize()` passes the current raw value times the scale to `closest(to:)`, a parameter here: an unchanged scale asks for the current raw value, and from small it asks for the scale; PipState.MagnifyEnded states the result |
| Modifier.PipState.Valid | Sources/SwiftUIPiP/Modifiers/PipModifier.swift:11-16 | the invariant every gesture method preserves: rotation in [-10, 10], scale at most 3, and the corner either top-leading (the initial one) or enabled |
| Modifier.PipState.constructor | Sources/SwiftUIPiP/Modifiers/PipModifier.swift:11-46 | the overlay starts at rotation 0, scale 1, zero offset, top-leading and small; the enabled sets are the sets of the given lists; base size defaults to 150×100 |
| Modifier.PipState.MagnifyChanged | Sources/SwiftUIPiP/Modifiers/PipModifier.swift:71-75 | scale becomes `magnification.max(3)`: at most 3, equal to the magnification when that is at most 3, with no lower clamp; nothing else changes |
| Modifier.PipState.MagnifyEnded | Sources/SwiftUIPiP/Modifiers/PipModifier.swift:76-81 | the current size becomes `closest(to: rawValue * scale)`, computed from the size and scale before the call, without consulting `enabledSizes`; scale becomes 1; changes only those two fields |
| Modifier.PipState.RotateChanged | Sources/SwiftUIPiP/Modifiers/PipModifier.swift:86-90 | rotation becomes `(degrees/2).between(-10...10)`: within [-10, 10], and equal to degrees/2 when that is in range; nothing else changes |
| Modifier.PipState.RotateEnded | Sources/SwiftUIPiP/Modifiers/PipModifier.swift:91-95 | rotation becomes 0; nothing else changes |
| Modifier.PipState.DragChanged | Sources/SwiftUIPiP/Modifiers/PipModifier.swift:100-104 | offset becomes the translation, unclamped; nothing else changes |
| Modifier.PipState.DragEnded | Sources/SwiftUIPiP/Modifiers/PipModifier.swift:105-118 | position becomes the drag target if that corner is enabled and is left unchanged otherwise, so it is either old or enabled; offset becomes zero in both cases; rotation, scale and size are untouched |
| Modifier.DragToBottomTrailingScenario | Sources/SwiftUIPiP/Modifiers/PipModifier.swift:98-119 | a fresh overlay in a 300×200 container dragged by (150, 100) docks bottom-trailing, and its offset is reset |
| Modifier.DragToDisabledCornerScenario | Sources/SwiftUIPiP/Modifiers/PipModifier.swift:113-116 | the same drag with bottom-trailing not enabled leaves the overlay at top-leading, and the offset is still reset |
| Modifier.UpwardDragScenarioAsWritten | Sources/SwiftUIPiP/Modifiers/PipModifier.swift:105-118 | through the state machine, the upward drag of the finding docks the overlay bottom-leading |
| Modifier.PinchIgnoresEnabledSizesScenario | Sources/SwiftUIPiP/Modifiers/PipModifier.swift:76-81 | with only the small size enabled, a pinch to 2 commits whatever `closest(to: 2)` returns, and the scale ends at 1 |

## Left out

- View composition is left out because it is rendering: `body`,
  `GeometryReader`, `overlay`, `frame`, `padding`, `contentShape`,
  `scaleEffect`, `rotationEffect`, the `View.pip` extension and the preview.
- Animations (`withAnimation`, springs) only change timing, so their
  assignments are modelled as plain updates.
- The gesture recognisers and `.simultaneously` are framework plumbing. Each
  callback is a sequential method call with the gesture's values as
  arguments.
- `GeometryProxy` is replaced by explicit frame width and height parameters.
- Modifier.PipState.MagnifyEnded: `PipSize.closest(to:)` is not part of this
  model. The method takes it as the function `closestTo`, so the contract
  does not say which size a given scale gives.
- IEEE-754 rounding, NaN and infinity are out. All arithmetic is exact over
  the reals.
- `ScaleAnchor` and `DisplaySize` in the class are plain accessors. Their
  properties are stated on `Anchor` and `ScaledSize`.

`location(for:in:)` takes `midY` from the height (PipModifier.swift:172),
while `newPosition` takes it from the width (line 138). The model follows
the code: `NewPosition`, which `PipState.DragEnded` uses, takes the
width, and `NewPositionHeightBased` is the corrected definition.

## Findings

The state machine keeps the code's behaviour, because `PipState` models
the modifier as it ships. The corrected definition and its property stand
beside it.

| source | as written | input that shows it | evidently intended | confidence | as-written member | corrected member |
|---|---|---|---|---|---|---|
| Sources/SwiftUIPiP/Modifiers/PipModifier.swift:138 | `midY = size.width / 2`. When the overlay's width exceeds the container's height, the top and bottom reference points cross, and the vertical decision flips. | A 150×100 overlay at top-leading in a 300×140 container, dragged by (0, -40), lands at bottom-leading. | `midY = size.height / 2`, as `location(for:in:)` uses. A drag that does not go down keeps a fitting overlay on the top edge. | medium, not executed | Modifier.UpwardDragFlipsToBottomAsWritten | Modifier.VerticalDragKeepsEdgeHeightBased |
