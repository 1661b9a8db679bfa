# Bubble map filter screen — a Dafny model

The filter screen shows its filters as bubbles on a map wider than the
screen. The user pans the map sideways, and a scroll indicator at the
bottom of the screen follows the pan. This project models the logic
behind that screen and proves properties of it:

- **Layout projector.** A fixed table of 20 authored spots (fractions of a
  1338 × 932 design canvas) and a table of 29 decorative spots are
  projected onto a screen of width `screenWidth` and height `screenHeight`.
  - The authored span of 1278 units (x = 30 … 1308 on the canvas) is
    stretched to 2.5 screen widths.
  - A 30 px padding is added on each side.
  - A y fraction is spread over a vertical band that is the full screen
    height at the centre of the map and half of it at either edge (the
    "bowtie").
  - Sizes scale by `screenWidth / 430`.
  - y is clamped so that the circle's edge (centre ± size/2) stays 50 px
    inside the top edge, and inside the bottom edge when the screen is tall
    enough for both.
  - Filter bubbles are coloured from a ten-colour palette by their index.
    The `color` field of a filter option is not used by the map.
- **Map width and pan offset.**
  - The map is `max(screenWidth, ceil(targetMapWidth))` wide.
  - After each layout pass the pan offset is set so that the middle of the
    map sits at the middle of the screen.
  - When a drag ends, the offset is clamped to `[-(mapWidth - screenWidth), 0]`.
  - The scroll indicator maps the offset to a progress value and a thumb
    position.
  - Dragging the thumb maps a pixel delta back to an offset.
- **Inertial bubbles.** Each filter bubble and each decorative bubble
  derives an inertial factor and spring parameters (stiffness, damping,
  mass) from its size. Whenever the shared pan offset changes, the bubble
  sets its spring's target to `offset × factor`. It is drawn in a square
  centred on its placement.
- **Selection.**
  - Tapping a bubble toggles its id in the list of selected ids.
  - Clear All empties the list.
  - Apply and Clear All are enabled only while the list is not empty.

Modules (one per file):

| file | module | form |
|---|---|---|
| `numeric.dfy` | `Numeric` | `Math.abs`, `Math.min`, `Math.max` and `Math.ceil` over reals, plus small arithmetic lemmas |
| `layout.dfy` | `BubbleLayout` | the projector as pure functions and lemmas |
| `pan.dfy` | `PanOffset` | clamp, centring, scroll indicator and thumb drag, as pure functions and lemmas |
| `bubble_map.dfy` | `BubbleMap` | the two position-building loops as methods; the component state as the class `BubbleMapView`, whose methods write the pan offset and the bubble lists; the hand-off to filter bubbles |
| `spring.dfy` | `Spring` | spring parameters, the centred box, the scaled spring target |
| `filter_bubble.dfy` | `InertialBubbleFilter` | factor and spring parameters of a filter bubble; the class `FilterBubble` holding its spring target |
| `decorative_bubble.dfy` | `InertialDecorativeBubble` | the same for a decorative bubble (`DecorativeBubble`) |
| `filter_screen.dfy` | `FilterScreen` | toggle, clear and the button rules, as pure functions and lemmas |

Numbers are Dafny `real`s, so the model computes exactly where the source
uses floating point. Screen width is taken to be non-negative. The screen
height, the window width and every pan offset written by the drag library
are parameters.

## Model

| member | source | states |
|---|---|---|
| `Numeric.Ceil` | src/components/BubbleMap.tsx:206 | `Math.ceil`: the least integer not below x |
| `BubbleLayout.DesignTableSpan` | src/components/BubbleMap.tsx:46-76 | there are 20 authored spots, all within canvas x 30…1308, y in [0, 1] and size > 0; the spot at index 19 is at the left edge (30) and the spot at index 17 is at the right edge (1308) |
| `BubbleLayout.DecorativeTableInUnitSquare` | src/components/BubbleMap.tsx:139-174 | there are 29 decorative spots, all with x and y in [0, 1] and size > 0 |
| `BubbleLayout.TargetMapWidth` | src/components/BubbleMap.tsx:80-88 | the target map width (content plus padding) is at least 60 and exceeds the screen width |
| `BubbleLayout.InteractiveX` | src/components/BubbleMap.tsx:114-116 | every authored x (canvas 30…1308) lands in the content strip [30, 30 + 2.5·screenWidth]; the left edge lands exactly on the 30 px padding and the right edge on the end of the strip |
| `BubbleLayout.InteractiveXMonotone` | src/components/BubbleMap.tsx:114-116 | the x mapping keeps the left-to-right order of design x, strictly on a screen of positive width |
| `BubbleLayout.DecorativeX` | src/components/BubbleMap.tsx:180 | every decorative x fraction in [0, 1] lands in the content strip; fractions 0 and 1 land on its two ends |
| `BubbleLayout.NormalizedDistance` | src/components/BubbleMap.tsx:97-101 | the capped distance from the map centre equals min(2·abs(x − ½), 1) whatever the map width, and lies in [0, 1] |
| `BubbleLayout.CentreDistanceRatio` | src/components/BubbleMap.tsx:98-100 | on a map of width m, the distance of x·m from the centre, measured in half-widths, is 2·abs(x − ½) |
| `BubbleLayout.VerticalRange` | src/components/BubbleMap.tsx:97-104 | the vertical range lies in [0.5·H, H] for H ≥ 0; it is H at the map centre and 0.5·H at or beyond either edge |
| `BubbleLayout.NormalizedDistanceMonotone` | src/components/BubbleMap.tsx:97-101 | a position farther from the centre has no smaller normalized distance |
| `BubbleLayout.Bowtie` | src/components/BubbleMap.tsx:93-103 | the bowtie profile: for an edgeness in [0, 1] the range lies in [0.5·H, H]; the full height H at edgeness 0 and half of it at edgeness 1 |
| `BubbleLayout.BowtieNarrows` | src/components/BubbleMap.tsx:103 | a larger edgeness never gives a wider range |
| `BubbleLayout.VerticalRangeNarrowsOutward` | src/components/BubbleMap.tsx:97-104 | the vertical range never widens as the distance from the centre grows |
| `BubbleLayout.SpreadY` | src/components/BubbleMap.tsx:119-124 | before clamping, design y 0 lands on the top of the band of height `VerticalRange` at its own x (over the target map width), design y 1 on its bottom and ½ on the screen's middle; a design y in [0, 1] stays within half that range of the middle, so markers near either end of the map are squeezed into the middle half of the screen, and on screen |
| `BubbleLayout.BandPosition` | src/components/BubbleMap.tsx:122-124 | the y at a fraction of a band of height r centred on the screen's middle: fraction 0 is the band's top (h/2 − r/2), 1 its bottom (h/2 + r/2), ½ the middle; a fraction in [0, 1] stays within r/2 of the middle, and on screen when the band is no taller than the screen |
| `BubbleLayout.BandOrder` | src/components/BubbleMap.tsx:124 | a larger fraction never lands higher: the spread keeps the design y order within a band |
| `BubbleLayout.ResponsiveSize` | src/components/BubbleMap.tsx:127 | on the 430 px reference screen a bubble keeps its design size; on any wider-than-zero screen a positive design size stays positive |
| `BubbleLayout.ResponsiveSizeMonotone` | src/components/BubbleMap.tsx:127 | on a screen of positive width a bigger design size gives a strictly bigger circle |
| `BubbleLayout.ResponsiveSizeDoubles` | src/components/BubbleMap.tsx:127 | a 132-unit bubble is 264 px on an 860 px screen |
| `BubbleLayout.ClampY` | src/components/BubbleMap.tsx:128 | the clamped y is at least size/2 + 50; it is at most H − size/2 − 50 whenever H ≥ size + 100; a y already inside those bounds is kept |
| `BubbleLayout.PlacedCount` | src/components/BubbleMap.tsx:109 | the number of placed filter bubbles is min(20, number of filters) |
| `BubbleLayout.PlaceInteractive` | src/components/BubbleMap.tsx:110-134 | one filter bubble from an authored spot is placed in the content strip, at the responsive size, with its circle (centre ± size/2) kept 50 px inside the top edge, and inside the bottom edge whenever the screen is tall enough |
| `BubbleLayout.PlaceDecorative` | src/components/BubbleMap.tsx:177-202 | one decoration from a spot in the unit square is placed in the content strip, at the responsive size, with its circle kept inside the inset, and coloured `palette[i % 10]` |
| `BubbleLayout.InteractiveLayout` | src/components/BubbleMap.tsx:107-135 | the layout has exactly min(20, filters) positions, position i in the content strip, sized from authored spot i and kept inside the inset |
| `BubbleLayout.InteractiveLayoutKeepsOrder` | src/components/BubbleMap.tsx:109-116 | placed filter bubbles keep the authored left-to-right order |
| `BubbleLayout.DecorativeLayout` | src/components/BubbleMap.tsx:176-203 | exactly 29 decorations, decoration i coloured `palette[i % 10]`, in the content strip, sized from spot i and kept inside the inset |
| `BubbleLayout.MapWidth` | src/components/BubbleMap.tsx:206 | the map width is at least the screen width and at least the target map width |
| `BubbleLayout.MapWidthIsRoundedTarget` | src/components/BubbleMap.tsx:206 | the map width is the target rounded up, within one pixel of it, and strictly wider than the screen |
| `BubbleLayout.MapWidthAtReference` | src/components/BubbleMap.tsx:80-88 | on the 430 px screen the map is 1135 px wide |
| `PanOffset.ClampOffset` | src/components/BubbleMap.tsx:337-342 | the drag-end clamp always lands in [−(mapWidth − screenWidth), 0] when the map is at least as wide as the screen; it keeps an in-bounds offset; past either end it gives the nearest bound |
| `PanOffset.ClampOffsetIdempotent` | src/components/BubbleMap.tsx:337-342 | clamping twice is clamping once |
| `PanOffset.CenteringOffset` | src/components/BubbleMap.tsx:223-229 | the centring offset is in bounds, and the clamp never bites: map midpoint plus offset equals screen midpoint |
| `PanOffset.ScrollProgress` | src/components/BubbleMap.tsx:257-259 | progress is 0 when the map fits the screen |
| `PanOffset.ScrollThumbLeft` | src/components/BubbleMap.tsx:260-262 | the thumb's left edge is 0 when the map fits the screen |
| `PanOffset.ScrollProgressInUnit` | src/components/BubbleMap.tsx:257-259 | for an in-bounds offset, progress is in [0, 1]: 0 at the left end of the map, 1 at the right end |
| `PanOffset.ThumbWidthPercent` | src/components/BubbleMap.tsx:398 | the thumb width is in [0, 100] % of the track whenever the map is at least as wide as the screen, and exactly 100 % when the two are equal |
| `PanOffset.ScrollThumbOnTrack` | src/components/BubbleMap.tsx:257-262 | for an in-bounds offset the thumb's left edge is in [0, 100 − thumb width] %, so the whole thumb stays on the track |
| `PanOffset.ThumbWidth` | src/components/BubbleMap.tsx:267 | the handler's thumb width in pixels is the indicator's width percentage of the 256 px track, and at most the whole track when the map is at least as wide as the screen |
| `PanOffset.MaxThumbLeft` | src/components/BubbleMap.tsx:266-268 | the free track is positive when the map is wider than the screen, negative when it is narrower, and at most 256 px |
| `PanOffset.CurrentThumbLeft` | src/components/BubbleMap.tsx:271-272 | for an in-bounds offset the thumb's pixel position lies on the free track: 0 at the left end of the map, the whole free track at its right end |
| `PanOffset.ProgressOnTrack` | src/components/BubbleMap.tsx:272 | a progress in [0, 1] carried onto a non-negative track stays on it: 0 at progress 0, the whole track at progress 1 |
| `PanOffset.OffsetForRatio` | src/components/BubbleMap.tsx:276-277 | a scroll ratio in [0, 1] maps back to an in-bounds offset when the map is wider than the screen: ratio 0 is the left end, ratio 1 the right end |
| `PanOffset.ScrollDragOffset` | src/components/BubbleMap.tsx:265-279 | when the map is wider than the screen, a thumb drag writes an in-bounds offset for any offset and any delta; when the map is narrower, it writes 0 |
| `PanOffset.ScrollDragMovesThumbByDelta` | src/components/BubbleMap.tsx:270-277 | round trip: the thumb position read back from the written offset is the old thumb position plus delta, clamped to the free track |
| `PanOffset.ScrollDragZeroDelta` | src/components/BubbleMap.tsx:265-279 | a zero delta gives back the current in-bounds offset |
| `PanOffset.ThumbPixelsMatchIndicator` | src/components/BubbleMap.tsx:260-272 | the drag handler's thumb position in pixels is the indicator's percentage of the 256 px track |
| `BubbleMap.PlaceSpots` | src/components/BubbleMap.tsx:109-135 | the loop pushes, in order, one placement for each of the first `count` spots, each the placement of its own spot |
| `BubbleMap.BuildInteractive` | src/components/BubbleMap.tsx:107-135 | the filter loop over the authored spots yields exactly `InteractiveLayout`: min(20, filters) positions, each in the content strip, responsively sized and inside the inset |
| `BubbleMap.DecorateSpots` | src/components/BubbleMap.tsx:176-203 | the loop pushes, in order, one decoration per spot, the i-th coloured from the palette at i mod 10 |
| `BubbleMap.BuildDecorative` | src/components/BubbleMap.tsx:176-203 | the decoration loop over the 29 authored spots yields exactly `DecorativeLayout`: 29 decorations with palette colours, in the content strip and inside the inset |
| `BubbleMap.BubbleMapView.constructor` | src/components/BubbleMap.tsx:21-27 | initial state: offset 0, map width 0, screen width 430, no bubbles |
| `BubbleMap.BubbleMapView.Resize` | src/components/BubbleMap.tsx:33-35 | a resize records the new screen width and changes nothing else |
| `BubbleMap.BubbleMapView.Relayout` | src/components/BubbleMap.tsx:205-241 | the layout pass stores both layouts and the map width, and sets the centring offset, which leaves the map settled (offset in bounds, map at least as wide as the screen) with its midpoint on the screen midpoint |
| `BubbleMap.BubbleMapView.Drag` | src/components/BubbleMap.tsx:330-336 | a library drag writes the offset and nothing else |
| `BubbleMap.BubbleMapView.DragEnd` | src/components/BubbleMap.tsx:337-342 | the drag end stores the clamped offset, which settles the map, and leaves an already settled offset alone |
| `BubbleMap.BubbleMapView.ScrollDrag` | src/components/BubbleMap.tsx:265-279 | a thumb drag stores the mapped offset, which settles the map when it is wider than the screen; otherwise the offset is 0 |
| `BubbleMap.BubbleMapView.Progress` | src/components/BubbleMap.tsx:257-259 | while the map is settled and wider than the screen, the indicator's progress is in [0, 1]; it is 0 when the map fits |
| `BubbleMap.BubbleMapView.ThumbLeft` | src/components/BubbleMap.tsx:260-262 | while the map is settled and wider than the screen, the whole thumb stays on the track; the thumb sits at 0 when the map fits |
| `BubbleMap.RenderFilters` | src/components/BubbleMap.tsx:366-386 | one entry per filter; filter i is rendered exactly when it has a position, with that position, colour `palette[i % 10]`, and marked selected exactly when its id is in the selection |
| `BubbleMap.RenderedAfterLayout` | src/components/BubbleMap.tsx:366-368 | after a layout pass, exactly min(20, filters) filter bubbles are rendered |
| `BubbleMap.ReferenceScreenCentring` | src/components/BubbleMap.tsx:223-229 | on the 430 px screen, the 1135 px map starts panned to −352.5 px |
| `Spring.CenteredBox` | src/components/InertialBubbleFilter.tsx:94-98 | the bubble's box has side `size` and is centred on (x, y) |
| `Spring.ScaledTarget` | src/components/InertialBubbleFilter.tsx:50-52 | the spring target is 0 exactly when the offset or the factor is; it has the offset's sign for a positive factor and the opposite sign for a negative one |
| `Spring.ScreenShift` | src/components/BubbleMap.tsx:344 | the bubble is drawn inside the container shifted by the offset, so once its spring comes to rest it sits on screen at offset + target: shifted with the offset's sign while the factor is above −1, against it once the factor is below −1, not at all at −1 |
| `InertialBubbleFilter.InertialFactor` | src/components/InertialBubbleFilter.tsx:39 | the factor is in (0, 1] for 0 ≤ size < 500, and negative above 500 |
| `InertialBubbleFilter.InertialFactorDecreasing` | src/components/InertialBubbleFilter.tsx:39 | the factor strictly decreases with size |
| `InertialBubbleFilter.InertialFactorNegativeOnWideScreen` | src/components/InertialBubbleFilter.tsx:39 | on a 1920 px screen the 132-unit bubble's factor, as written, is negative |
| `InertialBubbleFilter.WrittenTargetAgainstPan` | src/components/InertialBubbleFilter.tsx:39-52 | above size 500 the target as written has the opposite sign to a non-zero offset |
| `InertialBubbleFilter.WrittenScreenShift` | src/components/InertialBubbleFilter.tsx:39-52 | on screen the bubble as written follows the pan below size 1000 and moves against it above size 1000 |
| `InertialBubbleFilter.TargetFactor` | src/components/InertialBubbleFilter.tsx:39 | the corrected factor lies in [0, 1]; it equals the written factor up to size 500 and is 0 beyond |
| `InertialBubbleFilter.TargetFactorNonIncreasing` | src/components/InertialBubbleFilter.tsx:39 | the corrected factor never increases with size, and strictly decreases below size 500 |
| `InertialBubbleFilter.CorrectedTargetFollowsPan` | src/components/InertialBubbleFilter.tsx:39-52 | with the corrected factor the target never has the opposite sign to the offset, and it is 0 from size 500 |
| `InertialBubbleFilter.ConfigFor` | src/components/InertialBubbleFilter.tsx:40-44 | stiffness is never below 20 and, for size ≥ 0, never above 120; it is exactly 20 from size 200; mass is positive for size ≥ 0 |
| `InertialBubbleFilter.ConfigMonotone` | src/components/InertialBubbleFilter.tsx:40-44 | stiffness does not increase with size, while damping and mass strictly increase |
| `InertialBubbleFilter.FilterBubble.constructor` | src/components/InertialBubbleFilter.tsx:38-46 | the spring starts at target 0 with the parameters for the size |
| `InertialBubbleFilter.FilterBubble.OnMapChange` | src/components/InertialBubbleFilter.tsx:49-54 | on every offset change the target becomes offset × corrected factor: offset × inertialFactor below size 500, 0 from size 500 |
| `InertialBubbleFilter.FilterBubble.Bounds` | src/components/InertialBubbleFilter.tsx:94-98 | the bubble's box has side `size` and is centred on its placement |
| `InertialDecorativeBubble.InertialFactor` | src/components/InertialDecorativeBubble.tsx:29 | the factor is positive exactly when size < 140, and at most 0.7 for size ≥ 0 |
| `InertialDecorativeBubble.InertialFactorDecreasing` | src/components/InertialDecorativeBubble.tsx:29 | the factor strictly decreases with size |
| `InertialDecorativeBubble.InertialFactorNegativeOnLaptopScreen` | src/components/InertialDecorativeBubble.tsx:29 | on a 1280 px screen the 55-unit decoration's factor, as written, is negative |
| `InertialDecorativeBubble.WrittenTargetAgainstPan` | src/components/InertialDecorativeBubble.tsx:29-42 | above size 140 the target as written has the opposite sign to a non-zero offset |
| `InertialDecorativeBubble.WrittenScreenShift` | src/components/InertialDecorativeBubble.tsx:29-42 | on screen the decoration as written follows the pan below size 340 and moves against it above size 340 |
| `InertialDecorativeBubble.TargetFactor` | src/components/InertialDecorativeBubble.tsx:29 | the corrected factor lies in [0, 0.7]; it equals the written factor up to size 140 and is 0 beyond |
| `InertialDecorativeBubble.TargetFactorNonIncreasing` | src/components/InertialDecorativeBubble.tsx:29 | the corrected factor never increases with size, and strictly decreases below size 140 |
| `InertialDecorativeBubble.CorrectedTargetFollowsPan` | src/components/InertialDecorativeBubble.tsx:29-42 | with the corrected factor the target never has the opposite sign to the offset, and it is 0 from size 140 |
| `InertialDecorativeBubble.ConfigFor` | src/components/InertialDecorativeBubble.tsx:30-34 | stiffness is never below 15 and, for size ≥ 0, never above 100; it is exactly 15 from size 102; mass is positive for size ≥ 0 |
| `InertialDecorativeBubble.ConfigMonotone` | src/components/InertialDecorativeBubble.tsx:30-34 | stiffness does not increase with size, while damping and mass strictly increase |
| `InertialDecorativeBubble.DecorativeBubble.constructor` | src/components/InertialDecorativeBubble.tsx:28-36 | the spring starts at target 0 with the parameters for the size |
| `InertialDecorativeBubble.DecorativeBubble.OnMapChange` | src/components/InertialDecorativeBubble.tsx:39-44 | on every offset change the target becomes offset × corrected factor: offset × inertialFactor below size 140, 0 from size 140 |
| `InertialDecorativeBubble.DecorativeBubble.Bounds` | src/components/InertialDecorativeBubble.tsx:84-88 | the decoration's box has side `size` and is centred on its placement |
| `FilterScreen.RemoveId` | src/components/FilterScreen.tsx:54 | the filtered list holds exactly the ids other than the removed one, and is no longer than the original |
| `FilterScreen.Toggle` | src/components/FilterScreen.tsx:51-57 | after a toggle, the id is in the list exactly when it was not before; every other id keeps its membership |
| `FilterScreen.ToggleKeepsOthers` | src/components/FilterScreen.tsx:52-56 | with the toggled id taken out, the lists before and after are equal, so the other ids keep their relative order |
| `FilterScreen.ToggleAbsentAppends` | src/components/FilterScreen.tsx:55 | an absent id is appended at the end and the list grows by one |
| `FilterScreen.ToggleTwiceRestores` | src/components/FilterScreen.tsx:52-56 | toggling an absent id twice gives back the original list |
| `FilterScreen.RemovePresentShrinksByOne` | src/components/FilterScreen.tsx:54 | in a list without duplicates, removing a present id shortens the list by exactly one |
| `FilterScreen.ToggleKeepsNoDuplicates` | src/components/FilterScreen.tsx:52-56 | a list without duplicates stays without duplicates; toggling a present id shortens it by one |
| `FilterScreen.InitialScreen` | src/components/FilterScreen.tsx:48-49 | the screen starts with nothing selected and no results page |
| `FilterScreen.TapBubble` | src/components/FilterScreen.tsx:51-57 | a bubble tap toggles the id and leaves the page as it is |
| `FilterScreen.ClearAll` | src/components/FilterScreen.tsx:65-67 | Clear All empties the selection, which disables both buttons |
| `FilterScreen.PressClearAll` | src/components/FilterScreen.tsx:106-114 | a press on Clear All, enabled or not, leaves the selection empty and the page as it is |
| `FilterScreen.PressApply` | src/components/FilterScreen.tsx:133-137 | Apply shows the results page exactly when something is selected (or the page already shows); the selection is kept |
| `FilterScreen.BackToFilters` | src/components/FilterScreen.tsx:81-86 | leaving the results page keeps the selection |
| `FilterScreen.SelectingEnablesButtons` | src/components/FilterScreen.tsx:111 | selecting an unselected filter enables Apply and Clear All |
| `FilterScreen.StepsKeepNoDuplicates` | src/components/FilterScreen.tsx:48-67 | each tap or button press keeps the selection free of duplicates |
| `FilterScreen.RunKeepsNoDuplicates` | src/components/FilterScreen.tsx:48-67 | any sequence of taps and button presses keeps a duplicate-free selection free of duplicates |
| `FilterScreen.ReachableHasNoDuplicates` | src/components/FilterScreen.tsx:48-67 | every screen reached from the initial one by taps and button presses has no duplicate ids |

## Left out

- The spring integrator (`useSpring`), drag momentum and decay belong to the animation library, whose code is not part of this model. The model covers the spring parameters and the spring target only.
- BubbleMap.BubbleMapView.Drag: writes whatever offset the library produces. The model does not say the library keeps the offset inside `dragConstraints` mid-drag; only `DragEnd` is shown to restore the bounds.
- BubbleMap.BubbleMapView.Relayout: centres the map at once. The source does this in a 50 ms `setTimeout`, and the timer is not modelled.
- BubbleMap.BubbleMapView.Resize: records the new width only. In the component, the layout effect then re-runs because it depends on the width; a caller of the model calls `Relayout` after `Resize`.
- The resize listener, the fallback height of 932 when there is no window, and the subscription that copies `x` into `staticMapX` (lines 245-250) are left out. The screen height is a parameter, and the pan offset field stands for both motion values.
- The transforms `bubbleInertiaX` and `decorativeBubbleInertiaX` (lines 253-254) are left out because nothing uses them.
- The background gradient interpolation, the floating particles, `Math.random` floating and entrance animations, border-radius morphing, shimmer, entrance delays, the `isVisible` timer, `console.log` and the "N× map" label rounding are presentational and left out.
- The thumb element's own drag constraints (lines 402-405) are enforced by the library on the thumb's drawn position. Only the offset that `handleScrollDrag` writes is modelled.
- BubbleMap.BubbleMapView.ScrollDrag: requires `0 < mapWidth != screenWidth`. For other widths the source divides by zero: when the widths are equal, or the map width is 0 and so is the screen width or the offset, it writes NaN; when the map width is 0, the screen width positive and the offset not 0, the free track is −Infinity and it writes −0. `real` has no NaN and no signed zero. The layout pass always yields a map wider than a non-negative screen, so this does not arise after a layout pass.
- PanOffset.ScrollDragOffset: requires `0 < mapWidth != screenWidth`, for the same two divisions.
- IEEE floating point (rounding, −0, NaN) is not modelled; every computation is exact over `real`.
- InertialBubbleFilter.FilterBubble.OnMapChange: uses the corrected factor (see Findings). From size 500 up the source sets offset × a negative factor, a target against the pan; the model sets 0 there. So above size 500 the model drops the source's ordering "bigger bubbles lag more": every such bubble moves rigidly with the map. `InertialBubbleFilter.WrittenTargetAgainstPan` and `InertialBubbleFilter.WrittenScreenShift` state what the source does there.
- InertialDecorativeBubble.DecorativeBubble.OnMapChange: uses the corrected factor (see Findings). From size 140 up the source sets offset × a negative factor, a target against the pan; the model sets 0 there, dropping the size ordering above 140. `InertialDecorativeBubble.WrittenTargetAgainstPan` and `InertialDecorativeBubble.WrittenScreenShift` state what the source does there.
- The offset is clamped only where the code clamps it: at drag end (src/components/BubbleMap.tsx:337-342), when centring after a layout pass (lines 228-229) and, through the thumb's free track, in the thumb drag (lines 265-279). While a drag runs, the bounds come from the library's `dragConstraints` with `dragElastic={0}` (lines 331-335), which is library code (see `Drag` above). There is no guard on the screen size before a layout pass.
- `src/components/BubbleFilter.tsx`, `src/components/DecorativeBubble.tsx` and `src/imports/BubbleMapReference.tsx` are rendering only and are not part of this model.

## Findings

| source | as written | input that shows it | evidently intended | confidence | as-written member | corrected member |
|---|---|---|---|---|---|---|
| src/components/InertialBubbleFilter.tsx:39 | `inertialFactor = 1 - (size / 200) * 0.4`, applied to the responsive size, goes negative for size > 500 | a 132-unit bubble on a 1920 px screen is 589.4 px, giving a factor of −0.18 (every screen wider than 1628.8 px) | a factor that stays in [0, 1], as for the design sizes (up to 132) the constants were tuned for, so that the spring target never points against the pan. The correction caps the factor at 0: the target keeps the offset's sign, but every bubble from size 500 up gets target 0 and the size ordering is lost there. On screen, drawn inside the container shifted by the offset (BubbleMap.tsx:344), the bubble as written still comes to rest on the pan's side, at (1 + factor) times the offset, up to size 1000, and on the opposite side beyond | low, not executed | `InertialBubbleFilter.InertialFactorNegativeOnWideScreen`, `InertialBubbleFilter.WrittenTargetAgainstPan` | `InertialBubbleFilter.TargetFactor`, `InertialBubbleFilter.CorrectedTargetFollowsPan` |
| src/components/InertialDecorativeBubble.tsx:29 | `inertialFactor = 0.7 - (size / 100) * 0.5`, applied to the responsive size, goes negative for size > 140 | the 55-unit decoration on a 1280 px screen is 163.7 px, giving a factor of −0.12 (every screen wider than 1094.5 px) | a factor that stays in [0, 0.7], as for the design sizes (up to 55) the constants were tuned for, so that the spring target never points against the pan. The correction caps the factor at 0: the target keeps the offset's sign, but every decoration from size 140 up gets target 0 and the size ordering is lost there. On screen the decoration as written still comes to rest on the pan's side, at (1 + factor) times the offset, up to size 340, and on the opposite side beyond | low, not executed | `InertialDecorativeBubble.InertialFactorNegativeOnLaptopScreen`, `InertialDecorativeBubble.WrittenTargetAgainstPan` | `InertialDecorativeBubble.TargetFactor`, `InertialDecorativeBubble.CorrectedTargetFollowsPan` |
