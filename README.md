# OPX landing page: tokenomics chart and auto-hiding header

A model of the only computation on the OPX token landing page
(`src/App.jsx`):

- **Allocation dataset** (`allocation.dfy`, module `Allocation`): the
  eight constant `{label, value, color}` entries of the tokenomics chart
  and their total, the left fold `reduce((sum, item) => sum + item.value, 0)`.
- **Wedge geometry** (`geometry.dfy`, module `Geometry`): the outline that
  `arcPath` draws for one slice and its large-arc flag rule.
  `polarToCartesian` is kept symbolic. A point `OnCircle(cx, cy, r, angle)`
  stands for the coordinates the trigonometry would produce.
- **Slice partition** (`slices.dfy`, module `Slices`): the single forward
  pass of `TokenomicsChart` that gives every item a start and an end angle
  from a running `angle`. It is a method with a loop, proved against the
  prefix-sum definition `StartAngle`. The lemmas beside it prove:
  - the slices are contiguous, start at 0 and end exactly at 360;
  - they are ordered and bounded when the weights are non-negative;
  - a slice takes the large arc exactly when its item holds more than half
    the weight;
  - each slice pops out along its own bisector.
  Angles are exact `real` numbers rather than floating point.
- **Chart widget** (`chart.dfy`, module `Chart`): what the chart draws for
  a given `active` index, as a ChartView value holding the wedges, the
  selected item and the legend rows. The class `TokenomicsChart` holds the
  `active` state. It starts at 0, and every hover or click on a wedge or a
  legend row sets it to that row's index.
- **Header auto-hide** (`header.dfy`, module `Header`): the scroll effect of
  `App`. The class `HeaderScroll` has the `hidden`, `lastY` and `ticking`
  state. The scroll-event handler requests at most one frame at a time.
  The frame handler decides visibility by the 140 / +12 / −8 rule.

Two facts about the code that the model makes explicit:
- The chart prints each item's raw `value` with a `%` (src/App.jsx:69, 80,
  95). `DisplayedValueIsShare` proves this equals `value / total * 100` for
  the page's dataset, whose weights total 100.
- The code never clamps `active`. Its handlers exist only for rendered
  rows, so every index they set is below the dataset length. The class
  invariant of `TokenomicsChart` keeps it in range.

## Model

| member | source | states |
|---|---|---|
| Allocation.TotalOfPrefixStep | src/App.jsx:28 | the fold adds each item's weight to the total of the items before it |
| Allocation.TotalOfPrefixBounds | src/App.jsx:28 | with non-negative weights, every prefix total lies between 0 and the full total, and a longer prefix never totals less |
| Allocation.TokenomicsTotalIsHundred | src/App.jsx:3-12 | the weights of the page's dataset total exactly 100 |
| Allocation.DisplayedValueIsShare | src/App.jsx:69-80 | the raw value the centre label and focus panel print as a percentage equals value / total * 100 for every item of the page's dataset |
| Geometry.LargeArcFlag | src/App.jsx:22 | the flag is 0 or 1, and it is 0 exactly when endAngle − startAngle ≤ 180 |
| Geometry.HalfCircleTakesSmallArc | src/App.jsx:22 | a span of exactly 180 degrees takes flag 0, so the 50/50 tie is decided |
| Geometry.FullCircleTakesLargeArc | src/App.jsx:22 | a 0–360 span (a single-item dataset) takes flag 1 |
| Geometry.EmptyWedgeTakesSmallArc | src/App.jsx:22 | a zero-width wedge takes flag 0 and is well defined |
| Geometry.ArcPathIsWedge | src/App.jsx:19-24 | the path moves to the rim at the end angle, arcs with radius r and sweep 0 to the rim at the start angle, draws a line to the centre and closes; it uses the large arc exactly when the span exceeds 180 |
| Slices.StartAngleStep | src/App.jsx:32-34 | advancing the running angle by value / total * 360 gives the prefix-sum angle of the next item |
| Slices.ComputeSlices | src/App.jsx:28-42 | the empty dataset gives no slices; a non-empty dataset with a zero total gives ZeroTotal, and only then; otherwise there is one slice per item in order, with label, value and colour copied, start = prefix total / total * 360, span = value / total * 360 and the pop-out vector at the middle angle; the slices are contiguous and the last one ends at 360 |
| Slices.PartitionIsContiguous | src/App.jsx:30-34 | any such partition starts at 0, each start equals the previous end, and the last end is exactly 360 |
| Slices.PartitionIsOrdered | src/App.jsx:33 | with non-negative weights and a positive total, 0 ≤ start ≤ end ≤ 360 for every slice, and start angles never decrease |
| Slices.LargeArcIffMoreThanHalf | src/App.jsx:22 | a slice's wedge takes the large arc exactly when 2 · value > total |
| Slices.OffsetPointsAlongSlice | src/App.jsx:35-39 | the pop-out vector has length 8 and points at an angle between the slice's start and end |
| Slices.TokenomicsSlicesTakeSmallArcs | src/App.jsx:4-11 | every slice of the page's dataset takes the small arc |
| Chart.RenderHighlightsActive | src/App.jsx:49-97 | there is one wedge per slice, drawn over its angles in its colour; only the active wedge has radius 106, opacity 0.95 and the pop-out shift, and the others have 100, 0.75 and no shift; there is one legend row per item, and only the active row is marked; the centre and focus panel show the active item |
| Chart.ExactlyOneHighlighted | src/App.jsx:52-85 | exactly one wedge is enlarged and exactly one legend row is marked active |
| Chart.TokenomicsChart.constructor | src/App.jsx:27 | the chart starts with item 0 active, which is in range |
| Chart.TokenomicsChart.Dispatch | src/App.jsx:55-56 | hover and click on a wedge or a legend row (lines 90-91) all set active to that index, whichever gesture and target; active stays in range |
| Chart.WedgesMeet | src/App.jsx:19-24 | each drawn wedge's arc ends on the rim at its slice's start angle, which is the angle where the previous wedge's outline starts; the first arc ends at 0 and the last outline starts at 360; so the wedge outlines meet at the slice angles and leave no angular gap (the active wedge's larger radius and pop-out shift are not covered) |
| Chart.TwoSliceScenario | src/App.jsx:29-41 | the 25/75 dataset totals 100 and its slices span [0, 90] and [90, 360]; index 0 shows 25 and "A"; selecting index 1 shows 75 and "B" and enlarges the second wedge |
| Header.NextHiddenCases | src/App.jsx:112-116 | current > 140 with delta > 12 hides; otherwise delta < −8 or current < 140 shows; any other frame keeps the old value |
| Header.NextHiddenChangesOnlyOnPurpose | src/App.jsx:112-116 | shown becomes hidden only on a downward move of more than 12 ending past 140; hidden becomes shown only on an upward move of more than 8 or below 140 |
| Header.AtThresholdKeepsState | src/App.jsx:112-116 | a frame at exactly 140 never hides the header, so unless it is an upward move of more than 8 it keeps the state |
| Header.HeaderScroll.constructor | src/App.jsx:104-108 | the header starts shown, lastY is the offset at mount, and no frame is pending |
| Header.HeaderScroll.OnScrollEvent | src/App.jsx:120-125 | a frame is requested exactly when none is pending; afterwards exactly one is pending and the visibility and lastY are unchanged |
| Header.HeaderScroll.OnFrame | src/App.jsx:109-119 | hidden becomes NextHidden(old hidden, old lastY, currentY), lastY becomes currentY, ticking is cleared, and the pending frame is consumed |

## Left out

- `polarToCartesian` and the pop-out `dx`/`dy` (src/App.jsx:14-17, 36-39) use floating-point cosine and sine. Points stay symbolic (`Geometry.Point.OnCircle`), so properties of coordinates are not modelled, for example that angle 0 lies straight above the centre.
- The text formatting of the SVG path string (src/App.jsx:23) is not modelled. `ArcPath` yields the list of path commands instead.
- The `scale(1.06)` transform, `transformOrigin`, CSS transitions, class names, React keys and the rest of the markup (src/App.jsx:58-67, 130-533) are not modelled. They are rendering detail or static content.
- The `useMemo` cache of the slices (src/App.jsx:29, 42) is not modelled. It is a framework optimisation; `ComputeSlices` simply recomputes.
- `window.scrollY`, `requestAnimationFrame`, and adding and removing the scroll listener (src/App.jsx:107, 110, 122, 126-127) are browser I/O. The offset is a parameter of `OnFrame`. The browser's frame queue is the ghost counter `pendingFrames`, and `OnFrame` runs only when a frame is pending.
- Header.HeaderScroll.OnFrame: scroll offsets are modelled as integers. The browser may report fractional offsets. The comparisons are the same for those, but they are not covered.
- React's asynchronous state updates (`setActive`, `setHidden`) are not modelled. Each handler's effect is applied at once.
- Slices.ComputeSlices: for a non-empty dataset whose weights total zero, JavaScript would produce NaN or infinite angles, for example `5 / 0 * 360` for weights 5 and −5. The model returns `ZeroTotal` in that case instead of such angles. The empty dataset yields no slices, as `[].map` does; the chart itself then fails at `tokenomicsData[active].value` (src/App.jsx:69), which the model does not reach because it fixes the page's eight-item dataset.
- Chart.TokenomicsChart.Dispatch: event indices are required to be rendered positions, meaning below the dataset length. The source creates handlers only for those, and it never clamps.
- Floating-point rounding of the angles is not modelled. Angles are exact reals. For that reason the last end is exactly 360 rather than within a tolerance.
