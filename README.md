# ScrollableCanvas: wheel, scrollbar-drag and scrollbar-geometry logic of the paint editor

This project models the `ScrollableCanvas` container of the paint editor in
Dafny. The container sits between the browser and paper.js's view, whose
matrix holds a translation `(tx, ty)` in screen pixels and a uniform zoom.
It does three things:

- **Wheel gestures** (`WheelGesture`, and `Canvas.ScrollableCanvas.HandleWheel`).
  Wheel deltas are normalised to pixels; line-mode deltas are multiplied by 15.
  The event then becomes exactly one of three things:
  - with meta or ctrl held, a zoom by `-deltaY / 1000` about the project point under the pointer;
  - with shift held and no raw horizontal delta, a horizontal pan by `deltaY / zoom`;
  - otherwise, a two-axis pan by `(deltaX / zoom, deltaY / zoom)`.
  Every branch publishes the new matrix, only the zoom asks for the selection
  box to be redrawn, and the event's default is always prevented.
- **Scrollbar drags** (`ScrollbarDrag`, and the six drag handlers of
  `Canvas.ScrollableCanvas`). One state machine per axis. A press records the
  pointer coordinate and the current translation on that axis. A move sets the
  translation absolutely to `recorded + (pressedAt - pointer) * zoom * 2`,
  leaves the other axis alone, clamps, and publishes. A release forgets the
  recorded values.
- **Scrollbar geometry** (`ScrollbarGeometry`). This is the arithmetic at the
  top of `render`. It turns the view bounds into thumb lengths and starts, as
  percentages of the tracks. All four values are 0 while no project is loaded.

`PaperView` holds the shared view as a class (`View`) with the three numbers
the handlers touch. It also holds the helpers imported from `src/helper/view`
(`clampViewBounds`, `pan`, `zoomOnFixedPoint`) and paper's `viewToProject`.
Their code is not part of this model, so they are fields of a `Paper` value
and may be any total functions. Every contract about the canvas holds whatever
those helpers do. The zoom is a positive real by type (`PaperView.Scale`),
because the handlers divide by it and multiply by it without a guard (lines 53,
74, 107 and 111-112). The pure functions that take a bare zoom require it to be
positive.

The art board's size (`ART_BOARD_WIDTH`, `ART_BOARD_HEIGHT`) is defined in
`src/helper/view`, which is not part of this model. The geometry therefore
takes any positive board size. The 480 by 360 stage is proved as an instance.

What the handlers do to the outside world is recorded, in order, in the
canvas's `effects` sequence. Those effects are store dispatches
(`updateViewBounds`, `redrawSelectionBox`) and `preventDefault` calls.

## Model

| member | source | states |
|---|---|---|
| `WheelGesture.PixelDeltas` | src/containers/scrollable-canvas.jsx:89-91 | deltaMode 1 (lines) multiplies both deltas by 15, every other mode by 1; a delta is zero after normalising exactly when it was zero before |
| `WheelGesture.Interpret` | src/containers/scrollable-canvas.jsx:92-115 | exactly one of three actions: zoom iff meta or ctrl; horizontal scroll iff neither, shift, and raw deltaX is 0; two-axis pan otherwise. The zoom amount times 1000 is minus the pixel deltaY, about the pointer's offset from the canvas corner. Pan amounts times the zoom are the pixel deltas (deltaY moves horizontally in the shift case) |
| `WheelGesture.LineModeIsFifteenPixels` | src/containers/scrollable-canvas.jsx:89-91 | a line-mode event acts exactly like a pixel-mode event with fifteen times its deltas |
| `WheelGesture.OtherModesArePixels` | src/containers/scrollable-canvas.jsx:89 | any deltaMode other than 1 acts like pixel mode |
| `WheelGesture.TwoLinesAreThirtyPixels` | src/containers/scrollable-canvas.jsx:89-91 | deltaMode 1 with deltaY 2 acts like deltaMode 0 with deltaY 30 |
| `WheelGesture.ZoomIgnoresShift` | src/containers/scrollable-canvas.jsx:92-103 | with meta or ctrl held the event zooms, with or without shift, by the same amount |
| `WheelGesture.WheelDownZoomsOut` | src/containers/scrollable-canvas.jsx:100 | with the zoom modifier, positive deltaY zooms out, negative zooms in, zero leaves the zoom amount 0 |
| `WheelGesture.ShiftSwapsAxes` | src/containers/scrollable-canvas.jsx:103-114 | with no raw deltaX, shift turns the vertical pan the event would make without shift into a horizontal pan of the same amount |
| `WheelGesture.ShiftWithHorizontalDeltaPansBoth` | src/containers/scrollable-canvas.jsx:103-113 | shift with a non-zero deltaX is the ordinary two-axis pan, the same as without shift |
| `WheelGesture.PanScalesInverselyWithZoom` | src/containers/scrollable-canvas.jsx:107-112 | at twice the zoom the same event pans half as far in art-board units, so panning speed is constant on screen |
| `Canvas.WheelEffects` | src/containers/scrollable-canvas.jsx:101-116 | a handled wheel event emits three effects after a zoom and two otherwise: it first publishes the new matrix, asks for a selection-box redraw iff it zoomed, and last prevents the default |
| `Canvas.RedrawOnlyOnZoom` | src/containers/scrollable-canvas.jsx:92-116 | a wheel event asks for the redraw iff meta or ctrl is held |
| `Canvas.ScrollableCanvas.HandleWheel` | src/containers/scrollable-canvas.jsx:86-117 | the view's new matrix is the result of the one helper call `Interpret` chooses, on the old matrix; the effects appended are `WheelEffects` of that matrix |
| `ScrollbarDrag.DraggedTranslation` | src/containers/scrollable-canvas.jsx:52-53 | a move back to the press point gives the recorded translation; moving past the press point along the axis lowers it, moving before it raises it |
| `ScrollbarDrag.DragIsStrictlyDecreasing` | src/containers/scrollable-canvas.jsx:52-53 | with a positive zoom, moving the pointer further along the axis always lowers the translation |
| `ScrollbarDrag.DragIsLinear` | src/containers/scrollable-canvas.jsx:52-53 | between two moves of a drag the translation changes by the pointer displacement times zoom times 2, reversed |
| `ScrollbarDrag.DragIsInjective` | src/containers/scrollable-canvas.jsx:52-53 | two pointer positions of one drag that give the same translation are equal |
| `Canvas.DragHorizontally` | src/containers/scrollable-canvas.jsx:52-53 | the pre-clamp matrix of a horizontal move keeps ty and zoom; its tx is the recorded tx at the press point and falls as the pointer moves right |
| `Canvas.DragVertically` | src/containers/scrollable-canvas.jsx:73-74 | the pre-clamp matrix of a vertical move keeps tx and zoom; its ty is the recorded ty at the press point and falls as the pointer moves down |
| `Canvas.DragForgetsEarlierMoves` | src/containers/scrollable-canvas.jsx:52-53 | a horizontal move's pre-clamp matrix does not depend on the tx earlier moves left behind |
| `Canvas.DragVerticallyForgetsEarlierMoves` | src/containers/scrollable-canvas.jsx:73-74 | a vertical move's pre-clamp matrix does not depend on the ty earlier moves left behind |
| `Canvas.ScrollableCanvas.constructor` | src/containers/scrollable-canvas.jsx:19-30 | a new canvas has no drag session on either axis and has emitted nothing |
| `Canvas.ScrollableCanvas.HorizontalScrollbarMouseDown` | src/containers/scrollable-canvas.jsx:44-50 | records the pointer x and the view's current tx; the vertical session and the view are untouched; prevents the default |
| `Canvas.ScrollableCanvas.HorizontalScrollbarMouseMove` | src/containers/scrollable-canvas.jsx:51-57 | the view becomes clampViewBounds of `DragHorizontally` of the old matrix and the recorded press; publishes that matrix, then prevents the default; the sessions are untouched |
| `Canvas.ScrollableCanvas.HorizontalScrollbarMouseUp` | src/containers/scrollable-canvas.jsx:58-64 | both recorded horizontal values become null; the view and the vertical session are untouched |
| `Canvas.ScrollableCanvas.VerticalScrollbarMouseDown` | src/containers/scrollable-canvas.jsx:65-71 | records the pointer y and the view's current ty; the horizontal session and the view are untouched; prevents the default |
| `Canvas.ScrollableCanvas.VerticalScrollbarMouseMove` | src/containers/scrollable-canvas.jsx:72-78 | the view becomes clampViewBounds of `DragVertically` of the old matrix and the recorded press; publishes that matrix, then prevents the default |
| `Canvas.ScrollableCanvas.VerticalScrollbarMouseUp` | src/containers/scrollable-canvas.jsx:79-85 | both recorded vertical values become null; the view and the horizontal session are untouched |
| `ScrollbarGeometry.LengthPercent` | src/containers/scrollable-canvas.jsx:125-126 | a thumb length is at most 100, is 100 iff the view is at least as large as the board, is otherwise the view's share of the board, and is not negative for a non-negative extent |
| `ScrollbarGeometry.StartPercent` | src/containers/scrollable-canvas.jsx:127-130 | a thumb start is never negative and never below the centred start (view centre's share of the board minus half the thumb length); unless pinned at 0 it equals that centred start |
| `ScrollbarGeometry.StartFollowsViewOrigin` | src/containers/scrollable-canvas.jsx:125-130 | when the view is no larger than the board, the thumb starts at the view's origin as a share of the board, or at 0 if the view starts before the board |
| `ScrollbarGeometry.Project` | src/containers/scrollable-canvas.jsx:119-131 | with no project all four percentages are 0; otherwise both lengths are at most 100, both starts at least 0, and each axis is computed alike from its own origin and extent |
| `ScrollbarGeometry.WholeBoardFillsTracks` | src/containers/scrollable-canvas.jsx:119-131 | a view equal to the board gives lengths 100 and starts 0 |
| `ScrollbarGeometry.CentredHalfAxis` | src/containers/scrollable-canvas.jsx:125-130 | on one axis, a centred view of half the board gives length 50 and start 25 |
| `ScrollbarGeometry.CentredHalfView` | src/containers/scrollable-canvas.jsx:119-131 | a centred view of half the board's size gives lengths 50 and starts 25 |
| `ScrollbarGeometry.StageSizedScenarios` | src/containers/scrollable-canvas.jsx:119-131 | on a 480 by 360 board, the view {0, 0, 480, 360} gives (100, 100, 0, 0) and the view {120, 90, 240, 180} gives (50, 50, 25, 25) |

## Left out

- The React lifecycle and DOM wiring are not modelled: registering the wheel listener in `componentDidMount` and `componentWillReceiveProps`, adding and removing the window listeners during a drag, the JSX that `render` returns, `propTypes`, `connect`, and the two store mappings. Drag moves are only delivered between a press and its release, so the move handlers require a recorded session.
- `clampViewBounds`, `pan`, `zoomOnFixedPoint` and the art-board size are defined in `src/helper/view`, which is not part of this model. The helpers are arbitrary functions here, so nothing is claimed about their own behaviour. That covers clamp idempotence, the fixed-point zoom invariant and pan linearity; the one thing assumed of them, a positive zoom, is stated below. The board size is a parameter.
- `getEventXY`, `getBoundingClientRect`, `paper.view.viewToProject`, `paper.view.bounds` and `paper.project` are calls into code outside this file. Their results are inputs: the pointer coordinate, the canvas corner, a `viewToProject` function, and an optional view rectangle.
- The `Paper` helpers are functions of the matrix alone and stay fixed for the canvas's lifetime. In the editor, clamping and zooming about a point also depend on the viewport size, which changes when the window is resized. Reasoning across several events, such as `Canvas.DragThereAndBack`, therefore assumes no resize in between.
- `PaperView.Scale` makes every helper return a positive zoom. That is an assumption about the helpers' zoom floor, which this model does not verify because their code is not part of it.
- Numbers are reals. Floating-point rounding, signed zero, NaN and Infinity are not modelled.
- `updateViewBounds` receives paper's matrix object itself, not a copy. The model publishes a snapshot of the matrix, so the published values do not change when the view later changes.
- The helpers change `paper.view` themselves. The model writes their result back into the shared `View` object. Any other state those helpers touch is not modelled.
- A release without a prior press is not guarded, and neither is a move after a release. A defensive guard would make both harmless no-ops, but the code has none and relies on the window listeners existing only during a drag. The model follows the code: a release always clears the recorded values, and a move requires a recorded session.
- Before any press, the recorded values are JavaScript `undefined`; after a release they are `null`. Both are `None` here.
- The horizontal release handler (line 63) calls `preventDefault` on the browser's global `event`, which during dispatch is the release event itself. The model treats it like the vertical release handler, which gets the event as a parameter.
- `ZOOM_INCREMENT` (0.5) is declared but not used by this component. It is kept as a constant.
