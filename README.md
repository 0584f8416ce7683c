# Draggable floating icon and chart decisions, in Dafny

This project models the logic of a small React repository. There are two parts.

**The draggable, edge-docking floating widget** (`src/components/draggable-floating-icon.tsx`).
`createDraggableFloatingIcon` builds three handlers over shared closure state:

- `handleDragStart` locks page scrolling and installs two page-level suppressor listeners. It also switches the widget's transition off.
- `handleDrag` puts the widget's centre under the pointer. The position is clamped to the viewport and written as `top` and either `left` or `right`.
- `handleDragEnd` restores the page and docks the widget to the left or right edge. It may also schedule a timer. After 1500 ms the timer slides the widget half its width past that edge.

The model is split into these modules:

- `CssTransform` covers `isScaled`: the regular-expression search for `matrix(...)`, `split(',')` and `parseFloat`.
- `FloatingGeometry` holds the pure helpers (`getClients`, `isInLeft`, the viewport class, the retract decision). It also has the style each handler writes, as functions on a style record.
- `FloatingIcon` is a class with the closure's `backupOverflow` and single timer slot, the widget's inline style, and the page's overflow and listeners. Its methods write these fields step by step, as the handlers do. Each method's postcondition ties the new state to the functions above.
- `FloatingIconSessions` chains the handlers as the browser delivers them.

**Chart decisions** (`src/components/chart-renderer.tsx`), in module `ChartRenderer`:

- the colour index arithmetic of `getColor`;
- the table's scroll size;
- `renderChart`'s choice between spinner, empty placeholder and chart;
- the chart-type lookup.

Measurements the handlers read from the browser are method parameters, taken when each handler runs:

- the bounding box;
- `scrollWidth` and `scrollHeight`;
- `innerWidth` and `innerHeight`;
- the event's coordinates.

A JavaScript `undefined` or `NaN` coordinate is `None`. The handler then writes `"NaNpx"`, which the browser rejects, so that style property keeps its old value.

Behaviour modelled as the code has it, which a reader might not expect:

- A drag start does not clear a pending retract timer (lines 129-144). A timer from the previous drag end still fires during the next drag (`RetractFiresDuringNextDrag`).
- The retract callback tests `(isScaled as any)`, which is the function object and not a call (lines 71, 74). The retracted `transformOrigin` is therefore always `'center center'` (`RetractedStyle`).
- `handleDrag` picks the side from the box before the move (line 104). A widget at the left edge dragged past the right edge is written as `left = 944px`, not `right = 0px` (`DragPastRightEdge`).

## Model

| member | source | states |
|---|---|---|
| CssTransform.MatrixArguments | src/components/draggable-floating-icon.tsx:17-20 | a reported group is a non-empty run of `[\d.,\s-]` characters |
| CssTransform.FirstMatchFrom | src/components/draggable-floating-icon.tsx:17-18 | the search position found is one where the pattern matches, and no earlier position matches |
| CssTransform.MatchAtIsPattern | src/components/draggable-floating-icon.tsx:17-18 | the greedy match attempt at a position succeeds exactly when `matrix(`, a non-empty run of `[\d.,\s-]` and `)` stand there, and it yields that run |
| CssTransform.MatrixArgumentsIsLeftmostMatch | src/components/draggable-floating-icon.tsx:17-20 | `transform.match` yields the group of the leftmost match, null when no position matches, and every leftmost match gives that same group |
| CssTransform.MatrixArgumentsOfCall | src/components/draggable-floating-icon.tsx:17-21 | a transform that is one `matrix(args)` call yields exactly `args` |
| CssTransform.Split | src/components/draggable-floating-icon.tsx:21 | `split(',')` gives at least one piece, and no piece holds a comma |
| CssTransform.JoinSplit | src/components/draggable-floating-icon.tsx:21 | joining the pieces of `split(',')` with ',' gives the string back |
| CssTransform.SplitJoin | src/components/draggable-floating-icon.tsx:21 | splitting a join of comma-free fields gives the same fields, in order |
| CssTransform.ParseFloat | src/components/draggable-floating-icon.tsx:22-23 | a number exactly when, after leading white space, the text opens with an optional sign and then a digit or '.' and a digit; NaN otherwise, even when a digit comes later |
| CssTransform.ParseFloatOfDigits | src/components/draggable-floating-icon.tsx:22-23 | `parseFloat` reads a run of digits as its decimal value and ignores the text after it |
| CssTransform.ParseFloatSkipsSpace | src/components/draggable-floating-icon.tsx:22-23 | leading white space does not change what `parseFloat` reads |
| CssTransform.ParseFloatOfFraction | src/components/draggable-floating-icon.tsx:22-23 | `d.f` followed by a non-digit reads as `d + f / 10^len(f)` |
| CssTransform.ParseFloatOfNegative | src/components/draggable-floating-icon.tsx:22-23 | a leading '-' negates the number the rest reads as, and NaN stays NaN |
| CssTransform.ParseFloatHalf | src/components/draggable-floating-icon.tsx:22-23 | `parseFloat('0.5')` is 0.5 |
| CssTransform.ParseFloatMinusOne | src/components/draggable-floating-icon.tsx:22-23 | `parseFloat('-1')` is -1 |
| CssTransform.ParseFloatNeedsLeadingNumber | src/components/draggable-floating-icon.tsx:22-23 | `parseFloat` of `'--1'`, `'- 1'` and `'.-1'` is NaN |
| CssTransform.IsScaled | src/components/draggable-floating-icon.tsx:12-30 | false when neither property is set, and false whenever the transform looked at (`transform`, or `mozTransform` when that is empty) is `'none'` |
| CssTransform.NoMatrixNotScaled | src/components/draggable-floating-icon.tsx:14-29 | not scaled when the transform looked at (`transform`, or `mozTransform` when that is empty) has no `matrix(...)` match |
| CssTransform.IsScaledLooksAtFallback | src/components/draggable-floating-icon.tsx:14-26 | the result is decided by `transform`, or by `mozTransform` exactly as if it were the transform when `transform` is empty |
| CssTransform.IsScaledMatrix | src/components/draggable-floating-icon.tsx:20-25 | on one `matrix(f0, ...)` call: scaled iff there are fewer than four fields (NaN) or field 0 or field 3 does not read as 1 |
| CssTransform.IdentityNotScaled | src/components/draggable-floating-icon.tsx:20-25 | `matrix(1, 0, 0, 1, 0, 0)` is not scaled |
| CssTransform.ShortMatrixIsScaled | src/components/draggable-floating-icon.tsx:21-25 | a two-field matrix counts as scaled, because its missing fourth field is NaN |
| FloatingGeometry.FirstOrFallback | src/components/draggable-floating-icon.tsx:33-34 | a non-zero touch coordinate is used; otherwise the event's own coordinate, defined or not |
| FloatingGeometry.GetClients | src/components/draggable-floating-icon.tsx:32-35 | with no touches the event's own coordinates; otherwise each axis takes the first touch's coordinate when it is non-zero and the event's own when it is zero |
| FloatingGeometry.DragEventCoordinates | src/components/draggable-floating-icon.tsx:32-35 | an event without touches gives its own `clientX`/`clientY` |
| FloatingGeometry.TouchAtZeroHasNoCoordinate | src/components/draggable-floating-icon.tsx:32-35 | a first touch at x = 0 falls back to the touch event's own `clientX`, which is `undefined` |
| FloatingGeometry.IsInLeft | src/components/draggable-floating-icon.tsx:37-41 | left exactly when the box starts left of where it would start if centred, `x < (innerWidth - scrollWidth) / 2` |
| FloatingGeometry.SideOf | src/components/draggable-floating-icon.tsx:37-41 | the side `isInLeft` names: left exactly when `x + scrollWidth / 2 < innerWidth / 2` |
| FloatingGeometry.CentredIsRight | src/components/draggable-floating-icon.tsx:37-41 | an element centred exactly on the middle counts as right |
| FloatingGeometry.MirrorIsRight | src/components/draggable-floating-icon.tsx:37-41 | mirroring a left-half element about the middle puts it on the right |
| FloatingGeometry.ViewTypeOf | src/components/draggable-floating-icon.tsx:123 | desktop exactly when `innerWidth > 768` |
| FloatingGeometry.AllViewsRetractsUnlessFullSize | src/components/draggable-floating-icon.tsx:124 | a boolean `showFullSizeOpt` retracts exactly when it is false, at every width |
| FloatingGeometry.PerViewRetractsUnlessEntrySet | src/components/draggable-floating-icon.tsx:123-124 | a per-view option keeps full size exactly when the current view's entry is present and true; a missing entry retracts |
| FloatingGeometry.DesktopOnlyRetractsOnMobile | src/components/draggable-floating-icon.tsx:123-124 | `{desktop: true, mobile: false}` retracts exactly when `innerWidth <= 768` |
| FloatingGeometry.Clamp | src/components/draggable-floating-icon.tsx:97-98 | the result lies in `[0, bound]` when that is non-empty, equals the negative bound otherwise, and is the value itself when that is in range |
| FloatingGeometry.ClampIsNearest | src/components/draggable-floating-icon.tsx:97-98 | the clamp is the point of `[0, bound]` nearest to the value |
| FloatingGeometry.CentredCorner | src/components/draggable-floating-icon.tsx:88-96 | the computed corner puts the box's centre on the pointer |
| FloatingGeometry.DragOffset | src/components/draggable-floating-icon.tsx:88-98 | the offset exists iff the pointer coordinate does, and is then the clamp of the corner that centres the box on the pointer |
| FloatingGeometry.Mirrored | src/components/draggable-floating-icon.tsx:108 | the mirrored offset exists iff the offset does, and the two add up to `width` |
| FloatingGeometry.DraggedStyle | src/components/draggable-floating-icon.tsx:81-111 | `bottom = auto`, `zIndex = '9999'`; `top` is the clamped centring corner; on the side the pre-move box was on, `left` is the clamped corner, or `right` is `width` minus it; a NaN coordinate leaves its property as it was |
| FloatingGeometry.DragCentresOnPointer | src/components/draggable-floating-icon.tsx:88-110 | within the bounds, the box's centre lands on the pointer, on both axes and whichever side is written |
| FloatingGeometry.DragSnapsToNearestEdge | src/components/draggable-floating-icon.tsx:95-110 | for an element that fits, the horizontal position written is the point of `[0, width]` nearest the centring corner, so a pointer past an edge snaps to that edge |
| FloatingGeometry.DragForgetsPreviousPosition | src/components/draggable-floating-icon.tsx:84-110 | each move recomputes the position from scratch: the previous position does not matter |
| FloatingGeometry.DragPastRightEdge | src/components/draggable-floating-icon.tsx:88-110 | 80x80 at (0,0) in 1024x768, pointer at (2000,500): `left = 944px`, `right = auto`, `top = 460px` |
| FloatingGeometry.DockedStyle | src/components/draggable-floating-icon.tsx:53-61 | the style reads back as docked to the side (`0px` on it, `auto` opposite), with that side's origin; nothing else changes |
| FloatingGeometry.DockIdempotent | src/components/draggable-floating-icon.tsx:53-61 | docking twice to the same side gives the same style |
| FloatingGeometry.DockedSideIsStable | src/components/draggable-floating-icon.tsx:53-61 | a docked element narrower than the viewport measures on the same side again |
| FloatingGeometry.RetractedStyle | src/components/draggable-floating-icon.tsx:65-75 | the side gets `-scrollWidth/2 px`, leaving half the width visible; transition on; origin `'center center'` on both sides; nothing else changes |
| FloatingGeometry.RetractKeepsAnchor | src/components/draggable-floating-icon.tsx:65-75 | retracting a docked style keeps the opposite side `auto` |
| FloatingIcon.DraggableFloatingIcon.constructor | src/components/draggable-floating-icon.tsx:43-45 | a fresh instance: `backupOverflow` undefined, no timer, no listeners |
| FloatingIcon.DraggableFloatingIcon.HandleDragStart | src/components/draggable-floating-icon.tsx:129-144 | listeners added, transition `unset`, overflow saved then set to `hidden`, timer untouched; nothing at all when dragging is disabled |
| FloatingIcon.DraggableFloatingIcon.HandleDrag | src/components/draggable-floating-icon.tsx:81-111 | the style becomes `DraggedStyle` of the old style and the event's coordinates; page and closure untouched; nothing when disabled |
| FloatingIcon.DraggableFloatingIcon.MoveToEdge | src/components/draggable-floating-icon.tsx:52-78 | docks to the measured side; with `showAHalf` the pending timer is replaced by exactly one new 1500 ms timer, and without it the timer is left alone |
| FloatingIcon.DraggableFloatingIcon.HandleDragEnd | src/components/draggable-floating-icon.tsx:113-127 | listeners removed, saved overflow restored (an unsaved one is rejected), transition on, docked, timer as the retract decision says; nothing when disabled |
| FloatingIcon.DraggableFloatingIcon.FireTimer | src/components/draggable-floating-icon.tsx:65-76 | only the pending timer runs; it writes `RetractedStyle` for the side measured when it fires; a cleared or replaced timer changes nothing |
| FloatingIconSessions.DragSessionRestoresPage | src/components/draggable-floating-icon.tsx:113-144 | start then end restores the page's overflow, removes the start's listeners and leaves the transition `all 0.5s ease-out` |
| FloatingIconSessions.RepeatedStartKeepsPageHidden | src/components/draggable-floating-icon.tsx:142-143 | a second start before the end saves `hidden`, so the page stays hidden after the end |
| FloatingIconSessions.RetractFiresDuringNextDrag | src/components/draggable-floating-icon.tsx:129-144 | a drag start does not cancel the retract timer: it still fires and retracts during the new drag |
| FloatingIconSessions.RedockCancelsStaleTimer | src/components/draggable-floating-icon.tsx:63-65 | a retracting drag end replaces the timer, and the replaced one never fires |
| FloatingIconSessions.FullSizeDockKeepsEarlierTimer | src/components/draggable-floating-icon.tsx:63-77 | a drag end without retraction leaves an earlier timer pending, and it still fires |
| FloatingIconSessions.DisabledSessionChangesNothing | src/components/draggable-floating-icon.tsx:80-145 | with dragging disabled, start, move and end change nothing |
| FloatingIconSessions.DockTwice | src/components/draggable-floating-icon.tsx:53-61 | docking twice with the same measurements equals docking once |
| ChartRenderer.GetColor | src/components/chart-renderer.tsx:36-44 | the tone index is at least 4 |
| ChartRenderer.FirstSeriesFollowPaletteOrder | src/components/chart-renderer.tsx:37-38 | the first seven series take the palettes in the listed order, and the first three take tone 4 |
| ChartRenderer.PaletteRepeatsEverySeven | src/components/chart-renderer.tsx:37-38 | series `i` and `i + 7` get the same palette |
| ChartRenderer.SevenConsecutivePalettesDiffer | src/components/chart-renderer.tsx:37-38 | seven consecutive series get seven different palettes |
| ChartRenderer.ToneNonDecreasing | src/components/chart-renderer.tsx:42 | the tone index never decreases as the series index grows |
| ChartRenderer.ToneStepsEveryThree | src/components/chart-renderer.tsx:42 | the tone index grows by one every three series (`colorPalettes.length - 4 = 3`) |
| ChartRenderer.ToneWithinPalette | src/components/chart-renderer.tsx:42-43 | with `n` tones per palette, the tone exists iff `i < 3 * (n - 4)`; with ten tones, series 18 onward index past the end |
| ChartRenderer.TableScrollOf | src/components/chart-renderer.tsx:235 | width exactly 1200 below six columns and `600 * columns` from six on, so at least 1200 and 200 per column; height 280 |
| ChartRenderer.TableScrollMonotone | src/components/chart-renderer.tsx:228-235 | more columns never give a smaller scroll width |
| ChartRenderer.FewColumnsShareFixedWidth | src/components/chart-renderer.tsx:235 | any two tables of up to five columns get the same scroll size |
| ChartRenderer.RenderChart | src/components/chart-renderer.tsx:250-276 | spinner iff loading; placeholder iff not loading and no result set or an error; chart iff neither, drawn with the looked-up kind |
| ChartRenderer.ChartKindOf | src/components/chart-renderer.tsx:297 | a kind that is found has the chart type as its name |
| ChartRenderer.ChartKindOfName | src/components/chart-renderer.tsx:121-241 | the lookup finds each chart kind under its own key and under no other |
| ChartRenderer.RenderChartType | src/components/chart-renderer.tsx:290-302 | something is rendered iff the chart type is one of `line`, `bar`, `area`, `pie`, `number`, `table`, and for such a type it is exactly `renderChart`'s spinner, placeholder or chart of that kind |

## Left out

- Rendering: JSX, React, `React.memo`, the reduction that builds `TypeToMemoChartComponent`, `useRef` and the prop wiring of `DraggableFloatingIcon`, and `src/App.tsx`. They hold no decisions.
- The chart and table components and the palettes' colour values are not modelled. These come from foreign libraries, so a colour is a palette name and a tone index.
- `renderCustomizedLabel`, which is trigonometry and `toFixed`, and `numberFormatter`, which is locale formatting. Both are floating point or locale dependent. The `console.log` calls are output only.
- The transparent drag image (`new Image`, `setDragImage`) is a foreign DOM call with no effect on the modelled state.
- `dropHandler`'s `preventDefault`/`stopPropagation` are not modelled. The model records only whether the two listeners are registered.
- Layout is not modelled: how the written style moves the box is left to the browser. Each handler takes the box, scroll sizes and viewport size as parameters measured when it runs. `getBoundingClientRect().x` is taken to equal its `left`.
- `setTimeout`, `clearTimeout` and wall-clock time are not modelled. A pending timer record and the explicit `FireTimer` step stand in for them.
- The page's overflow and listeners are fields of each widget. With several widgets on one page, the body state they share is not modelled.
- JavaScript numbers are IEEE doubles; the model uses exact reals. `v + 'px'` keeps the number, not its decimal text.
- CssTransform.ParseFloat: `parseFloat` is modelled only on strings of digits, '.', signs and white space. These are the only characters the matrix group can hold, so exponents and `Infinity` never reach it. Values are exact decimals, so an over-long literal that IEEE rounding would turn into exactly 1 is read as a value other than 1.
- ChartRenderer.ChartKindOf: a chart type naming a property inherited from `Object.prototype` (`constructor`, `toString`, ...) finds a truthy value in JavaScript. The model treats it as unknown, because what React would then render is outside this code.
- Inline style values the handlers never write (a value from `containerStyle` such as `10%`, or none at all) are opaque `Other` values.
