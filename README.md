# Mandelbrot render engine, modelled in Dafny

This project models the render engine of the Mandelbrot explorer in
`public/js/mandelbrot.js`. The engine has four parts:

- **Scheduler.** The shared variables `params`, `pendingParams`,
  `renderId`, `lastCompletedRenderId`, `abortRender`, `throttleActive`,
  `throttleQueued`, `isDragging` and `dragStart`, and the event handlers that
  update them: parameter change, resize, wheel, throttle timer, and mouse
  down, move and up.
- **Frame loop.** `drawMandelbrot`'s row-major double loop. It fills a
  `4 * width * height` RGBA byte buffer and checks for cancellation before
  every pixel. At the end it commits or discards the frame.
- **Escape loop.** The bounded iteration of z := z² + c.
- **Colour mapper.** `getGradientColor`, which dispatches on the gradient
  name, and `hslToRgb`.

The modules follow these parts:

- `Views` (`views.dfy`): parameter objects, partial updates, the snapshot a
  render takes, and the staleness key.
- `Viewport` (`viewport.dfy`): the renderer's pixel-to-plane transform and its
  inverse, plus the zoom and pan arithmetic of the wheel and drag handlers.
- `Escape` (`escape.dfy`): the escape loop as a method. It is proved against a
  recursive count and against a first-escape characterisation over the orbit.
- `Colors` (`colors.dfy`): gradients, HSL conversion and the black interior
  sentinel.
- `Frame` (`frame.dfy`): buffer layout, the per-pixel shading, the byte writes
  of one pixel, and the image a render owes its snapshot.
- `Scheduling` (`scheduler.dfy`): the classes `RenderJob` (one call of
  `drawMandelbrot`) and `Scheduler` (the shared variables), with one method
  per event. The render is split at its cancellation points:
  - `RenderStart`: new id, cleared abort flag, snapshot, new buffer.
  - `RenderPixel`: the abort check, then one pixel.
  - `RenderFinish`: the staleness check, then commit or discard.

  `RunJob` is the source's loop driving these steps. `DrawMandelbrot` is the
  whole function as the source runs it.

The scheduler invariant `Scheduler.Valid` holds across every event and step:

- both zooms are positive;
- `lastCompletedRenderId <= renderId`;
- a queued render exists only inside a throttle window;
- the canvas bitmap (`Scheduler.displayed`) is either cleared, as it is before
  the first commit and after a resize, or exactly the complete frame of the
  settled parameters.

Coordinates and colour amounts are `real`, an exact stand-in for IEEE doubles.
`Math.round(x)` is `Floor(x + 0.5)`, and JavaScript's `x % 1` is written out
as truncation toward zero.

The renderer maps pixels with one scale per axis, `3 / (width * zoom)` and
`3 / (height * zoom)` (lines 80-81). The wheel and drag handlers instead use
the single scale `3 / (min(width, height) * zoom)` (lines 45, 50, 202). The
model follows the code: two transforms, `PixelToWorld` for the renderer and
`CursorWorld` for the handlers. The handlers' guarantees are stated only in
terms of `CursorWorld`; the two agree only on a square canvas.

## Model

| member | source | states |
|---|---|---|
| Views.MergeCarriesUpdate | public/js/mandelbrot.js:30 | `Object.assign` of an update sets each of the five fields it carries (zoom, both centre coordinates, iteration limit, gradient) to the carried value and keeps every field it does not carry |
| Views.SnapshotFillsGradient | public/js/mandelbrot.js:74-75 | the snapshot keeps zoom, centre and iteration limit, always names a gradient, names `classic` when the parameters name none, and is the parameters themselves when they name one |
| Views.GradientOutsideStalenessKey | public/js/mandelbrot.js:111-115 | changing only the gradient never makes a render stale: the four-field key still matches the snapshot |
| Viewport.Scale | public/js/mandelbrot.js:80-81 | the per-axis step `3 / (extent * zoom)` is positive for a positive extent and zoom |
| Viewport.PixelWorldRoundTrip | public/js/mandelbrot.js:88-89 | the renderer's pixel-to-plane map is a bijection: it and `WorldToPixel` undo each other in both directions |
| Viewport.NextZoom | public/js/mandelbrot.js:41-44 | the zoom after a wheel event is at least 0.5; it grows for a negative delta, and otherwise shrinks or is clamped to 0.5 |
| Viewport.ZoomAbout | public/js/mandelbrot.js:45-53 | re-centring at the new zoom keeps the world point under the cursor (by the min-based scale), and keeps the iteration limit and gradient |
| Viewport.WheelZoom | public/js/mandelbrot.js:41-53 | the new zoom is at least 0.5; it grows for a negative delta and otherwise shrinks or is clamped to 0.5; the world point under the cursor (by the min-based scale) is unchanged; the iteration limit and gradient are kept |
| Viewport.WheelZoomAll | public/js/mandelbrot.js:35-53 | a burst of wheel events keeps the zoom positive, at least 0.5 after any event, and keeps the iteration limit and gradient |
| Viewport.DragKeepsGrabbedPoint | public/js/mandelbrot.js:196-204 | whatever the canvas origin, after a pan the world point under the pointer at the current zoom is the one grabbed at mousedown; zoom, iteration limit and gradient are kept |
| Escape.EscapeTime | public/js/mandelbrot.js:90-96 | the loop returns `EscapeCount(c, maxIter)`, lies in [0, max(0, maxIter)], and is the index of the first orbit point with \|z\|² > 4, or the budget when none escapes |
| Escape.EscapeCountIsFirstEscape | public/js/mandelbrot.js:90-96 | the recursive count is the first escape index over the orbit of 0 |
| Escape.FirstEscapeUnique | public/js/mandelbrot.js:90-96 | the first-escape characterisation determines the count |
| Escape.MinusHalfIsInterior | public/js/mandelbrot.js:7-12 | the initial centre -0.5 + 0i never escapes, whatever the iteration limit |
| Colors.RoundUnitInByteRange | public/js/mandelbrot.js:180 | `Math.round(k * v)` for v in [0, 1] and k in [0, 255] is a channel value |
| Colors.FracPart | public/js/mandelbrot.js:153 | `x % 1` of a non-negative number lies in [0, 1) |
| Colors.Hue2RgbBetween | public/js/mandelbrot.js:166-173 | for a hue within one turn of [0, 1] each piece of the hue function stays between p and q |
| Colors.HslEndsInUnit | public/js/mandelbrot.js:174-175 | for s and l in [0, 1], 0 <= p <= q <= 1 in both lightness branches |
| Colors.HslToRgbInByteRange | public/js/mandelbrot.js:161-181 | for h, s, l in [0, 1] all three rounded channels are in [0, 255], in the grey branch and the hue branch |
| Colors.UnknownGradientIsClassic | public/js/mandelbrot.js:134-158 | at every t, a name without its own case gives the classic colour, and rainbow equals classic |
| Colors.BlackAndWhiteIsGrey | public/js/mandelbrot.js:149-151 | the bw gradient's three channels are equal |
| Colors.LinearChannelsInByteRange | public/js/mandelbrot.js:137-151 | each channel formula of the fire, ice, forest, sunset, ocean and bw gradients, rounded, lies in [0, 255] for t in [0, 1] |
| Colors.LinearGradientInByteRange | public/js/mandelbrot.js:137-151 | for t in [0, 1] the fire, ice, forest, sunset, ocean and bw channels lie in [0, 255] |
| Colors.GradientInByteRange | public/js/mandelbrot.js:132-158 | for t in [0, 1] every gradient, known or not, gives channels in [0, 255] |
| Colors.PixelColor | public/js/mandelbrot.js:98-103 | a count equal to the iteration limit is drawn black under every gradient; every count the loop can return gives channels in [0, 255] |
| Frame.PixelOffsetsOrdered | public/js/mandelbrot.js:97 | offsets follow row-major order: all four bytes of an earlier pixel lie below a later pixel's offset |
| Frame.PixelOffsetInBounds | public/js/mandelbrot.js:97 | for x < width and y < height, offsets `(y * width + x) * 4` through `+ 3` lie inside the `4 * width * height` buffer |
| Frame.PixelBlocksDisjoint | public/js/mandelbrot.js:97 | distinct pixels own disjoint four-byte blocks |
| Frame.ByteBelongsToPixel | public/js/mandelbrot.js:78 | every byte of the buffer belongs to some pixel of the canvas, so the loop's writes cover the buffer |
| Frame.ExpectedColor | public/js/mandelbrot.js:88-103 | the colour owed to every canvas pixel is in byte range |
| Frame.ShadePixel | public/js/mandelbrot.js:88-103 | the pixel's colour (plane point, escape loop, black or gradient) is the one the snapshot owes that pixel |
| Frame.StorePixel | public/js/mandelbrot.js:104-107 | the four writes of a pixel store its red, green, blue and alpha 255 at its offset and change no other byte |
| Frame.WritePixel | public/js/mandelbrot.js:104-107 | the pixel then holds the colour at full opacity, every other byte is unchanged, and the length is kept |
| Frame.WriteKeepsOtherPixel | public/js/mandelbrot.js:104-107 | writing one pixel leaves every other pixel's colour as it was |
| Frame.WritePixelExtends | public/js/mandelbrot.js:83-109 | writing the owed colour of the next pixel extends the rendered row-major prefix by one pixel |
| Frame.CompleteFrameUnique | public/js/mandelbrot.js:83-109 | a complete buffer is determined by its snapshot and canvas size |
| Frame.BlankIsNoFrame | public/js/mandelbrot.js:22-23 | a canvas cleared by a resize holds no rendered frame of any non-empty size: its alpha bytes are 0 where a frame's are 255 |
| Frame.DefaultCentreIsBlack | public/js/mandelbrot.js:7-12 | on a 100 x 100 canvas the default view maps pixel (50, 50) to -0.5 + 0i, which takes all 100 iterations and is drawn black |
| Scheduling.RenderJob.constructor | public/js/mandelbrot.js:74-78 | a render's id, snapshot and non-empty canvas size, and a fresh buffer of `4 * width * height` bytes, every one 0 |
| Scheduling.Scheduler.constructor | public/js/mandelbrot.js:7-19 | the initial parameters (zoom 1 at -0.5 + 0i, 100 iterations, no gradient) in both objects, counters 0, every flag clear; with lines 184-185, no drag and a drag start of all zeros |
| Scheduling.Scheduler.RenderStart | public/js/mandelbrot.js:71-79 | the new id is exactly one more than the last; the abort flag is cleared; on a non-empty canvas the job holds the snapshot of the pending parameters and a fresh buffer; on an empty one `createImageData` throws and there is no job (exactly when width or height is 0); nothing else changes |
| Scheduling.Scheduler.RenderPixel | public/js/mandelbrot.js:84-108 | with the abort flag set or a newer id issued, the render aborts with its buffer untouched and `params`, `lastCompletedRenderId` and the canvas unchanged; otherwise the owed colour is written to this pixel only, at full opacity, and a rendered row-major prefix grows by one pixel |
| Scheduling.Scheduler.RenderFinish | public/js/mandelbrot.js:110-129 | a complete render commits iff its id is the latest and pending zoom, centre and iteration limit equal the snapshot; a commit sets `params` to the snapshot, `lastCompletedRenderId` to the id and shows the buffer; a discard changes none of these; slow means committed with elapsed over 2000 ms |
| Scheduling.Scheduler.RunJob | public/js/mandelbrot.js:83-129 | the double loop commits exactly when the id is the latest, the key is unchanged and the abort flag is clear; a commit shows the complete frame of the snapshot; an abort or discard leaves the settled parameters, `lastCompletedRenderId`, the canvas and its size unchanged |
| Scheduling.Scheduler.DrawMandelbrot | public/js/mandelbrot.js:71-130 | run as the source runs it, a render commits exactly when the canvas is non-empty, and then commits the snapshot of the pending parameters with the complete frame on the canvas; on an empty canvas it throws after taking an id, and the settled parameters, the canvas and the timers are unchanged |
| Scheduling.Scheduler.Resize | public/js/mandelbrot.js:21-25 | setting the canvas size clears the bitmap to transparent black at the new size; then a render of the pending parameters starts at that size, refused after taking an id at an empty size; the settled parameters are kept |
| Scheduling.Scheduler.ParamsEvent | public/js/mandelbrot.js:29-32 | the update is merged into the pending parameters, and a render of the merged parameters starts (refused after taking an id on an empty canvas) |
| Scheduling.Scheduler.Wheel | public/js/mandelbrot.js:35-69 | the abort flag is set and the pending parameters are zoomed about the cursor; outside a throttle window a window opens with one throttled render; inside one, only the single queued flag is set and no render starts |
| Scheduling.Scheduler.TimerFires | public/js/mandelbrot.js:58-64 | the window closes; a render is started, taking a new id, exactly when one was queued (refused on an empty canvas), none otherwise; the queue is then empty |
| Scheduling.Scheduler.MouseDown | public/js/mandelbrot.js:187-194 | a drag starts, remembering the pointer and the pending centre |
| Scheduling.Scheduler.MouseMove | public/js/mandelbrot.js:196-208 | without a drag nothing changes; during one the pending centre is panned from the drag start and a render starts |
| Scheduling.Scheduler.MouseUp | public/js/mandelbrot.js:210-215 | any drag ends |
| Scheduling.StaleRendersNeverCommit | public/js/mandelbrot.js:85-87 | three zoom changes in a row on any canvas at least two pixels wide: the first two renders abort at their next pixel, even one already part done, and only the third (id 3, its zoom) commits |
| Scheduling.WheelBurst | public/js/mandelbrot.js:54-68 | a burst of one or more wheel events followed by the timer starts one render for a single event and two for more, and settles on the parameters after the whole burst |
| Scheduling.RepeatedRenderIsIdentical | public/js/mandelbrot.js:71-130 | from any valid scheduler state, two renders of unchanged parameters on the same canvas show the same bytes, the complete frame of the pending parameters; on an empty canvas both are refused and the canvas keeps what it showed |

## Left out

- DOM and canvas I/O is left out: the input-field and label updates with
  `toFixed`/`toPrecision`, `putImageData` and the cursor style. A commit is
  modelled as copying the buffer into `Scheduler.displayed`, and a zeroed
  array stands for `createImageData`.
- `resizeCanvas` reads `window.innerWidth` and `window.innerHeight`. Every
  method that reads the canvas size takes width and height as parameters
  instead.
- `performance.now` is not modelled: the elapsed time of a render is an input
  to `RenderFinish`, `RunJob` and `DrawMandelbrot`.
- `setTimeout` is modelled as a count of armed timers, `pendingTimers`. A
  throttled render arms one when it ends, whether it committed, was discarded
  or aborted. `TimerFires` is the timer going off; the 10 ms delay is not
  modelled.
- Floating point is not modelled: rounding, NaN, Infinity and overflow in the
  transforms, the escape loop and the HSL conversion. All of this is exact
  `real` arithmetic, so nothing here claims bit-exact colours.
- Scheduling.Scheduler.ParamsEvent: requires a supplied zoom to be positive.
  A zero zoom makes the source divide by zero, so its coordinates become
  Infinity or NaN, which the real-number model cannot express. A negative
  zoom stays finite in the source: both scales turn negative and the render
  shows the view point-reflected through the centre. The model does not
  capture that reflected view, because every transform and the scheduler
  invariant take the zoom to be positive.
  The update payload is modelled as the five parameter fields; any other keys
  `Object.assign` would copy are left out.
- Scheduling.Scheduler.Wheel: requires a non-empty canvas, for the same
  reason: the handler divides by `min(width, height)`.
- Scheduling.Scheduler.MouseMove: requires a non-empty canvas, for the same
  reason.
- A render on an empty canvas is modelled as `RenderStart` returning no job
  (`createImageData` throws `IndexSizeError`). The rejected promise and its
  console error are left out. A throttled render is only started by `Wheel`,
  which requires a non-empty canvas. So the model leaves out what the source
  does when a throttled render throws: the `.then` never runs, no timer is
  set, and the throttle window never closes.
- No claim is made that a wheel or drag keeps a *rendered* pixel fixed. The
  handlers' min-based scale differs from the renderer's per-axis scales on a
  non-square canvas.
- `debounceTimeout` (line 17) is declared and never used, so it has no field.
- `public/js/panel.js` is not part of this model. It is DOM widget wiring,
  cookie persistence and event dispatch, with no engine logic.
- The source runs each render to completion inside one handler (see
  Findings). The model exposes the pixel step so that events can also happen
  between pixels. Which interleavings a real event loop would produce is left
  to whoever drives the steps.

## Findings

| source | as written | input that shows it | evidently intended | confidence | as-written member | corrected member |
|---|---|---|---|---|---|---|
| public/js/mandelbrot.js:71-87 | `drawMandelbrot` is `async` but contains no `await`. Its pixel loop runs to the end without yielding, so no handler can run during a render, and the abort check before each pixel can never fire. | A wheel event during a multi-second render (a full-window canvas at maxIter 5000) waits in the event queue until the render has committed. Every render on a non-empty canvas commits the snapshot it took (`DrawMandelbrot` ensures `committed` whenever width and height are positive), and the abort and newer-id branch is dead. | A render yields between pixels, so that input is handled mid-frame and the abort flag or a newer id stops a stale render before it commits. | not executed | Scheduling.Scheduler.DrawMandelbrot | Scheduling.Scheduler.RenderPixel (with Scheduling.StaleRendersNeverCommit) |
