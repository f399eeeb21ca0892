/** The render scheduler: the renderer's shared variables, one method per input
    event, and drawMandelbrot split at its cancellation points (start, one
    pixel, finish) so that events can be interleaved with a render in flight. */
module Scheduling {
  import opened Views
  import opened Viewport
  import opened Escape
  import opened Colors
  import opened Frame

  datatype JobStatus = Running | Aborted | Discarded | Committed

  /** One call of drawMandelbrot: its id, its snapshot of the pending
      parameters, the canvas size it read and the image buffer it fills. */
  class RenderJob {
    const id: nat
    const snapshot: ViewParams
    const width: nat
    const height: nat
    const data: array<byte>
    /** Started by a wheel event outside a throttle window: when it ends, the
        throttle timer is set. */
    const throttled: bool
    var status: JobStatus

    ghost predicate Valid() {
      && width > 0 && height > 0 && data.Length == 4 * width * height
      && snapshot.zoom > 0.0 && snapshot.gradient.Some? && id > 0
    }

    /** The image this render owes its snapshot. */
    ghost function Owed(): Image {
      Expected(snapshot, width, height)
    }

    /** A fresh buffer from createImageData: every byte 0. */
    constructor (id: nat, snapshot: ViewParams, width: nat, height: nat, throttled: bool)
      requires id > 0 && snapshot.zoom > 0.0 && snapshot.gradient.Some? && width > 0 && height > 0
      ensures Valid() && fresh(data) && status == Running
      ensures forall i :: 0 <= i < data.Length ==> data[i] == 0
      ensures this.id == id && this.snapshot == snapshot && this.width == width && this.height == height
      ensures this.throttled == throttled
    {
      this.id := id;
      this.snapshot := snapshot;
      this.width := width;
      this.height := height;
      this.throttled := throttled;
      data := new byte[4 * width * height](_ => 0);
      status := Running;
    }
  }

  class Scheduler {
    /** The settled parameters: those of the image on the canvas. */
    var params: ViewParams
    /** The parameters the handlers write into. */
    var pendingParams: ViewParams
    var abortRender: bool
    var renderId: nat
    var lastCompletedRenderId: nat
    var throttleActive: bool
    var throttleQueued: bool
    var isDragging: bool
    var dragStart: DragStart
    /** Throttle timers set by setTimeout and not yet fired. */
    var pendingTimers: nat
    /** The canvas bitmap and its size: the image last put on it, or a
        cleared bitmap after a resize. */
    var displayed: seq<byte>
    var displayedWidth: nat
    var displayedHeight: nat

    /** Zooms stay positive, the last commit is no newer than the last id
        issued, a queued render only exists inside a throttle window, and the
        canvas is either cleared (before the first commit, or after a resize)
        or shows exactly the complete frame of the settled parameters. */
    ghost predicate Valid()
      reads this
    {
      && pendingParams.zoom > 0.0 && params.zoom > 0.0
      && lastCompletedRenderId <= renderId
      && (throttleQueued ==> throttleActive)
      && (|| displayed == Blank(displayedWidth, displayedHeight)
          || CompleteFrame(displayed, Expected(params, displayedWidth, displayedHeight), displayedWidth, displayedHeight))
    }

    /** The state when the page has loaded, before the first render. */
    constructor ()
      ensures Valid()
      ensures params == InitialParams && pendingParams == InitialParams
      ensures !abortRender && renderId == 0 && lastCompletedRenderId == 0
      ensures !throttleActive && !throttleQueued && pendingTimers == 0
      ensures !isDragging && dragStart == DragStart(0.0, 0.0, 0.0, 0.0)
      ensures displayed == []
    {
      params := InitialParams;
      pendingParams := InitialParams;
      abortRender := false;
      renderId := 0;
      lastCompletedRenderId := 0;
      throttleActive := false;
      throttleQueued := false;
      isDragging := false;
      dragStart := DragStart(0.0, 0.0, 0.0, 0.0);
      pendingTimers := 0;
      displayed := [];
      displayedWidth := 0;
      displayedHeight := 0;
    }

    /** drawMandelbrot up to its first pixel: a fresh id one above the last,
        the abort flag cleared, a snapshot of the pending parameters with the
        default gradient filled in, and a new buffer. createImageData refuses
        an empty canvas: then the render ends there, id and flag already
        changed, as a rejected call with no job (null). */
    method RenderStart(width: nat, height: nat, throttled: bool) returns (job: RenderJob?)
      requires Valid()
      modifies this`renderId, this`abortRender
      ensures Valid()
      ensures renderId == old(renderId) + 1 && !abortRender
      ensures (job == null) == (width == 0 || height == 0)
      ensures job != null ==> fresh(job) && fresh(job.data) && job.Valid() && job.status == Running
      ensures job != null ==> job.id == renderId && job.snapshot == Snapshot(pendingParams)
      ensures job != null ==> job.width == width && job.height == height && job.throttled == throttled
    {
      renderId := renderId + 1;
      abortRender := false;
      if width == 0 || height == 0 {
        return null;
      }
      job := new RenderJob(renderId, Snapshot(pendingParams), width, height, throttled);
    }

    /** One pixel of a render. It first checks for cancellation: with the
        abort flag set or a newer id issued the render ends, with nothing
        written and nothing committed. Otherwise it evaluates the pixel and
        writes its four bytes, and no others. */
    method RenderPixel(job: RenderJob, x: nat, y: nat) returns (aborted: bool)
      requires Valid() && job.Valid() && job.status == Running
      requires x < job.width && y < job.height
      modifies job`status, job.data, this`pendingTimers
      ensures Valid()
      ensures aborted == (abortRender || job.id != renderId)
      ensures PixelOffset(job.width, x, y) + 3 < job.data.Length
      ensures aborted ==> job.status == Aborted && job.data[..] == old(job.data[..])
      ensures aborted ==> pendingTimers == old(pendingTimers) + (if job.throttled then 1 else 0)
      ensures !aborted ==> job.status == Running && pendingTimers == old(pendingTimers)
      ensures !aborted ==> job.data[..] == WritePixel(old(job.data[..]), job.width, x, y, job.Owed()(x, y))
      ensures !aborted && RenderedUpTo(old(job.data[..]), job.Owed(), job.width, job.height, x, y) ==>
                RenderedUpTo(job.data[..], job.Owed(), job.width, job.height, x + 1, y)
    {
      PixelOffsetInBounds(job.width, job.height, x, y);
      if abortRender || job.id != renderId {
        job.status := Aborted;
        if job.throttled {
          pendingTimers := pendingTimers + 1;
        }
        return true;
      }
      aborted := false;
      var rgb := ShadePixel(job.snapshot, job.width, job.height, x, y);
      if RenderedUpTo(job.data[..], job.Owed(), job.width, job.height, x, y) {
        WritePixelExtends(job.data[..], job.Owed(), job.width, job.height, x, y);
      }
      StorePixel(job.data, job.width, job.height, x, y, rgb);
    }

    /** The end of a render that checked every pixel: it commits only if its
        id is still the latest and the pending zoom, centre and iteration
        limit still equal its snapshot; a commit puts the buffer on the canvas
        and settles the parameters, a discard changes neither. */
    method RenderFinish(job: RenderJob, elapsed: real) returns (committed: bool, slow: bool)
      requires Valid() && job.Valid() && job.status == Running
      requires CompleteFrame(job.data[..], job.Owed(), job.width, job.height)
      modifies this`params, this`lastCompletedRenderId, this`displayed, this`displayedWidth, this`displayedHeight
      modifies this`pendingTimers, job`status
      ensures Valid()
      ensures committed == (job.id == renderId && SameKey(pendingParams, job.snapshot))
      ensures committed ==> job.status == Committed && params == job.snapshot && lastCompletedRenderId == job.id
      ensures committed ==> displayed == job.data[..] && displayedWidth == job.width && displayedHeight == job.height
      ensures !committed ==> job.status == Discarded && params == old(params)
      ensures !committed ==> lastCompletedRenderId == old(lastCompletedRenderId) && displayed == old(displayed)
      ensures !committed ==> displayedWidth == old(displayedWidth) && displayedHeight == old(displayedHeight)
      ensures slow == (committed && elapsed > 2000.0)
      ensures pendingTimers == old(pendingTimers) + (if job.throttled then 1 else 0)
    {
      var sameKey := SameKey(pendingParams, job.snapshot);
      if !sameKey || job.id != renderId {
        job.status := Discarded;
        committed, slow := false, false;
      } else {
        params := job.snapshot;
        lastCompletedRenderId := job.id;
        displayed := job.data[..];
        displayedWidth, displayedHeight := job.width, job.height;
        job.status := Committed;
        committed := true;
        slow := elapsed > 2000.0;
      }
      if job.throttled {
        pendingTimers := pendingTimers + 1;
      }
    }

    /** The rest of drawMandelbrot after its start: the row-major double loop
        over the canvas, then the commit check. Run with nothing in between,
        as the source runs it, it commits exactly when its id is the latest,
        the pending key equals its snapshot and the abort flag is clear. */
    method RunJob(job: RenderJob, elapsed: real) returns (committed: bool, slow: bool)
      requires Valid() && job.Valid() && job.status == Running
      modifies this`params, this`lastCompletedRenderId, this`displayed, this`displayedWidth, this`displayedHeight
      modifies this`pendingTimers, job`status, job.data
      ensures Valid() && job.status != Running
      ensures committed == (job.id == renderId && SameKey(pendingParams, job.snapshot) && !abortRender)
      ensures committed ==> job.status == Committed && params == job.snapshot && lastCompletedRenderId == job.id
      ensures committed ==> displayed == job.data[..] && displayedWidth == job.width && displayedHeight == job.height
      ensures committed ==> CompleteFrame(displayed, Expected(params, job.width, job.height), job.width, job.height)
      ensures !committed ==> params == old(params) && lastCompletedRenderId == old(lastCompletedRenderId)
      ensures !committed ==> displayed == old(displayed)
      ensures !committed ==> displayedWidth == old(displayedWidth) && displayedHeight == old(displayedHeight)
      ensures !committed ==> job.status != Committed
      ensures slow == (committed && elapsed > 2000.0)
      ensures pendingTimers == old(pendingTimers) + (if job.throttled then 1 else 0)
    {
      var y := 0;
      while y < job.height
        modifies job`status, job.data, this`pendingTimers
        invariant 0 <= y <= job.height
        invariant job.status == Running && pendingTimers == old(pendingTimers)
        invariant RenderedUpTo(job.data[..], job.Owed(), job.width, job.height, 0, y)
        invariant y > 0 ==> !abortRender && job.id == renderId
      {
        var x := 0;
        while x < job.width
          modifies job`status, job.data, this`pendingTimers
          invariant 0 <= x <= job.width
          invariant job.status == Running && pendingTimers == old(pendingTimers)
          invariant RenderedUpTo(job.data[..], job.Owed(), job.width, job.height, x, y)
          invariant y > 0 || x > 0 ==> !abortRender && job.id == renderId
        {
          var aborted := RenderPixel(job, x, y);
          if aborted {
            return false, false;
          }
          x := x + 1;
        }
        RowDone(job.data[..], job.Owed(), job.width, job.height, y);
        y := y + 1;
      }
      committed, slow := RenderFinish(job, elapsed);
    }

    /** drawMandelbrot as the source runs it: start and run to the end with
        no event in between. On a non-empty canvas such a render always
        commits the snapshot of the pending parameters: the abort check before
        each pixel cannot fire. On an empty one it is refused at
        createImageData and changes only the id and the flag. */
    method DrawMandelbrot(width: nat, height: nat, throttled: bool, elapsed: real)
      returns (job: RenderJob?, committed: bool, slow: bool)
      requires Valid()
      modifies this
      ensures Valid() && committed == (width > 0 && height > 0)
      ensures renderId == old(renderId) + 1 && !abortRender && pendingParams == old(pendingParams)
      ensures committed ==> job != null && fresh(job) && job.status == Committed
      ensures committed ==> lastCompletedRenderId == renderId && params == Snapshot(old(pendingParams))
      ensures committed ==> displayed == job.data[..] && displayedWidth == width && displayedHeight == height
      ensures committed ==> CompleteFrame(displayed, Expected(params, width, height), width, height)
      ensures committed ==> pendingTimers == old(pendingTimers) + (if throttled then 1 else 0)
      ensures !committed ==> job == null && params == old(params) && lastCompletedRenderId == old(lastCompletedRenderId)
      ensures !committed ==> displayed == old(displayed) && displayedWidth == old(displayedWidth)
      ensures !committed ==> displayedHeight == old(displayedHeight) && pendingTimers == old(pendingTimers)
      ensures slow == (committed && elapsed > 2000.0)
      ensures throttleActive == old(throttleActive) && throttleQueued == old(throttleQueued)
      ensures isDragging == old(isDragging) && dragStart == old(dragStart)
    {
      job := RenderStart(width, height, throttled);
      if job == null {
        return null, false, false;
      }
      committed, slow := RunJob(job, elapsed);
    }

    /** A resize: setting the canvas width and height clears its bitmap to
        the new size, then a render starts at that size. The settled
        parameters stay as they were until a render commits. */
    method Resize(width: nat, height: nat) returns (job: RenderJob?)
      requires Valid()
      modifies this`displayed, this`displayedWidth, this`displayedHeight, this`renderId, this`abortRender
      ensures Valid()
      ensures displayed == Blank(width, height) && displayedWidth == width && displayedHeight == height
      ensures renderId == old(renderId) + 1 && !abortRender
      ensures (job == null) == (width == 0 || height == 0)
      ensures job != null ==> fresh(job) && fresh(job.data) && job.Valid() && job.status == Running && !job.throttled
      ensures job != null ==> job.id == renderId && job.snapshot == Snapshot(pendingParams)
      ensures job != null ==> job.width == width && job.height == height
    {
      displayed, displayedWidth, displayedHeight := Blank(width, height), width, height;
      job := RenderStart(width, height, false);
    }

    /** The mandelbrot-params event: merge the update into the pending
        parameters and start a render of them. */
    method ParamsEvent(u: ParamsUpdate, width: nat, height: nat) returns (job: RenderJob?)
      requires Valid() && ValidZoom(u)
      modifies this`pendingParams, this`renderId, this`abortRender
      ensures Valid()
      ensures pendingParams == Merge(old(pendingParams), u)
      ensures renderId == old(renderId) + 1 && !abortRender
      ensures (job == null) == (width == 0 || height == 0)
      ensures job != null ==> fresh(job) && fresh(job.data) && job.Valid() && job.status == Running && !job.throttled
      ensures job != null ==> job.id == renderId && job.snapshot == Snapshot(pendingParams)
      ensures job != null ==> job.width == width && job.height == height
    {
      pendingParams := Merge(pendingParams, u);
      job := RenderStart(width, height, false);
    }

    /** A wheel event: set the abort flag, zoom about the cursor, then either
        open a throttle window with a render, or, inside a window, only note
        that a render is queued. */
    method Wheel(e: WheelEvent, width: nat, height: nat) returns (job: RenderJob?)
      requires Valid() && width > 0 && height > 0
      modifies this`abortRender, this`pendingParams, this`throttleActive, this`throttleQueued, this`renderId
      ensures Valid()
      ensures pendingParams == WheelZoom(old(pendingParams), width, height, e)
      ensures throttleActive
      ensures old(throttleActive) ==> job == null && throttleQueued && abortRender && renderId == old(renderId)
      ensures !old(throttleActive) ==> job != null && fresh(job) && fresh(job.data) && job.Valid()
      ensures !old(throttleActive) ==> job.status == Running && job.throttled && job.width == width && job.height == height
      ensures !old(throttleActive) ==> job.id == renderId == old(renderId) + 1 && job.snapshot == Snapshot(pendingParams)
      ensures !old(throttleActive) ==> !abortRender && throttleQueued == old(throttleQueued)
    {
      abortRender := true;
      pendingParams := WheelZoom(pendingParams, width, height, e);
      if !throttleActive {
        throttleActive := true;
        job := RenderStart(width, height, true);
      } else {
        throttleQueued := true;
        job := null;
      }
    }

    /** The throttle timer: close the window and, if a render was queued
        meanwhile, start exactly one, of the pending parameters as they are now. */
    method TimerFires(width: nat, height: nat) returns (job: RenderJob?)
      requires Valid() && pendingTimers > 0
      modifies this`pendingTimers, this`throttleActive, this`throttleQueued, this`renderId, this`abortRender
      ensures Valid()
      ensures pendingTimers == old(pendingTimers) - 1 && !throttleActive && !throttleQueued
      ensures (job != null) == (old(throttleQueued) && width > 0 && height > 0)
      ensures !old(throttleQueued) ==> renderId == old(renderId) && abortRender == old(abortRender)
      ensures old(throttleQueued) ==> renderId == old(renderId) + 1 && !abortRender
      ensures job != null ==> fresh(job) && fresh(job.data) && job.Valid() && job.status == Running && !job.throttled
      ensures job != null ==> job.id == renderId
      ensures job != null ==> job.snapshot == Snapshot(pendingParams) && job.width == width && job.height == height
    {
      pendingTimers := pendingTimers - 1;
      throttleActive := false;
      if throttleQueued {
        throttleQueued := false;
        job := RenderStart(width, height, false);
      } else {
        job := null;
      }
    }

    /** mousedown: start a drag, remembering the pointer and the pending centre. */
    method MouseDown(clientX: real, clientY: real)
      modifies this`isDragging, this`dragStart
      ensures isDragging && dragStart == DragStart(clientX, clientY, pendingParams.centerX, pendingParams.centerY)
    {
      isDragging := true;
      dragStart := DragStart(clientX, clientY, pendingParams.centerX, pendingParams.centerY);
    }

    /** mousemove: while dragging, pan from the drag start and start a render
        (not throttled); otherwise nothing. */
    method MouseMove(clientX: real, clientY: real, width: nat, height: nat) returns (job: RenderJob?)
      requires Valid() && width > 0 && height > 0
      modifies this`pendingParams, this`renderId, this`abortRender
      ensures Valid()
      ensures !isDragging ==> job == null && pendingParams == old(pendingParams) && renderId == old(renderId)
      ensures !isDragging ==> abortRender == old(abortRender)
      ensures isDragging ==> pendingParams == DragPan(old(pendingParams), width, height, dragStart, clientX, clientY)
      ensures isDragging ==> job != null && fresh(job) && fresh(job.data) && job.Valid() && job.status == Running
      ensures isDragging ==> !job.throttled && job.id == renderId == old(renderId) + 1 && !abortRender
      ensures isDragging ==> job.snapshot == Snapshot(pendingParams) && job.width == width && job.height == height
    {
      if !isDragging {
        return null;
      }
      pendingParams := DragPan(pendingParams, width, height, dragStart, clientX, clientY);
      job := RenderStart(width, height, false);
    }

    /** mouseup: end any drag. */
    method MouseUp()
      modifies this`isDragging
      ensures !isDragging
    {
      if isDragging {
        isDragging := false;
      }
    }
  }

  function ZoomOnly(z: real): ParamsUpdate {
    ParamsUpdate(Some(z), None, None, None, None)
  }

  /** Three zoom changes in a row while the first render is in flight: the
      render of zoom z1 (one pixel already done) and that of zoom z2 both
      abort at their next pixel, and only z3 is ever committed. */
  method StaleRendersNeverCommit(z1: real, z2: real, z3: real, width: nat, height: nat)
    returns (settledZoom: real, first: JobStatus, second: JobStatus, lastCommitted: nat)
    requires z1 > 0.0 && z2 > 0.0 && z3 > 0.0 && width >= 2 && height >= 1
    ensures settledZoom == z3 && first == Aborted && second == Aborted && lastCommitted == 3
  {
    var s := new Scheduler();
    var a := s.ParamsEvent(ZoomOnly(z1), width, height);
    var abortedA := s.RenderPixel(a, 0, 0);
    assert !abortedA;
    var b := s.ParamsEvent(ZoomOnly(z2), width, height);
    var c := s.ParamsEvent(ZoomOnly(z3), width, height);
    abortedA := s.RenderPixel(a, 1, 0);
    var abortedB := s.RenderPixel(b, 0, 0);
    var committed, _ := s.RunJob(c, 0.0);
    settledZoom, first, second := s.params.zoom, a.status, b.status;
    lastCommitted := s.lastCompletedRenderId;
  }

  /** A burst of wheel events, each handled after the previous one returned,
      with the 10 ms timer firing only after the last: the first event renders
      at once, the others only queue, and the timer starts one more render.
      Two renders in all for two or more events, and what is settled at the
      end is the parameters after the whole burst. */
  method WheelBurst(events: seq<WheelEvent>, width: nat, height: nat) returns (starts: nat, settled: ViewParams)
    requires |events| >= 1 && width > 0 && height > 0
    ensures starts == (if |events| >= 2 then 2 else 1)
    ensures settled == Snapshot(WheelZoomAll(InitialParams, width, height, events))
  {
    var s := new Scheduler();
    starts := 0;
    var i := 0;
    while i < |events|
      invariant 0 <= i <= |events|
      invariant s.Valid()
      invariant WheelZoomAll(s.pendingParams, width, height, events[i..]) == WheelZoomAll(InitialParams, width, height, events)
      invariant i == 0 ==> !s.throttleActive && !s.throttleQueued && s.pendingTimers == 0 && starts == 0
      invariant i > 0 ==> s.throttleActive && s.pendingTimers == 1 && starts == 1 && s.throttleQueued == (i >= 2)
      invariant i == 1 ==> s.params == Snapshot(s.pendingParams)
    {
      assert events[i..][0] == events[i] && events[i..][1..] == events[i + 1..];
      var job := s.Wheel(events[i], width, height);
      if job != null {
        var committed, _ := s.RunJob(job, 0.0);
        starts := starts + 1;
      }
      i := i + 1;
    }
    assert events[|events|..] == [];
    var job := s.TimerFires(width, height);
    if job != null {
      var committed, _ := s.RunJob(job, 0.0);
      starts := starts + 1;
    }
    settled := s.params;
  }

  /** Two renders of the same parameters on the same canvas, one after the
      other and from any reachable state, put the same bytes on the canvas:
      the complete frame of the pending parameters. On an empty canvas both
      are refused and the canvas keeps what it showed. */
  method RepeatedRenderIsIdentical(s: Scheduler, width: nat, height: nat)
    returns (firstFrame: seq<byte>, secondFrame: seq<byte>)
    requires s.Valid()
    modifies s
    ensures firstFrame == secondFrame
    ensures width > 0 && height > 0 ==> |firstFrame| == 4 * width * height
    ensures width > 0 && height > 0 ==>
              CompleteFrame(secondFrame, Expected(Snapshot(old(s.pendingParams)), width, height), width, height)
    ensures width == 0 || height == 0 ==> secondFrame == old(s.displayed)
  {
    var j1, c1, _ := s.DrawMandelbrot(width, height, false, 0.0);
    firstFrame := s.displayed;
    var p1 := s.params;
    var j2, c2, _ := s.DrawMandelbrot(width, height, false, 0.0);
    secondFrame := s.displayed;
    if c1 {
      CompleteFrameUnique(firstFrame, secondFrame, Expected(p1, width, height), width, height);
    }
  }
}
