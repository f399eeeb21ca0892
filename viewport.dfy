/** The viewport transforms, with exact real arithmetic in place of doubles.
    The renderer maps a pixel with one scale per axis, 3 / (extent * zoom);
    the wheel and drag handlers use one scale for both axes, based on
    min(width, height). The two agree only on a square canvas. */
module Viewport {
  import opened Views

  /** Complex-plane units per pixel along an axis of the given extent. */
  function Scale(extent: real, zoom: real): (s: real)
    requires extent > 0.0 && zoom > 0.0
    ensures s > 0.0
  {
    3.0 / (extent * zoom)
  }

  /** Where the renderer samples pixel (x, y). */
  function PixelToWorld(p: ViewParams, width: nat, height: nat, x: real, y: real): Complex
    requires width > 0 && height > 0 && p.zoom > 0.0
  {
    Complex(p.centerX + (x - width as real / 2.0) * Scale(width as real, p.zoom),
            p.centerY + (y - height as real / 2.0) * Scale(height as real, p.zoom))
  }

  /** The inverse of PixelToWorld. */
  function WorldToPixel(p: ViewParams, width: nat, height: nat, c: Complex): (real, real)
    requires width > 0 && height > 0 && p.zoom > 0.0
  {
    ((c.re - p.centerX) / Scale(width as real, p.zoom) + width as real / 2.0,
     (c.im - p.centerY) / Scale(height as real, p.zoom) + height as real / 2.0)
  }

  lemma {:induction false} DivMulCancel(a: real, s: real)
    requires s != 0.0
    ensures (a * s) / s == a && (a / s) * s == a
  {
  }

  /** The renderer's transform and its inverse undo each other, both ways round. */
  lemma {:induction false} PixelWorldRoundTrip(p: ViewParams, width: nat, height: nat, x: real, y: real, c: Complex)
    requires width > 0 && height > 0 && p.zoom > 0.0
    ensures WorldToPixel(p, width, height, PixelToWorld(p, width, height, x, y)) == (x, y)
    ensures PixelToWorld(p, width, height, WorldToPixel(p, width, height, c).0, WorldToPixel(p, width, height, c).1) == c
  {
    var sx, sy := Scale(width as real, p.zoom), Scale(height as real, p.zoom);
    var hw, hh := width as real / 2.0, height as real / 2.0;
    var w := PixelToWorld(p, width, height, x, y);
    assert w.re - p.centerX == (x - hw) * sx;
    assert w.im - p.centerY == (y - hh) * sy;
    DivMulCancel(x - hw, sx);
    DivMulCancel(y - hh, sy);
    assert (w.re - p.centerX) / sx + hw == x;
    assert (w.im - p.centerY) / sy + hh == y;
    DivMulCancel(c.re - p.centerX, sx);
    DivMulCancel(c.im - p.centerY, sy);
  }

  /** The scale of the wheel and drag handlers. */
  function MinScale(width: nat, height: nat, zoom: real): (s: real)
    requires width > 0 && height > 0 && zoom > 0.0
    ensures s > 0.0
  {
    Scale(if width < height then width as real else height as real, zoom)
  }

  /** The world point under a cursor at canvas offset (ox, oy), by the handlers' scale. */
  function CursorWorld(p: ViewParams, width: nat, height: nat, ox: real, oy: real): Complex
    requires width > 0 && height > 0 && p.zoom > 0.0
  {
    var s := MinScale(width, height, p.zoom);
    Complex(p.centerX + (ox - width as real / 2.0) * s, p.centerY + (oy - height as real / 2.0) * s)
  }

  /** A wheel event: cursor offset, vertical delta and the ctrl key. */
  datatype WheelEvent = WheelEvent(offsetX: real, offsetY: real, deltaY: real, ctrlKey: bool)

  /** Zoom step per wheel event: finer with ctrl held. */
  function ZoomFactor(ctrlKey: bool): (f: real)
    ensures f > 1.0
  {
    if ctrlKey then 1.05 else 1.15
  }

  /** The smallest zoom the wheel allows. */
  const MinZoom: real := 0.5

  /** The zoom after a wheel event: multiplied by the factor for a negative
      delta, divided by it otherwise, and never below 0.5. */
  function NextZoom(zoom: real, deltaY: real, ctrlKey: bool): (z: real)
    requires zoom > 0.0
    ensures z >= MinZoom
    ensures deltaY < 0.0 ==> z > zoom
    ensures deltaY >= 0.0 ==> z == MinZoom || z < zoom
  {
    var f := ZoomFactor(ctrlKey);
    assert zoom < zoom * f;
    assert zoom / f < zoom by { DivMulCancel(zoom, f); }
    var z0 := if deltaY < 0.0 then zoom * f else zoom / f;
    if MinZoom > z0 then MinZoom else z0
  }

  /** The parameters at zoom newZoom, re-centred so that the world point under
      the cursor at offset (ox, oy) stays there. */
  function ZoomAbout(p: ViewParams, width: nat, height: nat, ox: real, oy: real, newZoom: real): (r: ViewParams)
    requires width > 0 && height > 0 && p.zoom > 0.0 && newZoom > 0.0
    ensures r.zoom == newZoom && r.maxIter == p.maxIter && r.gradient == p.gradient
    ensures CursorWorld(r, width, height, ox, oy) == CursorWorld(p, width, height, ox, oy)
  {
    var scale := MinScale(width, height, p.zoom);
    var mouseX := ox - width as real / 2.0;
    var mouseY := oy - height as real / 2.0;
    var worldX := p.centerX + mouseX * scale;
    var worldY := p.centerY + mouseY * scale;
    var newScale := MinScale(width, height, newZoom);
    var r := p.(centerX := worldX - mouseX * newScale, centerY := worldY - mouseY * newScale, zoom := newZoom);
    assert CursorWorld(p, width, height, ox, oy) == Complex(worldX, worldY);
    assert CursorWorld(r, width, height, ox, oy) == Complex(r.centerX + mouseX * newScale, r.centerY + mouseY * newScale);
    r
  }

  /** The new pending parameters after a wheel event: zoom in for a negative
      delta, out otherwise, clamped below at 0.5, and the centre moved so that
      the point under the cursor stays there. */
  function WheelZoom(p: ViewParams, width: nat, height: nat, e: WheelEvent): (r: ViewParams)
    requires width > 0 && height > 0 && p.zoom > 0.0
    ensures r.zoom >= MinZoom
    ensures e.deltaY < 0.0 ==> r.zoom > p.zoom
    ensures e.deltaY >= 0.0 ==> r.zoom == MinZoom || r.zoom < p.zoom
    ensures CursorWorld(r, width, height, e.offsetX, e.offsetY) == CursorWorld(p, width, height, e.offsetX, e.offsetY)
    ensures r.maxIter == p.maxIter && r.gradient == p.gradient
  {
    ZoomAbout(p, width, height, e.offsetX, e.offsetY, NextZoom(p.zoom, e.deltaY, e.ctrlKey))
  }

  /** All events of a wheel burst applied in order. */
  function WheelZoomAll(p: ViewParams, width: nat, height: nat, events: seq<WheelEvent>): (r: ViewParams)
    requires width > 0 && height > 0 && p.zoom > 0.0
    ensures r.zoom > 0.0
    ensures events != [] ==> r.zoom >= MinZoom
    ensures r.maxIter == p.maxIter && r.gradient == p.gradient
    decreases |events|
  {
    if events == [] then p else WheelZoomAll(WheelZoom(p, width, height, events[0]), width, height, events[1..])
  }

  /** Where a drag started: pointer position and the centre at that moment. */
  datatype DragStart = DragStart(x: real, y: real, centerX: real, centerY: real)

  /** The new pending parameters while dragging: the centre at drag start,
      moved against the pointer's travel by the handlers' scale. */
  function DragPan(p: ViewParams, width: nat, height: nat, start: DragStart, clientX: real, clientY: real): ViewParams
    requires width > 0 && height > 0 && p.zoom > 0.0
  {
    var s := MinScale(width, height, p.zoom);
    p.(centerX := start.centerX - (clientX - start.x) * s, centerY := start.centerY - (clientY - start.y) * s)
  }

  /** Dragging keeps the grabbed point under the pointer: whatever the canvas
      origin (left, top) in client coordinates, the world point now under the
      pointer is the one that was under it when the drag started, at the
      current zoom. */
  lemma {:induction false} DragKeepsGrabbedPoint(p: ViewParams, width: nat, height: nat, start: DragStart,
                                                 clientX: real, clientY: real, left: real, top: real)
    requires width > 0 && height > 0 && p.zoom > 0.0
    ensures var r := DragPan(p, width, height, start, clientX, clientY);
      r.zoom == p.zoom && r.maxIter == p.maxIter && r.gradient == p.gradient &&
      CursorWorld(r, width, height, clientX - left, clientY - top)
        == CursorWorld(p.(centerX := start.centerX, centerY := start.centerY), width, height, start.x - left, start.y - top)
  {
    var s := MinScale(width, height, p.zoom);
    var hw, hh := width as real / 2.0, height as real / 2.0;
    calc {
      start.centerX - (clientX - start.x) * s + (clientX - left - hw) * s;
      start.centerX + ((clientX - left - hw) - (clientX - start.x)) * s;
      start.centerX + (start.x - left - hw) * s;
    }
    calc {
      start.centerY - (clientY - start.y) * s + (clientY - top - hh) * s;
      start.centerY + ((clientY - top - hh) - (clientY - start.y)) * s;
      start.centerY + (start.y - top - hh) * s;
    }
  }
}
