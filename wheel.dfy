/**
 The wheel gesture interpreter of ScrollableCanvas.handleWheel: a wheel event
 becomes exactly one of a zoom about the pointer, a horizontal scroll driven by
 the vertical delta (shift-scroll on devices that report no horizontal delta),
 or an ordinary two-axis pan. This module decides which and by how much; the
 canvas then hands the amounts to the view helpers.
 */
module WheelGesture {
  import opened PaperView

  /** WheelEvent.deltaMode for deltas counted in lines rather than pixels. */
  const DOM_DELTA_LINE: int := 1
  /** Pixels per line when a browser reports line units. */
  const LINE_HEIGHT: real := 15.0
  /** Wheel pixels per unit of zoom change. */
  const ZOOM_SCALE: real := 1000.0

  /** The fields of a DOM wheel event that handleWheel reads. */
  datatype WheelEvent = WheelEvent(
    deltaX: real, deltaY: real, deltaMode: int,
    metaKey: bool, ctrlKey: bool, shiftKey: bool,
    clientX: real, clientY: real)

  /** The one helper call a wheel event turns into. */
  datatype WheelAction =
    | ZoomAbout(deltaZoom: real, offset: Point)  // zoomOnFixedPoint about the project point under `offset`
    | ScrollHorizontally(dx: real)               // pan(dx, 0)
    | PanBoth(dx: real, dy: real)                // pan(dx, dy)

  function Multiplier(deltaMode: int): (m: real)
  {
    if deltaMode == DOM_DELTA_LINE then LINE_HEIGHT else 1.0
  }

  /** The event's deltas in pixels, whatever unit the browser used. */
  function PixelDeltas(e: WheelEvent): (d: Point)
    ensures e.deltaMode == DOM_DELTA_LINE ==> d == Point(15.0 * e.deltaX, 15.0 * e.deltaY)
    ensures e.deltaMode != DOM_DELTA_LINE ==> d == Point(e.deltaX, e.deltaY)
    ensures d.x == 0.0 <==> e.deltaX == 0.0
    ensures d.y == 0.0 <==> e.deltaY == 0.0
  {
    var m := Multiplier(e.deltaMode);
    Point(e.deltaX * m, e.deltaY * m)
  }

  /** True when the modifier that turns the wheel into a zoom (meta or ctrl) is held. */
  predicate ZoomModifier(e: WheelEvent)
  {
    e.metaKey || e.ctrlKey
  }

  /**
   Classifies a wheel event and computes its amounts. Pan amounts are screen
   pixels divided by the current zoom, that is, art-board units; `canvasLeft`
   and `canvasTop` are the canvas's bounding rectangle on screen.
   */
  function Interpret(e: WheelEvent, canvasLeft: real, canvasTop: real, zoom: real): (a: WheelAction)
    requires zoom > 0.0
    ensures a.ZoomAbout? <==> ZoomModifier(e)
    ensures a.ScrollHorizontally? <==> !ZoomModifier(e) && e.shiftKey && e.deltaX == 0.0
    ensures a.PanBoth? <==> !ZoomModifier(e) && !(e.shiftKey && e.deltaX == 0.0)
    ensures a.ZoomAbout? ==>
      a.deltaZoom * ZOOM_SCALE == -PixelDeltas(e).y &&
      a.offset == Point(e.clientX - canvasLeft, e.clientY - canvasTop)
    ensures a.ScrollHorizontally? ==> a.dx * zoom == PixelDeltas(e).y
    ensures a.PanBoth? ==> a.dx * zoom == PixelDeltas(e).x && a.dy * zoom == PixelDeltas(e).y
  {
    var d := PixelDeltas(e);
    if ZoomModifier(e) then
      ZoomAbout(-d.y / ZOOM_SCALE, Point(e.clientX - canvasLeft, e.clientY - canvasTop))
    else if e.shiftKey && e.deltaX == 0.0 then
      ScrollHorizontally(d.y / zoom)
    else
      PanBoth(d.x / zoom, d.y / zoom)
  }

  /** A line-mode event acts exactly like a pixel-mode event with fifteen times its deltas. */
  lemma LineModeIsFifteenPixels(e: WheelEvent, canvasLeft: real, canvasTop: real, zoom: real)
    requires zoom > 0.0
    requires e.deltaMode == DOM_DELTA_LINE
    ensures Interpret(e, canvasLeft, canvasTop, zoom) ==
            Interpret(e.(deltaMode := 0, deltaX := 15.0 * e.deltaX, deltaY := 15.0 * e.deltaY),
                      canvasLeft, canvasTop, zoom)
  {
  }

  /** Every deltaMode other than lines is read as pixels. */
  lemma OtherModesArePixels(e: WheelEvent, canvasLeft: real, canvasTop: real, zoom: real)
    requires zoom > 0.0
    requires e.deltaMode != DOM_DELTA_LINE
    ensures Interpret(e, canvasLeft, canvasTop, zoom) ==
            Interpret(e.(deltaMode := 0), canvasLeft, canvasTop, zoom)
  {
  }

  /** Two lines down pans as far as thirty pixels down. */
  lemma TwoLinesAreThirtyPixels(e: WheelEvent, canvasLeft: real, canvasTop: real, zoom: real)
    requires zoom > 0.0
    requires e.deltaMode == DOM_DELTA_LINE && e.deltaY == 2.0
    ensures Interpret(e, canvasLeft, canvasTop, zoom) ==
            Interpret(e.(deltaMode := 0, deltaX := 15.0 * e.deltaX, deltaY := 30.0),
                      canvasLeft, canvasTop, zoom)
  {
    LineModeIsFifteenPixels(e, canvasLeft, canvasTop, zoom);
  }

  /** With meta or ctrl held the event zooms, and shift makes no difference. */
  lemma ZoomIgnoresShift(e: WheelEvent, canvasLeft: real, canvasTop: real, zoom: real)
    requires zoom > 0.0
    requires ZoomModifier(e)
    ensures Interpret(e, canvasLeft, canvasTop, zoom).ZoomAbout?
    ensures Interpret(e.(shiftKey := true), canvasLeft, canvasTop, zoom) ==
            Interpret(e.(shiftKey := false), canvasLeft, canvasTop, zoom)
  {
  }

  /** Rolling the wheel down (positive deltaY) with the zoom modifier zooms out; up zooms in. */
  lemma WheelDownZoomsOut(e: WheelEvent, canvasLeft: real, canvasTop: real, zoom: real)
    requires zoom > 0.0
    requires ZoomModifier(e)
    ensures var a := Interpret(e, canvasLeft, canvasTop, zoom);
      (e.deltaY > 0.0 ==> a.deltaZoom < 0.0) &&
      (e.deltaY < 0.0 ==> a.deltaZoom > 0.0) &&
      (e.deltaY == 0.0 ==> a.deltaZoom == 0.0)
  {
  }

  /**
   Shift-scroll with no horizontal delta moves horizontally by exactly the
   amount the same event without shift moves vertically, and then nothing
   moves vertically.
   */
  lemma ShiftSwapsAxes(e: WheelEvent, canvasLeft: real, canvasTop: real, zoom: real)
    requires zoom > 0.0
    requires !ZoomModifier(e) && e.deltaX == 0.0
    ensures var plain := Interpret(e.(shiftKey := false), canvasLeft, canvasTop, zoom);
      plain == PanBoth(0.0, plain.dy) &&
      Interpret(e.(shiftKey := true), canvasLeft, canvasTop, zoom) == ScrollHorizontally(plain.dy)
  {
  }

  /** Shift with a non-zero horizontal delta is an ordinary two-axis pan, as if shift were up. */
  lemma ShiftWithHorizontalDeltaPansBoth(e: WheelEvent, canvasLeft: real, canvasTop: real, zoom: real)
    requires zoom > 0.0
    requires !ZoomModifier(e) && e.shiftKey && e.deltaX != 0.0
    ensures Interpret(e, canvasLeft, canvasTop, zoom).PanBoth?
    ensures Interpret(e, canvasLeft, canvasTop, zoom) ==
            Interpret(e.(shiftKey := false), canvasLeft, canvasTop, zoom)
  {
  }

  /**
   Pan speed is constant on screen: at twice the zoom, the same wheel event
   pans half as far in art-board units.
   */
  lemma PanScalesInverselyWithZoom(e: WheelEvent, canvasLeft: real, canvasTop: real, zoom: real)
    requires zoom > 0.0
    requires !ZoomModifier(e)
    ensures var a := Interpret(e, canvasLeft, canvasTop, zoom);
            var b := Interpret(e, canvasLeft, canvasTop, 2.0 * zoom);
      (a.ScrollHorizontally? ==> a.dx == 2.0 * b.dx) &&
      (a.PanBoth? ==> a.dx == 2.0 * b.dx && a.dy == 2.0 * b.dy)
  {
  }
}
