/**
 The ScrollableCanvas container: it turns wheel events and scrollbar drags
 into changes of the shared view (paper.view), publishes each new matrix
 through updateViewBounds, and asks for the selection box to be redrawn after
 a zoom. The effects it has on the outside world (store dispatches and
 preventDefault calls) are recorded, in order, in `effects`.
 */
module Canvas {
  import opened Wrappers
  import opened PaperView
  import opened WheelGesture
  import opened ScrollbarDrag

  /** The step of button-driven zoom; wheel handling does not use it. */
  const ZOOM_INCREMENT: real := 0.5

  /** What a handler does to the world outside the view. */
  datatype Effect =
    | UpdateViewBounds(matrix: Transform)  // props.updateViewBounds(paper.view.matrix)
    | RedrawSelectionBox                   // props.redrawSelectionBox()
    | PreventDefault                       // event.preventDefault()

  /** The matrix after the helper call a wheel action stands for. */
  function ApplyWheel(paper: Paper, m: Transform, a: WheelAction): (r: Transform)
  {
    match a
    case ZoomAbout(deltaZoom, offset) =>
      paper.zoomOnFixedPoint(m, deltaZoom, paper.viewToProject(m, offset))
    case ScrollHorizontally(dx) => paper.pan(m, dx, 0.0)
    case PanBoth(dx, dy) => paper.pan(m, dx, dy)
  }

  /**
   What a handled wheel event emits, in order: the new matrix first, a redraw
   request after a zoom and after nothing else, and the default always prevented last.
   */
  function WheelEffects(a: WheelAction, m: Transform): (effects: seq<Effect>)
    ensures |effects| == if a.ZoomAbout? then 3 else 2
    ensures effects[0] == UpdateViewBounds(m)
    ensures effects[|effects| - 1] == PreventDefault
    ensures RedrawSelectionBox in effects <==> a.ZoomAbout?
  {
    if a.ZoomAbout? then [UpdateViewBounds(m), RedrawSelectionBox, PreventDefault]
    else [UpdateViewBounds(m), PreventDefault]
  }

  /** Only a wheel event with meta or ctrl held asks for the selection box to be redrawn. */
  lemma RedrawOnlyOnZoom(e: WheelEvent, canvasLeft: real, canvasTop: real, m: Transform, after: Transform)
    ensures RedrawSelectionBox in WheelEffects(Interpret(e, canvasLeft, canvasTop, m.zoom), after) <==>
            ZoomModifier(e)
  {
  }

  /** The matrix a horizontal drag move sets before clamping: tx from the press, ty and zoom kept. */
  function DragHorizontally(m: Transform, pressedTranslation: real, pressedAt: real, pointer: real): (r: Transform)
    ensures r.ty == m.ty && r.zoom == m.zoom
    ensures pointer == pressedAt ==> r.tx == pressedTranslation
    ensures pointer > pressedAt <==> r.tx < pressedTranslation
  {
    m.(tx := DraggedTranslation(pressedTranslation, pressedAt, pointer, m.zoom))
  }

  /** The matrix a vertical drag move sets before clamping: ty from the press, tx and zoom kept. */
  function DragVertically(m: Transform, pressedTranslation: real, pressedAt: real, pointer: real): (r: Transform)
    ensures r.tx == m.tx && r.zoom == m.zoom
    ensures pointer == pressedAt ==> r.ty == pressedTranslation
    ensures pointer > pressedAt <==> r.ty < pressedTranslation
  {
    m.(ty := DraggedTranslation(pressedTranslation, pressedAt, pointer, m.zoom))
  }

  /**
   A move does not depend on where earlier moves left the dragged component:
   two matrices that differ only there give the same matrix.
   */
  lemma DragForgetsEarlierMoves(m1: Transform, m2: Transform, pressedTranslation: real, pressedAt: real, pointer: real)
    requires m1.ty == m2.ty && m1.zoom == m2.zoom
    ensures DragHorizontally(m1, pressedTranslation, pressedAt, pointer) ==
            DragHorizontally(m2, pressedTranslation, pressedAt, pointer)
  {
  }

  /** The vertical counterpart of DragForgetsEarlierMoves. */
  lemma DragVerticallyForgetsEarlierMoves(m1: Transform, m2: Transform, pressedTranslation: real, pressedAt: real, pointer: real)
    requires m1.tx == m2.tx && m1.zoom == m2.zoom
    ensures DragVertically(m1, pressedTranslation, pressedAt, pointer) ==
            DragVertically(m2, pressedTranslation, pressedAt, pointer)
  {
  }

  class ScrollableCanvas {
    /** paper.view, shared with the rest of the editor. */
    const view: View
    /** The helpers imported from src/helper/view and paper.js. */
    const paper: Paper

    /** The horizontal drag session: pointer x and view tx at the press. */
    var initialMouseX: Option<real>
    var initialScreenX: Option<real>
    /** The vertical drag session: pointer y and view ty at the press. */
    var initialMouseY: Option<real>
    var initialScreenY: Option<real>

    /** Everything the handlers emitted so far, oldest first. */
    var effects: seq<Effect>

    /** A drag session records both of its values or neither. */
    ghost predicate Valid()
      reads this
    {
      (initialMouseX.Some? <==> initialScreenX.Some?) &&
      (initialMouseY.Some? <==> initialScreenY.Some?)
    }

    constructor (view: View, paper: Paper)
      ensures Valid()
      ensures this.view == view && this.paper == paper
      ensures initialMouseX.None? && initialScreenX.None?
      ensures initialMouseY.None? && initialScreenY.None?
      ensures effects == []
    {
      this.view := view;
      this.paper := paper;
      initialMouseX, initialScreenX := None, None;
      initialMouseY, initialScreenY := None, None;
      effects := [];
    }

    /** Press on the horizontal scrollbar at pointer x: records x and the view's tx. */
    method HorizontalScrollbarMouseDown(x: real)
      requires Valid()
      modifies this`initialMouseX, this`initialScreenX, this`effects
      ensures Valid()
      ensures initialMouseX == Some(x) && initialScreenX == Some(view.tx)
      ensures effects == old(effects) + [PreventDefault]
    {
      initialMouseX := Some(x);
      initialScreenX := Some(view.tx);
      effects := effects + [PreventDefault];
    }

    /**
     Move during a horizontal drag to pointer x: sets tx from the recorded
     press, keeps ty, clamps, and publishes the clamped matrix.
     */
    method HorizontalScrollbarMouseMove(x: real)
      requires Valid() && initialMouseX.Some?
      modifies view, this`effects
      ensures view.Matrix() ==
        paper.clampViewBounds(DragHorizontally(old(view.Matrix()), initialScreenX.value, initialMouseX.value, x))
      ensures effects == old(effects) + [UpdateViewBounds(view.Matrix()), PreventDefault]
    {
      var dx := initialMouseX.value - x;
      view.tx := initialScreenX.value + (dx * view.zoom * DRAG_SPEED);
      assert view.Matrix() == DragHorizontally(old(view.Matrix()), initialScreenX.value, initialMouseX.value, x);
      view.SetMatrix(paper.clampViewBounds(view.Matrix()));
      effects := effects + [UpdateViewBounds(view.Matrix())];
      effects := effects + [PreventDefault];
    }

    /** Release of a horizontal drag: forgets the session. */
    method HorizontalScrollbarMouseUp()
      requires Valid()
      modifies this`initialMouseX, this`initialScreenX, this`effects
      ensures Valid()
      ensures initialMouseX.None? && initialScreenX.None?
      ensures effects == old(effects) + [PreventDefault]
    {
      initialMouseX := None;
      initialScreenX := None;
      effects := effects + [PreventDefault];
    }

    /** Press on the vertical scrollbar at pointer y: records y and the view's ty. */
    method VerticalScrollbarMouseDown(y: real)
      requires Valid()
      modifies this`initialMouseY, this`initialScreenY, this`effects
      ensures Valid()
      ensures initialMouseY == Some(y) && initialScreenY == Some(view.ty)
      ensures effects == old(effects) + [PreventDefault]
    {
      initialMouseY := Some(y);
      initialScreenY := Some(view.ty);
      effects := effects + [PreventDefault];
    }

    /**
     Move during a vertical drag to pointer y: sets ty from the recorded
     press, keeps tx, clamps, and publishes the clamped matrix.
     */
    method VerticalScrollbarMouseMove(y: real)
      requires Valid() && initialMouseY.Some?
      modifies view, this`effects
      ensures view.Matrix() ==
        paper.clampViewBounds(DragVertically(old(view.Matrix()), initialScreenY.value, initialMouseY.value, y))
      ensures effects == old(effects) + [UpdateViewBounds(view.Matrix()), PreventDefault]
    {
      var dy := initialMouseY.value - y;
      view.ty := initialScreenY.value + (dy * view.zoom * DRAG_SPEED);
      assert view.Matrix() == DragVertically(old(view.Matrix()), initialScreenY.value, initialMouseY.value, y);
      view.SetMatrix(paper.clampViewBounds(view.Matrix()));
      effects := effects + [UpdateViewBounds(view.Matrix())];
      effects := effects + [PreventDefault];
    }

    /** Release of a vertical drag: forgets the session. */
    method VerticalScrollbarMouseUp()
      requires Valid()
      modifies this`initialMouseY, this`initialScreenY, this`effects
      ensures Valid()
      ensures initialMouseY.None? && initialScreenY.None?
      ensures effects == old(effects) + [PreventDefault]
    {
      initialMouseY := None;
      initialScreenY := None;
      effects := effects + [PreventDefault];
    }

    /**
     A wheel event over the canvas, whose bounding rectangle starts at
     (canvasLeft, canvasTop): hands the action Interpret chooses to the view
     helpers, then emits WheelEffects of the resulting matrix.
     */
    method HandleWheel(e: WheelEvent, canvasLeft: real, canvasTop: real)
      modifies view, this`effects
      ensures view.Matrix() == ApplyWheel(paper, old(view.Matrix()), Interpret(e, canvasLeft, canvasTop, old(view.zoom)))
      ensures effects == old(effects) + WheelEffects(Interpret(e, canvasLeft, canvasTop, old(view.zoom)), view.Matrix())
    {
      var multiplier := Multiplier(e.deltaMode);
      var deltaX := e.deltaX * multiplier;
      var deltaY := e.deltaY * multiplier;
      if e.metaKey || e.ctrlKey {
        var offset := Point(e.clientX - canvasLeft, e.clientY - canvasTop);
        var fixedPoint := paper.viewToProject(view.Matrix(), offset);
        view.SetMatrix(paper.zoomOnFixedPoint(view.Matrix(), -deltaY / ZOOM_SCALE, fixedPoint));
        effects := effects + [UpdateViewBounds(view.Matrix())];
        effects := effects + [RedrawSelectionBox];
      } else if e.shiftKey && e.deltaX == 0.0 {
        var dx := deltaY / view.zoom;
        view.SetMatrix(paper.pan(view.Matrix(), dx, 0.0));
        effects := effects + [UpdateViewBounds(view.Matrix())];
      } else {
        var dx := deltaX / view.zoom;
        var dy := deltaY / view.zoom;
        view.SetMatrix(paper.pan(view.Matrix(), dx, dy));
        effects := effects + [UpdateViewBounds(view.Matrix())];
      }
      effects := effects + [PreventDefault];
    }
  }

  /**
   A drag told through the handlers: press at p0, move to p1, move back to
   p0, release. Each move clamps what the recorded press gives, and returning
   to the press point asks for the translation the press recorded.
   */
  method DragThereAndBack(paper: Paper, start: Transform, p0: real, p1: real)
  {
    var view := new View(start);
    var canvas := new ScrollableCanvas(view, paper);
    canvas.HorizontalScrollbarMouseDown(p0);
    canvas.HorizontalScrollbarMouseMove(p1);
    assert view.Matrix() == paper.clampViewBounds(DragHorizontally(start, start.tx, p0, p1));
    assert DragHorizontally(start, start.tx, p0, p1) == start.(tx := start.tx + (p0 - p1) * start.zoom * DRAG_SPEED);
    var afterFirst := view.Matrix();
    canvas.HorizontalScrollbarMouseMove(p0);
    assert view.Matrix() == paper.clampViewBounds(afterFirst.(tx := start.tx));
    canvas.HorizontalScrollbarMouseUp();
    assert canvas.initialMouseX.None? && canvas.initialScreenX.None?;
    assert canvas.effects ==
      [PreventDefault,
       UpdateViewBounds(afterFirst), PreventDefault,
       UpdateViewBounds(view.Matrix()), PreventDefault,
       PreventDefault];
  }
}
