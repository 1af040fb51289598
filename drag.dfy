/**
 The arithmetic of a scrollbar drag: a move sets the view's translation on the
 dragged axis absolutely, from the pointer coordinate and the translation
 recorded at the press. Dragging the thumb by one pixel moves the content by
 twice the zoom, the scrollbar's empirically chosen speed.
 */
module ScrollbarDrag {

  /** Content pixels per thumb pixel, per unit of zoom. */
  const DRAG_SPEED: real := 2.0

  /**
   The translation a move to `pointer` sets before clamping, for a drag that
   was pressed at `pressedAt` while the translation was `pressedTranslation`.
   */
  function DraggedTranslation(pressedTranslation: real, pressedAt: real, pointer: real, zoom: real): (t: real)
    requires zoom > 0.0
    ensures pointer == pressedAt ==> t == pressedTranslation
    ensures pointer > pressedAt <==> t < pressedTranslation
    ensures pointer < pressedAt <==> t > pressedTranslation
  {
    pressedTranslation + (pressedAt - pointer) * zoom * DRAG_SPEED
  }

  /**
   The translation moves against the pointer, strictly: moving the pointer
   further along the axis always lowers the translation.
   */
  lemma DragIsStrictlyDecreasing(pressedTranslation: real, pressedAt: real, p1: real, p2: real, zoom: real)
    requires zoom > 0.0
    requires p1 < p2
    ensures DraggedTranslation(pressedTranslation, pressedAt, p2, zoom) <
            DraggedTranslation(pressedTranslation, pressedAt, p1, zoom)
  {
    var d := p2 - p1;
    assert d * zoom > 0.0;
    calc {
      DraggedTranslation(pressedTranslation, pressedAt, p1, zoom) - DraggedTranslation(pressedTranslation, pressedAt, p2, zoom);
      (pressedAt - p1) * zoom * DRAG_SPEED - (pressedAt - p2) * zoom * DRAG_SPEED;
      d * zoom * DRAG_SPEED;
    }
  }

  /**
   Between two moves of one drag, the translation changes by the pointer's
   displacement times the drag speed and the zoom, whatever the moves in
   between did.
   */
  lemma DragIsLinear(pressedTranslation: real, pressedAt: real, p1: real, p2: real, zoom: real)
    requires zoom > 0.0
    ensures DraggedTranslation(pressedTranslation, pressedAt, p2, zoom) -
            DraggedTranslation(pressedTranslation, pressedAt, p1, zoom) ==
            (p1 - p2) * zoom * DRAG_SPEED
  {
  }

  /** Two pointer positions of one drag that give the same translation are the same position. */
  lemma DragIsInjective(pressedTranslation: real, pressedAt: real, p1: real, p2: real, zoom: real)
    requires zoom > 0.0
    requires DraggedTranslation(pressedTranslation, pressedAt, p1, zoom) ==
             DraggedTranslation(pressedTranslation, pressedAt, p2, zoom)
    ensures p1 == p2
  {
  }
}
