/**
 The rendering surface the scrollable canvas drives: paper.js's view, whose
 matrix holds a translation (tx, ty) in screen pixels and a uniform zoom.

 The canvas imports clampViewBounds, pan and zoomOnFixedPoint from
 src/helper/view and calls paper.view.viewToProject; their code is not part
 of this model. They are gathered in `Paper` as arbitrary total functions, so
 everything proved about the canvas holds whatever those helpers do.
 */
module PaperView {

  /** A zoom factor: the view's scale is always a positive real. */
  type Scale = z: real | z > 0.0 witness 1.0

  datatype Point = Point(x: real, y: real)

  /** A snapshot of paper.view.matrix together with paper.view.zoom. */
  datatype Transform = Transform(tx: real, ty: real, zoom: Scale)

  /** The operations the canvas borrows from src/helper/view and paper.js. */
  datatype Paper = Paper(
    clampViewBounds: Transform -> Transform,
    pan: (Transform, real, real) -> Transform,
    zoomOnFixedPoint: (Transform, real, Point) -> Transform,
    viewToProject: (Transform, Point) -> Point)

  /** paper.view: one mutable object shared by every handler of the canvas. */
  class View {
    var tx: real
    var ty: real
    var zoom: Scale

    function Matrix(): Transform
      reads this
    {
      Transform(tx, ty, zoom)
    }

    constructor (m: Transform)
      ensures Matrix() == m
    {
      tx, ty, zoom := m.tx, m.ty, m.zoom;
    }

    /** Overwrites the whole matrix, as the helpers of src/helper/view do. */
    method SetMatrix(m: Transform)
      modifies this
      ensures Matrix() == m
    {
      tx, ty, zoom := m.tx, m.ty, m.zoom;
    }
  }
}
