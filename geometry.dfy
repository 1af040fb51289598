/**
 The scrollbar geometry ScrollableCanvas.render derives from the view bounds
 (the visible rectangle in art-board coordinates): for each axis, how long the
 thumb is and where it starts, both as percentages of the track.
 */
module ScrollbarGeometry {
  import opened Wrappers

  /** paper.view.bounds: the visible rectangle, in art-board coordinates. */
  datatype Rect = Rect(x: real, y: real, width: real, height: real)

  /** The four percentages render passes to the scrollbar component. */
  datatype Scrollbars = Scrollbars(
    widthPercent: real, heightPercent: real,
    leftPercent: real, topPercent: real)

  function Min(a: real, b: real): (r: real) { if a <= b then a else b }
  function Max(a: real, b: real): (r: real) { if a >= b then a else b }

  /**
   Thumb length along one axis: the share of the board the view covers,
   capped at the whole track.
   */
  function LengthPercent(extent: real, board: real): (p: real)
    requires board > 0.0
    ensures p <= 100.0
    ensures p == 100.0 <==> extent >= board
    ensures extent <= board ==> p * board == 100.0 * extent
    ensures extent >= 0.0 ==> p >= 0.0
  {
    Min(100.0, 100.0 * extent / board)
  }

  /**
   Thumb start along one axis: the thumb is centred on the view's centre and
   pinned at the start of the track.
   */
  function StartPercent(origin: real, extent: real, board: real): (p: real)
    requires board > 0.0
    ensures p >= 0.0
    ensures p * board >= 100.0 * (origin + extent / 2.0) - LengthPercent(extent, board) / 2.0 * board
    ensures p == 0.0 || (p + LengthPercent(extent, board) / 2.0) * board == 100.0 * (origin + extent / 2.0)
  {
    var center := (origin + extent / 2.0) / board;
    assert center * board == origin + extent / 2.0;
    assert (100.0 * center - LengthPercent(extent, board) / 2.0) * board ==
           100.0 * (origin + extent / 2.0) - LengthPercent(extent, board) / 2.0 * board;
    Max(0.0, 100.0 * center - LengthPercent(extent, board) / 2.0)
  }

  /**
   When the view is no larger than the board, the thumb starts where the view
   starts, as a share of the board, and at 0 when the view starts before the board.
   */
  lemma StartFollowsViewOrigin(origin: real, extent: real, board: real)
    requires board > 0.0
    requires extent <= board
    ensures StartPercent(origin, extent, board) * board == 100.0 * Max(0.0, origin)
  {
  }

  /**
   The geometry of render: all zero while no project is loaded; otherwise
   per axis a length from LengthPercent and a start from StartPercent.
   */
  function Project(bounds: Option<Rect>, boardWidth: real, boardHeight: real): (s: Scrollbars)
    requires boardWidth > 0.0 && boardHeight > 0.0
    ensures bounds.None? ==> s == Scrollbars(0.0, 0.0, 0.0, 0.0)
    ensures s.widthPercent <= 100.0 && s.heightPercent <= 100.0
    ensures s.leftPercent >= 0.0 && s.topPercent >= 0.0
    ensures bounds.Some? ==>
      var b := bounds.value;
      s.widthPercent == LengthPercent(b.width, boardWidth) &&
      s.heightPercent == LengthPercent(b.height, boardHeight) &&
      s.leftPercent == StartPercent(b.x, b.width, boardWidth) &&
      s.topPercent == StartPercent(b.y, b.height, boardHeight)
  {
    match bounds
    case None => Scrollbars(0.0, 0.0, 0.0, 0.0)
    case Some(b) =>
      Scrollbars(
        LengthPercent(b.width, boardWidth), LengthPercent(b.height, boardHeight),
        StartPercent(b.x, b.width, boardWidth), StartPercent(b.y, b.height, boardHeight))
  }

  /** A view that shows exactly the board fills both tracks. */
  lemma WholeBoardFillsTracks(boardWidth: real, boardHeight: real)
    requires boardWidth > 0.0 && boardHeight > 0.0
    ensures Project(Some(Rect(0.0, 0.0, boardWidth, boardHeight)), boardWidth, boardHeight) ==
            Scrollbars(100.0, 100.0, 0.0, 0.0)
  {
  }

  /** Half the board, centred, gives a half-length thumb starting at a quarter of the track. */
  lemma CentredHalfAxis(board: real)
    requires board > 0.0
    ensures LengthPercent(board / 2.0, board) == 50.0
    ensures StartPercent(board / 4.0, board / 2.0, board) == 25.0
  {
  }

  /** A centred view of half the board's size gives half-length thumbs starting at a quarter. */
  lemma CentredHalfView(boardWidth: real, boardHeight: real)
    requires boardWidth > 0.0 && boardHeight > 0.0
    ensures Project(Some(Rect(boardWidth / 4.0, boardHeight / 4.0, boardWidth / 2.0, boardHeight / 2.0)),
                    boardWidth, boardHeight) ==
            Scrollbars(50.0, 50.0, 25.0, 25.0)
  {
    CentredHalfAxis(boardWidth);
    CentredHalfAxis(boardHeight);
  }

  /** The same two views on a 480 by 360 board. */
  lemma StageSizedScenarios()
    ensures Project(Some(Rect(0.0, 0.0, 480.0, 360.0)), 480.0, 360.0) == Scrollbars(100.0, 100.0, 0.0, 0.0)
    ensures Project(Some(Rect(120.0, 90.0, 240.0, 180.0)), 480.0, 360.0) == Scrollbars(50.0, 50.0, 25.0, 25.0)
  {
  }
}
