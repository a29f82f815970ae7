/**
 * Where Resize puts the embedded window. The foreign window keeps its frame
 * and caption; they are pushed outside the container by giving the window a
 * negative origin, so that what shows inside the container is exactly the
 * client area.
 */
module Geometry {
  import opened Native

  /** SystemInformation.FrameBorderSize (width, height) and SystemInformation.CaptionHeight. */
  datatype Metrics = Metrics(borderWidth: int, borderHeight: int, captionHeight: int)

  /** Size.Empty: both dimensions zero (a 0 x 5 control is not empty). */
  predicate IsEmptySize(width: int, height: int)
  {
    width == 0 && height == 0
  }

  /**
   * The client area of a captioned, framed window placed at r, in the parent's
   * coordinates: inset by the border on every side and by the caption at the top.
   */
  function ClientArea(r: Rect, m: Metrics): (c: Rect)
  {
    Rect(r.x + m.borderWidth,
         r.y + m.captionHeight + m.borderHeight,
         r.width - 2 * m.borderWidth,
         r.height - m.captionHeight - 2 * m.borderHeight)
  }

  /** The window rectangle Resize asks for, given the container's size. */
  function WindowRect(width: int, height: int, m: Metrics): (r: Rect)
    ensures ClientArea(r, m) == Rect(0, 0, width, height)
    ensures r.width >= width && r.height >= height <==>
            m.borderWidth >= 0 && m.captionHeight + 2 * m.borderHeight >= 0
  {
    Rect(-m.borderWidth,
         -(m.captionHeight + m.borderHeight),
         width + m.borderWidth * 2,
         height + m.captionHeight + m.borderHeight * 2)
  }

  /** WindowRect is the only placement whose client area fills the container exactly. */
  lemma WindowRectUnique(r: Rect, width: int, height: int, m: Metrics)
    requires ClientArea(r, m) == Rect(0, 0, width, height)
    ensures r == WindowRect(width, height, m)
  {
  }

  /** The flags of the first SetWindowPos: size only. */
  const SizeOnly: set<PosFlag> := {NoSendChanging, NoMove}
  /** The flags of the second SetWindowPos: move only. */
  const MoveOnly: set<PosFlag> := {NoSendChanging, NoSize}

  /**
   * The native calls one Resize issues for window hwnd inside a container of
   * the given size. toolKnown is false when the instance has no external tool:
   * the progress message (built because the message collector exists) then
   * reads the missing tool's name, and the exception is caught before any
   * call is made.
   */
  function ResizeCalls(hwnd: int, toolKnown: bool, width: int, height: int, m: Metrics): (calls: seq<Event>)
    ensures calls == [] <==> IsEmptySize(width, height) || !toolKnown
    ensures calls != [] ==>
              && |calls| == 2
              && calls[0].SetWindowPos? && calls[1].SetWindowPos?
              && calls[0].hwnd == hwnd && calls[1].hwnd == hwnd
              && NoMove in calls[0].flags && NoMove !in calls[1].flags
              && NoSize in calls[1].flags && NoSize !in calls[0].flags
              && calls[0].rect == calls[1].rect
              && ClientArea(calls[0].rect, m) == Rect(0, 0, width, height)
  {
    if IsEmptySize(width, height) || !toolKnown then []
    else
      var r := WindowRect(width, height, m);
      [SetWindowPos(hwnd, r, SizeOnly), SetWindowPos(hwnd, r, MoveOnly)]
  }
}
