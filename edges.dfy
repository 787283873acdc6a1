/**
  Edge-specific geometry of the overlapping panel containers: the resting
  rectangle (`PanelPosition`) of a left or right panel and the re-layout
  rule of `SetFrames`.
*/
module Edges {
  import opened Geometry

  datatype Edge = Left | Right

  /**
    The resting rectangle of a left panel: just off the left edge, below
    the chrome offset. In the swapped (pre-iOS 8 landscape) mode the
    panel's height serves as its width and the container's width as its
    height.
  */
  function LeftPanelPosition(size: Size, bounds: Rect, navBarSize: real, adopt: bool): (r: Rect)
    ensures r.x + r.width == 0.0
    ensures r.y == navBarSize
    ensures r.width == if adopt then size.height else size.width
    ensures r.y + r.height == if adopt then bounds.width else bounds.height
  {
    if !adopt then
      Rect(-size.width, navBarSize, size.width, bounds.height - navBarSize)
    else
      Rect(-size.height, navBarSize, size.height, bounds.width - navBarSize)
  }

  /** The swapped mode is the normal mode applied to transposed sizes. */
  lemma AdoptedLeftPositionIsTransposed(size: Size, bounds: Rect, navBarSize: real)
    ensures LeftPanelPosition(size, bounds, navBarSize, true)
         == LeftPanelPosition(size.Transposed(), bounds.Transposed(), navBarSize, false)
  {
  }

  /**
    The resting rectangle of a right panel: flush with the container's
    right edge, below the chrome offset; there is no swapped mode.
  */
  function RightPanelPosition(size: Size, bounds: Rect, navBarSize: real): (r: Rect)
    ensures r.x + r.width == bounds.width
    ensures r.y == navBarSize && r.width == size.width
    ensures r.y + r.height == bounds.height
  {
    Rect(bounds.width - size.width, navBarSize, size.width, bounds.height - navBarSize)
  }

  function PanelPosition(edge: Edge, size: Size, bounds: Rect, navBarSize: real, adopt: bool): Rect {
    match edge
    case Left => LeftPanelPosition(size, bounds, navBarSize, adopt)
    case Right => RightPanelPosition(size, bounds, navBarSize)
  }

  /**
    The X a left `SetFrames` gives the panel view: the current X when a
    slide has ended or the view is displaced from both 0 and the resting
    X, the resting X otherwise. Only a view at exactly 0 with no ended
    slide snaps back; every other view keeps its X.
  */
  function LeftLayoutX(slidingEnded: bool, panelX: real, restX: real): (x: real)
    ensures x == if !slidingEnded && panelX == 0.0 then restX else panelX
  {
    if slidingEnded || (panelX != 0.0 && panelX != restX) then panelX else restX
  }

  /**
    The X a right `SetFrames` gives the panel view. Its second test
    compares `boundsWidth - sizeWidth` with the resting X, which is that
    very difference, so the view keeps its X exactly when a slide has
    ended.
  */
  function RightLayoutX(slidingEnded: bool, panelX: real, boundsWidth: real, sizeWidth: real, restX: real): (x: real)
    ensures restX == boundsWidth - sizeWidth ==> x == if slidingEnded then panelX else restX
  {
    if slidingEnded || (panelX != boundsWidth && boundsWidth - sizeWidth != restX) then panelX else restX
  }

  /** The two frames `SetFrames` writes: the container view's and the panel view's. */
  datatype Frames = Frames(container: Rect, panel: Rect)

  /**
    One `SetFrames`. The panel view moves to the chosen X at the top of
    the container and takes the size the container frame had before this
    call; the container takes the resting rectangle, at X 0 on the left
    edge and at the chosen X on the right edge.
  */
  function SetFramesStep(edge: Edge, slidingEnded: bool, rest: Rect, boundsWidth: real, sizeWidth: real, f: Frames): (r: Frames)
    ensures r.panel == Rect(r.panel.x, 0.0, f.container.width, f.container.height)
    ensures r.container == rest.(x := if edge == Left then 0.0 else r.panel.x)
    ensures r.panel.x == f.panel.x || r.panel.x == rest.x
    ensures slidingEnded ==> r.panel.x == f.panel.x
  {
    var x := match edge
      case Left => LeftLayoutX(slidingEnded, f.panel.x, rest.x)
      case Right => RightLayoutX(slidingEnded, f.panel.x, boundsWidth, sizeWidth, rest.x);
    Frames(rest.(x := if edge == Left then 0.0 else x), Rect(x, 0.0, f.container.width, f.container.height))
  }

  /**
    Re-layout settles after two calls when the resting rectangle stays
    the same between calls (the container's bounds are not derived from
    the frame just written): a third call changes nothing, and the second
    changes something exactly when the container frame's size differed
    from the resting size before the first.
  */
  lemma SetFramesSettles(edge: Edge, slidingEnded: bool, rest: Rect, boundsWidth: real, sizeWidth: real, f: Frames)
    ensures var once := SetFramesStep(edge, slidingEnded, rest, boundsWidth, sizeWidth, f);
            var twice := SetFramesStep(edge, slidingEnded, rest, boundsWidth, sizeWidth, once);
            && SetFramesStep(edge, slidingEnded, rest, boundsWidth, sizeWidth, twice) == twice
            && (twice == once <==> f.container.width == rest.width && f.container.height == rest.height)
  {
  }
}
