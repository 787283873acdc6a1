/**
  The overlapping panel container: a panel that slides over the main
  content from the left or right edge. One class serves both edges; the
  `edge` tag selects the resting rectangle and the re-layout rule.
*/
module Panels {
  import opened Wrappers
  import opened Geometry
  import opened Platform
  import opened Edges
  import opened Sliding
  import opened Mask

  class Panel {
    const edge: Edge
    /** The process-wide mask that a drag dims. */
    const mask: PanelMask

    // Values the hosting container owns: the panel's size, the drag-start
    // tolerance, whether the panel is showing, the container view's bounds,
    // and the platform snapshot.
    var size: Size
    var edgeTolerance: real
    var isVisible: bool
    var bounds: Rect
    var host: Host

    /** The container view's frame (`View.Frame`). */
    var frame: Rect
    /** The panel view's frame (`PanelVC.View.Frame`). */
    var panelFrame: Rect
    /** The container view's `Hidden` flag and layer z-position. */
    var hidden: bool
    var zPosition: real

    // Drag anchor and flags.
    var touchStartX: real
    var topViewStartX: real
    var appeared: bool
    var slidingEnded: bool
    /** Whether the orientation-change observer is registered. */
    var observerRegistered: bool

    constructor (edge: Edge, mask: PanelMask, size: Size, edgeTolerance: real, isVisible: bool,
                 bounds: Rect, host: Host, frame: Rect, panelFrame: Rect)
      ensures this.edge == edge && this.mask == mask && this.size == size
      ensures this.edgeTolerance == edgeTolerance && this.isVisible == isVisible
      ensures this.bounds == bounds && this.host == host
      ensures this.frame == frame && this.panelFrame == panelFrame
      ensures touchStartX == 0.0 && topViewStartX == 0.0
      ensures !appeared && !slidingEnded && !observerRegistered
    {
      this.edge := edge;
      this.mask := mask;
      this.size := size;
      this.edgeTolerance := edgeTolerance;
      this.isVisible := isVisible;
      this.bounds := bounds;
      this.host := host;
      this.frame := frame;
      this.panelFrame := panelFrame;
      touchStartX := 0.0;
      topViewStartX := 0.0;
      appeared := false;
      slidingEnded := false;
      observerRegistered := false;
    }

    /** `PanelPosition`: the resting rectangle for this panel's edge. */
    function PanelPosition(): Rect
      reads this
    {
      Edges.PanelPosition(edge, size, bounds, NavigationBarSize(host), ShouldAdoptForIOS7(host))
    }

    /**
      The panel counts as visible while its view is right of minus its
      resting width. On the left edge that is "right of the resting X". On
      the right edge it is "the view's right edge is right of X 0", so a
      right panel parked at its resting X in a container of positive width
      already counts as visible.
    */
    function IsPanelVisible(): (visible: bool)
      reads this
      ensures edge == Left ==> (visible <==> panelFrame.x > PanelPosition().x)
      ensures edge == Right ==> (visible <==> panelFrame.x + size.width > 0.0)
      ensures edge == Right && panelFrame.x == PanelPosition().x && bounds.width > 0.0 ==> visible
    {
      panelFrame.x > -1.0 * PanelPosition().width
    }

    /**
      `CanStartSliding`: a hidden panel accepts a touch only in the edge
      strip 0 <= X <= tolerance, both ends included, wherever the top view
      is; a visible panel accepts any touch inside the top view's current
      frame, whatever the tolerance.
    */
    function CanStartSliding(touch: Point, topViewCurrentFrame: Rect): (canStart: bool)
      reads this
      ensures !isVisible ==> (canStart <==> 0.0 <= touch.x <= edgeTolerance)
      ensures isVisible ==> (canStart <==> topViewCurrentFrame.Contains(touch))
    {
      if !isVisible then
        touch.x >= 0.0 && touch.x <= edgeTolerance
      else
        topViewCurrentFrame.Contains(touch)
    }

    method SlidingStarted(touch: Point, topViewCurrentFrame: Rect)
      modifies this`touchStartX, this`topViewStartX
      ensures touchStartX == touch.x && topViewStartX == topViewCurrentFrame.x
    {
      touchStartX := touch.x;
      topViewStartX := topViewCurrentFrame.x;
    }

    /**
      `Sliding`: the top view's frame with only X moved by the drag
      (clamped at 0), and the mask dimmed by the percent that X implies.
    */
    method Sliding(touch: Point, topViewCurrentFrame: Rect) returns (r: Rect)
      modifies mask
      ensures r == topViewCurrentFrame.(x := SlideX(topViewStartX, touchStartX, touch.x))
      ensures mask.State()
           == old(mask.State()).AfterMaskView(SlidingMaskPercent(PanelPosition().x, r.x, old(mask.Percent())), None, host)
    {
      var translation := touch.x - touchStartX;
      var slid := topViewCurrentFrame;
      slid := slid.(x := topViewStartX + translation);
      if slid.x >= 0.0 {
        slid := slid.(x := 0.0);
      }
      var percent := mask.Percent();
      if slid.x != 0.0 {
        var diff := Abs(PanelPosition().x / slid.x);
        if Abs(diff) != 0.0 {
          percent := mask.Percent() - mask.Percent() / diff;
        }
      }
      mask.MaskView(percent, None, host);
      r := slid;
    }

    /** `SlidingEnded`: decide, store and return whether the slide has ended. */
    method SlidingEnded(touch: Point, topViewCurrentFrame: Rect) returns (ended: bool)
      modifies this`slidingEnded
      ensures ended == slidingEnded
      ensures ended == SlidingEndedDecision(topViewCurrentFrame.x, touch.x, size.width, isVisible, appeared)
    {
      var rightPos := topViewCurrentFrame.x + size.width;
      slidingEnded := if topViewCurrentFrame.x == 0.0 && isVisible && appeared
                      then touch.x <= rightPos
                      else rightPos >= size.width / 2.0;
      ended := slidingEnded;
    }

    method Show()
      modifies this`zPosition, this`hidden, this`slidingEnded
      ensures zPosition == 0.0 && !hidden && !slidingEnded
    {
      zPosition := 0.0;
      hidden := false;
      slidingEnded := false;
    }

    method Hide()
      modifies this`appeared, this`slidingEnded
      ensures !appeared && !slidingEnded
    {
      appeared := false;
      slidingEnded := false;
    }

    /** `SetFrames`: re-lay out the panel view and the container view for this edge. */
    method SetFrames()
      modifies this`frame, this`panelFrame
      ensures Frames(frame, panelFrame)
           == SetFramesStep(edge, slidingEnded, PanelPosition(), bounds.width, size.width, old(Frames(frame, panelFrame)))
    {
      var position := PanelPosition();
      var container := frame;
      var x: real;
      if edge == Left {
        x := if slidingEnded || (panelFrame.x != 0.0 && panelFrame.x != PanelPosition().x)
             then panelFrame.x else PanelPosition().x;
        panelFrame := Rect(x, 0.0, container.width, container.height);
        position := position.(x := 0.0);
      } else {
        x := if slidingEnded || (panelFrame.x != bounds.width && bounds.width - size.width != PanelPosition().x)
             then panelFrame.x else PanelPosition().x;
        panelFrame := Rect(x, 0.0, container.width, container.height);
        position := position.(x := x);
      }
      frame := position;
    }

    method ViewDidLoad()
      modifies this`slidingEnded, this`frame, this`panelFrame
      ensures !slidingEnded
      ensures Frames(frame, panelFrame)
           == SetFramesStep(edge, false, PanelPosition(), bounds.width, size.width, old(Frames(frame, panelFrame)))
    {
      slidingEnded := false;
      SetFrames();
    }

    /** Lays out with the flags as they were, then marks the panel appeared and registers for rotation. */
    method ViewWillAppear()
      modifies this`frame, this`panelFrame, this`appeared, this`slidingEnded, this`observerRegistered
      ensures appeared && !slidingEnded && observerRegistered
      ensures Frames(frame, panelFrame)
           == SetFramesStep(edge, old(slidingEnded), PanelPosition(), bounds.width, size.width, old(Frames(frame, panelFrame)))
    {
      SetFrames();
      appeared := true;
      slidingEnded := false;
      observerRegistered := true;
    }

    method ViewWillDisappear()
      modifies this`observerRegistered
      ensures !observerRegistered
    {
      observerRegistered := false;
    }
  }

  /** `Show` followed by `Hide` leaves both flags as a new panel has them. */
  method ShowThenHide(p: Panel)
    modifies p
    ensures !p.appeared && !p.slidingEnded
    ensures p.touchStartX == old(p.touchStartX) && p.topViewStartX == old(p.topViewStartX)
  {
    p.Show();
    p.Hide();
  }

  /**
    A left panel 300 wide in a 400-wide container, tolerance 20: a touch
    at 10 on the hidden panel starts a drag, pulling to 310 brings the top
    view to 0 with the mask at its full default 70 percent, and releasing
    there ends the slide. Once the panel has appeared and is visible, a
    tap at 50 on the fully open panel also ends the slide.
  */
  method DragOpenScenario()
  {
    var host := Host([], Rect(0.0, 0.0, 400.0, 20.0), Rect(0.0, 20.0, 400.0, 580.0), true, Portrait, true);
    var m := new PanelMask();
    m.viewBound := true;
    var bounds := Rect(0.0, 0.0, 400.0, 600.0);
    var p := new Panel(Left, m, Size(300.0, 600.0), 20.0, false, bounds, host, bounds, Rect(-300.0, 0.0, 400.0, 600.0));
    var top := Rect(-300.0, 0.0, 300.0, 600.0);
    assert p.CanStartSliding(Point(10.0, 100.0), top);
    assert !p.CanStartSliding(Point(21.0, 100.0), top);
    p.SlidingStarted(Point(10.0, 100.0), top);
    var moved := p.Sliding(Point(310.0, 100.0), top);
    assert moved == top.(x := 0.0);
    assert m.mask.Some? && m.mask.value.opacity == 0.7;
    var ended := p.SlidingEnded(Point(310.0, 100.0), moved);
    assert ended;

    p.isVisible := true;
    p.ViewWillAppear();
    var closing := p.SlidingEnded(Point(50.0, 100.0), moved);
    assert closing;
  }
}
