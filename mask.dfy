/**
  The process-wide dimming mask. It holds an optional view to dim, an
  overlay created lazily the first time a bound view is masked, and a
  stored base percent. Every operation does nothing while no view is bound.
*/
module Mask {
  import opened Wrappers
  import opened Geometry
  import opened Platform

  datatype Color = Black | Custom(red: real, green: real, blue: real, alpha: real)

  /**
    The overlay view. `background` is None while it still has the
    platform's default (no colour); `inView` records whether it was added
    as a subview of the bound view.
  */
  datatype Layer = Layer(frame: Rect, background: Option<Color>, opacity: real, zPosition: real, inView: bool)

  /** The mask's whole state: a bound view or not, the overlay if created, the stored percent. */
  datatype MaskState = MaskState(viewBound: bool, mask: Option<Layer>, storedPercent: real) {

    /**
      `CheckAndCreateMask`: with a view bound and no overlay yet, create
      it; otherwise change nothing.
    */
    function AfterCheckAndCreate(color: Option<Color>, host: Host): (r: MaskState)
      ensures r.viewBound == viewBound && r.storedPercent == storedPercent
      ensures r.mask.Some? <==> viewBound || mask.Some?
      ensures !viewBound || mask.Some? ==> r == this
      ensures viewBound && mask.None? ==> r.mask == Some(CreatedLayer(color, host))
    {
      if !viewBound || mask.Some? then this
      else this.(mask := Some(CreatedLayer(color, host)))
    }

    /**
      `BringMaskToFront`: with a view bound, make sure the overlay exists
      and lift it to z-position 100; otherwise change nothing.
    */
    function AfterBringToFront(color: Option<Color>, host: Host): (r: MaskState)
      ensures r.viewBound == viewBound && r.storedPercent == storedPercent
      ensures !viewBound ==> r == this
      ensures viewBound ==> r.mask.Some? && r.mask.value.zPosition == FrontZPosition
      ensures viewBound && mask.Some? ==> r.mask == Some(mask.value.(zPosition := FrontZPosition))
      ensures viewBound && mask.None? ==> r.mask == Some(CreatedLayer(color, host).(zPosition := FrontZPosition))
    {
      if !viewBound then this
      else
        var created := AfterCheckAndCreate(color, host);
        created.(mask := Some(created.mask.value.(zPosition := FrontZPosition)))
    }

    /**
      `MaskView(percent)`: with a view bound, create the overlay if
      needed, bring it to the front and set its opacity to percent / 100;
      otherwise change nothing. The stored percent is never touched.
    */
    function AfterMaskView(percent: real, color: Option<Color>, host: Host): (r: MaskState)
      ensures r.viewBound == viewBound && r.storedPercent == storedPercent
      ensures !viewBound ==> r == this
      ensures viewBound ==> r.mask.Some? && r.mask.value.zPosition == FrontZPosition
      ensures viewBound ==> r.mask.value.opacity == percent / 100.0
      ensures viewBound && mask.Some?
              ==> r.mask == Some(mask.value.(zPosition := FrontZPosition, opacity := percent / 100.0))
      ensures viewBound && mask.None?
              ==> r.mask == Some(CreatedLayer(color, host).(zPosition := FrontZPosition, opacity := percent / 100.0))
    {
      if !viewBound then this
      else
        var created := AfterCheckAndCreate(color, host);
        var front := created.AfterBringToFront(color, host);
        front.(mask := Some(front.mask.value.(opacity := percent / 100.0)))
    }

    /** `RecalculateMaksSize`: refit an existing overlay to the application frame. */
    function AfterRecalculateSize(host: Host): (r: MaskState)
      requires mask.Some?
      ensures r.viewBound == viewBound && r.storedPercent == storedPercent
      ensures r.mask == Some(mask.value.(frame := MaskFrameFor(host)))
    {
      this.(mask := Some(mask.value.(frame := MaskFrameFor(host))))
    }
  }

  /** The stored percent before any is set; every value at or below 0 reads as the default. */
  const UnsetPercent: real := -1.0
  const DefaultPercent: real := 70.0
  const CreatedZPosition: real := -10.0
  const FrontZPosition: real := 100.0

  /** A freshly allocated view: zero frame, no background, fully opaque, at z 0, not in any view. */
  const FreshView: Layer := Layer(Rect(0.0, 0.0, 0.0, 0.0), None, 1.0, 0.0, false)

  /**
    The overlay's frame: at X 0, below the navigation bar, covering the
    application frame; in the swapped mode the application frame is read
    with its axes exchanged.
  */
  function MaskFrame(applicationFrame: Rect, navBarHeight: real, adopt: bool): (r: Rect)
    ensures r.x == 0.0
    ensures r.y - navBarHeight == if adopt then applicationFrame.x else applicationFrame.y
    ensures r.width == if adopt then applicationFrame.height else applicationFrame.width
    ensures r.height == if adopt then applicationFrame.width else applicationFrame.height
  {
    if !adopt then
      Rect(0.0, applicationFrame.y + navBarHeight, applicationFrame.width, applicationFrame.height)
    else
      Rect(0.0, applicationFrame.x + navBarHeight, applicationFrame.height, applicationFrame.width)
  }

  /** The swapped mode is the normal mode applied to the transposed application frame. */
  lemma AdoptedMaskFrameIsTransposed(applicationFrame: Rect, navBarHeight: real)
    ensures MaskFrame(applicationFrame, navBarHeight, true)
         == MaskFrame(applicationFrame.Transposed(), navBarHeight, false)
  {
  }

  function MaskFrameFor(host: Host): Rect {
    MaskFrame(host.applicationFrame, FirstNavigationBarHeight(host.windows), ShouldAdoptForIOS7(host))
  }

  /**
    The overlay as `CheckAndCreateMask` leaves it: fitted to the
    application frame, with the given background or black, transparent,
    behind its siblings at z -10, and added to the view only when a
    colour was given.
  */
  function CreatedLayer(color: Option<Color>, host: Host): (l: Layer)
    ensures l.opacity == 0.0 && l.zPosition == CreatedZPosition
    ensures l.background == Some(if color.Some? then color.value else Black)
    ensures l.inView <==> color.Some?
    ensures l.frame == MaskFrameFor(host)
  {
    var sized := FreshView.(frame := MaskFrameFor(host));
    sized.(background := Some(color.GetOr(Black)), opacity := 0.0, zPosition := CreatedZPosition, inView := color.Some?)
  }

  /** Creation happens at most once: a second check keeps the first overlay whatever it is given. */
  lemma CheckAndCreateIdempotent(s: MaskState, c1: Option<Color>, h1: Host, c2: Option<Color>, h2: Host)
    ensures s.AfterCheckAndCreate(c1, h1).AfterCheckAndCreate(c2, h2) == s.AfterCheckAndCreate(c1, h1)
  {
  }

  /** Bringing the mask to the front twice gives the state of doing it once. */
  lemma BringToFrontIdempotent(s: MaskState, c1: Option<Color>, h1: Host, c2: Option<Color>, h2: Host)
    ensures s.AfterBringToFront(c1, h1).AfterBringToFront(c2, h2) == s.AfterBringToFront(c1, h1)
  {
  }

  /** Masking twice is masking once with the second percent: the last writer wins. */
  lemma MaskViewLastWriterWins(s: MaskState, p1: real, p2: real, c1: Option<Color>, h1: Host, c2: Option<Color>, h2: Host)
    ensures s.AfterMaskView(p1, c1, h1).AfterMaskView(p2, c2, h2) == s.AfterMaskView(p2, c1, h1)
  {
  }

  /** Refitting the overlay twice gives the state of doing it once. */
  lemma RecalculateSizeIdempotent(s: MaskState, host: Host)
    requires s.mask.Some?
    ensures s.AfterRecalculateSize(host).AfterRecalculateSize(host) == s.AfterRecalculateSize(host)
  {
  }

  /**
    The shared mask object (a static class in the source: one per
    process). The host binds and unbinds the view by writing `viewBound`.
  */
  class PanelMask {
    var viewBound: bool
    var mask: Option<Layer>
    var storedPercent: real

    constructor ()
      ensures !viewBound && mask == None && storedPercent == UnsetPercent
    {
      viewBound := false;
      mask := None;
      storedPercent := UnsetPercent;
    }

    function State(): MaskState
      reads this
    {
      MaskState(viewBound, mask, storedPercent)
    }

    /**
      The `Percent` getter: the stored value when it is positive, the
      default otherwise, so it is always positive and reads 70 until a
      positive value is stored.
    */
    function Percent(): (p: real)
      reads this
      ensures p > 0.0
      ensures storedPercent > 0.0 ==> p == storedPercent
      ensures storedPercent <= 0.0 ==> p == DefaultPercent
    {
      if storedPercent > 0.0 then storedPercent else DefaultPercent
    }

    /** The `Percent` setter: stores the value as given; a positive one reads back unchanged. */
    method SetPercent(value: real)
      modifies this`storedPercent
      ensures storedPercent == value
      ensures value > 0.0 ==> Percent() == value
      ensures value <= 0.0 ==> Percent() == DefaultPercent
    {
      storedPercent := value;
    }

    method RecalculateMaskSize(host: Host)
      requires viewBound && mask.Some?
      modifies this`mask
      ensures State() == old(State()).AfterRecalculateSize(host)
    {
      var navBarHeight := FindNavigationBarHeight(host.windows);
      var frame := host.applicationFrame;
      if !ShouldAdoptForIOS7(host) {
        mask := Some(mask.value.(frame := Rect(0.0, frame.y + navBarHeight, frame.width, frame.height)));
      } else {
        mask := Some(mask.value.(frame := Rect(0.0, frame.x + navBarHeight, frame.height, frame.width)));
      }
    }

    method CheckAndCreateMask(backgroundColor: Option<Color>, host: Host)
      modifies this`mask
      ensures State() == old(State()).AfterCheckAndCreate(backgroundColor, host)
    {
      if !viewBound || mask.Some? {
        return;
      }
      mask := Some(FreshView);
      RecalculateMaskSize(host);
      var layer := mask.value;
      layer := layer.(background := Some(backgroundColor.GetOr(Black)));
      layer := layer.(opacity := 0.0, zPosition := CreatedZPosition);
      if backgroundColor.Some? {
        layer := layer.(inView := true);
      }
      mask := Some(layer);
    }

    method BringMaskToFront(backgroundColor: Option<Color>, host: Host)
      modifies this`mask
      ensures State() == old(State()).AfterBringToFront(backgroundColor, host)
    {
      if !viewBound {
        return;
      }
      CheckAndCreateMask(backgroundColor, host);
      mask := Some(mask.value.(zPosition := FrontZPosition));
    }

    method MaskView(percent: real, backgroundColor: Option<Color>, host: Host)
      modifies this`mask
      ensures State() == old(State()).AfterMaskView(percent, backgroundColor, host)
    {
      if !viewBound {
        return;
      }
      CheckAndCreateMask(backgroundColor, host);
      BringMaskToFront(backgroundColor, host);
      mask := Some(mask.value.(opacity := percent / 100.0));
    }
  }
}
