/**
  What the panel containers and the mask ask of the platform: the
  application's windows, the status-bar frame, the application frame, the
  OS version and the status-bar orientation. The platform is not modelled;
  a `Host` value is a snapshot of its answers, passed in by the caller.
*/
module Platform {
  import opened Wrappers
  import opened Geometry

  datatype Orientation = Unknown | Portrait | PortraitUpsideDown | LandscapeLeft | LandscapeRight

  /**
    One application window, reduced to what the search needs: the height
    of the navigation bar of its root view controller when that controller
    is a navigation controller, and None otherwise.
  */
  datatype Window = Window(navigationBarHeight: Option<real>)

  /**
    A snapshot of the platform. `metricsAvailable` is false when reading
    the window and status-bar metrics fails, which sends the navigation-bar
    size to its fixed fallback.
  */
  datatype Host = Host(
    windows: seq<Window>,
    statusBarFrame: Rect,
    applicationFrame: Rect,
    atLeastIOS8: bool,
    orientation: Orientation,
    metricsAvailable: bool)

  /** Chrome height used when the platform metrics cannot be read. */
  const FallbackNavigationBarSize: real := 62.5

  /** Whether sizes must be swapped: an OS older than 8.0 held in landscape. */
  function ShouldAdoptForIOS7(host: Host): (adopt: bool)
    ensures adopt <==> !host.atLeastIOS8 && host.orientation in {LandscapeLeft, LandscapeRight}
  {
    !(host.atLeastIOS8 || (host.orientation != LandscapeLeft && host.orientation != LandscapeRight))
  }

  /**
    The navigation-bar height of the first window whose root controller is
    a navigation controller, or 0 when there is none.
  */
  function FirstNavigationBarHeight(windows: seq<Window>): real
  {
    if |windows| == 0 then 0.0
    else match windows[0].navigationBarHeight
      case Some(h) => h
      case None => FirstNavigationBarHeight(windows[1..])
  }

  /** The first window with a navigation controller decides the height. */
  lemma {:induction false} FirstNavigationBarHeightAt(windows: seq<Window>, k: nat)
    requires k < |windows| && windows[k].navigationBarHeight.Some?
    requires forall j :: 0 <= j < k ==> windows[j].navigationBarHeight.None?
    ensures FirstNavigationBarHeight(windows) == windows[k].navigationBarHeight.value
  {
    if k > 0 {
      FirstNavigationBarHeightAt(windows[1..], k - 1);
    }
  }

  /** Without a navigation controller among the windows the height is 0. */
  lemma {:induction false} NoNavigationControllerMeansZero(windows: seq<Window>)
    requires forall j :: 0 <= j < |windows| ==> windows[j].navigationBarHeight.None?
    ensures FirstNavigationBarHeight(windows) == 0.0
  {
    if |windows| > 0 {
      NoNavigationControllerMeansZero(windows[1..]);
    }
  }

  /**
    The search loop shared by the navigation-bar size and the mask
    re-layout: walk the windows until one has a navigation controller.
  */
  method FindNavigationBarHeight(windows: seq<Window>) returns (height: real)
    ensures height == FirstNavigationBarHeight(windows)
  {
    var found := false;
    var rootController: Option<real> := None;
    var i := 0;
    while !found && i < |windows|
      invariant 0 <= i <= |windows|
      invariant found ==> rootController.Some? && rootController.value == FirstNavigationBarHeight(windows)
      invariant !found ==> FirstNavigationBarHeight(windows) == FirstNavigationBarHeight(windows[i..])
    {
      assert windows[i..][1..] == windows[i + 1..];
      rootController := windows[i].navigationBarHeight;
      found := rootController.Some?;
      i := i + 1;
    }
    height := if found then rootController.value else 0.0;
  }

  /**
    The container's chrome offset: the navigation-bar height plus the
    status-bar extent across the screen (its width in the swapped mode),
    or the fallback when the metrics cannot be read.
  */
  function NavigationBarSize(host: Host): (size: real)
    ensures !host.metricsAvailable ==> size == FallbackNavigationBarSize
    ensures host.metricsAvailable ==>
      size - FirstNavigationBarHeight(host.windows)
        == if ShouldAdoptForIOS7(host) then host.statusBarFrame.width else host.statusBarFrame.height
  {
    if !host.metricsAvailable then FallbackNavigationBarSize
    else
      var height := FirstNavigationBarHeight(host.windows);
      height + (if !ShouldAdoptForIOS7(host) then host.statusBarFrame.height else host.statusBarFrame.width)
  }
}
