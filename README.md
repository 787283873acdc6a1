# Overlapping sliding panel — a Dafny model

This project models the geometry and state logic of the overlapping
side panel of SlidingPanels.Touch. The panel slides over the main content
from the left or right screen edge and dims that content with a shared
mask while it moves. The model covers four parts:

- **Drag and slide state machine** (`OverlappingPanelContainer`), shared by
  both edges. It decides whether a touch may start a drag. It turns a
  touch into a clamped top-view X plus a mask percent. It decides on
  release whether the slide has ended, and it resets its flags on
  load, appear, show and hide.
- **Edge geometry** (`LeftOverlappingPanelContainer`,
  `RightOverlappingPanelContainer`). This is the panel's resting rectangle
  (`PanelPosition`), including the left edge's swapped pre-iOS 8
  landscape mode, and the `SetFrames` re-layout rule.
- **Dimming mask** (`PanelMask`). It has an optional bound view, an
  overlay created at most once, and a stored percent that reads as 70
  until a positive value is set. It also handles opacity and z-position
  updates and the overlay's frame.
- **Platform metrics**. These are the navigation-bar search over the
  application's windows and the chrome offset.

Modules, leaf to root:

| file | module | contents |
|---|---|---|
| wrappers.dfy | `Wrappers` | `Option` (a nullable reference) |
| geometry.dfy | `Geometry` | `Point`, `Size`, `Rect` with the half-open `Contains` of `CGRect` |
| platform.dfy | `Platform` | a `Host` snapshot of the platform, the window search loop, the chrome offset, the swapped-mode test |
| edges.dfy | `Edges` | resting rectangles per edge, the X choice of `SetFrames`, one re-layout as a function on frames |
| sliding.dfy | `Sliding` | drag clamp, mask percent, the `SlidingEnded` decision, top-view positions |
| mask.dfy | `Mask` | `MaskState` with one transition function per operation, and the class `PanelMask` whose methods follow them |
| panels.dfy | `Panels` | the class `Panel` (edge tag, host values, frames, drag anchor, flags) and two client methods |

Coordinates are `real`, standing for the source's `nfloat`/`float`. The
platform is not modelled. Whatever the source asks of it arrives as a
`Host` value: the windows, the status-bar frame, the application frame,
whether the OS is at least 8.0, the status-bar orientation, and whether
the metrics can be read at all. The values that the container's base
class owns are fields of `Panel`: `size`, `edgeTolerance`, `isVisible`,
`bounds`, `frame` and `panelFrame`. The `PanelMask` is one object that
every panel shares through `Panel.mask`. This mirrors the static class
of the source.

Some descriptions of this widget differ from the code. The model follows
the code in each case:

- `Show` sets the container's z-position to 0. It does not raise the
  panel to the front.
- `Show` and `Hide` do not cancel a drag that is in progress. They leave
  the drag anchor alone.
- The right-edge resting rectangle has no swapped mode.
- The right edge has no Y-offset option.
- The right edge uses the same drag-start strip `0 <= X <= tolerance` and
  the same clamp `X <= 0` as the left edge.

## Model

| member | source | states |
|---|---|---|
| `Geometry.ContainsIsHalfOpen` | SlidingPanels/SlidingPanels.Lib/PanelContainers/OverlappingPanelContainer.cs:188 | the frame test used to start a drag on a visible panel includes the rectangle's left edge and excludes its right edge |
| `Platform.ShouldAdoptForIOS7` | SlidingPanels/SlidingPanels.Lib/PanelContainers/OverlappingPanelContainer.cs:37-44 | sizes are swapped exactly when the OS is older than 8.0 and the status bar is in either landscape orientation |
| `Platform.FirstNavigationBarHeightAt` | SlidingPanels/SlidingPanels.Lib/PanelContainers/OverlappingPanelContainer.cs:49-60 | the first window whose root controller is a navigation controller supplies the navigation-bar height; later windows are ignored |
| `Platform.NoNavigationControllerMeansZero` | SlidingPanels/SlidingPanels.Lib/PanelContainers/OverlappingPanelContainer.cs:58-60 | with no navigation controller among the windows the navigation-bar height is 0 |
| `Platform.FindNavigationBarHeight` | SlidingPanels/SlidingPanels.Lib/PanelContainers/PanelMask.cs:61-70 | the search loop, stopping at the first navigation controller, returns the height that the first-match specification gives |
| `Platform.NavigationBarSize` | SlidingPanels/SlidingPanels.Lib/PanelContainers/OverlappingPanelContainer.cs:46-71 | the chrome offset is the fixed 62.5 when the metrics cannot be read; otherwise it is the navigation-bar height plus the status bar's height, or its width in the swapped mode |
| `Edges.LeftPanelPosition` | SlidingPanels/SlidingPanels.Lib/PanelContainers/LeftOverlappingPanelContainer.cs:39-64 | the left resting rectangle ends exactly at X 0 (x + width == 0) and starts at the chrome offset; its bottom is the container's height, or the container's width in the swapped mode; its width is the panel width, or the panel height when swapped |
| `Edges.AdoptedLeftPositionIsTransposed` | SlidingPanels/SlidingPanels.Lib/PanelContainers/LeftOverlappingPanelContainer.cs:43-62 | the swapped mode equals the normal mode applied to the panel size and container bounds with their axes exchanged |
| `Edges.RightPanelPosition` | SlidingPanels/SlidingPanels.Lib/PanelContainers/RightOverlappingPanelContainer.cs:17-25 | the right resting rectangle is flush with the container's right edge (x + width == bounds width), starts at the chrome offset, is as wide as the panel, and reaches the container's bottom |
| `Edges.LeftLayoutX` | SlidingPanels/SlidingPanels.Lib/PanelContainers/LeftOverlappingPanelContainer.cs:86 | the left re-layout keeps the panel view's X except when no slide has ended and the view is at exactly 0; then it snaps to the resting X |
| `Edges.RightLayoutX` | SlidingPanels/SlidingPanels.Lib/PanelContainers/RightOverlappingPanelContainer.cs:50 | the right re-layout's second test is always false because the resting X is bounds width minus panel width; so the view keeps its X exactly when a slide has ended, and otherwise it goes to the resting X |
| `Edges.SetFramesStep` | SlidingPanels/SlidingPanels.Lib/PanelContainers/LeftOverlappingPanelContainer.cs:81-92 | the panel view goes to the chosen X at Y 0, with the size the container frame had before the call; the container takes the resting rectangle with X 0 (left) or the chosen X (right); the chosen X is the current or the resting X, and it is the current X whenever a slide has ended |
| `Edges.SetFramesSettles` | SlidingPanels/SlidingPanels.Lib/PanelContainers/LeftOverlappingPanelContainer.cs:83-91 | for a host that restores the container's bounds between re-layouts (bounds held fixed), a third re-layout changes nothing; the second changes something exactly when the container frame's size differed from the resting size before the first |
| `Sliding.SlideX` | SlidingPanels/SlidingPanels.Lib/PanelContainers/OverlappingPanelContainer.cs:210-218 | the top view's X during a drag is never above 0 or above the start X plus the finger's travel, and equals one of the two |
| `Sliding.SlideAtStartTouch` | SlidingPanels/SlidingPanels.Lib/PanelContainers/OverlappingPanelContainer.cs:197-217 | a drag sampled at the touch where it started leaves the top view at its start X, clamped at 0 |
| `Sliding.TopViewPositionWhenVisible` | SlidingPanels/SlidingPanels.Lib/PanelContainers/OverlappingPanelContainer.cs:146-149 | the top view's position while the panel shows is its current frame |
| `Sliding.TopViewPositionWhenHidden` | SlidingPanels/SlidingPanels.Lib/PanelContainers/OverlappingPanelContainer.cs:157-161 | the top view's position while the panel is hidden is its current frame at X 0, with Y, width and height unchanged |
| `Sliding.FullDragReachesHiddenPosition` | SlidingPanels/SlidingPanels.Lib/PanelContainers/OverlappingPanelContainer.cs:214-218 | a drag pulled to or past 0 gives exactly the hidden-panel top-view position |
| `Sliding.SlidingMaskPercent` | SlidingPanels/SlidingPanels.Lib/PanelContainers/OverlappingPanelContainer.cs:219-225 | the pushed percent is the base percent when the top view is at 0 or the resting X is 0 |
| `Sliding.MaskPercentClosedForm` | SlidingPanels/SlidingPanels.Lib/PanelContainers/OverlappingPanelContainer.cs:219-225 | left of 0 the pushed percent is base * (1 + x / abs(resting X)), which is linear in the top view's X |
| `Sliding.LeftMaskPercentRange` | SlidingPanels/SlidingPanels.Lib/PanelContainers/OverlappingPanelContainer.cs:219-227 | for a left panel of width w the percent is base * (1 + x / w); it lies in [0, base] exactly when x >= -w; it equals base exactly at X 0 and 0 exactly at the resting X |
| `Sliding.LeftPercentLinear` | SlidingPanels/SlidingPanels.Lib/PanelContainers/OverlappingPanelContainer.cs:219-225 | left of 0 a left panel of width w pushes the base plus (base / w) times X, a straight line through the base at X 0 |
| `Sliding.LeftMaskPercentMonotone` | SlidingPanels/SlidingPanels.Lib/PanelContainers/OverlappingPanelContainer.cs:219-227 | for a left panel the pushed percent never decreases as the top view moves right towards 0 |
| `Sliding.SlidingEndedDecision` | SlidingPanels/SlidingPanels.Lib/PanelContainers/OverlappingPanelContainer.cs:241-243 | at X 0 on a visible, appeared panel, a release at or left of the panel's right edge ends the slide; in every other case the slide ends exactly when X >= -width / 2, that is, when the panel is at least half extended |
| `Mask.MaskState.AfterCheckAndCreate` | SlidingPanels/SlidingPanels.Lib/PanelContainers/PanelMask.cs:41-57 | afterwards an overlay exists exactly when a view is bound or one existed before; with no view or an existing overlay nothing changes; with a view and no overlay the new overlay is exactly the created layer for the given colour and host; the bound view and the stored percent are never changed |
| `Mask.MaskState.AfterBringToFront` | SlidingPanels/SlidingPanels.Lib/PanelContainers/PanelMask.cs:101-109 | with no view bound nothing changes; with one the overlay exists at z-position 100: an existing overlay changes only in its z-position, and a missing one becomes the created layer lifted to z-position 100 |
| `Mask.MaskState.AfterMaskView` | SlidingPanels/SlidingPanels.Lib/PanelContainers/PanelMask.cs:89-96 | with no view bound nothing changes; with one the overlay exists at z-position 100 with opacity percent / 100: an existing overlay keeps its frame, background and place in the view, and a missing one is the created layer with those two values changed; the stored percent is never changed |
| `Mask.MaskState.AfterRecalculateSize` | SlidingPanels/SlidingPanels.Lib/PanelContainers/PanelMask.cs:59-83 | refitting changes only the overlay's frame, to the frame derived from the application frame and the navigation bar |
| `Mask.MaskFrame` | SlidingPanels/SlidingPanels.Lib/PanelContainers/PanelMask.cs:73-80 | the overlay frame sits at X 0, one navigation bar below the application frame's Y, or below its X in the swapped mode; it is as wide and as high as the application frame, with width and height exchanged in the swapped mode |
| `Mask.AdoptedMaskFrameIsTransposed` | SlidingPanels/SlidingPanels.Lib/PanelContainers/PanelMask.cs:73-80 | the swapped-mode overlay frame equals the normal-mode frame of the application frame with its axes exchanged |
| `Mask.CreatedLayer` | SlidingPanels/SlidingPanels.Lib/PanelContainers/PanelMask.cs:46-56 | a new overlay is transparent and at z-position -10; its background is the given colour, or black when none is given; it is added to the view only when a colour was given; it is fitted to the derived frame |
| `Mask.CheckAndCreateIdempotent` | SlidingPanels/SlidingPanels.Lib/PanelContainers/PanelMask.cs:43-46 | the overlay is created at most once: a second check changes nothing, whatever colour or host it is given |
| `Mask.BringToFrontIdempotent` | SlidingPanels/SlidingPanels.Lib/PanelContainers/PanelMask.cs:101-108 | bringing the mask to the front twice gives the same state as doing it once |
| `Mask.MaskViewLastWriterWins` | SlidingPanels/SlidingPanels.Lib/PanelContainers/PanelMask.cs:89-96 | masking twice gives the state of masking once with the second percent |
| `Mask.RecalculateSizeIdempotent` | SlidingPanels/SlidingPanels.Lib/PanelContainers/PanelMask.cs:59-83 | refitting the overlay twice for the same host gives the same state as refitting it once |
| `Mask.PanelMask.constructor` | SlidingPanels/SlidingPanels.Lib/PanelContainers/PanelMask.cs:9-13 | the mask starts with no view, no overlay and the stored percent -1 |
| `Mask.PanelMask.Percent` | SlidingPanels/SlidingPanels.Lib/PanelContainers/PanelMask.cs:26-30 | the read percent is always positive; it is the stored value when that is positive and 70 otherwise, including the initial -1 |
| `Mask.PanelMask.SetPercent` | SlidingPanels/SlidingPanels.Lib/PanelContainers/PanelMask.cs:26-30 | the value is stored as given; a positive value reads back unchanged, and any other reads as 70 |
| `Mask.PanelMask.RecalculateMaskSize` | SlidingPanels/SlidingPanels.Lib/PanelContainers/PanelMask.cs:59-83 | with a view bound and an overlay present, the method's new state is the refit transition of the old one |
| `Mask.PanelMask.CheckAndCreateMask` | SlidingPanels/SlidingPanels.Lib/PanelContainers/PanelMask.cs:41-57 | the method's new state is the create-if-missing transition of the old one |
| `Mask.PanelMask.BringMaskToFront` | SlidingPanels/SlidingPanels.Lib/PanelContainers/PanelMask.cs:101-109 | the method's new state is the bring-to-front transition of the old one |
| `Mask.PanelMask.MaskView` | SlidingPanels/SlidingPanels.Lib/PanelContainers/PanelMask.cs:89-96 | the method's new state is the mask-view transition of the old one |
| `Panels.Panel.constructor` | SlidingPanels/SlidingPanels.Lib/PanelContainers/OverlappingPanelContainer.cs:15-27 | a new panel has both drag anchors at 0, neither flag set, and no observer registered |
| `Panels.Panel.IsPanelVisible` | SlidingPanels/SlidingPanels.Lib/PanelContainers/OverlappingPanelContainer.cs:163-168 | a left panel counts as visible exactly when its view is right of its resting X; a right panel counts as visible exactly when its view's right edge is right of X 0, so a right panel at its resting X in a container of positive width already counts as visible |
| `Panels.Panel.CanStartSliding` | SlidingPanels/SlidingPanels.Lib/PanelContainers/OverlappingPanelContainer.cs:183-190 | a hidden panel accepts exactly the touches with 0 <= X <= tolerance, both ends included, whatever the frame; a visible panel accepts exactly the touches inside the top view's frame, whatever the tolerance |
| `Panels.Panel.SlidingStarted` | SlidingPanels/SlidingPanels.Lib/PanelContainers/OverlappingPanelContainer.cs:197-201 | the two drag anchors become the touch X and the top view's X, and nothing else changes |
| `Panels.Panel.Sliding` | SlidingPanels/SlidingPanels.Lib/PanelContainers/OverlappingPanelContainer.cs:208-230 | the result is the given frame with only X changed, to the clamped drag position; the shared mask moves by the mask-view transition with the percent that X implies, computed from the percent read before the call |
| `Panels.Panel.SlidingEnded` | SlidingPanels/SlidingPanels.Lib/PanelContainers/OverlappingPanelContainer.cs:239-245 | the release decision is stored in the slide-ended flag and returned; nothing else changes |
| `Panels.Panel.Show` | SlidingPanels/SlidingPanels.Lib/PanelContainers/OverlappingPanelContainer.cs:247-252 | the container is unhidden at z-position 0, and only the slide-ended flag is cleared |
| `Panels.Panel.Hide` | SlidingPanels/SlidingPanels.Lib/PanelContainers/OverlappingPanelContainer.cs:254-259 | both the appeared and the slide-ended flags are cleared |
| `Panels.Panel.SetFrames` | SlidingPanels/SlidingPanels.Lib/PanelContainers/RightOverlappingPanelContainer.cs:45-56 | the two frames become the re-layout step of the old frames, for this panel's edge, resting rectangle and slide-ended flag; nothing else changes |
| `Panels.Panel.ViewDidLoad` | SlidingPanels/SlidingPanels.Lib/PanelContainers/OverlappingPanelContainer.cs:94-99 | the slide-ended flag is cleared before the re-layout, so the layout runs as if no slide had ended |
| `Panels.Panel.ViewWillAppear` | SlidingPanels/SlidingPanels.Lib/PanelContainers/OverlappingPanelContainer.cs:105-118 | the re-layout runs with the flags as they were; afterwards the panel has appeared, no slide has ended, and the rotation observer is registered |
| `Panels.Panel.ViewWillDisappear` | SlidingPanels/SlidingPanels.Lib/PanelContainers/OverlappingPanelContainer.cs:124-134 | the rotation observer is unregistered |
| `Panels.ShowThenHide` | SlidingPanels/SlidingPanels.Lib/PanelContainers/OverlappingPanelContainer.cs:247-259 | `Show` followed by `Hide` leaves both flags false, as on a new panel, and leaves the drag anchors alone |

## Left out

- Orientation notifications are reduced to one `observerRegistered` flag. The model does not capture that a second `ViewWillAppear` without a `ViewWillDisappear` registers a second observer and overwrites the reference to the first. Starting and stopping device-orientation notifications is platform plumbing and is not modelled.
- Window, status-bar and application-frame lookups are not modelled. They are host queries, and a `Host` value supplies their answers.
- The `catch` fallback to 62.5 is modelled as `Host.metricsAvailable == false`. `RecalculateMaskSize` has no such fallback in the source; a failing lookup there would raise, and that failure is not modelled.
- `View.Bounds` is a host-supplied field that `SetFrames` does not update. The platform derives a view's bounds from its frame; that coupling lies outside these files and is not modelled. With the coupling, each re-layout feeds the frame it wrote back into the next resting rectangle: on the left edge the next resting height shrinks by the chrome offset each time, and on the right edge the next resting X becomes 0 after one call. Repeated re-layouts then never settle, so `Edges.SetFramesSettles` holds only for a host that restores the bounds between re-layouts.
- `CGRect.Contains` is read as comparing the point with the origin and with origin plus size, with no standardising of negative sizes. The platform's own definition lies outside these files. The two readings differ only for frames of negative width or height.
- The base class `PanelContainer` is not part of this model. `IsVisible`, `EdgeTolerance`, `Size` and the frames are fields. `base.ViewDidLoad`, `base.ViewWillAppear`, `base.ViewWillDisappear` and `base.Hide` are assumed to change none of the modelled fields.
- Rendering is not modelled: `View.SizeToFit`, the subview order that `BringSubviewToFront` changes, and the display itself. Colours are abstract values.
- Floating point is not modelled. `nfloat` and `float` are `real`, and the `(float)` cast is not rounded. The `float.Epsilon` guard in `Sliding` is read as "the ratio is not 0".
- `Mask.PanelMask.RecalculateMaskSize`: it requires a bound view and an existing overlay. Without them the source dereferences null, for example when a rotation arrives before any mask exists. The model does not model that crash.
- Binding the mask's view is a direct write of `PanelMask.viewBound`, as the source's auto-property is.
- The initial `hidden` flag and z-position of the container belong to the base class and are left unspecified.
