# penumbra, modelled in Dafny

penumbra is a macOS menu-bar utility that dims every screen except the
focused window. Each screen has a borderless overlay window whose view fills
the screen with translucent black. The view leaves a hole where the focused
window is. The hole's corners are rounded with the window's own corner
radius, except where the window reaches the screen's edge; those corners are
square. A focus tracker follows the frontmost application through
accessibility notifications and publishes the focused window's rect and
corner radius. The application delegate hands each published rect to every
overlay, in that overlay's coordinates, and owns the enable switch and the
opacity slider.

The model has four files:

- `Geometry.dfy`
  - `Wrappers`: the `Option` type.
  - `Geometry`: points, sizes, and rectangles with standardised edges as
    CoreGraphics computes them, plus rectangle intersection.
- `OverlayView.dfy` (`Overlay`): the pure side of drawing and the mutable
  view.
  - Pure: the flush flags, the per-corner radii, the outline of the hole as
    a sequence of path commands, and the draw decision.
  - Mutable: `OverlayView` is a class whose property setters request a
    redraw.
- `FocusTracker.dfy` (`Focus`): the tracker.
  - The system it talks to is an `AxWorld` value, which holds the
    accessibility answers and the window-server answers.
  - Every call the tracker makes is recorded in a trace.
  - Each call is applied to the set of live notification registrations and
    to the set of observer sources attached to the main run loop.
  - A pure transition specification covers start-up, switching
    applications, each notification and teardown.
  - The class `FocusTracker` is proved equal to that specification, step
    by step.
  - An invariant is proved across any run of switches and notifications.
- `AppDelegate.dfy` (`App`): the class `AppDelegate`.
  - It holds the overlays, the enabled flag, the opacity and the menu title.
  - Its loops update every overlay.

## Model

| member | source | states |
|---|---|---|
| Geometry.Intersection | Sources/OverlayView.swift:25-26 | `None` (the null rect) exactly when the rects share no point. Otherwise: a rect with non-negative size, whose points are exactly those in both inputs, and whose edges are the inner edges of the two. |
| Overlay.OverlayView.constructor | Sources/OverlayView.swift:4-16 | A new view has opacity 0.4, corner radius 10, no cutout and no pending redraw. |
| Overlay.OverlayView.SetOpacity | Sources/OverlayView.swift:4-6 | Setting the opacity stores it and requests a redraw. |
| Overlay.OverlayView.SetCornerRadius | Sources/OverlayView.swift:9-11 | Setting the corner radius stores it and requests a redraw. |
| Overlay.OverlayView.SetCutoutRect | Sources/OverlayView.swift:14-16 | Setting or clearing the cutout stores it and requests a redraw. |
| Overlay.OverlayView.Draw | Sources/OverlayView.swift:18-52 | With no graphics context, nothing is drawn. Otherwise the result is `Render`: the whole view is filled when there is no cutout, or the clipped cutout is null or empty. Otherwise the view is filled even-odd, minus the outline of the clipped cutout, with radii taken from the flush flags of the unclipped cutout. |
| Overlay.BuildRoundedRectPath | Sources/OverlayView.swift:55-108 | The commands the builder appends step by step are exactly the corner-by-corner outline `RoundedRectPath`. |
| Overlay.CornerRadiusRule | Sources/OverlayView.swift:29-39 | A corner is square when either cutout edge meeting there is flush. Otherwise it gets the base radius, unclamped. For a non-zero base radius this holds in both directions. |
| Overlay.TopFlushSquaresTopCorners | Sources/OverlayView.swift:30-37 | A top edge within the 1-point threshold of the view's top squares both top corners. |
| Overlay.FloatingCutoutFullyRounded | Sources/OverlayView.swift:30-39 | A cutout more than the threshold away from all four view edges gets the base radius at every corner. |
| Overlay.ClipPreservesFlush | Sources/OverlayView.swift:25-34 | The flush flags computed from the clipped cutout equal those computed from the unclipped one. |
| Overlay.OriginCutoutCorners | Sources/OverlayView.swift:25-39 | A 500 by 500 window at the origin of a 1920 by 1080 view is unchanged by clipping. It gets square top-left, bottom-left and bottom-right corners and a rounded top-right corner. |
| Overlay.OutlineOrder | Sources/OverlayView.swift:62-107 | The outline has nine commands: a move to the left edge at the bottom-left radius above the bottom; the corners in the order bottom-left, bottom-right, top-right, top-left, each after the first reached by a line along its arriving edge; then a close. |
| Overlay.TurnShape | Sources/OverlayView.swift:68-104 | A corner is turned by an arc exactly when its radius is positive. The arc starts its tangent at the exact corner and uses that radius. Otherwise the corner is a line to the exact corner. |
| Overlay.TangentPointsOnEdges | Sources/OverlayView.swift:65-101 | For a radius within the rect's shorter side, the arc's end and the approach point lie on the two edges meeting at the corner, each at the radius's distance from it. |
| Overlay.SquareOutlineVertices | Sources/OverlayView.swift:62-107 | With all radii zero, the outline has no arcs, and its vertices are exactly the four corners of the rect. |
| Overlay.OutlineInsideRect | Sources/OverlayView.swift:62-107 | When no corner radius exceeds the rect's shorter side, every point the outline names (corners, line ends and arc tangent points) lies inside the rect. |
| Overlay.HoleInsideView | Sources/OverlayView.swift:23-45 | When the base radius fits the clipped cutout, every point of the hole's outline lies inside the view's bounds. |
| Focus.CornerRadius | Sources/FocusTracker.swift:104-126 | The result is always positive. When the radii entry point is missing, the window id is unknown, or any window-server step fails, the result is 10. When the server reports a first radius v, the result is v if v > 0 and 10 otherwise. Any result other than 10 is a reported radius. |
| Focus.FromTopLeft | Sources/FocusTracker.swift:177-180 | The x coordinate and the size are kept. The rect's top lies at the primary screen's height minus the top-left y. |
| Focus.TopLeftRoundTrip | Sources/FocusTracker.swift:175-180 | Converting top-left accessibility geometry to a bottom-left rect and back gives the original position and size. |
| Focus.ConversionExample | Sources/FocusTracker.swift:177-180 | On a 1080-point screen, position (100, 200) with size 300 by 400 becomes the rect (100, 480, 300, 400). |
| Focus.RectInfo | Sources/FocusTracker.swift:154-183 | Something is published exactly when a window is tracked and both its position and its size are known. The published rect is the converted geometry, and the published radius is the window's `CornerRadius` lookup. |
| Focus.FocusTracker.PublishRect | Sources/FocusTracker.swift:154-183 | The callback, if installed, receives `RectInfo` of the tracked window. Nothing else changes. |
| Focus.FocusTracker.Deliver | Sources/FocusTracker.swift:29 | A value is appended to what the callback received only when a callback is installed. |
| Focus.FocusTracker.RemoveObserver | Sources/FocusTracker.swift:96-102 | An existing observer's source is detached and the observer dropped, in that order. The tracked window is forgotten either way. |
| Focus.FocusTracker.TrackApp | Sources/FocusTracker.swift:60-94 | The state becomes `TrackAppSpec`: teardown, the new pid, the focused window or none published, and, if an observer is created, the application registration, the three window registrations and the source attached last. The invariant is kept. |
| Focus.FocusTracker.HandleNotification | Sources/FocusTracker.swift:128-152 | The state becomes `NotificationSpec`, and the invariant is kept. |
| Focus.FocusTracker.constructor | Sources/FocusTracker.swift:35-46 | Start-up tracks the frontmost application if there is one. The invariant holds, and nothing has reached a callback. |
| Focus.FocusTracker.Deinit | Sources/FocusTracker.swift:48-51 | Teardown leaves no attached source and no live registration. |
| Focus.FocusTracker.SetCallback | Sources/AppDelegate.swift:93-95 | After assignment, a callback is installed. |
| Focus.AxCallback | Sources/FocusTracker.swift:186-195 | With no context pointer nothing happens. Otherwise the tracker handles the notification and keeps its invariant. |
| Focus.InitialInv | Sources/FocusTracker.swift:31-33 | A tracker with no observer satisfies the invariant. |
| Focus.RemoveObserverKeepsInv | Sources/FocusTracker.swift:96-102 | Removing the observer keeps the invariant and leaves nothing attached and nothing registered. |
| Focus.TrackAppKeepsInv | Sources/FocusTracker.swift:60-94 | Switching applications keeps the invariant. |
| Focus.NotificationKeepsInv | Sources/FocusTracker.swift:128-152 | Handling any notification keeps the invariant. |
| Focus.RunKeepsInv | Sources/FocusTracker.swift:53-58 | After any sequence of activations and callbacks: at most one observer source is attached to the main run loop, and every live registration belongs to the current observer. |
| Focus.TeardownBeforeSetup | Sources/FocusTracker.swift:60-94 | A switch first detaches and releases the old observer, keeps the earlier calls, and attaches the new source last. |
| Focus.TrackAppWithoutWindow | Sources/FocusTracker.swift:69-76 | With no focused window: nothing is tracked, one nil is published, and a new observer holds only the application-level registration and is the only attached source. |
| Focus.TrackAppWithWindow | Sources/FocusTracker.swift:69-94 | With a focused window: it is tracked and its geometry published. A new observer holds the application registration and the three window registrations, and is the only attached source. |
| Focus.SwitchTwice | Sources/FocusTracker.swift:60-102 | After two switches, only the second observer is attached, and all live registrations are the second observer's. |
| Focus.FocusChangeMovesRegistrations | Sources/FocusTracker.swift:130-146 | A focus change with an observer and a tracked window moves the three window registrations from the old window to the new one, and publishes the new window once. |
| Focus.FocusChangeWithoutPreviousWindow | Sources/FocusTracker.swift:132-146 | A focus change with no tracked window only sets the new window and publishes it. No registration is made for the new window. |
| Focus.SecondFocusChangeSubscribes | Sources/FocusTracker.swift:130-146 | After a focus change that found no tracked window, the next focus change takes the branch with a tracked window and registers the three per-window notifications on the newer window. |
| Focus.StepPublishesFallback | Sources/FocusTracker.swift:104-107 | Without the corner-radii entry point, one switch or notification publishes only rects with the fallback radius 10. |
| Focus.NoRadiiLookupPublishesFallback | Sources/FocusTracker.swift:104-107 | When the corner-radii entry point is missing, every rect published across any run of switches and notifications carries the fallback radius 10. |
| Focus.OtherNotifications | Sources/FocusTracker.swift:147-151 | Moved and resized republish the tracked window. Miniaturized publishes nil. Any other name changes nothing. |
| App.ToLocal | Sources/AppDelegate.swift:102-107 | The local origin plus the overlay's origin is the global origin, and the local size is the standardised width and height of the global rect. |
| App.LocalRoundTrip | Sources/AppDelegate.swift:102-107 | For a rect with non-negative size, converting to an overlay's coordinates and back gives the same rect. |
| App.AppDelegate.constructor | Sources/AppDelegate.swift:5-9 | The delegate starts enabled at opacity 0.4 with no overlays, and the menu item reads "Disable". |
| App.AppDelegate.SetupOverlays | Sources/AppDelegate.swift:77-89 | The overlays are replaced by one fresh, distinct view per screen, in screen order. Each shows the current opacity, or 0 when disabled. |
| App.AppDelegate.UpdateCutout | Sources/AppDelegate.swift:98-114 | Given a rect: every overlay's cutout is that rect in the overlay's coordinates, and its radius is the given one. Given none: every cutout is cleared and the radii are kept. Opacity is untouched and every overlay redraws. |
| App.AppDelegate.FocusChanged | Sources/AppDelegate.swift:93-95 | A published rect becomes every overlay's cutout with the published radius. A published nil clears every cutout. |
| App.AppDelegate.ToggleEnabled | Sources/AppDelegate.swift:118-124 | The flag flips, and the title reads "Disable" when enabled and "Enable" when disabled. Every overlay shows the stored opacity when enabled and 0 when disabled; cutouts and radii are untouched. |
| App.AppDelegate.OpacityChanged | Sources/AppDelegate.swift:126-132 | The new opacity is always stored. It reaches every overlay only while enabled; while disabled no overlay changes. |
| App.AppDelegate.SetupFocusTracker | Sources/AppDelegate.swift:91-95 | The tracker is created first and the callback is installed afterwards. Its state is the start-up state with a callback, and nothing has been delivered. |

### Behaviour the model makes explicit

- The first publish is lost (`App.AppDelegate.SetupFocusTracker`).
  - The tracker's constructor publishes the frontmost window, but the
    delegate assigns the callback only afterwards.
  - So that first publish reaches no one, and the overlays show no cutout
    until the next notification.
- A focus change after a switch that found no focused window adds no
  per-window registrations (`Focus.FocusChangeWithoutPreviousWindow`).
  - In that case the new window's moves, resizes and miniaturization are
    not followed until the next focus change or application switch; the
    next focus change does register them on the newer window
    (`Focus.SecondFocusChangeSubscribes`).
- A window at a screen's origin (`Overlay.OriginCutoutCorners`) gets three
  square corners.
  - Its left and bottom edges are flush, so top-left, bottom-left and
    bottom-right are square; only top-right is rounded.
  - The flush tests at Sources/OverlayView.swift:31-39 give this result.
- The flush flags use the unclipped cutout and the outline uses the clipped
  one. `Overlay.ClipPreservesFlush` shows that clipping cannot change the
  flags.

## Left out

- The window-server lookup of corner radii is not called. Its answers are
  the `windowIds` and `server` fields of `AxWorld`, and the dynamic lookup
  of the radii entry point is the `radiiAvailable` flag.
- Accessibility queries are not called either. Focused window, position and
  size are read from `AxWorld` maps; a missing key is a failed query.
- Creating the observer is a parameter: the created observer's id, or none
  on failure.
- The errors that adding a notification may return are ignored, as the
  source ignores them.
- Unretained self pointers and observer lifetime are not modelled
  literally. The context pointer is a nullable tracker reference. Dropping
  the last reference to an observer is the explicit `Release` call, which
  ends that observer's registrations.
- Workspace notification plumbing is left out: registering and removing the
  tracker as an observer, and extracting the application from the
  notification. An activation is an `AppActivated` event carrying the pid.
- The accessibility-permission alert and the termination of the app are
  left out.
- The status item is left out: its icon, the menu layout, the slider's
  construction and the quit item. Only the enable item's title is state.
- The screen-change observer that re-runs `SetupOverlays` is not modelled.
- Ordering windows in and out, window levels, collection behaviour and
  sharing type are left out.
- Colour, alpha compositing and pixel output are left out. `Draw` yields a
  description of what is filled rather than pixels.
- `CGFloat` is modelled as `real`, so floating-point rounding is not
  modelled.
- An overlay window is represented by its view. The window's frame is the
  screen's frame, and the view's bounds are that frame's size at the origin.
- `Geometry.Intersection`: only the null and non-null rectangle of
  CoreGraphics are distinguished. The infinite rectangle is not modelled.
