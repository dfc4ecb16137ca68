/**
  Focus tracking: which window of the frontmost application is focused,
  where it is on screen and how round its corners are, kept up to date by
  accessibility notifications.

  The accessibility layer, the window server and the run loop are not
  called: each query's answer is read from an `AxWorld` value given to the
  operation, and each call the tracker makes on them (adding or removing a
  notification, attaching or detaching the observer's run-loop source,
  releasing the observer) is recorded in a trace and applied to the sets of
  live interests and attached sources.
 */
module Focus {
  import opened Wrappers
  import opened Geometry

  type Pid = int
  type ObserverId = nat
  type WindowId = nat
  newtype int32 = x: int | -0x8000_0000 <= x < 0x8000_0000

  /** An accessibility element: an application, or a UI element such as a window. */
  datatype Element = AppElement(pid: Pid) | UIElement(id: nat)

  datatype Notification =
    | FocusedWindowChanged
    | Moved
    | Resized
    | Miniaturized
    | OtherNotification(name: string)

  /** What the window server answers when asked for a window's corner radii. */
  datatype ServerReply =
    | QueryFailed                   // no query object or no result windows
    | NoWindow                      // the result iterator does not advance
    | NoRadii                       // the corner-radii call returns nothing
    | RadiiArray(values: seq<int32>)

  /**
    The answers the system gives at the moment of one operation. A missing
    key is a failed query: no focused window for that process, no position
    or size attribute, no window-server id for that element, no reply for
    that window id. `radiiAvailable` says whether the corner-radii entry
    point was found when the program started.
   */
  datatype AxWorld = AxWorld(
    focusedWindow: map<Pid, Element>,
    position: map<Element, Point>,
    size: map<Element, Size>,
    screens: seq<Rect>,
    windowIds: map<Element, WindowId>,
    radiiAvailable: bool,
    server: map<WindowId, ServerReply>)

  // ---------------------------------------------------------------------------
  // Corner radius and geometry of the focused window
  // ---------------------------------------------------------------------------

  /** The radius published whenever the window server cannot supply one. */
  const FallbackRadius: real := 10.0

  /** The window server reports `v` as the first corner radius of `e`'s window. */
  predicate ServerReportsRadius(w: AxWorld, e: Element, v: int32) {
    && w.radiiAvailable
    && e in w.windowIds
    && w.windowIds[e] in w.server
    && w.server[w.windowIds[e]].RadiiArray?
    && |w.server[w.windowIds[e]].values| > 0
    && w.server[w.windowIds[e]].values[0] == v
  }

  /**
    The lookup chain for a window's corner radius: any failed step, and a
    reported radius that is not positive, give the fallback.
   */
  function CornerRadius(w: AxWorld, e: Element): (r: real)
    ensures r > 0.0
    ensures !w.radiiAvailable || e !in w.windowIds ==> r == FallbackRadius
    ensures forall v :: ServerReportsRadius(w, e, v) ==> r == if v > 0 then v as real else FallbackRadius
    ensures r != FallbackRadius ==> exists v :: ServerReportsRadius(w, e, v) && v as real == r
  {
    if e !in w.windowIds || !w.radiiAvailable then FallbackRadius
    else
      var id := w.windowIds[e];
      if id !in w.server then FallbackRadius
      else
        match w.server[id]
        case QueryFailed => FallbackRadius
        case NoWindow => FallbackRadius
        case NoRadii => FallbackRadius
        case RadiiArray(values) =>
          if |values| == 0 then FallbackRadius
          else if values[0] > 0 then assert ServerReportsRadius(w, e, values[0]); values[0] as real
          else FallbackRadius
  }

  datatype FocusInfo = FocusInfo(rect: Rect, cornerRadius: real)

  /** Height of the first screen, or 0 when no screen is listed. */
  function PrimaryHeight(screens: seq<Rect>): real {
    if |screens| > 0 then screens[0].Height() else 0.0
  }

  /**
    Accessibility geometry (origin at the top-left of the primary screen, y
    growing downwards) as a rect with its origin at the bottom-left.
   */
  function FromTopLeft(pos: Point, size: Size, screenHeight: real): (r: Rect)
    ensures r.x == pos.x && r.w == size.width && r.h == size.height
    ensures r.y + r.h == screenHeight - pos.y
  {
    Rect(pos.x, screenHeight - pos.y - size.height, size.width, size.height)
  }

  /** The reverse conversion, back to accessibility geometry. */
  function ToTopLeft(r: Rect, screenHeight: real): (Point, Size) {
    (Point(r.x, screenHeight - r.y - r.h), Size(r.w, r.h))
  }

  lemma TopLeftRoundTrip(pos: Point, size: Size, screenHeight: real)
    ensures ToTopLeft(FromTopLeft(pos, size, screenHeight), screenHeight) == (pos, size)
  {
  }

  lemma ConversionExample()
    ensures FromTopLeft(Point(100.0, 200.0), Size(300.0, 400.0), 1080.0) == Rect(100.0, 480.0, 300.0, 400.0)
  {
  }

  /** What is published for the tracked window `focused`. */
  function RectInfo(w: AxWorld, focused: Option<Element>): (info: Option<FocusInfo>)
    ensures info.Some? <==> focused.Some? && focused.value in w.position && focused.value in w.size
    ensures info.Some? ==>
      info.value.rect == FromTopLeft(w.position[focused.value], w.size[focused.value], PrimaryHeight(w.screens))
    ensures info.Some? ==> info.value.cornerRadius == CornerRadius(w, focused.value)
    ensures info.Some? ==> info.value.cornerRadius > 0.0
  {
    match focused
    case None => None
    case Some(win) =>
      if win in w.position && win in w.size then
        Some(FocusInfo(FromTopLeft(w.position[win], w.size[win], PrimaryHeight(w.screens)), CornerRadius(w, win)))
      else None
  }

  // ---------------------------------------------------------------------------
  // The tracker's state and the calls it makes
  // ---------------------------------------------------------------------------

  datatype AxCall =
    | AddSource(observer: ObserverId)           // attach the observer's source to the main run loop
    | RemoveSource(observer: ObserverId)        // detach it
    | AddNotification(observer: ObserverId, element: Element, name: Notification)
    | RemoveNotification(observer: ObserverId, element: Element, name: Notification)
    | Release(observer: ObserverId)             // the last reference to the observer is dropped

  /** A notification an observer is registered for on an element. */
  datatype Interest = Interest(observer: ObserverId, element: Element, name: Notification)

  datatype TrackerState = TrackerState(
    observer: Option<ObserverId>,
    focusedElement: Option<Element>,
    trackedPID: Pid,
    hasCallback: bool,                        // whether a focus callback is installed
    published: seq<Option<FocusInfo>>,        // what the callback has received
    attached: set<ObserverId>,                // observers whose source is on the main run loop
    interests: set<Interest>,                 // live notification registrations
    calls: seq<AxCall>,                       // every call made, in order
    subscribedWindow: Option<Element>)        // the window whose three notifications are registered

  const Initial := TrackerState(None, None, 0, false, [], {}, {}, [], None)

  /** Make one call: record it and apply its effect. */
  function Perform(s: TrackerState, c: AxCall): TrackerState {
    var s' := s.(calls := s.calls + [c]);
    match c
    case AddSource(o) => s'.(attached := s.attached + {o})
    case RemoveSource(o) => s'.(attached := s.attached - {o})
    case AddNotification(o, e, n) => s'.(interests := s.interests + {Interest(o, e, n)})
    case RemoveNotification(o, e, n) => s'.(interests := s.interests - {Interest(o, e, n)})
    case Release(o) => s'.(interests := set i | i in s.interests && i.observer != o)
  }

  /** What the callback receives when `info` is published: nothing if none is installed. */
  function Delivered(hasCallback: bool, info: Option<FocusInfo>): seq<Option<FocusInfo>> {
    if hasCallback then [info] else []
  }

  /** Hand `info` to the callback, when one is installed. */
  function Publish(s: TrackerState, info: Option<FocusInfo>): TrackerState {
    s.(published := s.published + Delivered(s.hasCallback, info))
  }

  /** The three per-window notifications. */
  function WindowInterests(o: ObserverId, win: Option<Element>): set<Interest> {
    match win
    case None => {}
    case Some(e) => {Interest(o, e, Moved), Interest(o, e, Resized), Interest(o, e, Miniaturized)}
  }

  /** Register the three per-window notifications of `o` on `e`. */
  function SubscribeWindow(s: TrackerState, o: ObserverId, e: Element): TrackerState {
    var s1 := Perform(s, AddNotification(o, e, Moved));
    var s2 := Perform(s1, AddNotification(o, e, Resized));
    Perform(s2, AddNotification(o, e, Miniaturized)).(subscribedWindow := Some(e))
  }

  /** Unregister the three per-window notifications of `o` from `e`. */
  function UnsubscribeWindow(s: TrackerState, o: ObserverId, e: Element): TrackerState {
    var s1 := Perform(s, RemoveNotification(o, e, Moved));
    var s2 := Perform(s1, RemoveNotification(o, e, Resized));
    Perform(s2, RemoveNotification(o, e, Miniaturized))
  }

  /** Detach and drop the observer, and forget the focused window. */
  function RemoveObserverSpec(s: TrackerState): TrackerState {
    var s1 :=
      match s.observer
      case None => s
      case Some(o) => Perform(Perform(s, RemoveSource(o)), Release(o)).(observer := None);
    s1.(focusedElement := None, subscribedWindow := None)
  }

  /**
    Start tracking process `pid`: tear down, ask for the focused window and
    publish, then, if an observer `created` could be made, register for
    focus changes on the application and for the three per-window
    notifications on the focused window, and attach the observer's source.
   */
  function TrackAppSpec(s: TrackerState, pid: Pid, w: AxWorld, created: Option<ObserverId>): TrackerState {
    var s1 := RemoveObserverSpec(s).(trackedPID := pid);
    var focused := if pid in w.focusedWindow then Some(w.focusedWindow[pid]) else None;
    var s2 := Publish(s1.(focusedElement := focused), RectInfo(w, focused));
    match created
    case None => s2
    case Some(o) =>
      var s3 := Perform(s2.(observer := Some(o)), AddNotification(o, AppElement(pid), FocusedWindowChanged));
      var s4 := if focused.Some? then SubscribeWindow(s3, o, focused.value) else s3;
      Perform(s4, AddSource(o))
  }

  /** React to notification `name` about `element`. */
  function NotificationSpec(s: TrackerState, name: Notification, element: Element, w: AxWorld): TrackerState {
    match name
    case FocusedWindowChanged =>
      var s1 :=
        if s.observer.Some? && s.focusedElement.Some? then
          var o := s.observer.value;
          SubscribeWindow(UnsubscribeWindow(s, o, s.focusedElement.value), o, element).(focusedElement := Some(element))
        else s.(focusedElement := Some(element));
      Publish(s1, RectInfo(w, s1.focusedElement))
    case Moved => Publish(s, RectInfo(w, s.focusedElement))
    case Resized => Publish(s, RectInfo(w, s.focusedElement))
    case Miniaturized => Publish(s, None)
    case OtherNotification(_) => s
  }

  /** The observer callback: without a context pointer it does nothing. */
  function CallbackSpec(s: TrackerState, hasRefcon: bool, name: Notification, element: Element, w: AxWorld): TrackerState {
    if hasRefcon then NotificationSpec(s, name, element, w) else s
  }

  // ---------------------------------------------------------------------------
  // The invariant and its preservation
  // ---------------------------------------------------------------------------

  function OptionSet(o: Option<ObserverId>): set<ObserverId> {
    if o.Some? then {o.value} else {}
  }

  /** The registrations the current observer should hold. */
  function Subscriptions(observer: Option<ObserverId>, pid: Pid, win: Option<Element>): set<Interest> {
    match observer
    case None => {}
    case Some(o) => {Interest(o, AppElement(pid), FocusedWindowChanged)} + WindowInterests(o, win)
  }

  /**
    Only the current observer's source is attached to the run loop, only
    its registrations are live (focus changes on the tracked application,
    plus the three per-window ones on the subscribed window), and a
    subscribed window is the tracked focused window.
   */
  ghost predicate Inv(s: TrackerState) {
    && s.attached == OptionSet(s.observer)
    && s.interests == Subscriptions(s.observer, s.trackedPID, s.subscribedWindow)
    && (s.subscribedWindow.Some? ==> s.observer.Some? && s.focusedElement == s.subscribedWindow)
  }

  lemma InitialInv()
    ensures Inv(Initial)
  {
  }

  lemma {:induction false} RemoveObserverKeepsInv(s: TrackerState)
    requires Inv(s)
    ensures Inv(RemoveObserverSpec(s))
    ensures RemoveObserverSpec(s).attached == {} && RemoveObserverSpec(s).interests == {}
  {
    if s.observer.Some? {
      var o := s.observer.value;
      var s1 := Perform(s, RemoveSource(o));
      var s2 := Perform(s1, Release(o));
      assert s2.interests == {};
    }
  }

  lemma {:induction false} TrackAppKeepsInv(s: TrackerState, pid: Pid, w: AxWorld, created: Option<ObserverId>)
    requires Inv(s)
    ensures Inv(TrackAppSpec(s, pid, w, created))
  {
    RemoveObserverKeepsInv(s);
  }

  lemma {:induction false} NotificationKeepsInv(s: TrackerState, name: Notification, element: Element, w: AxWorld)
    requires Inv(s)
    ensures Inv(NotificationSpec(s, name, element, w))
  {
    if name == FocusedWindowChanged && s.observer.Some? && s.focusedElement.Some? {
      var o := s.observer.value;
      var u := UnsubscribeWindow(s, o, s.focusedElement.value);
      assert u.interests == {Interest(o, AppElement(s.trackedPID), FocusedWindowChanged)};
    }
  }

  // ---------------------------------------------------------------------------
  // Runs: any sequence of application switches and notifications
  // ---------------------------------------------------------------------------

  datatype Event =
    | AppActivated(pid: Pid, world: AxWorld, created: Option<ObserverId>)
    | AxNotified(hasRefcon: bool, name: Notification, element: Element, world: AxWorld)

  function Step(s: TrackerState, e: Event): TrackerState {
    match e
    case AppActivated(pid, w, created) => TrackAppSpec(s, pid, w, created)
    case AxNotified(hasRefcon, name, element, w) => CallbackSpec(s, hasRefcon, name, element, w)
  }

  function Run(s: TrackerState, events: seq<Event>): TrackerState
    decreases |events|
  {
    if events == [] then s else Run(Step(s, events[0]), events[1..])
  }

  /**
    Across any sequence of application switches and notifications, at most
    one observer source is attached to the main run loop, and every live
    registration belongs to the current observer.
   */
  lemma {:induction false} RunKeepsInv(s: TrackerState, events: seq<Event>)
    requires Inv(s)
    ensures Inv(Run(s, events))
    ensures |Run(s, events).attached| <= 1
    ensures forall i :: i in Run(s, events).interests ==> Run(s, events).observer == Some(i.observer)
    decreases |events|
  {
    if events != [] {
      match events[0] {
        case AppActivated(pid, w, created) => TrackAppKeepsInv(s, pid, w, created);
        case AxNotified(hasRefcon, name, element, w) =>
          if hasRefcon { NotificationKeepsInv(s, name, element, w); }
      }
      RunKeepsInv(Step(s, events[0]), events[1..]);
    }
  }

  // ---------------------------------------------------------------------------
  // The published corner radius without the window-server lookup
  // ---------------------------------------------------------------------------

  /** Every rect in the published log carries the fallback radius. */
  ghost predicate AllFallback(published: seq<Option<FocusInfo>>) {
    forall k :: 0 <= k < |published| && published[k].Some? ==> published[k].value.cornerRadius == FallbackRadius
  }

  /** The system state an event is handled against. */
  function WorldOf(e: Event): AxWorld {
    match e
    case AppActivated(_, w, _) => w
    case AxNotified(_, _, _, w) => w
  }

  /** Without the corner-radii entry point, one step publishes only the fallback radius. */
  lemma {:induction false} StepPublishesFallback(s: TrackerState, e: Event)
    requires AllFallback(s.published)
    requires !WorldOf(e).radiiAvailable
    ensures AllFallback(Step(s, e).published)
  {
    var w := WorldOf(e);
    var t := Step(s, e);
    match e {
      case AppActivated(pid, _, created) =>
        var focused := if pid in w.focusedWindow then Some(w.focusedWindow[pid]) else None;
        var info := RectInfo(w, focused);
        assert t.published == s.published + Delivered(s.hasCallback, info);
      case AxNotified(hasRefcon, name, element, _) =>
        if hasRefcon {
          match name
          case FocusedWindowChanged =>
            var info := RectInfo(w, Some(element));
            assert t.published == s.published + Delivered(s.hasCallback, info);
          case Moved =>
            var info := RectInfo(w, s.focusedElement);
            assert t.published == s.published + Delivered(s.hasCallback, info);
          case Resized =>
            var info := RectInfo(w, s.focusedElement);
            assert t.published == s.published + Delivered(s.hasCallback, info);
          case Miniaturized =>
            assert t.published == s.published + Delivered(s.hasCallback, None);
          case OtherNotification(_) =>
            assert t.published == s.published;
        } else {
          assert t.published == s.published;
        }
    }
  }

  /**
    When the corner-radii entry point is missing in every state the tracker
    meets, every rect it ever publishes carries the fallback radius 10.
   */
  lemma {:induction false} NoRadiiLookupPublishesFallback(s: TrackerState, events: seq<Event>)
    requires AllFallback(s.published)
    requires forall k :: 0 <= k < |events| ==> !WorldOf(events[k]).radiiAvailable
    ensures AllFallback(Run(s, events).published)
    decreases |events|
  {
    if events != [] {
      StepPublishesFallback(s, events[0]);
      NoRadiiLookupPublishesFallback(Step(s, events[0]), events[1..]);
    }
  }

  // ---------------------------------------------------------------------------
  // What switching applications does
  // ---------------------------------------------------------------------------

  /**
    Switching applications detaches the old observer's source before
    anything else is called, and attaches the new one last; earlier calls
    are kept as they were.
   */
  lemma TeardownBeforeSetup(s: TrackerState, pid: Pid, w: AxWorld, created: Option<ObserverId>)
    requires s.observer.Some?
    ensures var t := TrackAppSpec(s, pid, w, created).calls;
      && |t| > |s.calls| + 1
      && t[..|s.calls|] == s.calls
      && t[|s.calls|] == RemoveSource(s.observer.value)
      && t[|s.calls| + 1] == Release(s.observer.value)
      && (created.Some? ==> t[|t| - 1] == AddSource(created.value))
  {
  }

  /**
    When the application has no focused window: nothing is tracked, exactly
    one nil is published (if a callback is installed), and a new observer
    holds only the application-level focus-change registration.
   */
  lemma TrackAppWithoutWindow(s: TrackerState, pid: Pid, w: AxWorld, created: Option<ObserverId>)
    requires Inv(s)
    requires pid !in w.focusedWindow
    ensures var t := TrackAppSpec(s, pid, w, created);
      && t.focusedElement == None
      && t.trackedPID == pid
      && t.published == s.published + Delivered(s.hasCallback, None)
      && t.interests == (if created.Some? then {Interest(created.value, AppElement(pid), FocusedWindowChanged)} else {})
      && t.attached == OptionSet(created)
  {
    RemoveObserverKeepsInv(s);
  }

  /**
    When the application has a focused window: it is tracked and its
    geometry published, and a new observer holds the focus-change
    registration on the application, the three per-window registrations on
    the window, and is the one attached source.
   */
  lemma TrackAppWithWindow(s: TrackerState, pid: Pid, w: AxWorld, created: Option<ObserverId>)
    requires Inv(s)
    requires pid in w.focusedWindow
    ensures var t := TrackAppSpec(s, pid, w, created);
      && t.focusedElement == Some(w.focusedWindow[pid])
      && t.published == s.published + Delivered(s.hasCallback, RectInfo(w, Some(w.focusedWindow[pid])))
      && t.observer == created
      && t.attached == OptionSet(created)
      && t.interests == Subscriptions(created, pid, if created.Some? then Some(w.focusedWindow[pid]) else None)
  {
    RemoveObserverKeepsInv(s);
  }

  /** Switching twice leaves one attached source, and only the second observer's registrations. */
  lemma {:induction false} SwitchTwice(s: TrackerState, pid1: Pid, w1: AxWorld, o1: ObserverId,
                                       pid2: Pid, w2: AxWorld, o2: ObserverId)
    requires Inv(s)
    ensures var t := TrackAppSpec(TrackAppSpec(s, pid1, w1, Some(o1)), pid2, w2, Some(o2));
      && t.attached == {o2}
      && forall i :: i in t.interests ==> i.observer == o2
  {
    TrackAppKeepsInv(s, pid1, w1, Some(o1));
    TrackAppKeepsInv(TrackAppSpec(s, pid1, w1, Some(o1)), pid2, w2, Some(o2));
  }

  // ---------------------------------------------------------------------------
  // What each notification does
  // ---------------------------------------------------------------------------

  /**
    A focus change with an observer and a previously tracked window moves the
    three per-window registrations from the old window to the new one, and
    publishes once.
   */
  lemma {:induction false} FocusChangeMovesRegistrations(s: TrackerState, element: Element, w: AxWorld)
    requires Inv(s)
    requires s.observer.Some? && s.focusedElement.Some?
    ensures var t := NotificationSpec(s, FocusedWindowChanged, element, w);
      && t.focusedElement == Some(element)
      && t.interests == s.interests - WindowInterests(s.observer.value, s.focusedElement)
                                    + WindowInterests(s.observer.value, Some(element))
      && t.attached == s.attached && t.observer == s.observer
      && t.published == s.published + Delivered(s.hasCallback, RectInfo(w, Some(element)))
  {
    var o := s.observer.value;
    var u := UnsubscribeWindow(s, o, s.focusedElement.value);
    assert u.interests == s.interests - WindowInterests(o, s.focusedElement);
  }

  /**
    A focus change with no previously tracked window only replaces the
    tracked window: the new window gets none of the three per-window
    registrations.
   */
  lemma FocusChangeWithoutPreviousWindow(s: TrackerState, element: Element, w: AxWorld)
    requires Inv(s)
    requires s.focusedElement.None?
    ensures var t := NotificationSpec(s, FocusedWindowChanged, element, w);
      && t.focusedElement == Some(element)
      && t.interests == s.interests && t.calls == s.calls
      && t.subscribedWindow == None
      && t.interests == Subscriptions(s.observer, s.trackedPID, None)
      && t.published == s.published + Delivered(s.hasCallback, RectInfo(w, Some(element)))
  {
  }

  /**
    Two focus changes starting with no tracked window: the first only tracks
    `e1`, and the second, now taking the branch with a tracked window,
    registers the three per-window notifications on `e2`.
   */
  lemma {:induction false} SecondFocusChangeSubscribes(s: TrackerState, e1: Element, e2: Element, w1: AxWorld, w2: AxWorld)
    requires Inv(s)
    requires s.observer.Some? && s.focusedElement.None?
    ensures var t := NotificationSpec(NotificationSpec(s, FocusedWindowChanged, e1, w1), FocusedWindowChanged, e2, w2);
      && t.focusedElement == Some(e2)
      && t.subscribedWindow == Some(e2)
      && t.interests == Subscriptions(s.observer, s.trackedPID, Some(e2))
  {
    var t1 := NotificationSpec(s, FocusedWindowChanged, e1, w1);
    FocusChangeWithoutPreviousWindow(s, e1, w1);
    NotificationKeepsInv(s, FocusedWindowChanged, e1, w1);
    FocusChangeMovesRegistrations(t1, e2, w2);
    NotificationKeepsInv(t1, FocusedWindowChanged, e2, w2);
  }

  /**
    Moved and resized republish the tracked window's geometry and change
    nothing else; miniaturized publishes nil and changes nothing else; any
    other notification, and a callback without a context pointer, change
    nothing at all.
   */
  lemma OtherNotifications(s: TrackerState, name: Notification, element: Element, w: AxWorld)
    ensures name == Moved || name == Resized ==>
      NotificationSpec(s, name, element, w) == Publish(s, RectInfo(w, s.focusedElement))
    ensures name == Miniaturized ==> NotificationSpec(s, name, element, w) == Publish(s, None)
    ensures name.OtherNotification? ==> NotificationSpec(s, name, element, w) == s
    ensures CallbackSpec(s, false, name, element, w) == s
  {
  }

  // ---------------------------------------------------------------------------
  // The tracker object
  // ---------------------------------------------------------------------------

  class FocusTracker {
    var observer: Option<ObserverId>
    var focusedElement: Option<Element>
    var trackedPID: Pid
    var hasCallback: bool
    var published: seq<Option<FocusInfo>>
    ghost var attached: set<ObserverId>
    ghost var interests: set<Interest>
    ghost var calls: seq<AxCall>
    ghost var subscribedWindow: Option<Element>

    ghost function State(): TrackerState
      reads this
    {
      TrackerState(observer, focusedElement, trackedPID, hasCallback, published,
                   attached, interests, calls, subscribedWindow)
    }

    ghost predicate Valid()
      reads this
    {
      Inv(State())
    }

    /**
      Start up: begin tracking the frontmost application, if there is one.
      No callback is installed yet, so whatever this first switch publishes
      reaches no one.
     */
    constructor (frontmost: Option<Pid>, w: AxWorld, created: Option<ObserverId>)
      ensures Valid()
      ensures State() == if frontmost.Some? then TrackAppSpec(Initial, frontmost.value, w, created) else Initial
      ensures published == []
    {
      observer := None;
      focusedElement := None;
      trackedPID := 0;
      hasCallback := false;
      published := [];
      attached := {};
      interests := {};
      calls := [];
      subscribedWindow := None;
      new;
      InitialInv();
      if frontmost.Some? {
        TrackApp(frontmost.value, w, created);
      }
    }

    /** Install the focus callback. */
    method SetCallback()
      modifies this`hasCallback
      ensures hasCallback
    {
      hasCallback := true;
    }

    /** Make one call on the accessibility layer or the run loop. */
    ghost method Call(c: AxCall)
      modifies this`attached, this`interests, this`calls
      ensures State() == Perform(old(State()), c)
    {
      calls := calls + [c];
      match c
      case AddSource(o) => attached := attached + {o};
      case RemoveSource(o) => attached := attached - {o};
      case AddNotification(o, e, n) => interests := interests + {Interest(o, e, n)};
      case RemoveNotification(o, e, n) => interests := interests - {Interest(o, e, n)};
      case Release(o) => interests := set i | i in interests && i.observer != o;
    }

    /** Invoke the callback, if installed. */
    method Deliver(info: Option<FocusInfo>)
      modifies this`published
      ensures State() == Publish(old(State()), info)
    {
      if hasCallback {
        published := published + [info];
      }
    }

    method RemoveObserver()
      modifies this
      ensures State() == RemoveObserverSpec(old(State()))
    {
      if observer.Some? {
        var obs := observer.value;
        Call(RemoveSource(obs));
        observer := None;
        Call(Release(obs));
      }
      focusedElement := None;
      subscribedWindow := None;
    }

    method TrackApp(pid: Pid, w: AxWorld, created: Option<ObserverId>)
      requires Valid()
      modifies this
      ensures Valid()
      ensures State() == TrackAppSpec(old(State()), pid, w, created)
    {
      ghost var s0 := State();
      RemoveObserver();
      trackedPID := pid;
      var appElement := AppElement(pid);

      if pid in w.focusedWindow {
        focusedElement := Some(w.focusedWindow[pid]);
        PublishRect(w);
      } else {
        focusedElement := None;
        Deliver(None);
      }

      if created.None? {
        TrackAppKeepsInv(s0, pid, w, created);
        return;
      }
      var obs := created.value;
      observer := Some(obs);

      Call(AddNotification(obs, appElement, FocusedWindowChanged));
      if focusedElement.Some? {
        var win := focusedElement.value;
        Call(AddNotification(obs, win, Moved));
        Call(AddNotification(obs, win, Resized));
        Call(AddNotification(obs, win, Miniaturized));
        subscribedWindow := Some(win);
      }
      Call(AddSource(obs));
      TrackAppKeepsInv(s0, pid, w, created);
    }

    /** Publish the tracked window's geometry and corner radius, or nil. */
    method PublishRect(w: AxWorld)
      modifies this`published
      ensures State() == Publish(old(State()), RectInfo(w, focusedElement))
    {
      if focusedElement.None? {
        Deliver(None);
        return;
      }
      var win := focusedElement.value;
      if win !in w.position || win !in w.size {
        Deliver(None);
        return;
      }
      var position, size := w.position[win], w.size[win];
      var screenHeight := if |w.screens| > 0 then w.screens[0].Height() else 0.0;
      var appKitY := screenHeight - position.y - size.height;
      var rect := Rect(position.x, appKitY, size.width, size.height);
      var radius := CornerRadius(w, win);
      Deliver(Some(FocusInfo(rect, radius)));
    }

    method HandleNotification(name: Notification, element: Element, w: AxWorld)
      requires Valid()
      modifies this
      ensures Valid()
      ensures State() == NotificationSpec(old(State()), name, element, w)
    {
      ghost var s0 := State();
      match name {
        case FocusedWindowChanged =>
          if observer.Some? && focusedElement.Some? {
            var obs, oldWin := observer.value, focusedElement.value;
            Call(RemoveNotification(obs, oldWin, Moved));
            Call(RemoveNotification(obs, oldWin, Resized));
            Call(RemoveNotification(obs, oldWin, Miniaturized));
            focusedElement := Some(element);
            Call(AddNotification(obs, element, Moved));
            Call(AddNotification(obs, element, Resized));
            Call(AddNotification(obs, element, Miniaturized));
            subscribedWindow := Some(element);
          } else {
            focusedElement := Some(element);
          }
          PublishRect(w);
        case Moved =>
          PublishRect(w);
        case Resized =>
          PublishRect(w);
        case Miniaturized =>
          Deliver(None);
        case OtherNotification(_) =>
      }
      NotificationKeepsInv(s0, name, element, w);
    }

    /** Tear down on destruction: the observer's source is detached. */
    method Deinit()
      requires Valid()
      modifies this
      ensures Valid()
      ensures State() == RemoveObserverSpec(old(State()))
      ensures attached == {} && interests == {}
    {
      ghost var s0 := State();
      RemoveObserver();
      RemoveObserverKeepsInv(s0);
    }
  }

  /** The observer callback: the context pointer, when present, is the tracker. */
  method AxCallback(refcon: FocusTracker?, name: Notification, element: Element, w: AxWorld)
    requires refcon != null ==> refcon.Valid()
    modifies refcon
    ensures refcon != null ==> refcon.Valid()
    ensures refcon != null ==> refcon.State() == CallbackSpec(old(refcon.State()), true, name, element, w)
  {
    if refcon == null {
      return;
    }
    refcon.HandleNotification(name, element, w);
  }
}
