/**
  The application delegate's share of the core: one dimming overlay per
  screen, the enabled switch and the opacity slider, and the fan-out of
  each published focus rect to every overlay in that overlay's own
  coordinates.
 */
module App {
  import opened Wrappers
  import opened Geometry
  import opened Overlay
  import opened Focus

  const DefaultOpacity: real := 0.4

  /** The global rect in the coordinates of a window whose frame is `frame`. */
  function ToLocal(rect: Rect, frame: Rect): (r: Rect)
    ensures r.x + frame.x == rect.x && r.y + frame.y == rect.y
    ensures r.Width() == rect.Width() && r.Height() == rect.Height()
    ensures r.w == rect.Width() && r.h == rect.Height()
  {
    Rect(rect.x - frame.x, rect.y - frame.y, rect.Width(), rect.Height())
  }

  /** A rect in a window's coordinates, back in global coordinates. */
  function ToGlobal(r: Rect, frame: Rect): Rect {
    Rect(r.x + frame.x, r.y + frame.y, r.w, r.h)
  }

  /** Converting to an overlay's coordinates and back gives the rect again, when its size is not negative. */
  lemma LocalRoundTrip(rect: Rect, frame: Rect)
    requires rect.w >= 0.0 && rect.h >= 0.0
    ensures ToGlobal(ToLocal(rect, frame), frame) == rect
  {
  }

  /** The title of the menu item that switches dimming on and off. */
  function ToggleTitle(enabled: bool): string {
    if enabled then "Disable" else "Enable"
  }

  class AppDelegate {
    /** The overlay windows, in screen order; each is represented by its view. */
    var overlays: seq<OverlayView>
    var enabled: bool
    var opacity: real
    var menuTitle: string
    var tracker: FocusTracker?

    constructor ()
      ensures overlays == [] && enabled && opacity == DefaultOpacity && tracker == null
      ensures menuTitle == ToggleTitle(enabled)
    {
      overlays := [];
      enabled := true;
      opacity := DefaultOpacity;
      menuTitle := "Disable";
      tracker := null;
    }

    /** The opacity the overlays show: the slider's value when enabled, else none. */
    function ShownOpacity(): real
      reads this
    {
      if enabled then opacity else 0.0
    }

    /** Replace the overlays by one fresh overlay per screen, in screen order. */
    method SetupOverlays(screens: seq<Rect>)
      modifies this`overlays
      ensures |overlays| == |screens|
      ensures forall i :: 0 <= i < |screens| ==>
        && fresh(overlays[i])
        && overlays[i].frame == screens[i]
        && overlays[i].opacity == ShownOpacity()
        && overlays[i].cutoutRect == None
        && overlays[i].cornerRadius == 10.0
      ensures forall i, j :: 0 <= i < j < |overlays| ==> overlays[i] != overlays[j]
    {
      overlays := [];
      for i := 0 to |screens|
        invariant |overlays| == i
        invariant forall k :: 0 <= k < i ==>
          && fresh(overlays[k])
          && overlays[k].frame == screens[k]
          && overlays[k].opacity == ShownOpacity()
          && overlays[k].cutoutRect == None
          && overlays[k].cornerRadius == 10.0
        invariant forall k, j :: 0 <= k < j < i ==> overlays[k] != overlays[j]
      {
        var view := new OverlayView(screens[i]);
        view.SetOpacity(if enabled then opacity else 0.0);
        overlays := overlays + [view];
      }
    }

    /**
      Show `rect` (global coordinates) as every overlay's cutout, in that
      overlay's coordinates, with the given corner radius; with no rect,
      clear every cutout and leave the radii alone.
     */
    method UpdateCutout(rect: Option<Rect>, cornerRadius: real)
      modifies overlays
      ensures forall i :: 0 <= i < |overlays| ==>
        && overlays[i].cutoutRect == (if rect.Some? then Some(ToLocal(rect.value, overlays[i].frame)) else None)
        && overlays[i].cornerRadius == (if rect.Some? then cornerRadius else old(overlays[i].cornerRadius))
        && overlays[i].opacity == old(overlays[i].opacity)
        && overlays[i].needsDisplay
    {
      for i := 0 to |overlays|
        invariant forall k :: 0 <= k < i ==>
          && overlays[k].cutoutRect == (if rect.Some? then Some(ToLocal(rect.value, overlays[k].frame)) else None)
          && (rect.Some? ==> overlays[k].cornerRadius == cornerRadius)
          && overlays[k].needsDisplay
        invariant rect.None? ==> forall k :: 0 <= k < |overlays| ==> overlays[k].cornerRadius == old(overlays[k].cornerRadius)
        invariant forall k :: 0 <= k < |overlays| ==> overlays[k].opacity == old(overlays[k].opacity)
      {
        var window := overlays[i];
        if rect.Some? {
          var r := rect.value;
          var localRect := Rect(r.x - window.frame.x, r.y - window.frame.y, r.Width(), r.Height());
          window.SetCornerRadius(cornerRadius);
          window.SetCutoutRect(Some(localRect));
        } else {
          window.SetCutoutRect(None);
        }
      }
    }

    /** The focus callback: forward the published rect and radius, nil as no rect and radius 0. */
    method FocusChanged(info: Option<FocusInfo>)
      modifies overlays
      ensures forall i :: 0 <= i < |overlays| ==>
        && overlays[i].cutoutRect == (if info.Some? then Some(ToLocal(info.value.rect, overlays[i].frame)) else None)
        && overlays[i].cornerRadius == (if info.Some? then info.value.cornerRadius else old(overlays[i].cornerRadius))
        && overlays[i].opacity == old(overlays[i].opacity)
        && overlays[i].needsDisplay
    {
      UpdateCutout(if info.Some? then Some(info.value.rect) else None,
                   if info.Some? then info.value.cornerRadius else 0.0);
    }

    /** Switch dimming on or off. */
    method ToggleEnabled()
      modifies this`enabled, this`menuTitle, overlays
      ensures enabled == !old(enabled) && opacity == old(opacity) && overlays == old(overlays)
      ensures menuTitle == ToggleTitle(enabled)
      ensures forall i :: 0 <= i < |overlays| ==>
        && overlays[i].opacity == ShownOpacity()
        && overlays[i].cutoutRect == old(overlays[i].cutoutRect)
        && overlays[i].cornerRadius == old(overlays[i].cornerRadius)
        && overlays[i].needsDisplay
    {
      enabled := !enabled;
      menuTitle := if enabled then "Disable" else "Enable";
      for i := 0 to |overlays|
        modifies overlays
        invariant forall k :: 0 <= k < i ==> overlays[k].opacity == ShownOpacity() && overlays[k].needsDisplay
        invariant forall k :: 0 <= k < |overlays| ==>
          overlays[k].cutoutRect == old(overlays[k].cutoutRect) && overlays[k].cornerRadius == old(overlays[k].cornerRadius)
      {
        overlays[i].SetOpacity(if enabled then opacity else 0.0);
      }
    }

    /** The slider moved: keep the value, and show it only while enabled. */
    method OpacityChanged(value: real)
      modifies this`opacity, overlays
      ensures opacity == value && enabled == old(enabled) && overlays == old(overlays)
      ensures enabled ==> forall i :: 0 <= i < |overlays| ==>
        overlays[i].opacity == value && overlays[i].needsDisplay
      ensures !enabled ==> forall i :: 0 <= i < |overlays| ==> unchanged(overlays[i])
      ensures forall i :: 0 <= i < |overlays| ==>
        overlays[i].cutoutRect == old(overlays[i].cutoutRect) && overlays[i].cornerRadius == old(overlays[i].cornerRadius)
    {
      opacity := value;
      if !enabled {
        return;
      }
      for i := 0 to |overlays|
        modifies overlays
        invariant forall k :: 0 <= k < i ==> overlays[k].opacity == value && overlays[k].needsDisplay
        invariant forall k :: 0 <= k < |overlays| ==>
          overlays[k].cutoutRect == old(overlays[k].cutoutRect) && overlays[k].cornerRadius == old(overlays[k].cornerRadius)
      {
        overlays[i].SetOpacity(value);
      }
    }

    /**
      Create the focus tracker and then install the callback. The tracker's
      first switch, made while it is being created, publishes before the
      callback exists, so nothing has been delivered yet.
     */
    method SetupFocusTracker(frontmost: Option<Pid>, w: AxWorld, created: Option<ObserverId>)
      modifies this`tracker
      ensures tracker != null && fresh(tracker) && tracker.Valid()
      ensures tracker.hasCallback && tracker.published == []
      ensures tracker.State() ==
        (if frontmost.Some? then TrackAppSpec(Initial, frontmost.value, w, created) else Initial).(hasCallback := true)
    {
      var t := new FocusTracker(frontmost, w, created);
      t.SetCallback();
      tracker := t;
    }
  }
}
