/**
 * `BoxZoomHandler`: zooms the map to a box the user drags with the shift key
 * held. Every state-changing method except `FireEvent` updates the handler's
 * fields in place and is proved to take the handler from `old(State())` to the
 * state the matching function of `BoxZoomSpec` gives.
 */
module BoxZoom {
  import opened Wrappers
  import opened Geo
  import opened BoxZoomSpec

  class BoxZoomHandler {
    var enabled: bool
    var active: bool
    var startPos: Option<Point>
    /** Stands for `box1`: set once the marker elements are created. */
    var boxCreated: bool
    /** The translations last applied to `box1` .. `box4`. */
    var markers: Option<Quad>
    /** The document-level `mousemove`, `keydown` and `mouseup` listeners are attached. */
    var listening: bool
    /** The container carries the `mapboxgl-crosshair` class. */
    var crosshair: bool
    /** `DOM.disableDrag` is in effect. */
    var dragDisabled: bool
    /** The notifications fired on the map and the `fitBounds` calls made on it, in order. */
    var trace: seq<TraceEntry>

    function State(): HandlerState
      reads this
    {
      HandlerState(enabled, active, startPos, boxCreated, markers, listening, crosshair, dragDisabled, trace)
    }

    ghost predicate Valid()
      reads this
    {
      Inv(State())
    }

    constructor ()
      ensures Valid() && State() == Initial
    {
      enabled, active, startPos, boxCreated, markers := false, false, None, false, None;
      listening, crosshair, dragDisabled, trace := false, false, false, [];
    }

    /** `isEnabled`: whether the press listener is attached. */
    method IsEnabled() returns (r: bool)
      ensures r == enabled
    {
      r := enabled;
    }

    /** `isActive`: whether a session is live. */
    method IsActive() returns (r: bool)
      ensures r == active
    {
      r := active;
    }

    method Enable()
      requires Valid()
      modifies this
      ensures Valid() && enabled
      ensures State() == BoxZoomSpec.Enable(old(State()))
    {
      if enabled {
        return;
      }
      enabled := true;
    }

    method Disable()
      requires Valid()
      modifies this
      ensures Valid() && !enabled
      ensures State() == BoxZoomSpec.Disable(old(State()))
    {
      if !enabled {
        return;
      }
      enabled := false;
    }

    method OnMouseDown(e: MouseEvent)
      requires Valid()
      modifies this
      ensures Valid()
      ensures State() == BoxZoomSpec.OnMouseDown(old(State()), e)
    {
      if !Qualifies(e) {
        return;
      }
      listening := true;
      dragDisabled := true;
      startPos := Some(e.pos);
      active := true;
    }

    /** Only reachable through the document listener, hence only while `listening`. */
    method OnMouseMove(e: MouseEvent, cam: Camera)
      requires Valid() && listening
      modifies this
      ensures Valid()
      ensures State() == BoxZoomSpec.OnMouseMove(old(State()), e, cam)
    {
      var p0 := startPos.value;
      var p1 := e.pos;
      if !boxCreated {
        crosshair := true;
        FireEvent(BoxZoomStart, FromMouse(e));
        boxCreated := true;
      }
      markers := Some(OverlayCorners(cam, p0, p1));
    }

    /** Only reachable through the document listener, hence only after a press has recorded `startPos`. */
    method OnMouseUp(e: MouseEvent, cam: Camera)
      requires Valid() && startPos.Some?
      modifies this
      ensures Valid()
      ensures State() == BoxZoomSpec.OnMouseUp(old(State()), e, cam)
    {
      if e.button != 0 {
        return;
      }
      var p0 := startPos.value;
      var p1 := e.pos;
      var bounds := Extend(Extend(Empty, cam.unproject(p0)), cam.unproject(p1));
      Finish();
      if p0.x == p1.x && p0.y == p1.y {
        FireEvent(BoxZoomCancel, FromMouse(e));
      } else {
        trace := trace + [FitBounds(bounds, true)];
        trace := trace + [Fired(BoxZoomEnd, FromMouse(e), Some(bounds))];
      }
    }

    method OnKeyDown(k: KeyboardEvent)
      requires Valid()
      modifies this
      ensures Valid()
      ensures State() == BoxZoomSpec.OnKeyDown(old(State()), k)
    {
      if k.keyCode == EscapeKeyCode {
        Finish();
        FireEvent(BoxZoomCancel, FromKeyboard(k));
      }
    }

    method Finish()
      requires Valid()
      modifies this
      ensures Valid() && !active && !listening && !crosshair && !dragDisabled
      ensures State() == BoxZoomSpec.Finish(old(State()))
    {
      active := false;
      listening := false;
      crosshair := false;
      // `_box` is only assigned inside the `if (this._box)` block, so that block
      // never runs and the marker elements are never removed here
      dragDisabled := false;
    }

    /** `_fireEvent`: fires a notification whose payload is just the original event. */
    method FireEvent(name: EventType, e: DomEvent)
      requires Valid()
      modifies this
      ensures Valid()
      ensures State() == old(State()).(trace := old(trace) + [Fired(name, e, None)])
    {
      trace := trace + [Fired(name, e, None)];
    }

    /** Delivers a browser event to whichever listener is attached for it, if any. */
    method Dispatch(input: Input, cam: Camera)
      requires Valid()
      modifies this
      ensures Valid()
      ensures State() == BoxZoomSpec.Dispatch(old(State()), input, cam)
    {
      match input
      case MouseDown(e) =>
        if enabled {
          OnMouseDown(e);
        }
      case MouseMove(e) =>
        if listening {
          OnMouseMove(e, cam);
        }
      case MouseUp(e) =>
        if listening {
          OnMouseUp(e, cam);
        }
      case KeyDown(k) =>
        if listening {
          OnKeyDown(k);
        }
    }
  }
}
