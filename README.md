# Box zoom handler

A model of the map's "box zoom" interaction (`BoxZoomHandler`) and proofs about it. While the
interaction is enabled, the user presses the main mouse button with shift held and drags. The
handler then shows four markers on the corners of the geographic box the drag covers. On release
it reframes the camera to that box with `fitBounds`. Escape cancels. So does a release at the
exact point where the press happened. The handler announces what it does with `boxzoomstart`,
`boxzoomend` and `boxzoomcancel` notifications.

The project has five files:

- `geo.dfy` (module `Geo`) holds screen points, `LngLat`, `LngLatBounds` and the camera's
  `project`/`unproject`. It also holds the north/south/east/west envelope of two unprojected
  points, the committed bounds and the four overlay corners.
- `box_zoom_spec.dfy` (module `BoxZoomSpec`) is the handler as a pure state machine. It has one
  function per handler method, over a `HandlerState` record. `Dispatch` routes browser events to
  the listeners that are attached. `Run` follows a whole lifetime of calls and events.
- `box_zoom.dfy` (module `BoxZoom`) is the class `BoxZoomHandler`. Its fields are the ones the
  source mutates (see the field list after this one). Every state-changing method except
  `FireEvent` changes those fields in place and is proved to perform exactly the transition of
  the matching `BoxZoomSpec` function, while
  keeping the invariant `Valid()`.
- `box_zoom_properties.dfy` (module `BoxZoomProperties`) holds the lemmas that relate several
  calls. They cover idempotence, `boxzoomstart` across the handler's lifetime, and four
  end-to-end scenarios.
- `wrappers.dfy` holds `Option`, which stands for a field that is `undefined` until its first
  assignment.

The class fields:

- `enabled` tracks whether the `mousedown` listener is attached.
- `active` and `startPos` record the session and where its press happened.
- `boxCreated` stands for `box1`.
- `markers` holds the positions last given to the markers.
- `listening` tracks whether the document listeners are attached.
- `crosshair` tracks whether the crosshair cursor class is on the container.
- `dragDisabled` tracks whether native drag selection is suppressed.
- `trace` records the notifications fired and the `fitBounds` calls made.

The camera is passed with every event as a pair of arbitrary total functions. Nothing is assumed
about `project` and `unproject`, so every statement holds under any camera: rotated, pitched or
anything else. Coordinates are exact reals.

## Behaviour as written

The model follows the code as written:

- `_finish` (src/ui/handler/box_zoom.js:172) tests `this._box`. Its only assignment,
  `this._box = null` at line 174, sits inside that `if` block and so never runs. The marker
  elements are therefore never removed and `box1` stays set forever.
  `boxzoomstart` and the crosshair cursor appear only on the first move of the handler's first
  dragged session. `BoxZoomStartAtMostOnce` and `NoCrosshairOnceBoxCreated` state this.
- A press followed by a release at the same point fires `boxzoomcancel` even when no move
  happened between them. A subscriber can therefore receive `boxzoomcancel` with no
  `boxzoomstart` before it.
  `ScenarioClickWithoutMove` states what the code does.
- There is no shader-based overlay: line 119 is a TODO. There is no code path to model for it.
- `disable` does not end a live session. `Dispatch` keeps delivering move, key and release
  events while the document listeners are attached.
- A second qualifying press during a live session re-arms the handler with the new start point.
  Attaching an attached listener again is a no-op in the DOM, so it stays attached.

## Model

| member | source | states |
|---|---|---|
| Geo.Extend | src/ui/handler/box_zoom.js:141-143 | the extended bounds contain the added point and the old bounds, and every side of the result comes from one of the two |
| Geo.EnvelopeOf | src/ui/handler/box_zoom.js:111-114 | south ≤ north and west ≤ east; both points lie in the envelope; each side is a coordinate of one of the points, so the envelope is the tightest such box |
| Geo.CommittedBounds | src/ui/handler/box_zoom.js:139-143 | the bounds built by extending an empty bounds with both unprojected endpoints contain both points and coincide with the envelope the move handler computes |
| Geo.OverlayCorners | src/ui/handler/box_zoom.js:109-118 | the four markers sit on the projections of the corners of the bounds a release at that point would commit, in the order nw, se, sw, ne |
| Geo.EnvelopeSymmetric | src/ui/handler/box_zoom.js:111-114 | swapping the two points gives the same envelope |
| Geo.CommittedBoundsSymmetric | src/ui/handler/box_zoom.js:139-143 | drag direction does not matter: swapping start and end gives the same committed bounds, and they satisfy south ≤ north and west ≤ east |
| Geo.OverlayCornersSymmetric | src/ui/handler/box_zoom.js:109-118 | swapping start and end gives the same overlay quad |
| BoxZoomSpec.Enable | src/ui/handler/box_zoom.js:54-58 | afterwards the handler is enabled and nothing else has changed |
| BoxZoomSpec.Disable | src/ui/handler/box_zoom.js:66-70 | afterwards the handler is disabled and nothing else has changed; a live session is kept |
| BoxZoomSpec.OnMouseDown | src/ui/handler/box_zoom.js:72-82 | a press without shift or not with the main button changes nothing; a qualifying one sets active, records the start position, attaches the listeners and suppresses drag, and changes nothing else (no notification) |
| BoxZoomSpec.OnMouseMove | src/ui/handler/box_zoom.js:84-134 | the markers exist afterwards and sit on the overlay corners of start and pointer; `boxzoomstart` is fired and the crosshair added only when the markers did not exist before; nothing else changes |
| BoxZoomSpec.Finish | src/ui/handler/box_zoom.js:163-184 | leaves the handler idle: not active, no listeners, no crosshair, drag restored; the markers, the start position and the trace are untouched |
| BoxZoomSpec.OnMouseUp | src/ui/handler/box_zoom.js:136-154 | a non-main-button release changes nothing; otherwise the session is finished; a release at the start point appends exactly `boxzoomcancel`, any other appends `fitBounds(b, linear)` then `boxzoomend` carrying the same non-empty bounds b |
| BoxZoomSpec.OnKeyDown | src/ui/handler/box_zoom.js:156-161 | Escape (key code 27) finishes the session and appends `boxzoomcancel`; any other key changes nothing |
| BoxZoomSpec.Dispatch | src/ui/handler/box_zoom.js:54-77 | presses reach the handler only while enabled, other events only while the document listeners are attached; the invariant is kept, the trace only grows, and out-of-order events are no-ops |
| BoxZoomSpec.Apply | src/ui/handler/box_zoom.js:54-70 | enable, disable or an event delivery keeps the invariant and only appends to the trace |
| BoxZoomSpec.Run | src/ui/handler/box_zoom.js:54-188 | any sequence of calls and events from a valid state keeps the invariant and only appends to the trace |
| BoxZoom.BoxZoomHandler.constructor | src/ui/handler/box_zoom.js:16-28 | a new handler is disabled, inactive and idle, with no start position, no markers and an empty trace |
| BoxZoom.BoxZoomHandler.IsEnabled | src/ui/handler/box_zoom.js:35-37 | reports the enabled flag |
| BoxZoom.BoxZoomHandler.IsActive | src/ui/handler/box_zoom.js:44-46 | reports the active flag |
| BoxZoom.BoxZoomHandler.Enable | src/ui/handler/box_zoom.js:54-58 | the handler's new state is `BoxZoomSpec.Enable` of the old one |
| BoxZoom.BoxZoomHandler.Disable | src/ui/handler/box_zoom.js:66-70 | the handler's new state is `BoxZoomSpec.Disable` of the old one |
| BoxZoom.BoxZoomHandler.OnMouseDown | src/ui/handler/box_zoom.js:72-82 | the handler's new state is `BoxZoomSpec.OnMouseDown` of the old one, and the invariant is kept |
| BoxZoom.BoxZoomHandler.OnMouseMove | src/ui/handler/box_zoom.js:84-134 | the handler's new state is `BoxZoomSpec.OnMouseMove` of the old one, with markers placed by `OverlayCorners` |
| BoxZoom.BoxZoomHandler.OnMouseUp | src/ui/handler/box_zoom.js:136-154 | the handler's new state is `BoxZoomSpec.OnMouseUp` of the old one: bounds computed before finishing, then cancel or fitBounds plus end |
| BoxZoom.BoxZoomHandler.OnKeyDown | src/ui/handler/box_zoom.js:156-161 | the handler's new state is `BoxZoomSpec.OnKeyDown` of the old one |
| BoxZoom.BoxZoomHandler.Finish | src/ui/handler/box_zoom.js:163-184 | the handler is left idle, and its new state is `BoxZoomSpec.Finish` of the old one |
| BoxZoom.BoxZoomHandler.FireEvent | src/ui/handler/box_zoom.js:186-188 | appends one notification carrying only the original event; nothing else changes |
| BoxZoom.BoxZoomHandler.Dispatch | src/ui/handler/box_zoom.js:75-77 | the handler's new state is `BoxZoomSpec.Dispatch` of the old one |
| BoxZoomProperties.EnableIdempotent | src/ui/handler/box_zoom.js:54-58 | enabling twice equals enabling once; enabling an enabled handler changes nothing |
| BoxZoomProperties.DisableIdempotent | src/ui/handler/box_zoom.js:66-70 | disabling twice equals disabling once; disabling a disabled handler changes nothing |
| BoxZoomProperties.FinishIdempotent | src/ui/handler/box_zoom.js:163-184 | finishing twice gives the same state as finishing once |
| BoxZoomProperties.NonQualifyingPressIgnored | src/ui/handler/box_zoom.js:72-73 | a delivered press that lacks shift or the main button leaves the whole state unchanged |
| BoxZoomProperties.DispatchKeepsStartAccounted | src/ui/handler/box_zoom.js:88-91 | an event delivery keeps "one `boxzoomstart` in the trace if the markers exist, none otherwise" |
| BoxZoomProperties.RunKeepsStartAccounted | src/ui/handler/box_zoom.js:88-172 | that accounting holds after any sequence of calls and events |
| BoxZoomProperties.BoxZoomStartAtMostOnce | src/ui/handler/box_zoom.js:88-172 | over the whole lifetime of a new handler, `boxzoomstart` is fired at most once |
| BoxZoomProperties.NoCrosshairOnceBoxCreated | src/ui/handler/box_zoom.js:88-172 | once the markers exist and no crosshair is shown, no later call or event shows it again |
| BoxZoomProperties.TerminalEventsEndSession | src/ui/handler/box_zoom.js:136-161 | during a session, a main-button release or Escape leaves the handler idle; any other release or key changes nothing |
| BoxZoomProperties.ScenarioDragAndRelease | src/ui/handler/box_zoom.js:84-153 | press at (10,10), move to (50,40), release there: trace is `boxzoomstart`, `fitBounds(b, linear)`, `boxzoomend` with b, and the handler is idle |
| BoxZoomProperties.ScenarioClickWithoutMove | src/ui/handler/box_zoom.js:136-148 | press and release at (10,10) with no move: the trace is exactly one `boxzoomcancel`, and the handler is idle |
| BoxZoomProperties.ScenarioEscape | src/ui/handler/box_zoom.js:156-161 | press, move to (100,100), Escape: trace is `boxzoomstart` then `boxzoomcancel`, no `fitBounds`, and the handler is idle |
| BoxZoomProperties.ScenarioPressWithoutShift | src/ui/handler/box_zoom.js:72-73 | a press without shift leaves an enabled handler exactly as it was |

## Left out

- `DOM.disableDrag` and `DOM.enableDrag` are not part of this model. They are assumed to set and clear drag suppression, so `dragDisabled` is a boolean. Calling `disableDrag` twice, as a re-arming press does, is assumed to have the same effect as calling it once.
- Geo.Extend: the body of `LngLatBounds.extend` is not part of this model. It is assumed to make an empty bounds the point itself and otherwise to take the component-wise min/max, with no longitude wrapping.
- DOM work is left out: creating the marker elements, their sizes, attaching them to the container (lines 91-102) and `DOM.setTransform` (lines 120-123). Only `boxCreated` and the marker positions are kept.
- The `console.log` output (lines 124-127) is left out. It has no effect on the state.
- The `rotz`/`rotx` angles (lines 131-132) are left out. They are computed and never read.
- Screen-space `minX`/`maxX`/`minY`/`maxY` (lines 104-107) are left out. They are computed and never read.
- The camera's projection math is left out, so no round trip between `project` and `unproject` is stated. Both are arbitrary functions passed with each event.
- The `fitBounds` animation is left out. A call is recorded in the trace.
- `map.fire`, `addEventListener`/`removeEventListener`, `util.bindAll` and `DOM.mousePos` are left out. Notifications are trace entries, and listeners are the `enabled` and `listening` flags. Each mouse event carries its position already relative to the container.
- The handler's references to the map, canvas and container (lines 17-20) are left out.
- Missing event fields are not represented. In JavaScript, a missing `button` or `keyCode` compares unequal to 0 or 27. Here that behaves like any other value, and a missing `shiftKey` behaves like `false`.
- Floating point, NaN and infinities are left out. Coordinates are exact reals, so `p0.x === p1.x` is exact equality.
- There is no overlay drawn through WebGL shaders in the code, so there is no fallback between overlay strategies either.
- `_fireEvent` returns the map, and nothing uses that return value. It is not modelled.
