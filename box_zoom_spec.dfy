/**
 * The box zoom interaction as a pure state machine. Each function takes the
 * handler's state before a call and gives the state after it; the class in
 * box_zoom.dfy is proved to perform exactly these transitions.
 */
module BoxZoomSpec {
  import opened Wrappers
  import opened Geo

  /** The fields of a DOM mouse event the handler reads; `pos` is already `DOM.mousePos(el, e)`. */
  datatype MouseEvent = MouseEvent(shiftKey: bool, button: int, pos: Point)

  /** The field of a DOM keyboard event the handler reads. */
  datatype KeyboardEvent = KeyboardEvent(keyCode: int)

  /** The `originalEvent` carried by a notification. */
  datatype DomEvent = FromMouse(mouse: MouseEvent) | FromKeyboard(key: KeyboardEvent)

  /** An event delivered by the browser: `mousedown` on the canvas container, the rest on the document. */
  datatype Input =
    | MouseDown(down: MouseEvent)
    | MouseMove(move: MouseEvent)
    | MouseUp(up: MouseEvent)
    | KeyDown(key: KeyboardEvent)

  datatype EventType = BoxZoomStart | BoxZoomEnd | BoxZoomCancel

  /**
   * What the handler does to the map, in order: a notification fired with its
   * payload `{originalEvent, boxZoomBounds?}`, or a call of `fitBounds`.
   */
  datatype TraceEntry =
    | Fired(name: EventType, originalEvent: DomEvent, boxZoomBounds: Option<LngLatBounds>)
    | FitBounds(bounds: LngLatBounds, linear: bool)

  /**
   * The handler's state:
   * - `enabled`: the `mousedown` listener is on the canvas container;
   * - `active`, `startPos`: the session flag and the recorded press position;
   * - `boxCreated`: the overlay marker elements exist (`box1` is set);
   * - `markers`: the positions last given to the four markers;
   * - `listening`: the document `mousemove`/`keydown`/`mouseup` listeners are attached;
   * - `crosshair`: the container carries the crosshair cursor class;
   * - `dragDisabled`: native drag selection is suppressed;
   * - `trace`: everything done to the map so far.
   */
  datatype HandlerState = HandlerState(
    enabled: bool,
    active: bool,
    startPos: Option<Point>,
    boxCreated: bool,
    markers: Option<Quad>,
    listening: bool,
    crosshair: bool,
    dragDisabled: bool,
    trace: seq<TraceEntry>)

  /** `keyCode` of the Escape key. */
  const EscapeKeyCode := 27

  /** A freshly constructed handler: every flag unset (`!!undefined` is `false`), nothing recorded. */
  const Initial := HandlerState(false, false, None, false, None, false, false, false, [])

  /**
   * What every reachable state satisfies: a session is live exactly while the
   * document listeners are attached and native drag is suppressed, a live
   * session has a start position, and the crosshair is only shown during one.
   */
  predicate Inv(s: HandlerState) {
    && s.listening == s.active
    && s.dragDisabled == s.active
    && (s.active ==> s.startPos.Some?)
    && (s.crosshair ==> s.active)
  }

  /** No session is live: what `_finish` leaves behind. */
  predicate Idle(s: HandlerState) {
    !s.active && !s.listening && !s.crosshair && !s.dragDisabled
  }

  /** `enable`: attaches the press listener unless it is already attached. */
  function Enable(s: HandlerState): (t: HandlerState)
    ensures t.enabled
    ensures t == s.(enabled := true)
  {
    if s.enabled then s else s.(enabled := true)
  }

  /**
   * `disable`: detaches the press listener unless it is already detached. A
   * live session is not cancelled.
   */
  function Disable(s: HandlerState): (t: HandlerState)
    ensures !t.enabled
    ensures t == s.(enabled := false)
  {
    if !s.enabled then s else s.(enabled := false)
  }

  /** The press that arms the handler: the shift key held and the main button. */
  predicate Qualifies(e: MouseEvent) {
    e.shiftKey && e.button == 0
  }

  /**
   * `_onMouseDown`: a qualifying press arms the handler, attaches the document
   * listeners and suppresses native drag, and fires nothing; any other press
   * changes nothing.
   */
  function OnMouseDown(s: HandlerState, e: MouseEvent): (t: HandlerState)
    ensures !Qualifies(e) ==> t == s
    ensures Qualifies(e) ==> t.active && t.listening && t.dragDisabled && t.startPos == Some(e.pos)
    ensures Qualifies(e) ==> t.(active := s.active, listening := s.listening,
                                dragDisabled := s.dragDisabled, startPos := s.startPos) == s
  {
    if !Qualifies(e) then s
    else s.(listening := true, dragDisabled := true, startPos := Some(e.pos), active := true)
  }

  /**
   * `_onMouseMove`: creates the markers on the first move (adding the
   * crosshair and firing `boxzoomstart` then) and moves them to the
   * projected corners of the envelope of the start point and the pointer.
   */
  function OnMouseMove(s: HandlerState, e: MouseEvent, cam: Camera): (t: HandlerState)
    requires s.startPos.Some?
    ensures t.boxCreated
    ensures t.markers == Some(OverlayCorners(cam, s.startPos.value, e.pos))
    ensures !s.boxCreated ==> t.crosshair && t.trace == s.trace + [Fired(BoxZoomStart, FromMouse(e), None)]
    ensures s.boxCreated ==> t.crosshair == s.crosshair && t.trace == s.trace
    ensures t.(boxCreated := s.boxCreated, markers := s.markers, crosshair := s.crosshair, trace := s.trace) == s
  {
    var p0 := s.startPos.value;
    var p1 := e.pos;
    var s' := if !s.boxCreated
      then s.(crosshair := true, trace := s.trace + [Fired(BoxZoomStart, FromMouse(e), None)], boxCreated := true)
      else s;
    s'.(markers := Some(OverlayCorners(cam, p0, p1)))
  }

  /**
   * `_finish`: removes the document listeners, the crosshair and the drag
   * suppression and ends the session. It tests `_box`, which is only assigned
   * inside the `if (this._box)` block, so that block never runs: the markers
   * are never removed and `boxCreated` stays set.
   */
  function Finish(s: HandlerState): (t: HandlerState)
    ensures Idle(t)
    ensures t.enabled == s.enabled && t.startPos == s.startPos && t.trace == s.trace
    ensures t.boxCreated == s.boxCreated && t.markers == s.markers
  {
    s.(active := false, listening := false, crosshair := false, dragDisabled := false)
  }

  /**
   * `_onMouseUp`: a release of any button but the main one changes nothing.
   * Otherwise the session ends; a release where it began fires
   * `boxzoomcancel`, any other calls `fitBounds` with a linear transition and
   * then fires `boxzoomend` carrying the same bounds.
   */
  function OnMouseUp(s: HandlerState, e: MouseEvent, cam: Camera): (t: HandlerState)
    requires s.startPos.Some?
    ensures e.button != 0 ==> t == s
    ensures e.button == 0 ==> Idle(t) && t.(trace := s.trace) == Finish(s)
    ensures e.button == 0 && e.pos == s.startPos.value ==>
              t.trace == s.trace + [Fired(BoxZoomCancel, FromMouse(e), None)]
    ensures e.button == 0 && e.pos != s.startPos.value ==>
              var b := CommittedBounds(cam, s.startPos.value, e.pos);
              b.Bounds? && t.trace == s.trace + [FitBounds(b, true), Fired(BoxZoomEnd, FromMouse(e), Some(b))]
  {
    if e.button != 0 then s
    else
      var p0 := s.startPos.value;
      var p1 := e.pos;
      var bounds := Extend(Extend(Empty, cam.unproject(p0)), cam.unproject(p1));
      var f := Finish(s);
      if p0.x == p1.x && p0.y == p1.y then
        f.(trace := f.trace + [Fired(BoxZoomCancel, FromMouse(e), None)])
      else
        f.(trace := f.trace + [FitBounds(bounds, true), Fired(BoxZoomEnd, FromMouse(e), Some(bounds))])
  }

  /** `_onKeyDown`: Escape ends the session and fires `boxzoomcancel`; any other key changes nothing. */
  function OnKeyDown(s: HandlerState, k: KeyboardEvent): (t: HandlerState)
    ensures k.keyCode != EscapeKeyCode ==> t == s
    ensures k.keyCode == EscapeKeyCode ==>
              Idle(t) && t == Finish(s).(trace := s.trace + [Fired(BoxZoomCancel, FromKeyboard(k), None)])
  {
    if k.keyCode == EscapeKeyCode then
      var f := Finish(s);
      f.(trace := f.trace + [Fired(BoxZoomCancel, FromKeyboard(k), None)])
    else s
  }

  /**
   * Delivery of a browser event: a press reaches the handler only while it
   * is enabled, the other events only while the document listeners are
   * attached. Out-of-order events are therefore no-ops.
   */
  function Dispatch(s: HandlerState, input: Input, cam: Camera): (t: HandlerState)
    requires Inv(s)
    ensures Inv(t)
    ensures s.trace <= t.trace
    ensures t.enabled == s.enabled
    ensures input.MouseDown? && !s.enabled ==> t == s
    ensures !input.MouseDown? && !s.listening ==> t == s
  {
    match input
    case MouseDown(e) => if s.enabled then OnMouseDown(s, e) else s
    case MouseMove(e) => if s.listening then OnMouseMove(s, e, cam) else s
    case MouseUp(e) => if s.listening then OnMouseUp(s, e, cam) else s
    case KeyDown(k) => if s.listening then OnKeyDown(s, k) else s
  }

  /** One thing that happens to the handler during its lifetime. */
  datatype Action = CallEnable | CallDisable | Deliver(input: Input, cam: Camera)

  function Apply(s: HandlerState, a: Action): (t: HandlerState)
    requires Inv(s)
    ensures Inv(t)
    ensures s.trace <= t.trace
  {
    match a
    case CallEnable => Enable(s)
    case CallDisable => Disable(s)
    case Deliver(input, cam) => Dispatch(s, input, cam)
  }

  /** The state after a sequence of actions, applied first to last. */
  function Run(s: HandlerState, acts: seq<Action>): (t: HandlerState)
    requires Inv(s)
    ensures Inv(t)
    ensures s.trace <= t.trace
    decreases |acts|
  {
    if acts == [] then s else Run(Apply(s, acts[0]), acts[1..])
  }

  predicate IsStart(entry: TraceEntry) {
    entry.Fired? && entry.name == BoxZoomStart
  }

  /** The number of `boxzoomstart` notifications in a trace; zero exactly when there is none. */
  function CountStarts(trace: seq<TraceEntry>): (n: nat)
    ensures n <= |trace|
    ensures n == 0 <==> forall i :: 0 <= i < |trace| ==> !IsStart(trace[i])
  {
    if trace == [] then 0
    else (if IsStart(trace[0]) then 1 else 0) + CountStarts(trace[1..])
  }
}
