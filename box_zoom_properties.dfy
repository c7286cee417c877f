/**
 * Properties of the box zoom state machine that relate several calls:
 * idempotence, the lifetime behaviour of `boxzoomstart`, and four
 * end-to-end scenarios.
 */
module BoxZoomProperties {
  import opened Wrappers
  import opened Geo
  import opened BoxZoomSpec

  lemma EnableIdempotent(s: HandlerState)
    ensures Enable(Enable(s)) == Enable(s)
    ensures s.enabled ==> Enable(s) == s
  {
  }

  lemma DisableIdempotent(s: HandlerState)
    ensures Disable(Disable(s)) == Disable(s)
    ensures !s.enabled ==> Disable(s) == s
  {
  }

  /** Finishing twice is the same as finishing once. */
  lemma FinishIdempotent(s: HandlerState)
    ensures Finish(Finish(s)) == Finish(s)
  {
  }

  /** A press that does not qualify is invisible, whatever state the handler is in. */
  lemma NonQualifyingPressIgnored(s: HandlerState, e: MouseEvent, cam: Camera)
    requires Inv(s) && !Qualifies(e)
    ensures Dispatch(s, MouseDown(e), cam) == s
  {
  }

  lemma {:induction false} CountStartsAppend(a: seq<TraceEntry>, b: seq<TraceEntry>)
    ensures CountStarts(a + b) == CountStarts(a) + CountStarts(b)
  {
    if a == [] {
      assert a + b == b;
    } else {
      assert (a + b)[1..] == a[1..] + b;
      CountStartsAppend(a[1..], b);
    }
  }

  /** `boxzoomstart` has been fired exactly once if the markers exist and never otherwise. */
  predicate StartAccounted(s: HandlerState) {
    CountStarts(s.trace) == if s.boxCreated then 1 else 0
  }

  /** Appending entries none of which is `boxzoomstart` keeps the count. */
  lemma AppendWithoutStart(s: HandlerState, t: HandlerState, added: seq<TraceEntry>)
    requires StartAccounted(s) && t.boxCreated == s.boxCreated && t.trace == s.trace + added
    requires forall i :: 0 <= i < |added| ==> !IsStart(added[i])
    ensures StartAccounted(t)
  {
    CountStartsAppend(s.trace, added);
  }

  lemma DispatchKeepsStartAccounted(s: HandlerState, input: Input, cam: Camera)
    requires Inv(s) && StartAccounted(s)
    ensures StartAccounted(Dispatch(s, input, cam))
  {
    var t := Dispatch(s, input, cam);
    if !input.MouseDown? && s.listening {
      match input
      case MouseMove(e) =>
        if !s.boxCreated {
          CountStartsAppend(s.trace, [Fired(BoxZoomStart, FromMouse(e), None)]);
        }
      case MouseUp(e) =>
        if e.button == 0 {
          if e.pos == s.startPos.value {
            AppendWithoutStart(s, t, [Fired(BoxZoomCancel, FromMouse(e), None)]);
          } else {
            var b := CommittedBounds(cam, s.startPos.value, e.pos);
            AppendWithoutStart(s, t, [FitBounds(b, true), Fired(BoxZoomEnd, FromMouse(e), Some(b))]);
          }
        }
      case KeyDown(k) =>
        if k.keyCode == EscapeKeyCode {
          AppendWithoutStart(s, t, [Fired(BoxZoomCancel, FromKeyboard(k), None)]);
        }
    }
  }

  lemma ApplyKeepsStartAccounted(s: HandlerState, a: Action)
    requires Inv(s) && StartAccounted(s)
    ensures StartAccounted(Apply(s, a))
  {
    if a.Deliver? {
      DispatchKeepsStartAccounted(s, a.input, a.cam);
    }
  }

  lemma {:induction false} RunKeepsStartAccounted(s: HandlerState, acts: seq<Action>)
    requires Inv(s) && StartAccounted(s)
    ensures StartAccounted(Run(s, acts))
    decreases |acts|
  {
    if acts != [] {
      ApplyKeepsStartAccounted(s, acts[0]);
      RunKeepsStartAccounted(Apply(s, acts[0]), acts[1..]);
    }
  }

  /**
   * Over the whole lifetime of a handler `boxzoomstart` fires at most once:
   * `_finish` never clears the markers, so no later session fires it again.
   */
  lemma BoxZoomStartAtMostOnce(acts: seq<Action>)
    ensures CountStarts(Run(Initial, acts).trace) <= 1
  {
    RunKeepsStartAccounted(Initial, acts);
  }

  /** Once the markers exist, no later session adds the crosshair cursor. */
  lemma {:induction false} NoCrosshairOnceBoxCreated(s: HandlerState, acts: seq<Action>)
    requires Inv(s) && s.boxCreated && !s.crosshair
    ensures !Run(s, acts).crosshair && Run(s, acts).boxCreated
    decreases |acts|
  {
    if acts != [] {
      NoCrosshairOnceBoxCreated(Apply(s, acts[0]), acts[1..]);
    }
  }

  /** Every way a session ends leaves the handler idle. */
  lemma TerminalEventsEndSession(s: HandlerState, e: MouseEvent, k: KeyboardEvent, cam: Camera)
    requires Inv(s) && s.listening
    ensures e.button == 0 ==> Idle(Dispatch(s, MouseUp(e), cam))
    ensures k.keyCode == EscapeKeyCode ==> Idle(Dispatch(s, KeyDown(k), cam))
    ensures e.button != 0 ==> Dispatch(s, MouseUp(e), cam) == s
    ensures k.keyCode != EscapeKeyCode ==> Dispatch(s, KeyDown(k), cam) == s
  {
  }

  function Press(x: real, y: real): MouseEvent { MouseEvent(true, 0, Point(x, y)) }

  /**
   * Press with shift at (10,10), move to (50,40), release there: one
   * `boxzoomstart`, then `fitBounds` and `boxzoomend` with the bounds of the
   * unprojected drag, and the session is over.
   */
  lemma ScenarioDragAndRelease(cam: Camera)
    ensures var down, move, up := Press(10.0, 10.0), Press(50.0, 40.0), Press(50.0, 40.0);
            var b := CommittedBounds(cam, Point(10.0, 10.0), Point(50.0, 40.0));
            var t := Run(Enable(Initial), [Deliver(MouseDown(down), cam), Deliver(MouseMove(move), cam),
                                            Deliver(MouseUp(up), cam)]);
            && t.trace == [Fired(BoxZoomStart, FromMouse(move), None), FitBounds(b, true),
                           Fired(BoxZoomEnd, FromMouse(up), Some(b))]
            && Idle(t)
  {
    var down, move, up := Press(10.0, 10.0), Press(50.0, 40.0), Press(50.0, 40.0);
    var s0 := Enable(Initial);
    var s1 := Dispatch(s0, MouseDown(down), cam);
    var s2 := Dispatch(s1, MouseMove(move), cam);
    var s3 := Dispatch(s2, MouseUp(up), cam);
    var acts := [Deliver(MouseDown(down), cam), Deliver(MouseMove(move), cam), Deliver(MouseUp(up), cam)];
    assert acts[1..][1..][1..] == [];
    assert Run(s0, acts) == Run(s1, acts[1..]) == Run(s2, acts[1..][1..]) == s3;
  }

  /**
   * Press and release at the same point with no move in between: the code
   * fires `boxzoomcancel`, and never `boxzoomstart` or `fitBounds`.
   */
  lemma ScenarioClickWithoutMove(cam: Camera)
    ensures var down := Press(10.0, 10.0);
            var t := Run(Enable(Initial), [Deliver(MouseDown(down), cam), Deliver(MouseUp(down), cam)]);
            t.trace == [Fired(BoxZoomCancel, FromMouse(down), None)] && Idle(t)
  {
    var down := Press(10.0, 10.0);
    var s0 := Enable(Initial);
    var s1 := Dispatch(s0, MouseDown(down), cam);
    var acts := [Deliver(MouseDown(down), cam), Deliver(MouseUp(down), cam)];
    assert acts[1..][1..] == [];
    assert Run(s0, acts) == Run(s1, acts[1..]) == Dispatch(s1, MouseUp(down), cam);
  }

  /** Press, move to (100,100), press Escape: `boxzoomstart`, then `boxzoomcancel`, no `fitBounds`. */
  lemma ScenarioEscape(cam: Camera)
    ensures var down, move, esc := Press(10.0, 10.0), Press(100.0, 100.0), KeyboardEvent(27);
            var t := Run(Enable(Initial), [Deliver(MouseDown(down), cam), Deliver(MouseMove(move), cam),
                                            Deliver(KeyDown(esc), cam)]);
            && t.trace == [Fired(BoxZoomStart, FromMouse(move), None), Fired(BoxZoomCancel, FromKeyboard(esc), None)]
            && Idle(t)
  {
    var down, move, esc := Press(10.0, 10.0), Press(100.0, 100.0), KeyboardEvent(27);
    var s0 := Enable(Initial);
    var s1 := Dispatch(s0, MouseDown(down), cam);
    var s2 := Dispatch(s1, MouseMove(move), cam);
    var s3 := Dispatch(s2, KeyDown(esc), cam);
    var acts := [Deliver(MouseDown(down), cam), Deliver(MouseMove(move), cam), Deliver(KeyDown(esc), cam)];
    assert acts[1..][1..][1..] == [];
    assert Run(s0, acts) == Run(s1, acts[1..]) == Run(s2, acts[1..][1..]) == s3;
  }

  /** A press without shift changes nothing and attaches no listener. */
  lemma ScenarioPressWithoutShift(cam: Camera)
    ensures var s := Enable(Initial);
            Run(s, [Deliver(MouseDown(MouseEvent(false, 0, Point(10.0, 10.0))), cam)]) == s
  {
    var s := Enable(Initial);
    var acts := [Deliver(MouseDown(MouseEvent(false, 0, Point(10.0, 10.0))), cam)];
    assert acts[1..] == [];
  }
}
