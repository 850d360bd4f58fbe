/** The axis capture sub-protocol (ask_axis): a nested input loop that takes
    two left clicks and returns a new axis, forced to be horizontal (x axis)
    or vertical (y axis). The view it pans and zooms is a local copy. */
module AxisCapture {
  import opened View
  import opened Calibration

  datatype AxisKind = XAxis | YAxis

  /** Keys the capture loop reacts to; every other key is ignored. */
  datatype Key = ArrowUp | ArrowDown | ArrowLeft | ArrowRight | Space | OtherKey

  /** One input event, carrying the mouse position and the Ctrl state that
      the source queries while it handles the event. */
  datatype Input =
    | QuitRequest
    | MouseButton(button: int, mouse: Point)
    | KeyPress(key: Key)
    | MouseWheel(notches: int, ctrl: bool)
    | OtherInput

  /** The loop's local state: the points taken so far (gcoords) and the
      local copies of the zoom factor and the pan offset. */
  datatype CaptureState = CaptureState(points: seq<Point>, zoom: real, pan: Offset)

  /** How the loop leaves, or where it stands when the input runs out.
      QuitRaised is the QuitEvent exception; ZeroDivision is the
      ZeroDivisionError a click raises at zoom 0. */
  datatype Outcome =
    | Captured(axis: Axis)
    | QuitRaised
    | ZeroDivision
    | Pending(state: CaptureState)

  function Start(zoom: real, pan: Offset): CaptureState {
    CaptureState([], zoom, pan)
  }

  const LeftButton: int := 1
  const RightButton: int := 3

  /** The x axis is horizontal (start and end share y); the y axis is
      vertical (start and end share x). */
  predicate IsAligned(kind: AxisKind, a: Axis) {
    match kind
    case XAxis => a.start.y == a.end.y
    case YAxis => a.start.x == a.end.x
  }

  /** The end point of the axis: the clicked coordinate along the axis, the
      first point's coordinate across it. */
  function AlignedEnd(kind: AxisKind, first: Point, click: Point): (e: Point)
    ensures IsAligned(kind, Axis(first, e))
    ensures kind.XAxis? ==> e.x == click.x
    ensures kind.YAxis? ==> e.y == click.y
  {
    match kind
    case XAxis => Point(click.x, first.y)
    case YAxis => Point(first.x, click.y)
  }

  /** The arrow keys, Space and Ctrl + wheel act on the local view only. */
  function MoveView(st: CaptureState, ev: Input): (r: CaptureState)
    requires ev.KeyPress? || ev.MouseWheel?
    ensures r.points == st.points
    // an arrow pans the local view by 100 * zoom in its direction
    ensures ev == KeyPress(ArrowUp) ==> r == st.(pan := PanBy(st.pan, st.zoom, Up))
    ensures ev == KeyPress(ArrowDown) ==> r == st.(pan := PanBy(st.pan, st.zoom, Down))
    ensures ev == KeyPress(ArrowRight) ==> r == st.(pan := PanBy(st.pan, st.zoom, Right))
    ensures ev == KeyPress(ArrowLeft) ==> r == st.(pan := PanBy(st.pan, st.zoom, Left))
    // Space resets the local view; other keys leave it alone
    ensures ev == KeyPress(Space) ==> r == st.(pan := Origin, zoom := InitialZoom)
    ensures ev == KeyPress(OtherKey) ==> r == st
    // only Ctrl + wheel zooms
    ensures ev.MouseWheel? && ev.ctrl ==> r == st.(zoom := ZoomBy(st.zoom, ev.notches))
    ensures ev.MouseWheel? && !ev.ctrl ==> r == st
  {
    match ev
    case KeyPress(k) =>
      (match k
       case ArrowUp => st.(pan := PanBy(st.pan, st.zoom, Up))
       case ArrowDown => st.(pan := PanBy(st.pan, st.zoom, Down))
       case ArrowRight => st.(pan := PanBy(st.pan, st.zoom, Right))
       case ArrowLeft => st.(pan := PanBy(st.pan, st.zoom, Left))
       case Space => st.(pan := Origin, zoom := InitialZoom)
       case OtherKey => st)
    case MouseWheel(n, ctrl) => if ctrl then st.(zoom := ZoomBy(st.zoom, n)) else st
  }

  /** One pass of the event loop. */
  function Step(kind: AxisKind, st: CaptureState, ev: Input): (o: Outcome)
    requires |st.points| <= 1
    // a quit event raises QuitEvent, whatever has been clicked
    ensures ev.QuitRequest? <==> o.QuitRaised?
    // only a left click with one point held completes the capture, and the
    // axis starts at that point and is aligned
    ensures o.Captured? <==> ev.MouseButton? && ev.button == LeftButton && |st.points| == 1 && st.zoom != 0.0
    ensures o.Captured? ==> o.axis.start == st.points[0] && IsAligned(kind, o.axis)
    // the axis ends at the second click, forced onto the axis
    ensures o.Captured? ==>
      o.axis == Axis(st.points[0], AlignedEnd(kind, st.points[0], PosToGCoord(ev.mouse, st.zoom, st.pan)))
    // a left click at zoom 0 divides by zero
    ensures o.ZeroDivision? <==> ev.MouseButton? && ev.button == LeftButton && st.zoom == 0.0
    // a left click with no point held takes the first point
    ensures ev.MouseButton? && ev.button == LeftButton && st.points == [] && st.zoom != 0.0 ==>
      o == Pending(st.(points := [PosToGCoord(ev.mouse, st.zoom, st.pan)]))
    // a right click drops the held point, and does nothing without one
    ensures ev.MouseButton? && ev.button == RightButton ==> o == Pending(st.(points := []))
    // view changes never touch the points
    ensures o.Pending? ==> |o.state.points| <= 1
    ensures (ev.KeyPress? || ev.MouseWheel?) ==> o == Pending(MoveView(st, ev))
    // other buttons and other inputs are ignored
    ensures (ev.OtherInput? || (ev.MouseButton? && ev.button != LeftButton && ev.button != RightButton)) ==>
      o == Pending(st)
  {
    match ev
    case QuitRequest => QuitRaised
    case MouseButton(b, mouse) =>
      if b == LeftButton then
        if st.zoom == 0.0 then ZeroDivision
        else if |st.points| == 0 then Pending(st.(points := [PosToGCoord(mouse, st.zoom, st.pan)]))
        else Captured(Axis(st.points[0], AlignedEnd(kind, st.points[0], PosToGCoord(mouse, st.zoom, st.pan))))
      else if b == RightButton then
        if |st.points| == 1 then Pending(st.(points := [])) else Pending(st)
      else Pending(st)
    case KeyPress(_) => Pending(MoveView(st, ev))
    case MouseWheel(_, _) => Pending(MoveView(st, ev))
    case OtherInput => Pending(st)
  }

  /** The loop run over a finite stream of inputs: it stops at the first
      outcome other than Pending. */
  function Run(kind: AxisKind, st: CaptureState, events: seq<Input>): (o: Outcome)
    requires |st.points| <= 1
    // the loop never holds two points without having returned them
    ensures o.Pending? ==> |o.state.points| <= 1
    decreases |events|
  {
    if events == [] then Pending(st)
    else
      match Step(kind, st, events[0])
      case Pending(next) => Run(kind, next, events[1..])
      case other => other
  }

  /** ask_axis: the capture loop, consuming the inputs one at a time. */
  method AskAxis(kind: AxisKind, zoom: real, pan: Offset, events: seq<Input>) returns (o: Outcome)
    ensures o == Run(kind, Start(zoom, pan), events)
    ensures o.Captured? ==> IsAligned(kind, o.axis)
  {
    var gcoords: seq<Point> := [];
    var z, p := zoom, pan;
    var i := 0;
    while i < |events|
      invariant 0 <= i <= |events|
      invariant |gcoords| <= 1
      invariant Run(kind, Start(zoom, pan), events) == Run(kind, CaptureState(gcoords, z, p), events[i..])
    {
      var ev := events[i];
      assert events[i..][1..] == events[i + 1..];
      match ev {
        case QuitRequest =>
          return QuitRaised;
        case MouseButton(b, mouse) =>
          if b == LeftButton {
            if z == 0.0 {
              return ZeroDivision;
            }
            var g := PosToGCoord(mouse, z, p);
            if |gcoords| == 0 {
              gcoords := [g];
            } else {
              return Captured(Axis(gcoords[0], AlignedEnd(kind, gcoords[0], g)));
            }
          } else if b == RightButton {
            if |gcoords| == 1 {
              gcoords := [];
            }
          }
        case KeyPress(k) =>
          if k == ArrowUp {
            p := PanBy(p, z, Up);
          } else if k == ArrowDown {
            p := PanBy(p, z, Down);
          } else if k == ArrowRight {
            p := PanBy(p, z, Right);
          } else if k == ArrowLeft {
            p := PanBy(p, z, Left);
          } else if k == Space {
            p := Origin;
            z := InitialZoom;
          }
        case MouseWheel(n, ctrl) =>
          if ctrl {
            z := ZoomBy(z, n);
          }
        case OtherInput =>
      }
      i := i + 1;
    }
    o := Pending(CaptureState(gcoords, z, p));
  }

  /** Whatever the clicks, a completed capture is aligned with its axis. */
  lemma {:induction false} CapturedAxisIsAligned(kind: AxisKind, st: CaptureState, events: seq<Input>)
    requires |st.points| <= 1
    requires Run(kind, st, events).Captured?
    ensures IsAligned(kind, Run(kind, st, events).axis)
    decreases |events|
  {
    if events != [] {
      match Step(kind, st, events[0])
      case Pending(next) => CapturedAxisIsAligned(kind, next, events[1..]);
      case _ =>
    }
  }

  /** The loop is resumable: running over a + b is running over a and,
      if that is still waiting, carrying on from its state over b. Once
      the loop has returned, later input is never read. */
  lemma {:induction false} RunResumes(kind: AxisKind, st: CaptureState, a: seq<Input>, b: seq<Input>)
    requires |st.points| <= 1
    ensures Run(kind, st, a + b) ==
      match Run(kind, st, a)
      case Pending(mid) => Run(kind, mid, b)
      case other => other
    decreases |a|
  {
    if a == [] {
      assert a + b == b;
    } else {
      assert (a + b)[0] == a[0];
      assert (a + b)[1..] == a[1..] + b;
      match Step(kind, st, a[0])
      case Pending(next) => RunResumes(kind, next, a[1..], b);
      case _ =>
    }
  }

  function LeftClicks(events: seq<Input>): nat {
    if events == [] then 0
    else (if events[0].MouseButton? && events[0].button == LeftButton then 1 else 0) + LeftClicks(events[1..])
  }

  /** A capture from scratch needs at least two left clicks: one that takes
      the first point and one that completes the axis. */
  lemma {:induction false} CaptureNeedsTwoLeftClicks(kind: AxisKind, st: CaptureState, events: seq<Input>)
    requires |st.points| <= 1
    requires Run(kind, st, events).Captured?
    ensures LeftClicks(events) + |st.points| >= 2
    decreases |events|
  {
    if events != [] {
      match Step(kind, st, events[0])
      case Pending(next) =>
        CaptureNeedsTwoLeftClicks(kind, next, events[1..]);
        var e := events[0];
        if e.MouseButton? && e.button == LeftButton {
          assert |next.points| <= |st.points| + 1;
        } else {
          assert |next.points| <= |st.points|;
        }
      case _ =>
    }
  }

  /** The loop ends by QuitEvent only when a quit event arrived. */
  lemma {:induction false} QuitNeedsQuitRequest(kind: AxisKind, st: CaptureState, events: seq<Input>)
    requires |st.points| <= 1
    requires Run(kind, st, events).QuitRaised?
    ensures exists j :: 0 <= j < |events| && events[j].QuitRequest?
    decreases |events|
  {
    if events != [] {
      match Step(kind, st, events[0])
      case Pending(next) =>
        QuitNeedsQuitRequest(kind, next, events[1..]);
        var j :| 0 <= j < |events[1..]| && events[1..][j].QuitRequest?;
        assert events[j + 1].QuitRequest?;
      case _ =>
    }
  }

  /** Two left clicks at zoom 1 with no pan: the second click's y is
      replaced by the first point's. A right click in between restarts. */
  lemma CaptureExamples()
    ensures Run(XAxis, Start(1.0, Origin),
                [MouseButton(LeftButton, Point(10, 20)), MouseButton(LeftButton, Point(90, 70))])
            == Captured(Axis(Point(10, 20), Point(90, 20)))
    ensures Run(YAxis, Start(1.0, Origin),
                [MouseButton(LeftButton, Point(10, 20)), MouseButton(RightButton, Point(0, 0)),
                 MouseButton(LeftButton, Point(30, 40)), MouseButton(LeftButton, Point(90, 70))])
            == Captured(Axis(Point(30, 40), Point(30, 70)))
  {
    TruncOfInteger(10);
    TruncOfInteger(20);
    TruncOfInteger(30);
    TruncOfInteger(40);
    TruncOfInteger(70);
    TruncOfInteger(90);
    var s0 := Start(1.0, Origin);
    var evs := [MouseButton(LeftButton, Point(10, 20)), MouseButton(RightButton, Point(0, 0)),
                MouseButton(LeftButton, Point(30, 40)), MouseButton(LeftButton, Point(90, 70))];
    var s1 := s0.(points := [Point(10, 20)]);
    assert Step(YAxis, s0, evs[0]) == Pending(s1);
    assert Step(YAxis, s1, evs[1]) == Pending(s0);
    var s3 := s0.(points := [Point(30, 40)]);
    assert Step(YAxis, s0, evs[2]) == Pending(s3);
    assert Run(YAxis, s3, evs[3..]) == Captured(Axis(Point(30, 40), Point(30, 70)));
    assert Run(YAxis, s0, evs[2..]) == Run(YAxis, s3, evs[3..]);
    assert Run(YAxis, s1, evs[1..]) == Run(YAxis, s0, evs[2..]);
  }
}
