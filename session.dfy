/** The digitising session of analyze_picture: the marker series with their
    sizes and shapes, the working series, the edit cursor, the interface
    mode, the axes and the view, and one state transition per input event of
    the main loop. */
module Session {
  import opened View
  import opened Calibration
  import opened AxisCapture

  /** interface_mode. The source also declares an `axis` mode but never
      enters it: axis capture runs as a nested loop instead. */
  datatype Mode = Normal | Edit

  /** The marker shapes are the integers 1 to 5: circle, square, rhombus,
      triangle, inverted triangle. */
  const ShapeCount: int := 5
  const Circle: int := 1
  const DefaultMarkerSize: real := 5.0

  predicate IsShape(s: int) { 1 <= s <= ShapeCount }

  lemma MulBound(k: int, n: int)
    requires n > 0
    ensures k >= 1 ==> k * n >= n
    ensures k <= -1 ==> k * n <= -n
  {
    if k >= 1 {
      assert k * n == (k - 1) * n + n;
      assert (k - 1) * n >= 0;
    } else if k <= -1 {
      assert k * n == (k + 1) * n - n;
      assert (k + 1) * n <= 0;
    }
  }

  /** Euclidean division is unique: a quotient and a remainder in [0, n)
      that rebuild i are i / n and i % n. */
  lemma DivModUnique(i: int, n: int, q: int, r: int)
    requires n > 0 && 0 <= r < n && i == q * n + r
    ensures i % n == r && i / n == q
  {
    var k := q - i / n;
    assert i == (i / n) * n + i % n;
    assert k * n == i % n - r;
    MulBound(k, n);
  }

  /** Python's i % n for a positive n: the representative of i in [0, n),
      which differs from i by a multiple of n. */
  function Wrap(i: int, n: int): (r: int)
    requires n > 0
    ensures 0 <= r < n
    ensures (i - r) % n == 0
  {
    var r := i % n;
    assert i == (i / n) * n + r;
    DivModUnique(i - r, n, i / n, 0);
    r
  }

  /** Wrapping one more step: the representative of i + d follows from that
      of i. */
  lemma {:induction false} WrapShift(i: int, d: int, n: int)
    requires n > 0
    ensures Wrap(Wrap(i, n) + d, n) == Wrap(i + d, n)
  {
    var r := i % n;
    var q := i / n;
    assert i == q * n + r;
    var r2 := (r + d) % n;
    var q2 := (r + d) / n;
    assert r + d == q2 * n + r2;
    assert i + d == (q + q2) * n + r2;
    DivModUnique(i + d, n, q + q2, r2);
  }

  /** Key N: the next series, wrapping after the last. */
  function NextSeries(w: int, count: int): (r: int)
    requires count > 0
    ensures 0 <= r < count
    ensures 0 <= w < count - 1 ==> r == w + 1
    ensures w == count - 1 ==> r == 0
  {
    var r := Wrap(w + 1, count);
    if 0 <= w < count - 1 then DivModUnique(w + 1, count, 0, w + 1); r
    else if w == count - 1 then DivModUnique(w + 1, count, 1, 0); r
    else r
  }

  /** Key P: the previous series, wrapping before the first. */
  function PrevSeries(w: int, count: int): (r: int)
    requires count > 0
    ensures 0 <= r < count
    ensures 0 < w < count ==> r == w - 1
    ensures w == 0 ==> r == count - 1
  {
    var r := Wrap(w - 1, count);
    if 0 < w < count then DivModUnique(w - 1, count, 0, w - 1); r
    else if w == 0 then DivModUnique(w - 1, count, -1, count - 1); r
    else r
  }

  /** N undoes P and P undoes N on every series index. */
  lemma NextAndPrevAreInverse(w: int, count: int)
    requires 0 <= w < count
    ensures NextSeries(PrevSeries(w, count), count) == w
    ensures PrevSeries(NextSeries(w, count), count) == w
  {
  }

  /** The working series after k presses of N. */
  function PressN(w: int, count: int, k: nat): (r: int)
    requires count > 0
    ensures 0 <= r < count
  {
    if k == 0 then Wrap(w, count) else NextSeries(PressN(w, count, k - 1), count)
  }

  /** The working series after k presses of P. */
  function PressP(w: int, count: int, k: nat): (r: int)
    requires count > 0
    ensures 0 <= r < count
  {
    if k == 0 then Wrap(w, count) else PrevSeries(PressP(w, count, k - 1), count)
  }

  lemma {:induction false} PressNWraps(w: int, count: int, k: nat)
    requires count > 0
    ensures PressN(w, count, k) == Wrap(w + k, count)
  {
    if k > 0 {
      PressNWraps(w, count, k - 1);
      WrapShift(w + k - 1, 1, count);
    }
  }

  lemma {:induction false} PressPWraps(w: int, count: int, k: nat)
    requires count > 0
    ensures PressP(w, count, k) == Wrap(w - k, count)
  {
    if k > 0 {
      PressPWraps(w, count, k - 1);
      WrapShift(w - k + 1, -1, count);
    }
  }

  /** As many presses of N, or of P, as there are series bring the working
      series back to where it was. */
  lemma FullCycleRestoresWorkingSeries(w: int, count: int)
    requires 0 <= w < count
    ensures PressN(w, count, count) == w
    ensures PressP(w, count, count) == w
  {
    PressNWraps(w, count, count);
    DivModUnique(w + count, count, 1, w);
    PressPWraps(w, count, count);
    DivModUnique(w - count, count, -1, w);
  }

  /** Key M: the next marker shape, back to the circle after the last. */
  function NextShape(s: int): (r: int)
    ensures IsShape(r)
    ensures 1 <= s < ShapeCount ==> r == s + 1
    ensures s == ShapeCount ==> r == Circle
  {
    1 + s % ShapeCount
  }

  /** Five presses of M bring every shape back: the cycle visits all five. */
  lemma ShapeCycleRestores(s: int)
    requires IsShape(s)
    ensures NextShape(NextShape(NextShape(NextShape(NextShape(s))))) == s
  {
  }

  /** The mouse wheel: the marker size changes by the notches, never below 1. */
  function Resize(size: real, notches: int): (r: real)
    ensures r >= 1.0 && r >= size + notches as real
    ensures r == 1.0 || r == size + notches as real
  {
    if size + notches as real < 1.0 then 1.0 else size + notches as real
  }

  /** The navigation step in edit mode: 10 with Shift held, 1 without. */
  function NavStep(shift: bool): (step: int)
    ensures shift <==> step == 10
    ensures !shift <==> step == 1
  {
    if shift then 10 else 1
  }

  /** Python's index into a list of length n: a negative index counts from
      the end. */
  function PyIndex(i: int, n: int): (r: int)
    requires -n <= i < n
    ensures 0 <= r < n
    ensures i >= 0 ==> r == i
    ensures i < 0 ==> r == n + i
  {
    if i < 0 then n + i else i
  }

  /** list.pop(k) on a value: everything but the element at k, in order. */
  function RemoveAt<T>(s: seq<T>, k: int): (r: seq<T>)
    requires 0 <= k < |s|
    ensures |r| == |s| - 1
    ensures forall j :: 0 <= j < k ==> r[j] == s[j]
    ensures forall j :: k <= j < |r| ==> r[j] == s[j + 1]
  {
    s[..k] + s[k + 1..]
  }

  function MaxInt(a: int, b: int): int { if a < b then b else a }

  /** Every field of the session at once, so that each event's contract can
      state the whole new state as the old one with some fields replaced. */
  datatype SessionState = SessionState(
    data: seq<seq<Point>>,
    sizes: seq<real>,
    shapes: seq<int>,
    working: int,
    editSeries: int,
    editItem: int,
    mode: Mode,
    xAxis: Axis,
    yAxis: Axis,
    zoom: real,
    pan: Offset,
    running: bool,
    showControls: bool,
    coords: seq<seq<Row>>)

  class Session {
    /** data_gcoord: the series, each an ordered list of marker positions. */
    var data: seq<seq<Point>>
    /** series_marker_size and series_marker_shape, parallel to data. */
    var sizes: seq<real>
    var shapes: seq<int>
    /** working_series: the series that normal-mode clicks edit. */
    var working: int
    /** edit_seriesNo_itemNo: the marker selected in edit mode. */
    var editSeries: int
    var editItem: int
    var mode: Mode
    /** axes_gcoord[0] and axes_gcoord[1]. */
    var xAxis: Axis
    var yAxis: Axis
    /** zoom_factor and screen_gcoord. */
    var zoom: real
    var pan: Offset
    var running: bool
    var showControls: bool
    /** data_coord: the rows computed by the last C key. */
    var coords: seq<seq<Row>>

    function State(): SessionState
      reads this
    {
      SessionState(data, sizes, shapes, working, editSeries, editItem, mode,
                   xAxis, yAxis, zoom, pan, running, showControls, coords)
    }

    /** The session invariant. Deleting a series shortens data but not the
        style lists, and does not move the working series; so the style lists
        are at least as long as data, and the working series indexes data
        only in normal mode (Escape, the only way back there, resets it). */
    ghost predicate Valid()
      reads this
    {
      && |data| >= 1
      && |sizes| >= |data| && |shapes| >= |data|
      && 0 <= working < |sizes| && working < |shapes|
      && (mode == Normal ==> working < |data|)
      && 0 <= editSeries < |data|
      && (forall k :: 0 <= k < |sizes| ==> sizes[k] >= 1.0)
      && (forall k :: 0 <= k < |shapes| ==> IsShape(shapes[k]))
      && zoom >= 0.0
      && IsAligned(XAxis, xAxis) && IsAligned(YAxis, yAxis)
    }

    /** A fresh session: one empty series of size 5 drawn as circles, the
        placeholder axes, zoom 1 with no pan, normal mode. */
    constructor ()
      ensures Valid()
      ensures State() == SessionState([[]], [DefaultMarkerSize], [Circle], 0, 0, 0, Normal,
                                      DefaultXAxis, DefaultYAxis, InitialZoom, Origin, true, true, [])
    {
      data := [[]];
      sizes := [DefaultMarkerSize];
      shapes := [Circle];
      working := 0;
      editSeries, editItem := 0, 0;
      mode := Normal;
      xAxis, yAxis := DefaultXAxis, DefaultYAxis;
      zoom, pan := InitialZoom, Origin;
      running := true;
      showControls := true;
      coords := [];
    }

    /** The window's close event ends the main loop. */
    method Quit()
      requires Valid()
      modifies this
      ensures Valid()
      ensures State() == old(State()).(running := false)
    {
      running := false;
    }

    /** Mouse wheel: with Ctrl it zooms, otherwise it resizes the working
        series' markers, in either mode. */
    method Wheel(notches: int, ctrl: bool)
      requires Valid()
      modifies this
      ensures Valid()
      ensures ctrl ==> State() == old(State()).(zoom := ZoomBy(old(zoom), notches))
      ensures !ctrl ==>
        State() == old(State()).(sizes := old(sizes)[old(working) := Resize(old(sizes)[old(working)], notches)])
    {
      if ctrl {
        zoom := ZoomBy(zoom, notches);
      } else {
        sizes := sizes[working := Resize(sizes[working], notches)];
      }
    }

    /** Left click: in normal mode, append the clicked point to the working
        series. pos_to_gcoord divides by the zoom, so the click needs a
        non-zero zoom there. */
    method LeftClick(mouse: Point)
      requires Valid()
      requires mode == Normal ==> zoom != 0.0
      modifies this
      ensures Valid()
      ensures old(mode) == Normal ==>
        State() == old(State()).(data := old(data)[old(working) := old(data)[old(working)] + [PosToGCoord(mouse, old(zoom), old(pan))]])
      ensures old(mode) == Edit ==> State() == old(State())
    {
      if mode == Normal {
        data := data[working := data[working] + [PosToGCoord(mouse, zoom, pan)]];
      }
    }

    /** Right click: in normal mode, drop the working series' last marker,
        if it has one. */
    method RightClick()
      requires Valid()
      modifies this
      ensures Valid()
      ensures old(mode) == Normal && old(data)[old(working)] != [] ==>
        State() == old(State()).(data := old(data)[old(working) := old(data)[old(working)][..|old(data)[old(working)]| - 1]])
      ensures old(mode) == Edit || old(data)[old(working)] == [] ==> State() == old(State())
    {
      if mode == Normal {
        if |data[working]| > 0 {
          data := data[working := data[working][..|data[working]| - 1]];
        }
      }
    }

    /** Key E enters edit mode from any mode, leaving the cursor as it was. */
    method KeyE()
      requires Valid()
      modifies this
      ensures Valid()
      ensures State() == old(State()).(mode := Edit)
    {
      mode := Edit;
    }

    /** Escape returns to normal mode and always selects the first series. */
    method KeyEscape()
      requires Valid()
      modifies this
      ensures Valid()
      ensures State() == old(State()).(mode := Normal, working := 0)
    {
      mode := Normal;
      working := 0;
    }

    /** Return, in normal mode: a new empty series of size 5 drawn as
        circles becomes the working series. */
    method KeyReturn()
      requires Valid()
      modifies this
      ensures Valid()
      ensures old(mode) == Normal ==>
        State() == old(State()).(data := old(data) + [[]], sizes := old(sizes) + [DefaultMarkerSize],
                                 shapes := old(shapes) + [Circle], working := |old(data)|)
      ensures old(mode) == Edit ==> State() == old(State())
    {
      if mode == Normal {
        data := data + [[]];
        sizes := sizes + [DefaultMarkerSize];
        shapes := shapes + [Circle];
        working := |data| - 1;
      }
    }

    /** Key N, in normal mode: the next series becomes the working one. */
    method KeyN()
      requires Valid()
      modifies this
      ensures Valid()
      ensures old(mode) == Normal ==> State() == old(State()).(working := NextSeries(old(working), |old(data)|))
      ensures old(mode) == Edit ==> State() == old(State())
    {
      if mode == Normal {
        working := (working + 1) % |data|;
      }
    }

    /** Key P, in normal mode: the previous series becomes the working one. */
    method KeyP()
      requires Valid()
      modifies this
      ensures Valid()
      ensures old(mode) == Normal ==> State() == old(State()).(working := PrevSeries(old(working), |old(data)|))
      ensures old(mode) == Edit ==> State() == old(State())
    {
      if mode == Normal {
        working := (working - 1) % |data|;
      }
    }

    /** Key M, in normal mode: the working series takes the next shape. */
    method KeyM()
      requires Valid()
      modifies this
      ensures Valid()
      ensures old(mode) == Normal ==>
        State() == old(State()).(shapes := old(shapes)[old(working) := NextShape(old(shapes)[old(working)])])
      ensures old(mode) == Edit ==> State() == old(State())
    {
      if mode == Normal {
        shapes := shapes[working := 1 + shapes[working] % ShapeCount];
      }
    }

    /** Keys X and Y, in any mode: run the capture loop on copies of the
        view. A completed capture replaces that axis and nothing else (the
        view is left as it was before the capture); a quit leaves the axes
        alone and stops the session. The capture must end one of these two
        ways: the source keeps waiting for input until it does, and a click
        at zoom 0 raises ZeroDivisionError. */
    method SetAxis(kind: AxisKind, events: seq<Input>)
      requires Valid()
      requires Run(kind, Start(zoom, pan), events).Captured? || Run(kind, Start(zoom, pan), events).QuitRaised?
      modifies this
      ensures Valid()
      ensures var o := Run(kind, Start(old(zoom), old(pan)), events);
        && (o.Captured? && kind == XAxis ==> State() == old(State()).(xAxis := o.axis))
        && (o.Captured? && kind == YAxis ==> State() == old(State()).(yAxis := o.axis))
        && (o.QuitRaised? ==> State() == old(State()).(running := false))
    {
      var o := AskAxis(kind, zoom, pan, events);
      if o.Captured? {
        if kind == XAxis {
          xAxis := o.axis;
        } else {
          yAxis := o.axis;
        }
      } else {
        running := false;
      }
    }

    /** Arrow up: pans the view in normal mode; in edit mode selects the
        first marker of the series step places back, wrapping. */
    method KeyUp(shift: bool)
      requires Valid()
      modifies this
      ensures Valid()
      ensures old(mode) == Normal ==> State() == old(State()).(pan := PanBy(old(pan), old(zoom), Up))
      ensures old(mode) == Edit ==>
        State() == old(State()).(editSeries := Wrap(old(editSeries) - NavStep(shift), |old(data)|), editItem := 0)
    {
      if mode == Normal {
        pan := PanBy(pan, zoom, Up);
      } else {
        editSeries, editItem := (editSeries - NavStep(shift)) % |data|, 0;
      }
    }

    /** Arrow down: pans the view in normal mode; in edit mode selects the
        first marker of the series step places on, wrapping. */
    method KeyDown(shift: bool)
      requires Valid()
      modifies this
      ensures Valid()
      ensures old(mode) == Normal ==> State() == old(State()).(pan := PanBy(old(pan), old(zoom), Down))
      ensures old(mode) == Edit ==>
        State() == old(State()).(editSeries := Wrap(old(editSeries) + NavStep(shift), |old(data)|), editItem := 0)
    {
      if mode == Normal {
        pan := PanBy(pan, zoom, Down);
      } else {
        editSeries, editItem := (editSeries + NavStep(shift)) % |data|, 0;
      }
    }

    /** Arrow right: pans the view in normal mode; in edit mode moves the
        selection step markers on within a non-empty series, wrapping. */
    method KeyRight(shift: bool)
      requires Valid()
      modifies this
      ensures Valid()
      ensures old(mode) == Normal ==> State() == old(State()).(pan := PanBy(old(pan), old(zoom), Right))
      ensures old(mode) == Edit && old(data)[old(editSeries)] != [] ==>
        State() == old(State()).(editItem := Wrap(old(editItem) + NavStep(shift), |old(data)[old(editSeries)]|))
      ensures old(mode) == Edit && old(data)[old(editSeries)] == [] ==> State() == old(State())
    {
      if mode == Normal {
        pan := PanBy(pan, zoom, Right);
      } else if data[editSeries] != [] {
        editItem := (editItem + NavStep(shift)) % |data[editSeries]|;
      }
    }

    /** Arrow left: pans the view in normal mode; in edit mode moves the
        selection step markers back within a non-empty series, wrapping. */
    method KeyLeft(shift: bool)
      requires Valid()
      modifies this
      ensures Valid()
      ensures old(mode) == Normal ==> State() == old(State()).(pan := PanBy(old(pan), old(zoom), Left))
      ensures old(mode) == Edit && old(data)[old(editSeries)] != [] ==>
        State() == old(State()).(editItem := Wrap(old(editItem) - NavStep(shift), |old(data)[old(editSeries)]|))
      ensures old(mode) == Edit && old(data)[old(editSeries)] == [] ==> State() == old(State())
    {
      if mode == Normal {
        pan := PanBy(pan, zoom, Left);
      } else if data[editSeries] != [] {
        editItem := (editItem - NavStep(shift)) % |data[editSeries]|;
      }
    }

    /** Home, in edit mode: with Shift the first series (the marker index is
        kept), without it the first marker. */
    method KeyHome(shift: bool)
      requires Valid()
      modifies this
      ensures Valid()
      ensures old(mode) == Edit && shift ==> State() == old(State()).(editSeries := 0)
      ensures old(mode) == Edit && !shift ==> State() == old(State()).(editItem := 0)
      ensures old(mode) == Normal ==> State() == old(State())
    {
      if mode == Edit {
        if shift {
          editSeries := 0;
        } else {
          editItem := 0;
        }
      }
    }

    /** End, in edit mode: with Shift the last series (the marker index is
        kept), without it the last marker, which is -1 in an empty series. */
    method KeyEnd(shift: bool)
      requires Valid()
      modifies this
      ensures Valid()
      ensures old(mode) == Edit && shift ==> State() == old(State()).(editSeries := |old(data)| - 1)
      ensures old(mode) == Edit && !shift ==>
        State() == old(State()).(editItem := |old(data)[old(editSeries)]| - 1)
      ensures old(mode) == Normal ==> State() == old(State())
    {
      if mode == Edit {
        if shift {
          editSeries := |data| - 1;
        } else {
          editItem := |data[editSeries]| - 1;
        }
      }
    }

    /** Space, in normal mode: back to zoom 1 with no pan. */
    method KeySpace()
      requires Valid()
      modifies this
      ensures Valid()
      ensures old(mode) == Normal ==> State() == old(State()).(pan := Origin, zoom := InitialZoom)
      ensures old(mode) == Edit ==> State() == old(State())
    {
      if mode == Normal {
        pan := Origin;
        zoom := InitialZoom;
      }
    }

    /** W, A, S, D in edit mode move the selected marker by one unit. The
        source indexes without a guard, so the selection must be a valid
        Python index into its series. */
    method MoveSelected(dx: int, dy: int)
      requires Valid()
      requires mode == Edit
      requires -|data[editSeries]| <= editItem < |data[editSeries]|
      modifies this
      ensures Valid()
      ensures var s := old(editSeries);
        var i := PyIndex(old(editItem), |old(data)[s]|);
        var p := old(data)[s][i];
        State() == old(State()).(data := old(data)[s := old(data)[s][i := Point(p.x + dx, p.y + dy)]])
    {
      var i := if editItem < 0 then |data[editSeries]| + editItem else editItem;
      var p := data[editSeries][i];
      data := data[editSeries := data[editSeries][i := Point(p.x + dx, p.y + dy)]];
    }

    method KeyW()
      requires Valid()
      requires mode == Edit ==> -|data[editSeries]| <= editItem < |data[editSeries]|
      modifies this
      ensures Valid()
      ensures old(mode) == Edit ==>
        var s := old(editSeries);
        var i := PyIndex(old(editItem), |old(data)[s]|);
        var p := old(data)[s][i];
        State() == old(State()).(data := old(data)[s := old(data)[s][i := Point(p.x, p.y - 1)]])
      ensures old(mode) == Normal ==> State() == old(State())
    {
      if mode == Edit {
        MoveSelected(0, -1);
      }
    }

    method KeyA()
      requires Valid()
      requires mode == Edit ==> -|data[editSeries]| <= editItem < |data[editSeries]|
      modifies this
      ensures Valid()
      ensures old(mode) == Edit ==>
        var s := old(editSeries);
        var i := PyIndex(old(editItem), |old(data)[s]|);
        var p := old(data)[s][i];
        State() == old(State()).(data := old(data)[s := old(data)[s][i := Point(p.x - 1, p.y)]])
      ensures old(mode) == Normal ==> State() == old(State())
    {
      if mode == Edit {
        MoveSelected(-1, 0);
      }
    }

    /** S moves the selected marker down in edit mode; in normal mode it
        saves the session to its file, which leaves the state as it is. */
    method KeyS()
      requires Valid()
      requires mode == Edit ==> -|data[editSeries]| <= editItem < |data[editSeries]|
      modifies this
      ensures Valid()
      ensures old(mode) == Edit ==>
        var s := old(editSeries);
        var i := PyIndex(old(editItem), |old(data)[s]|);
        var p := old(data)[s][i];
        State() == old(State()).(data := old(data)[s := old(data)[s][i := Point(p.x, p.y + 1)]])
      ensures old(mode) == Normal ==> State() == old(State())
    {
      if mode == Edit {
        MoveSelected(0, 1);
      }
    }

    method KeyD()
      requires Valid()
      requires mode == Edit ==> -|data[editSeries]| <= editItem < |data[editSeries]|
      modifies this
      ensures Valid()
      ensures old(mode) == Edit ==>
        var s := old(editSeries);
        var i := PyIndex(old(editItem), |old(data)[s]|);
        var p := old(data)[s][i];
        State() == old(State()).(data := old(data)[s := old(data)[s][i := Point(p.x + 1, p.y)]])
      ensures old(mode) == Normal ==> State() == old(State())
    {
      if mode == Edit {
        MoveSelected(1, 0);
      }
    }

    /** Delete, in edit mode. With Shift: remove the selected series when
        there are others (selecting the first marker of the one before it),
        or empty the only series in place; the style lists and the working
        series are left alone. Without Shift, in a non-empty series: remove
        the selected marker and select the one before it (or the first). */
    method KeyDelete(shift: bool)
      requires Valid()
      requires mode == Edit && !shift && data[editSeries] != [] ==>
        -|data[editSeries]| <= editItem < |data[editSeries]|
      modifies this
      ensures Valid()
      ensures old(mode) == Edit && shift && |old(data)| > 1 ==>
        State() == old(State()).(data := RemoveAt(old(data), old(editSeries)),
                                 editSeries := MaxInt(0, old(editSeries) - 1), editItem := 0)
      ensures old(mode) == Edit && shift && |old(data)| == 1 ==>
        State() == old(State()).(data := [[]], editItem := 0)
      ensures old(mode) == Edit && !shift && old(data)[old(editSeries)] != [] ==>
        var s := old(editSeries);
        State() == old(State()).(data := old(data)[s := RemoveAt(old(data)[s], PyIndex(old(editItem), |old(data)[s]|))],
                                 editItem := MaxInt(0, old(editItem) - 1))
      ensures old(mode) == Edit && !shift && old(data)[old(editSeries)] == [] ==> State() == old(State())
      ensures old(mode) == Normal ==> State() == old(State())
      // a marker deleted from a series that keeps markers leaves a valid selection
      ensures old(mode) == Edit && !shift && |old(data)[old(editSeries)]| >= 2 ==>
        0 <= editItem < |data[editSeries]|
    {
      if mode == Edit {
        if shift {
          if |data| > 1 {
            data := RemoveAt(data, editSeries);
            editSeries := MaxInt(0, editSeries - 1);
            editItem := 0;
          } else {
            data := [[]];
            editItem := 0;
          }
        } else if |data[editSeries]| > 0 {
          var i := if editItem < 0 then |data[editSeries]| + editItem else editItem;
          data := data[editSeries := RemoveAt(data[editSeries], i)];
          editItem := MaxInt(0, editItem - 1);
        }
      }
    }

    /** Key C, in normal mode: compute every marker's row (the export of the
        rows to files is not modelled). The divisions need non-degenerate
        axes as soon as some series has a marker. */
    method KeyC()
      requires Valid()
      requires mode == Normal ==> Resolvable(data, sizes, xAxis, yAxis)
      modifies this
      ensures Valid()
      ensures old(mode) == Normal ==>
        && State() == old(State()).(coords := coords)
        && |coords| == |data|
        && (forall k :: 0 <= k < |coords| ==> |coords[k]| == |data[k]|)
        && (forall k, i :: 0 <= k < |coords| && 0 <= i < |coords[k]| ==>
              coords[k][i] == Resolve(data[k][i], sizes[k], zoom, xAxis, yAxis))
      ensures old(mode) == Edit ==> State() == old(State())
    {
      if mode == Normal {
        coords := ComputeCoords(data, sizes, zoom, xAxis, yAxis);
      }
    }

    /** Key H, in any mode: show or hide the help overlay. */
    method KeyH()
      requires Valid()
      modifies this
      ensures Valid()
      ensures State() == old(State()).(showControls := !old(showControls))
    {
      showControls := !showControls;
    }
  }
}
