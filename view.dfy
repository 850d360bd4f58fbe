/** Screen positions, global coordinates and the view (zoom factor and pan
    offset) that maps one onto the other. Every position the digitiser stores
    is an integer pair: a screen position in pixels, or a global coordinate
    that equals the screen position at zoom 1 with no pan. */
module View {

  /** An integer pair: a screen position or a global coordinate. */
  datatype Point = Point(x: int, y: int)

  /** The pan offset: the global coordinate (scaled by the zoom) of the top
      left corner of the screen. The zoom starts at 1 and moves in exact
      tenths, so every arrow step of 100 * zoom is whole and the pan stays
      integral here; it is a real because the conversions divide by the
      zoom and may be given any pan. */
  datatype Offset = Offset(x: real, y: real)

  datatype Direction = Up | Down | Left | Right

  const Origin: Offset := Offset(0.0, 0.0)
  const InitialZoom: real := 1.0
  /** An arrow key scrolls the view by this many global units. */
  const PanUnits: real := 100.0

  function Abs(r: real): real { if r < 0.0 then -r else r }

  /** n is r truncated toward zero: the integer nearest r on the side of 0. */
  ghost predicate TruncatesTo(r: real, n: int) {
    Abs(n as real - r) < 1.0 && Abs(n as real) <= Abs(r)
  }

  /** Python's int() on a float: truncation toward zero. */
  function Trunc(r: real): (n: int)
    ensures TruncatesTo(r, n)
  {
    if r >= 0.0 then r.Floor else -((-r).Floor)
  }

  lemma TruncatesToIsUnique(r: real, n: int, m: int)
    requires TruncatesTo(r, n) && TruncatesTo(r, m)
    ensures n == m
  {
  }

  lemma TruncOfInteger(n: int)
    ensures Trunc(n as real) == n
  {
    TruncatesToIsUnique(n as real, n, Trunc(n as real));
  }

  /** One coordinate of gcoord_to_pos. */
  function ToScreen(c: int, zoom: real, p: real): (s: int)
    ensures TruncatesTo(c as real * zoom - p, s)
  {
    Trunc(c as real * zoom - p)
  }

  /** One coordinate of pos_to_gcoord. */
  function ToGlobal(s: int, zoom: real, p: real): (c: int)
    requires zoom != 0.0
    ensures TruncatesTo((s as real + p) / zoom, c)
  {
    Trunc((s as real + p) / zoom)
  }

  /** gcoord_to_pos: screen = global * zoom - pan, each coordinate truncated. */
  function GCoordToPos(g: Point, zoom: real, pan: Offset): (pos: Point)
    ensures TruncatesTo(g.x as real * zoom - pan.x, pos.x)
    ensures TruncatesTo(g.y as real * zoom - pan.y, pos.y)
  {
    Point(ToScreen(g.x, zoom, pan.x), ToScreen(g.y, zoom, pan.y))
  }

  /** pos_to_gcoord: global = (screen + pan) / zoom, each coordinate truncated.
      A zero zoom makes the source raise ZeroDivisionError. */
  function PosToGCoord(pos: Point, zoom: real, pan: Offset): (g: Point)
    requires zoom != 0.0
    ensures TruncatesTo((pos.x as real + pan.x) / zoom, g.x)
    ensures TruncatesTo((pos.y as real + pan.y) / zoom, g.y)
  {
    Point(ToGlobal(pos.x, zoom, pan.x), ToGlobal(pos.y, zoom, pan.y))
  }

  /** An arrow key moves the pan offset by 100 * zoom along one coordinate:
      100 global units, whatever the zoom. */
  function PanBy(pan: Offset, zoom: real, dir: Direction): (r: Offset)
    ensures dir.Up? || dir.Down? ==> r.x == pan.x && Abs(r.y - pan.y) == Abs(PanUnits * zoom)
    ensures dir.Left? || dir.Right? ==> r.y == pan.y && Abs(r.x - pan.x) == Abs(PanUnits * zoom)
    ensures zoom > 0.0 ==>
      (dir.Up? ==> r.y < pan.y) && (dir.Down? ==> r.y > pan.y) &&
      (dir.Left? ==> r.x < pan.x) && (dir.Right? ==> r.x > pan.x)
  {
    match dir
    case Up => Offset(pan.x, pan.y - PanUnits * zoom)
    case Down => Offset(pan.x, pan.y + PanUnits * zoom)
    case Right => Offset(pan.x + PanUnits * zoom, pan.y)
    case Left => Offset(pan.x - PanUnits * zoom, pan.y)
  }

  /** Ctrl + wheel: one notch changes the zoom by a tenth, never below 0. */
  function ZoomBy(zoom: real, notches: int): (r: real)
    ensures r >= 0.0
    ensures zoom + notches as real / 10.0 >= 0.0 ==> r == zoom + notches as real / 10.0
    ensures zoom + notches as real / 10.0 < 0.0 ==> r == 0.0
  {
    if zoom + notches as real / 10.0 < 0.0 then 0.0 else zoom + notches as real / 10.0
  }

  /** Screen -> global -> screen is the identity at zoom 1 under any pan with
      integral components (the pan is always integral, since every arrow step
      is 100 * zoom with the zoom a whole number of tenths). */
  lemma ScreenRoundTripAtUnitZoom(pos: Point, a: int, b: int)
    ensures GCoordToPos(PosToGCoord(pos, 1.0, Offset(a as real, b as real)), 1.0, Offset(a as real, b as real)) == pos
  {
    var pan := Offset(a as real, b as real);
    var g := PosToGCoord(pos, 1.0, pan);
    TruncOfInteger(pos.x + a);
    TruncOfInteger(pos.y + b);
    assert g == Point(pos.x + a, pos.y + b);
    TruncOfInteger(pos.x);
    TruncOfInteger(pos.y);
  }

  /** Global -> screen -> global is the identity at zoom 1 with no pan. */
  lemma GlobalRoundTripAtIdentityView(g: Point)
    ensures PosToGCoord(GCoordToPos(g, InitialZoom, Origin), InitialZoom, Origin) == g
  {
    TruncOfInteger(g.x);
    TruncOfInteger(g.y);
  }

  lemma TruncIsClose(r: real)
    ensures -1.0 < Trunc(r) as real - r < 1.0
  {
  }

  /** Dividing an error below one unit by a positive zoom. */
  lemma ScaledErrorBound(e: real, zoom: real)
    requires zoom > 0.0 && -1.0 < e < 1.0
    ensures -1.0 / zoom < e / zoom < 1.0 / zoom
  {
    assert (e + 1.0) / zoom == e / zoom + 1.0 / zoom;
    assert (1.0 - e) / zoom == 1.0 / zoom - e / zoom;
  }

  lemma DivideShifted(a: real, c: real, zoom: real)
    requires zoom != 0.0
    ensures a / zoom - c == (a - c * zoom) / zoom
  {
  }

  /** One coordinate of global -> screen -> global: the error is below
      1 + 1/zoom (one unit from each truncation, the first one magnified by
      the division by the zoom). */
  lemma AxisRoundTripError(c: int, zoom: real, p: real)
    requires zoom > 0.0
    ensures Abs((ToGlobal(ToScreen(c, zoom, p), zoom, p) - c) as real) < 1.0 + 1.0 / zoom
  {
    var s := ToScreen(c, zoom, p);
    TruncIsClose(c as real * zoom - p);
    var e := s as real + p - c as real * zoom;
    var q := (s as real + p) / zoom;
    DivideShifted(s as real + p, c as real, zoom);
    assert q - c as real == e / zoom;
    ScaledErrorBound(e, zoom);
    TruncIsClose(q);
  }

  /** Global -> screen -> global under any positive zoom and any pan. */
  lemma GlobalRoundTripError(g: Point, zoom: real, pan: Offset)
    requires zoom > 0.0
    ensures Abs((PosToGCoord(GCoordToPos(g, zoom, pan), zoom, pan).x - g.x) as real) < 1.0 + 1.0 / zoom
    ensures Abs((PosToGCoord(GCoordToPos(g, zoom, pan), zoom, pan).y - g.y) as real) < 1.0 + 1.0 / zoom
  {
    AxisRoundTripError(g.x, zoom, pan.x);
    AxisRoundTripError(g.y, zoom, pan.y);
  }

  /** From zoom 1 upward the round trip is off by at most one unit. */
  lemma GlobalRoundTripWithinOne(g: Point, zoom: real, pan: Offset)
    requires zoom >= 1.0
    ensures -1 <= PosToGCoord(GCoordToPos(g, zoom, pan), zoom, pan).x - g.x <= 1
    ensures -1 <= PosToGCoord(GCoordToPos(g, zoom, pan), zoom, pan).y - g.y <= 1
  {
    GlobalRoundTripError(g, zoom, pan);
    assert 1.0 / zoom <= 1.0;
  }

  /** Below zoom 1 the error exceeds one unit: at zoom 0.1 the marker (5, 5)
      lands on screen pixel (0, 0) and comes back as (0, 0). */
  lemma GlobalRoundTripLossyBelowUnitZoom()
    ensures PosToGCoord(GCoordToPos(Point(5, 5), 0.1, Origin), 0.1, Origin) == Point(0, 0)
  {
    assert GCoordToPos(Point(5, 5), 0.1, Origin) == Point(0, 0);
  }

  /** One step right moves every projected point 100 * zoom pixels to the
      left on screen, up to the pixel that truncation toward zero loses. */
  lemma PanRightShiftsScreen(g: Point, zoom: real, pan: Offset)
    ensures var before := GCoordToPos(g, zoom, pan);
      var after := GCoordToPos(g, zoom, PanBy(pan, zoom, Right));
      after.y == before.y && Abs((after.x - before.x) as real + PanUnits * zoom) < 2.0
  {
    var r := g.x as real * zoom - pan.x;
    TruncIsClose(r);
    TruncIsClose(g.x as real * zoom - (pan.x + PanUnits * zoom));
  }
}
