/** Calibration: the two reference axes and the conversion of every marker's
    global coordinate into a data value with its uncertainty (compute_coords). */
module Calibration {
  import opened View

  /** One reference axis, from its start point to its end point (global
      coordinates). The x axis fixes where data x = 0 and x = 1 lie, the
      y axis where data y = 0 and y = 1 lie. */
  datatype Axis = Axis(start: Point, end: Point)

  /** One exported row: the data value and its uncertainty for x and y. */
  datatype Row = Row(x: real, dx: real, y: real, dy: real)

  /** The placeholder axes before any capture: x from (0,0) to (100,0),
      y from (0,100) to (0,0). */
  const DefaultXAxis: Axis := Axis(Point(0, 0), Point(100, 0))
  const DefaultYAxis: Axis := Axis(Point(0, 100), Point(0, 0))

  function XSpan(xAxis: Axis): int { xAxis.end.x - xAxis.start.x }
  function YSpan(yAxis: Axis): int { yAxis.end.y - yAxis.start.y }

  /** The divisions of compute_coords are defined: neither axis is flat
      along the coordinate it calibrates. */
  predicate NonDegenerate(xAxis: Axis, yAxis: Axis) {
    XSpan(xAxis) != 0 && YSpan(yAxis) != 0
  }

  function Max(a: real, b: real): real { if a < b then b else a }

  /** The on-screen radius of a marker, at least one pixel: the uncertainty
      before it is expressed in axis units. */
  function Radius(size: real, zoom: real): (r: real)
    ensures r >= 1.0 && r >= size * zoom
    ensures r == 1.0 || r == size * zoom
  {
    Max(1.0, size * zoom)
  }

  /** The row for one marker. The value is the marker's offset from the axis
      start in units of the axis length; the uncertainty is the marker's
      radius in the same units, with its sign flipped for y. */
  function Resolve(p: Point, size: real, zoom: real, xAxis: Axis, yAxis: Axis): (r: Row)
    requires NonDegenerate(xAxis, yAxis)
    ensures r.x * XSpan(xAxis) as real == (p.x - xAxis.start.x) as real
    ensures r.y * YSpan(yAxis) as real == (p.y - yAxis.start.y) as real
    ensures r.dx * XSpan(xAxis) as real == Radius(size, zoom)
    ensures r.dy * YSpan(yAxis) as real == -Radius(size, zoom)
  {
    Row((p.x - xAxis.start.x) as real / XSpan(xAxis) as real,
        Radius(size, zoom) / XSpan(xAxis) as real,
        (p.y - yAxis.start.y) as real / YSpan(yAxis) as real,
        -Radius(size, zoom) / YSpan(yAxis) as real)
  }

  /** compute_coords can run: it divides only when it reaches a marker, so
      flat axes are harmless while every series it visits is empty. */
  predicate Resolvable(data: seq<seq<Point>>, sizes: seq<real>, xAxis: Axis, yAxis: Axis) {
    NonDegenerate(xAxis, yAxis) || forall k :: 0 <= k < |data| && k < |sizes| ==> data[k] == []
  }

  function Min(a: int, b: int): int { if a < b then a else b }

  /** compute_coords: one array per (series, size) pair of zip(data, sizes),
      one row per marker of that series, in the series' order. */
  method ComputeCoords(data: seq<seq<Point>>, sizes: seq<real>, zoom: real, xAxis: Axis, yAxis: Axis)
    returns (coords: seq<seq<Row>>)
    requires Resolvable(data, sizes, xAxis, yAxis)
    ensures |coords| == Min(|data|, |sizes|)
    ensures forall k :: 0 <= k < |coords| ==> |coords[k]| == |data[k]|
    ensures forall k, i :: 0 <= k < |coords| && 0 <= i < |coords[k]| ==>
      coords[k][i] == Resolve(data[k][i], sizes[k], zoom, xAxis, yAxis)
  {
    coords := [];
    var k := 0;
    while k < |data| && k < |sizes|
      invariant 0 <= k <= Min(|data|, |sizes|)
      invariant |coords| == k
      invariant forall j :: 0 <= j < k ==> |coords[j]| == |data[j]|
      invariant forall j, i :: 0 <= j < k && 0 <= i < |coords[j]| ==>
        coords[j][i] == Resolve(data[j][i], sizes[j], zoom, xAxis, yAxis)
    {
      var series := data[k];
      var rows: seq<Row> := [];
      var i := 0;
      while i < |series|
        invariant 0 <= i <= |series|
        invariant |rows| == i
        invariant forall j :: 0 <= j < i ==> rows[j] == Resolve(series[j], sizes[k], zoom, xAxis, yAxis)
      {
        assert data[k] != [];
        rows := rows + [Resolve(series[i], sizes[k], zoom, xAxis, yAxis)];
        i := i + 1;
      }
      coords := coords + [rows];
      k := k + 1;
    }
  }

  /** The calibration's meaning: the axis start maps to 0 and the axis end
      to 1, on both axes. */
  lemma AxisEndsMapToZeroAndOne(size: real, zoom: real, xAxis: Axis, yAxis: Axis)
    requires NonDegenerate(xAxis, yAxis)
    ensures Resolve(Point(xAxis.start.x, yAxis.start.y), size, zoom, xAxis, yAxis).x == 0.0
    ensures Resolve(Point(xAxis.start.x, yAxis.start.y), size, zoom, xAxis, yAxis).y == 0.0
    ensures Resolve(Point(xAxis.end.x, yAxis.end.y), size, zoom, xAxis, yAxis).x == 1.0
    ensures Resolve(Point(xAxis.end.x, yAxis.end.y), size, zoom, xAxis, yAxis).y == 1.0
  {
  }

  /** Values are affine in the marker position: moving a marker by d along x
      changes its x value by d / span and nothing else in its row. */
  lemma {:induction false} ResolveIsAffine(p: Point, d: int, size: real, zoom: real, xAxis: Axis, yAxis: Axis)
    requires NonDegenerate(xAxis, yAxis)
    ensures var a := Resolve(p, size, zoom, xAxis, yAxis);
      var b := Resolve(Point(p.x + d, p.y), size, zoom, xAxis, yAxis);
      (b.x - a.x) * XSpan(xAxis) as real == d as real && b.y == a.y && b.dx == a.dx && b.dy == a.dy
  {
    var a := Resolve(p, size, zoom, xAxis, yAxis);
    var b := Resolve(Point(p.x + d, p.y), size, zoom, xAxis, yAxis);
    var w := XSpan(xAxis) as real;
    assert b.x * w - a.x * w == d as real;
    assert (b.x - a.x) * w == b.x * w - a.x * w;
  }

  /** The uncertainty has the sign of the x span and the opposite sign of the
      y span; with the y axis drawn upward on screen (end above start) both
      uncertainties are positive. */
  lemma {:induction false} UncertaintySigns(p: Point, size: real, zoom: real, xAxis: Axis, yAxis: Axis)
    requires NonDegenerate(xAxis, yAxis)
    ensures XSpan(xAxis) > 0 ==> Resolve(p, size, zoom, xAxis, yAxis).dx > 0.0
    ensures XSpan(xAxis) < 0 ==> Resolve(p, size, zoom, xAxis, yAxis).dx < 0.0
    ensures YSpan(yAxis) < 0 ==> Resolve(p, size, zoom, xAxis, yAxis).dy > 0.0
    ensures YSpan(yAxis) > 0 ==> Resolve(p, size, zoom, xAxis, yAxis).dy < 0.0
  {
    var r := Resolve(p, size, zoom, xAxis, yAxis);
    var rad := Radius(size, zoom);
    assert r.dx * XSpan(xAxis) as real == rad && rad > 0.0;
    assert r.dy * YSpan(yAxis) as real == -rad;
  }

  /** Once the marker covers more than a pixel, its uncertainty is
      proportional to the zoom current at export time. */
  lemma {:induction false} UncertaintyScalesWithZoom(p: Point, size: real, zoom: real, k: real, xAxis: Axis, yAxis: Axis)
    requires NonDegenerate(xAxis, yAxis)
    requires size * zoom >= 1.0 && k >= 1.0
    ensures Resolve(p, size, zoom * k, xAxis, yAxis).dx == k * Resolve(p, size, zoom, xAxis, yAxis).dx
    ensures Resolve(p, size, zoom * k, xAxis, yAxis).dy == k * Resolve(p, size, zoom, xAxis, yAxis).dy
  {
    var w := XSpan(xAxis) as real;
    var h := YSpan(yAxis) as real;
    assert size * zoom >= 0.0;
    assert size * (zoom * k) == (size * zoom) * k;
    assert (size * zoom) * k >= size * zoom;
    assert Radius(size, zoom * k) == k * Radius(size, zoom);
    assert (k * Radius(size, zoom)) / w == k * (Radius(size, zoom) / w);
    assert -(k * Radius(size, zoom)) / h == k * (-Radius(size, zoom) / h);
  }

  /** The worked example: default axes, a marker at (50, 50) of size 5 at
      zoom 1 gives x = 0.5 +- 0.05 and y = 0.5 +- 0.05; at zoom 2 the
      uncertainties double. */
  lemma DefaultAxesExample()
    ensures Resolve(Point(50, 50), 5.0, 1.0, DefaultXAxis, DefaultYAxis) == Row(0.5, 0.05, 0.5, 0.05)
    ensures Resolve(Point(50, 50), 5.0, 2.0, DefaultXAxis, DefaultYAxis) == Row(0.5, 0.1, 0.5, 0.1)
  {
  }
}
